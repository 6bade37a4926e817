/**
 The services read a list of copies, change each copy and write it back by id. These lemmas say what the
 stored sequence is once a prefix of the list has been written back.
 */
module Writeback {
  import opened Types
  import opened Zones
  import opened Monitors
  import opened Interlocks
  import opened Alerts
  import opened State

  // The copies written back so far.
  ghost function Elements<T(!new)>(s: seq<T>): set<T> {
    set x | x in s
  }

  lemma ElementsExtend<T(!new)>(s: seq<T>, i: nat)
    requires i < |s|
    ensures Elements(s[..i + 1]) == Elements(s[..i]) + {s[i]}
  {
    assert s[..i + 1] == s[..i] + [s[i]];
  }

  lemma ElementsEnds<T(!new)>(s: seq<T>)
    ensures Elements(s[..0]) == {} && s[..|s|] == s
    ensures forall x :: x in Elements(s) <==> x in s
  {
    assert s[..|s|] == s;
  }

  // ---- Zones moved to a status ----------------------------------------------------------------

  function Moved(z: CleanZone, to: ZoneStatus, now: Time): CleanZone {
    if CanTransition(z.status, to) then z.SetStatus(to, now) else z
  }

  function ZonesMoved(zs: seq<CleanZone>, done: set<CleanZone>, to: ZoneStatus, now: Time): seq<CleanZone> {
    seq(|zs|, i requires 0 <= i < |zs| => if zs[i] in done then Moved(zs[i], to, now) else zs[i])
  }

  lemma MovedStaysValid(zs: seq<CleanZone>, z: CleanZone, to: ZoneStatus, now: Time)
    requires ZonesValid(zs) && z in zs
    ensures Moved(z, to, now).Valid()
  {
    assert z.Valid();
    hide ZonesValid;
  }

  lemma ZoneWritten(zs: seq<CleanZone>, done: set<CleanZone>, z: CleanZone, to: ZoneStatus, now: Time)
    requires UniqueZones(zs) && z in zs
    ensures PutZone(ZonesMoved(zs, done, to, now), Moved(z, to, now)) == ZonesMoved(zs, done + {z}, to, now)
    ensures Moved(z, to, now) == z ==> ZonesMoved(zs, done, to, now) == ZonesMoved(zs, done + {z}, to, now)
    ensures FindZone(ZonesMoved(zs, done, to, now), z.id).Some?
  {
    hide CanTransition, ZoneIndex;
    var k :| 0 <= k < |zs| && zs[k] == z;
    var current, next := ZonesMoved(zs, done, to, now), ZonesMoved(zs, done + {z}, to, now);
    MovedIndex(zs, done, k, to, now);
    forall i | 0 <= i < |zs|
      ensures next[i] == if i == k then Moved(z, to, now) else current[i]
    {
      assert i != k ==> zs[i] != z;
    }
    hide UniqueZones, Moved;
    assert next == current[k := Moved(z, to, now)];
  }

  lemma MovedIndex(zs: seq<CleanZone>, done: set<CleanZone>, k: nat, to: ZoneStatus, now: Time)
    requires UniqueZones(zs) && k < |zs|
    ensures Moved(zs[k], to, now).id == zs[k].id
    ensures ZoneIndex(ZonesMoved(zs, done, to, now), zs[k].id) == k
  {
    hide CanTransition;
    var current := ZonesMoved(zs, done, to, now);
    assert forall i :: 0 <= i < |zs| ==> current[i].id == zs[i].id;
    hide ZonesMoved;
    assert current[k].id == zs[k].id;
  }

  // ---- Logs closed ----------------------------------------------------------------------------

  function LogsClosed(logs: seq<InterlockLog>, done: set<InterlockLog>, area: string, operator: string, note: string,
                      now: Time): seq<InterlockLog> {
    seq(|logs|, i requires 0 <= i < |logs| =>
      if logs[i] in done then CloseOne(logs[i], area, operator, note, now) else logs[i])
  }

  lemma LogWritten(logs: seq<InterlockLog>, done: set<InterlockLog>, l: InterlockLog, area: string,
                   operator: string, note: string, now: Time)
    requires UniqueLogs(logs) && l in logs
    ensures var closed := CloseOne(l, area, operator, note, now);
            var before, after := LogsClosed(logs, done, area, operator, note, now), LogsClosed(logs, done + {l}, area, operator, note, now);
            && PutLog(before, closed) == after
            && (closed == l ==> before == after)
            && FindLog(before, closed.id).Some?
  {
    var k :| 0 <= k < |logs| && logs[k] == l;
    assert LogsClosed(logs, done, area, operator, note, now)[k].id == l.id;
    assert LogIndex(LogsClosed(logs, done, area, operator, note, now), l.id) == k;
  }

  // ---- Alerts resolved and escalated ----------------------------------------------------------

  function AlertsResolved(s: seq<CleanAlert>, done: set<CleanAlert>, now: Time): seq<CleanAlert> {
    seq(|s|, i requires 0 <= i < |s| => if s[i] in done then Resolved(s[i], now) else s[i])
  }

  lemma ResolvedWritten(s: seq<CleanAlert>, done: set<CleanAlert>, a: CleanAlert, now: Time)
    requires UniqueAlerts(s) && a in s
    ensures var before, after := AlertsResolved(s, done, now), AlertsResolved(s, done + {a}, now);
            && PutAlert(before, Resolved(a, now)) == after
            && (Resolved(a, now) == a ==> before == after)
            && FindAlert(before, a.id).Some?
  {
    var k :| 0 <= k < |s| && s[k] == a;
    assert AlertsResolved(s, done, now)[k].id == a.id;
    assert AlertIndex(AlertsResolved(s, done, now), a.id) == k;
  }

  function AlertsEscalated(s: seq<CleanAlert>, done: set<CleanAlert>, now: Time): seq<CleanAlert> {
    seq(|s|, i requires 0 <= i < |s| => if s[i] in done then s[i].Escalate(now) else s[i])
  }

  // The alert found under the id may already be escalated; escalating it again changes nothing.
  lemma EscalatedWritten(s: seq<CleanAlert>, done: set<CleanAlert>, a: CleanAlert, now: Time)
    requires UniqueAlerts(s) && a in s
    ensures var before, after := AlertsEscalated(s, done, now), AlertsEscalated(s, done + {a}, now);
            FindAlert(before, a.id).Some? && PutAlert(before, FindAlert(before, a.id).value.Escalate(now)) == after
  {
    var k :| 0 <= k < |s| && s[k] == a;
    assert AlertsEscalated(s, done, now)[k].id == a.id;
    assert AlertIndex(AlertsEscalated(s, done, now), a.id) == k;
  }

  // ---- Monitor zones ventilated ---------------------------------------------------------------

  lemma VentilatedStaysValid(m: MonitorZone, level: int, now: Time)
    requires m.Valid() && level >= 0
    ensures Ventilated(m, level, now).Valid()
  {
  }

  // The first n monitor zones have been commanded.
  function VentilatedUpTo(ms: seq<MonitorZone>, n: nat, zs: seq<CleanZone>, area: string, level: int, now: Time): seq<MonitorZone> {
    seq(|ms|, i requires 0 <= i < |ms| =>
      if i < n && Serves(zs, ms[i].zoneId, area) then Ventilated(ms[i], level, now) else ms[i])
  }

  lemma MonitorWritten(ms: seq<MonitorZone>, n: nat, zs: seq<CleanZone>, area: string, level: int, now: Time)
    requires UniqueMonitors(ms) && MonitorsValid(ms) && n < |ms| && level >= 1
    ensures var before := VentilatedUpTo(ms, n, zs, area, level, now);
            var after := VentilatedUpTo(ms, n + 1, zs, area, level, now);
            && (Serves(zs, ms[n].zoneId, area) ==> PutMonitor(before, Ventilated(ms[n], level, now)) == after)
            && (!Serves(zs, ms[n].zoneId, area) ==> before == after)
            && FindMonitor(before, ms[n].id).Some?
    ensures Ventilated(ms[n], level, now).Valid() && Ventilated(ms[n], level, now).id == ms[n].id
  {
    assert ms[n].Valid();
    VentilatedStaysValid(ms[n], level, now);
    hide MonitorZone.Valid, Serves;
    assert VentilatedUpTo(ms, n, zs, area, level, now)[n].id == ms[n].id;
    assert MonitorIndex(VentilatedUpTo(ms, n, zs, area, level, now), ms[n].id) == n;
  }
}
