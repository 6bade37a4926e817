/** Physical areas do not influence one another: what happens elsewhere leaves an area exactly as it would be. */
module AreaIndependence {
  import opened Types
  import opened Config
  import opened Zones
  import opened Monitors
  import opened Interlocks
  import opened State
  import opened WellFormedness
  import opened Runs
  import opened Plants
  import opened InterlockInvariants
  import opened Evolution
  import opened InterlockTheorems
  import opened Inert

  // ---- Two states that agree on an area -----------------------------------------------------------

  // The logs of an area, their ids left aside.
  function AreaLogs(logs: seq<InterlockLog>, area: string): seq<InterlockLog> {
    if logs == [] then []
    else
      var front, last := logs[..|logs| - 1], logs[|logs| - 1];
      if last.area == area then AreaLogs(front, area) + [last.(id := "")] else AreaLogs(front, area)
  }

  ghost predicate ZonesSame(a: seq<CleanZone>, b: seq<CleanZone>, area: string) {
    SameLayout(a, b) && forall i :: 0 <= i < |a| && a[i].area == area ==> b[i] == a[i]
  }

  ghost predicate MonitorsSame(zs: seq<CleanZone>, a: seq<MonitorZone>, b: seq<MonitorZone>, area: string) {
    |a| == |b| && forall i :: 0 <= i < |a| ==>
      && a[i].id == b[i].id && a[i].zoneId == b[i].zoneId && a[i].counterId == b[i].counterId
      && (Serves(zs, a[i].zoneId, area) ==> b[i] == a[i])
  }

  // The same zones, monitor zones and logs in the area; elsewhere only the same zones and monitor zones by id.
  ghost predicate AreaSame(a: State, b: State, area: string) {
    && ZonesSame(a.zones, b.zones, area)
    && MonitorsSame(a.zones, a.monitors, b.monitors, area)
    && AreaLogs(a.logs, area) == AreaLogs(b.logs, area)
    && Issued(a.seqs, ZONE_IDS) == Issued(b.seqs, ZONE_IDS) && Issued(a.seqs, MONITOR_IDS) == Issued(b.seqs, MONITOR_IDS)
  }

  lemma LayoutServes(a: seq<CleanZone>, b: seq<CleanZone>)
    requires SameLayout(a, b)
    ensures forall id :: ZoneIndex(a, id) == ZoneIndex(b, id)
    ensures forall id, area :: Serves(a, id, area) == Serves(b, id, area)
  {
    SameIndex(a, b);
    hide ZoneIndex;
  }

  lemma SameItself(st: State, area: string)
    ensures AreaSame(st, st, area)
  {
  }

  lemma SameBack(a: State, b: State, area: string)
    requires AreaSame(a, b, area)
    ensures AreaSame(b, a, area)
  {
    LayoutServes(a.zones, b.zones);
    hide Serves, AreaLogs;
  }

  lemma SameThrough(a: State, b: State, c: State, area: string)
    requires AreaSame(a, b, area) && AreaSame(b, c, area)
    ensures AreaSame(a, c, area)
  {
    LayoutServes(a.zones, b.zones);
    hide Serves, AreaLogs;
  }

  lemma SamePlant(a: State, b: State, c: State, area: string)
    requires AreaSame(a, b, area) && PlantOf(b) == PlantOf(c)
    ensures AreaSame(a, c, area)
  {
    hide Serves, AreaLogs, ZonesSame;
  }

  lemma LogsAppend(logs: seq<InterlockLog>, l: InterlockLog, area: string)
    ensures AreaLogs(logs + [l], area) == if l.area == area then AreaLogs(logs, area) + [l.(id := "")] else AreaLogs(logs, area)
  {
    assert (logs + [l])[..|logs|] == logs;
  }

  lemma {:induction false} InAreaSame(a: seq<CleanZone>, b: seq<CleanZone>, area: string)
    requires ZonesSame(a, b, area)
    ensures InArea(a, area) == InArea(b, area)
  {
    if a != [] {
      InAreaSame(a[..|a| - 1], b[..|b| - 1], area);
    }
  }

  // ---- Issuing ------------------------------------------------------------------------------------

  /** An interlock of another area leaves this one alone. */
  lemma IssueElsewhere(st: State, z: CleanZone, trigger: string, reason: string, ratio: real, now: Time, area: string)
    requires z.area != area
    ensures AreaSame(st, IssueFor(st, z, trigger, reason, ratio, now), area)
  {
    hide InArea, ZoneIds, NextId, LevelForRatio, AreaLogs, ZoneIndex;
    LogsAppend(st.logs, LogFor(st, z, trigger, reason, ratio, now), area);
  }

  lemma IssueHere(a: State, b: State, z: CleanZone, trigger: string, reason: string, ratio: real, now: Time)
    requires AreaSame(a, b, z.area)
    ensures AreaSame(IssueFor(a, z, trigger, reason, ratio, now), IssueFor(b, z, trigger, reason, ratio, now), z.area)
  {
    hide AreaLogs, ZonesSame, MonitorsSame, InterlockArea, Ventilate, NextId, LevelForRatio, InArea, ZoneIds;
    InAreaSame(a.zones, b.zones, z.area);
    LogsAppend(a.logs, LogFor(a, z, trigger, reason, ratio, now), z.area);
    LogsAppend(b.logs, LogFor(b, z, trigger, reason, ratio, now), z.area);
    InterlockSame(a.zones, b.zones, z.area, now);
    VentilateSame(a.zones, b.zones, a.monitors, b.monitors, z.area, LevelForRatio(ratio), now);
  }

  lemma InterlockSame(a: seq<CleanZone>, b: seq<CleanZone>, area: string, now: Time)
    requires ZonesSame(a, b, area)
    ensures ZonesSame(InterlockArea(a, area, now), InterlockArea(b, area, now), area)
  {
  }

  lemma VentilateSame(a: seq<CleanZone>, b: seq<CleanZone>, ms: seq<MonitorZone>, ns: seq<MonitorZone>, area: string, level: int, now: Time)
    requires ZonesSame(a, b, area) && MonitorsSame(a, ms, ns, area)
    ensures MonitorsSame(InterlockArea(a, area, now), Ventilate(ms, a, area, level, now), Ventilate(ns, b, area, level, now), area)
  {
    LayoutServes(a, b);
    LayoutServes(a, InterlockArea(a, area, now));
    hide Serves;
  }

  lemma FoundSame(a: State, b: State, area: string, id: string)
    requires AreaSame(a, b, area)
    ensures FindZone(a.zones, id).Some? == FindZone(b.zones, id).Some?
    ensures FindZone(a.zones, id).Some? ==> FindZone(a.zones, id).value.area == FindZone(b.zones, id).value.area
    ensures FindZone(a.zones, id).Some? && FindZone(a.zones, id).value.area == area ==> FindZone(a.zones, id) == FindZone(b.zones, id)
  {
    hide MonitorsSame, AreaLogs, ZoneIndex;
    LayoutServes(a.zones, b.zones);
  }

  lemma IssueSame(a: State, b: State, zoneId: string, trigger: string, reason: string, ratio: real, now: Time, area: string)
    requires AreaSame(a, b, area)
    ensures AreaSame(Issue(a, zoneId, trigger, reason, ratio, now).0, Issue(b, zoneId, trigger, reason, ratio, now).0, area)
  {
    hide AreaSame, IssueFor, FindZone, LogFor;
    FoundSame(a, b, area, zoneId);
    var z, y := FindZone(a.zones, zoneId), FindZone(b.zones, zoneId);
    if z.Some? && z.value.area == area {
      IssueHere(a, b, z.value, trigger, reason, ratio, now);
    } else if z.Some? {
      IssueElsewhere(a, z.value, trigger, reason, ratio, now, area);
      IssueElsewhere(b, y.value, trigger, reason, ratio, now, area);
      BothElsewhere(a, b, IssueFor(a, z.value, trigger, reason, ratio, now), IssueFor(b, y.value, trigger, reason, ratio, now), area);
    }
  }

  lemma BothElsewhere(a: State, b: State, c: State, d: State, area: string)
    requires AreaSame(a, b, area) && AreaSame(a, c, area) && AreaSame(b, d, area)
    ensures AreaSame(c, d, area)
  {
    hide AreaSame;
    SameBack(a, c, area);
    SameThrough(c, a, b, area);
    SameThrough(c, b, d, area);
  }

  // ---- Restoring ----------------------------------------------------------------------------------

  lemma CloseUnfolds(logs: seq<InterlockLog>, l: InterlockLog, area: string, operator: string, note: string, now: Time)
    ensures CloseArea(logs + [l], area, operator, note, now) ==
            CloseArea(logs, area, operator, note, now) + [CloseOne(l, area, operator, note, now)]
  {
  }

  lemma {:induction false} CloseSame(logs: seq<InterlockLog>, closed: string, operator: string, note: string, now: Time, area: string)
    ensures AreaLogs(CloseArea(logs, closed, operator, note, now), area) ==
            CloseArea(AreaLogs(logs, area), closed, operator, note, now)
  {
    hide AreaLogs, CloseArea, CloseOne;
    if logs == [] {
      NothingClosed(closed, operator, note, now, area);
    } else {
      var front, last := logs[..|logs| - 1], logs[|logs| - 1];
      CloseSame(front, closed, operator, note, now, area);
      assert logs == front + [last];
      CloseUnfolds(front, last, closed, operator, note, now);
      LogsAppend(CloseArea(front, closed, operator, note, now), CloseOne(last, closed, operator, note, now), area);
      LogsAppend(front, last, area);
      CloseUnfolds(AreaLogs(front, area), last.(id := ""), closed, operator, note, now);
      ClosedAlike(last, closed, operator, note, now);
    }
  }

  lemma NothingClosed(closed: string, operator: string, note: string, now: Time, area: string)
    ensures CloseArea([], closed, operator, note, now) == [] && AreaLogs([], area) == []
  {
  }

  lemma ClosedAlike(l: InterlockLog, closed: string, operator: string, note: string, now: Time)
    ensures CloseOne(l.(id := ""), closed, operator, note, now) == CloseOne(l, closed, operator, note, now).(id := "")
    ensures CloseOne(l, closed, operator, note, now).area == l.area
  {
  }

  lemma {:induction false} CloseElsewhere(logs: seq<InterlockLog>, closed: string, operator: string, note: string, now: Time, area: string)
    requires closed != area
    ensures AreaLogs(CloseArea(logs, closed, operator, note, now), area) == AreaLogs(logs, area)
  {
    hide AreaLogs, CloseArea;
    if logs == [] {
      NothingClosed(closed, operator, note, now, area);
    } else {
      var front, last := logs[..|logs| - 1], logs[|logs| - 1];
      CloseElsewhere(front, closed, operator, note, now, area);
      assert logs == front + [last];
      CloseUnfolds(front, last, closed, operator, note, now);
      LogsAppend(CloseArea(front, closed, operator, note, now), CloseOne(last, closed, operator, note, now), area);
      LogsAppend(front, last, area);
    }
  }

  lemma RestoredElsewhere(st: State, other: string, operator: string, note: string, now: Time, area: string)
    requires other != area
    ensures AreaSame(st, st.(zones := RestoreArea(st.zones, other, now), logs := CloseArea(st.logs, other, operator, note, now)), area)
  {
    CloseElsewhere(st.logs, other, operator, note, now, area);
    hide AreaLogs, CloseArea, Serves;
  }

  lemma RestoredHere(a: State, b: State, operator: string, note: string, now: Time, area: string)
    requires AreaSame(a, b, area)
    ensures AreaSame(a.(zones := RestoreArea(a.zones, area, now), logs := CloseArea(a.logs, area, operator, note, now)),
                     b.(zones := RestoreArea(b.zones, area, now), logs := CloseArea(b.logs, area, operator, note, now)), area)
  {
    CloseSame(a.logs, area, operator, note, now, area);
    CloseSame(b.logs, area, operator, note, now, area);
    assert SameLayout(a.zones, RestoreArea(a.zones, area, now));
    LayoutServes(a.zones, RestoreArea(a.zones, area, now));
    hide AreaLogs, CloseArea, Serves;
  }

  lemma RestoreSame(a: State, b: State, zoneId: string, operator: string, note: string, now: Time, area: string)
    requires AreaSame(a, b, area)
    ensures AreaSame(Restore(a, zoneId, operator, note, now).0, Restore(b, zoneId, operator, note, now).0, area)
  {
    hide AreaSame, FindZone, RestoreArea, CloseArea, InArea, RestoredOnly, CanTransition;
    FoundSame(a, b, area, zoneId);
    var z, y := FindZone(a.zones, zoneId), FindZone(b.zones, zoneId);
    if z.Some? && z.value.area == area {
      RestoredHere(a, b, operator, note, now, area);
    } else if z.Some? {
      SameItself(a, area);
      SameItself(b, area);
      RestoredElsewhere(a, z.value.area, operator, note, now, area);
      RestoredElsewhere(b, y.value.area, operator, note, now, area);
      BothElsewhere(a, b, Restore(a, zoneId, operator, note, now).0, Restore(b, zoneId, operator, note, now).0, area);
    }
  }

  // ---- One reading ------------------------------------------------------------------------------

  // Zones changed without changing place in two states that agree.
  lemma ZonesChanged(a: State, b: State, c: seq<CleanZone>, d: seq<CleanZone>, area: string)
    requires AreaSame(a, b, area) && SameLayout(a.zones, c) && ZonesSame(c, d, area)
    ensures AreaSame(a.(zones := c), b.(zones := d), area)
  {
    LayoutServes(a.zones, c);
    hide Serves, AreaLogs;
  }

  lemma PutHere(a: seq<CleanZone>, b: seq<CleanZone>, z: CleanZone, next: ZoneStatus, now: Time)
    requires ZonesSame(a, b, z.area) && FindZone(a, z.id) == Some(z)
    ensures SameLayout(a, PutZone(a, z.SetStatus(next, now)))
    ensures ZonesSame(PutZone(a, z.SetStatus(next, now)), PutZone(b, z.SetStatus(next, now)), z.area)
  {
    LayoutServes(a, b);
    var k := ZoneIndex(a, z.id);
    hide Serves, ZoneIndex;
    ReplacedHere(a, b, k, z.SetStatus(next, now));
  }

  lemma ReplacedHere(a: seq<CleanZone>, b: seq<CleanZone>, k: nat, z: CleanZone)
    requires k < |a| && a[k].id == z.id && a[k].area == z.area && ZonesSame(a, b, z.area)
    ensures SameLayout(a, a[k := z]) && ZonesSame(a[k := z], b[k := z], z.area)
  {
  }

  lemma RecordHere(a: seq<CleanZone>, b: seq<CleanZone>, zoneId: string, ratio: real, now: Time, area: string)
    requires ZonesSame(a, b, area)
    ensures SameLayout(a, RecordRatio(a, zoneId, ratio, now))
    ensures ZonesSame(RecordRatio(a, zoneId, ratio, now), RecordRatio(b, zoneId, ratio, now), area)
  {
  }

  lemma AgreeOnZones(a: State, b: State, area: string)
    requires AreaSame(a, b, area)
    ensures ZonesSame(a.zones, b.zones, area)
  {
  }

  lemma MoveZoneHere(cfg: Config, a: State, b: State, z: CleanZone, m: MonitorZone, ratio: real, now: Time)
    requires AreaSame(a, b, z.area) && FindZone(a.zones, z.id) == Some(z)
    ensures AreaSame(MoveZone(cfg, a, z, m, ratio, now), MoveZone(cfg, b, z, m, ratio, now), z.area)
  {
    hide AreaSame, ZonesSame, SameLayout, IssueFor, PutZone, TargetStatusFromRatio;
    var target := TargetStatusFromRatio(z.status, ratio, cfg.overLimitRatio);
    AgreeOnZones(a, b, z.area);
    IssueHere(a, b, z, m.id, OVER_LIMIT_REASON, ratio, now);
    PutHere(a.zones, b.zones, z, target, now);
    ZonesChanged(a, b, PutZone(a.zones, z.SetStatus(target, now)), PutZone(b.zones, z.SetStatus(target, now)), z.area);
  }

  lemma MoveHere(cfg: Config, a: State, b: State, z: CleanZone, m: MonitorZone, ratio: real, now: Time)
    requires AreaSame(a, b, z.area) && FindZone(a.zones, z.id) == Some(z)
    ensures AreaSame(MovePlant(cfg, a, z, m, ratio, now), MovePlant(cfg, b, z, m, ratio, now), z.area)
  {
    hide AreaSame, ZonesSame, SameLayout, MoveZone, RecordRatio;
    var c, d := MoveZone(cfg, a, z, m, ratio, now), MoveZone(cfg, b, z, m, ratio, now);
    MoveZoneHere(cfg, a, b, z, m, ratio, now);
    AgreeOnZones(c, d, z.area);
    RecordHere(c.zones, d.zones, z.id, ratio, now, z.area);
    ZonesChanged(c, d, RecordRatio(c.zones, z.id, ratio, now), RecordRatio(d.zones, z.id, ratio, now), z.area);
  }

  // One zone of another area changed in place.
  lemma ChangedElsewhere(st: State, c: seq<CleanZone>, area: string)
    requires SameLayout(st.zones, c) && forall i :: 0 <= i < |c| && st.zones[i].area == area ==> c[i] == st.zones[i]
    ensures AreaSame(st, st.(zones := c), area)
  {
    hide Serves, AreaLogs;
  }

  lemma MoveZoneElsewhere(cfg: Config, st: State, z: CleanZone, m: MonitorZone, ratio: real, now: Time, area: string)
    requires z.area != area && FindZone(st.zones, z.id) == Some(z)
    ensures AreaSame(st, MoveZone(cfg, st, z, m, ratio, now), area)
  {
    hide AreaSame, IssueFor, TargetStatusFromRatio;
    var target := TargetStatusFromRatio(z.status, ratio, cfg.overLimitRatio);
    SameItself(st, area);
    IssueElsewhere(st, z, m.id, OVER_LIMIT_REASON, ratio, now, area);
    ChangedElsewhere(st, PutZone(st.zones, z.SetStatus(target, now)), area);
  }

  lemma MoveElsewhere(cfg: Config, st: State, z: CleanZone, m: MonitorZone, ratio: real, now: Time, area: string)
    requires z.area != area && UniqueZones(st.zones) && FindZone(st.zones, z.id) == Some(z)
    ensures AreaSame(st, MovePlant(cfg, st, z, m, ratio, now), area)
  {
    hide MoveZone;
    var moved := MoveZone(cfg, st, z, m, ratio, now);
    MoveZoneElsewhere(cfg, st, z, m, ratio, now, area);
    assert SameLayout(st.zones, moved.zones);
    hide AreaSame;
    RecordElsewhere(st.zones, moved, z, ratio, now, area);
    SameThrough(st, moved, MovePlant(cfg, st, z, m, ratio, now), area);
  }

  lemma RecordElsewhere(zs: seq<CleanZone>, moved: State, z: CleanZone, ratio: real, now: Time, area: string)
    requires z.area != area && UniqueZones(zs) && FindZone(zs, z.id) == Some(z) && SameLayout(zs, moved.zones)
    ensures AreaSame(moved, moved.(zones := RecordRatio(moved.zones, z.id, ratio, now)), area)
  {
    hide AreaSame;
    var k := ZoneIndex(zs, z.id);
    forall i | 0 <= i < |zs| && moved.zones[i].area == area
      ensures moved.zones[i].id != z.id
    {
      UniqueAt(zs, i, k);
    }
    ChangedElsewhere(moved, RecordRatio(moved.zones, z.id, ratio, now), area);
  }

  lemma MonitorSame(a: State, b: State, area: string, id: string)
    requires AreaSame(a, b, area)
    ensures var m, n := FindMonitor(a.monitors, id), FindMonitor(b.monitors, id);
            && MonitorIndex(a.monitors, id) == MonitorIndex(b.monitors, id)
            && m.Some? == n.Some?
            && (m.Some? ==> m.value.zoneId == n.value.zoneId && (Serves(a.zones, m.value.zoneId, area) ==> m == n))
  {
    hide ZonesSame, AreaLogs, Serves;
    var i, j := MonitorIndex(a.monitors, id), MonitorIndex(b.monitors, id);
    assert i < |a.monitors| ==> b.monitors[i].id == id;
    assert j < |b.monitors| ==> a.monitors[j].id == id;
  }

  lemma JudgedSame(a: State, b: State, area: string, req: IngestRequest, now: Time)
    requires AreaSame(a, b, area)
    ensures var j, k := Judge(a, req, now), Judge(b, req, now);
            && j.Judged? == k.Judged?
            && (j.Judged? ==> j.zone.area == k.zone.area && (j.zone.area == area ==> j == k))
  {
    MonitorSame(a, b, area, req.monitorId);
    var m := FindMonitor(a.monitors, req.monitorId);
    if m.Some? {
      FoundSame(a, b, area, m.value.zoneId);
    }
    hide AreaSame, RatioOf, MonitorIndex, ZoneIndex;
  }

  lemma JudgedZone(st: State, req: IngestRequest, now: Time)
    requires Judge(st, req, now).Judged?
    ensures var z := Judge(st, req, now).zone; FindZone(st.zones, z.id) == Some(z)
  {
    hide RatioOf;
  }

  // What a report does to the plant.
  function Moved(cfg: Config, st: State, req: IngestRequest, now: Time): State {
    var j := Judge(st, req, now);
    if j.Judged? && j.valid then MovePlant(cfg, st, j.zone, j.monitor, j.ratio, now) else st
  }

  lemma ReportMoves(cfg: Config, st: State, req: IngestRequest, now: Time)
    ensures PlantOf(ProcessSample(cfg, st, req, now).0) == PlantOf(Moved(cfg, st, req, now))
  {
    hide ProcessSample, MovePlant, Judge, PlantOf;
    ReportOnPlant(cfg, st, req, now);
  }

  lemma MovedElsewhere(cfg: Config, st: State, req: IngestRequest, now: Time, area: string)
    requires UniqueZones(st.zones)
    requires var j := Judge(st, req, now); j.Judged? && j.valid ==> j.zone.area != area
    ensures AreaSame(st, Moved(cfg, st, req, now), area)
  {
    hide Judge, MovePlant, AreaSame, UniqueZones, FindZone;
    SameItself(st, area);
    var j := Judge(st, req, now);
    if j.Judged? && j.valid {
      JudgedZone(st, req, now);
      MoveElsewhere(cfg, st, j.zone, j.monitor, j.ratio, now, area);
    }
  }

  lemma ReportSame(cfg: Config, a: State, b: State, req: IngestRequest, now: Time, area: string)
    requires AreaSame(a, b, area) && UniqueZones(a.zones) && UniqueZones(b.zones)
    ensures AreaSame(ProcessSample(cfg, a, req, now).0, ProcessSample(cfg, b, req, now).0, area)
  {
    hide ProcessSample, Judge, MovePlant, AreaSame, UniqueZones, FindZone, PlantOf;
    ReportMoves(cfg, a, req, now);
    ReportMoves(cfg, b, req, now);
    JudgedSame(a, b, area, req, now);
    var j := Judge(a, req, now);
    var c, d := Moved(cfg, a, req, now), Moved(cfg, b, req, now);
    if j.Judged? && j.zone.area == area {
      if j.valid {
        JudgedZone(a, req, now);
        MoveHere(cfg, a, b, j.zone, j.monitor, j.ratio, now);
      }
    } else {
      MovedElsewhere(cfg, a, req, now, area);
      MovedElsewhere(cfg, b, req, now, area);
      BothElsewhere(a, b, c, d, area);
    }
    SamePlants(c, d, ProcessSample(cfg, a, req, now).0, ProcessSample(cfg, b, req, now).0, area);
  }

  lemma SamePlants(a: State, b: State, c: State, d: State, area: string)
    requires AreaSame(a, b, area) && PlantOf(a) == PlantOf(c) && PlantOf(b) == PlantOf(d)
    ensures AreaSame(c, d, area)
  {
    hide AreaSame, PlantOf;
    SameBack(a, b, area);
    SamePlant(b, a, c, area);
    SameBack(b, c, area);
    SamePlant(c, b, d, area);
  }

  // ---- The sweep --------------------------------------------------------------------------------

  lemma {:induction false} InAreaJoins(s: seq<CleanZone>, t: seq<CleanZone>, area: string)
    ensures InArea(s + t, area) == InArea(s, area) + InArea(t, area)
  {
    if t == [] {
      assert s + t == s;
    } else {
      assert (s + t)[..|s + t| - 1] == s + t[..|t| - 1];
      InAreaJoins(s, t[..|t| - 1], area);
    }
  }

  lemma InAreaOne(z: CleanZone, area: string)
    ensures InArea([z], area) == if z.area == area then [z] else []
  {
    assert [z][..0] == [];
  }

  lemma InAreaHead(cs: seq<CleanZone>, area: string)
    requires cs != []
    ensures InArea(cs, area) == if cs[0].area == area then [cs[0]] + InArea(cs[1..], area) else InArea(cs[1..], area)
  {
    hide InArea;
    assert cs == [cs[0]] + cs[1..];
    InAreaJoins([cs[0]], cs[1..], area);
    InAreaOne(cs[0], area);
    assert [] + InArea(cs[1..], area) == InArea(cs[1..], area);
  }

  lemma CandidatesUnfold(cfg: Config, zs: seq<CleanZone>, tick: Time, area: string)
    requires zs != []
    ensures var front, last := zs[..|zs| - 1], zs[|zs| - 1];
            InArea(Candidates(cfg, zs, tick), area) ==
            if Overdue(cfg, last, tick) && last.area == area then InArea(Candidates(cfg, front, tick), area) + [last]
            else InArea(Candidates(cfg, front, tick), area)
  {
    var front, last := zs[..|zs| - 1], zs[|zs| - 1];
    if Overdue(cfg, last, tick) {
      InAreaJoins(Candidates(cfg, front, tick), [last], area);
      InAreaOne(last, area);
    } else {
      assert Candidates(cfg, zs, tick) == Candidates(cfg, front, tick);
    }
  }

  lemma {:induction false} CandidatesSame(cfg: Config, a: seq<CleanZone>, b: seq<CleanZone>, tick: Time, area: string)
    requires ZonesSame(a, b, area)
    ensures InArea(Candidates(cfg, a, tick), area) == InArea(Candidates(cfg, b, tick), area)
  {
    if a != [] {
      CandidatesSame(cfg, a[..|a| - 1], b[..|b| - 1], tick, area);
      CandidatesUnfold(cfg, a, tick, area);
      CandidatesUnfold(cfg, b, tick, area);
      hide Candidates, InArea, Overdue;
    }
  }

  lemma {:induction false} FirstMonitorSame(ms: seq<MonitorZone>, ns: seq<MonitorZone>, zoneId: string)
    requires |ms| == |ns| && forall i :: 0 <= i < |ms| ==> ms[i].id == ns[i].id && ms[i].zoneId == ns[i].zoneId
    ensures FirstMonitor(ms, zoneId) == FirstMonitor(ns, zoneId)
    ensures |OfZone(ms, zoneId)| == |OfZone(ns, zoneId)|
  {
    if ms != [] {
      FirstMonitorSame(ms[..|ms| - 1], ns[..|ns| - 1], zoneId);
    }
  }

  lemma StrikeElsewhere(st: State, z: CleanZone, now: Time, area: string)
    requires Located(st.zones, [z]) && z.area != area
    ensures AreaSame(st, Strike(st, z, now), area)
  {
    assert [z][0] == z;
    hide AreaSame, IssueFor, LogFor, FirstMonitor, ZoneIndex;
    IssueElsewhere(st, FindZone(st.zones, z.id).value, FirstMonitor(st.monitors, z.id), AUTO_REASON, SweepRatio(z), now, area);
  }

  lemma StrikeSame(a: State, b: State, z: CleanZone, now: Time, area: string)
    requires AreaSame(a, b, area)
    ensures AreaSame(Strike(a, z, now), Strike(b, z, now), area)
  {
    FirstMonitorSame(a.monitors, b.monitors, z.id);
    hide AreaSame, Issue, FirstMonitor;
    IssueSame(a, b, z.id, FirstMonitor(a.monitors, z.id), AUTO_REASON, SweepRatio(z), now, area);
  }

  lemma StruckLocated(st: State, cs: seq<CleanZone>, now: Time)
    requires cs != [] && Located(st.zones, cs)
    ensures Located(st.zones, [cs[0]]) && Located(Strike(st, cs[0], now).zones, cs[1..])
  {
    assert Located(st.zones, [cs[0]]) && Located(st.zones, cs[1..]);
    hide Located, Strike, LogOf, InterlockArea;
    StrikeIssues(st, cs[0], now);
    StillLocated(st.zones, cs[0].area, cs[1..], now);
  }

  lemma {:induction false} SweepSame(a: State, b: State, cs: seq<CleanZone>, ds: seq<CleanZone>, now: Time, area: string)
    requires AreaSame(a, b, area) && Located(a.zones, cs) && Located(b.zones, ds) && InArea(cs, area) == InArea(ds, area)
    ensures AreaSame(SweepFrom(a, cs, now), SweepFrom(b, ds, now), area)
    decreases |cs| + |ds|
  {
    hide AreaSame, Located, Strike, InArea, SweepFrom;
    if cs != [] {
      SweepUnfolds(a, cs, now);
      StruckLocated(a, cs, now);
      InAreaHead(cs, area);
    }
    if ds != [] {
      SweepUnfolds(b, ds, now);
      StruckLocated(b, ds, now);
      InAreaHead(ds, area);
    }
    if cs != [] && cs[0].area != area {
      StrikeElsewhere(a, cs[0], now, area);
      SameBack(a, Strike(a, cs[0], now), area);
      SameThrough(Strike(a, cs[0], now), a, b, area);
      SweepSame(Strike(a, cs[0], now), b, cs[1..], ds, now, area);
    } else if ds != [] && ds[0].area != area {
      StrikeElsewhere(b, ds[0], now, area);
      SameThrough(a, b, Strike(b, ds[0], now), area);
      SweepSame(a, Strike(b, ds[0], now), cs, ds[1..], now, area);
    } else if cs != [] && ds != [] {
      HeadsSame(cs[0], InArea(cs[1..], area), ds[0], InArea(ds[1..], area));
      StrikeSame(a, b, cs[0], now, area);
      SweepSame(Strike(a, cs[0], now), Strike(b, cs[0], now), cs[1..], ds[1..], now, area);
    } else {
      NoneInArea(area);
      SweepOfNone(a);
      SweepOfNone(b);
    }
  }

  lemma HeadsSame(x: CleanZone, s: seq<CleanZone>, y: CleanZone, t: seq<CleanZone>)
    requires [x] + s == [y] + t
    ensures x == y && s == t
  {
    assert ([x] + s)[0] == x && ([y] + t)[0] == y;
    assert ([x] + s)[1..] == s && ([y] + t)[1..] == t;
  }

  lemma NoneInArea(area: string)
    ensures InArea([], area) == []
  {
  }

  lemma ZoneSweepSame(cfg: Config, a: State, b: State, tick: Time, now: Time, area: string)
    requires AreaSame(a, b, area) && UniqueZones(a.zones) && UniqueZones(b.zones)
    ensures AreaSame(ZoneSweep(cfg, a, tick, now), ZoneSweep(cfg, b, tick, now), area)
  {
    AgreeOnZones(a, b, area);
    CandidatesSame(cfg, a.zones, b.zones, tick, area);
    CandidatesLocated(cfg, a.zones, tick);
    CandidatesLocated(cfg, b.zones, tick);
    hide AreaSame, Candidates, SweepFrom, InArea, Located, ZonesSame, UniqueZones;
    SweepSame(a, b, Candidates(cfg, a.zones, tick), Candidates(cfg, b.zones, tick), now, area);
  }

  // ---- Requests -----------------------------------------------------------------------------------

  lemma NewZoneSame(a: State, b: State, z: CleanZone, area: string)
    requires AreaSame(a, b, area) && MonitorsPlaced(a.monitors, a.zones)
    ensures AreaSame(CreateZone(a, z).0, CreateZone(b, z).0, area)
  {
    FoundSame(a, b, area, z.id);
    if CreateZone(a, z).0 != a {
      forall i | 0 <= i < |a.monitors|
        ensures Serves(a.zones + [z], a.monitors[i].zoneId, area) == Serves(a.zones, a.monitors[i].zoneId, area)
      {
        assert FindZone(a.zones, a.monitors[i].zoneId).Some?;
        StillServes(a.zones, z, a.monitors[i].zoneId, area);
      }
    }
    hide Serves, FindZone, CleanZone.Valid, AreaLogs, MonitorsPlaced;
  }

  lemma StillServes(zs: seq<CleanZone>, z: CleanZone, zoneId: string, area: string)
    requires FindZone(zs, zoneId).Some?
    ensures Serves(zs + [z], zoneId, area) == Serves(zs, zoneId, area)
  {
    var k := ZoneIndex(zs, zoneId);
    assert (zs + [z])[k].id == zoneId;
    assert ZoneIndex(zs + [z], zoneId) == k;
  }

  lemma NewMonitorSame(a: State, b: State, m: MonitorZone, area: string)
    requires AreaSame(a, b, area)
    ensures AreaSame(CreateMonitor(a, m).0, CreateMonitor(b, m).0, area)
  {
    FoundSame(a, b, area, m.zoneId);
    MonitorSame(a, b, area, m.id);
    assert CounterTaken(a.monitors, m.counterId) == CounterTaken(b.monitors, m.counterId);
    hide Serves, FindZone, MonitorIndex, MonitorZone.Valid, AreaLogs, CounterTaken, ZonesSame;
  }

  lemma ChoiceSame(a: State, b: State, prefix: string, id: string, area: string)
    requires AreaSame(a, b, area) && prefix in {ZONE_IDS, MONITOR_IDS}
    ensures ChosenId(a.seqs, prefix, id) == ChosenId(b.seqs, prefix, id)
    ensures AreaSame(a.(seqs := SeqsAfterChoice(a.seqs, prefix, id)), b.(seqs := SeqsAfterChoice(b.seqs, prefix, id)), area)
  {
    hide ZonesSame, MonitorsSame, AreaLogs;
  }

  lemma CreationSame(cfg: Config, a: State, b: State, step: Step, area: string)
    requires AreaSame(a, b, area) && MonitorsPlaced(a.monitors, a.zones) && (step.AddZone? || step.AddMonitor?)
    ensures AreaSame(Apply(cfg, a, step), Apply(cfg, b, step), area)
  {
    hide AreaSame, CreateZone, CreateMonitor, ChosenId, SeqsAfterChoice, MonitorsPlaced;
    match step
    case AddZone(now, id, name, zoneArea, iso, process) =>
      ChoiceSame(a, b, ZONE_IDS, id, area);
      NewZoneSame(a.(seqs := SeqsAfterChoice(a.seqs, ZONE_IDS, id)), b.(seqs := SeqsAfterChoice(b.seqs, ZONE_IDS, id)),
                  NewCleanZone(ChosenId(a.seqs, ZONE_IDS, id), name, zoneArea, iso, process, now), area);
    case AddMonitor(now, id, zoneId, name, counterId, thresholds, due) =>
      ChoiceSame(a, b, MONITOR_IDS, id, area);
      NewMonitorSame(a.(seqs := SeqsAfterChoice(a.seqs, MONITOR_IDS, id)), b.(seqs := SeqsAfterChoice(b.seqs, MONITOR_IDS, id)),
                     NewMonitorZone(ChosenId(a.seqs, MONITOR_IDS, id), zoneId, name, counterId, thresholds, due, now), area);
  }

  // A monitor zone changed in its equipment alone.
  lemma PutMonitorsSame(a: State, b: State, m: MonitorZone, n: MonitorZone, area: string)
    requires AreaSame(a, b, area)
    requires var x, y := FindMonitor(a.monitors, m.id), FindMonitor(b.monitors, n.id);
             && x.Some? && y.Some? && m.id == n.id
             && m.zoneId == x.value.zoneId && n.zoneId == y.value.zoneId
             && m.counterId == x.value.counterId && n.counterId == y.value.counterId && (x == y ==> m == n)
    ensures AreaSame(a.(monitors := PutMonitor(a.monitors, m)), b.(monitors := PutMonitor(b.monitors, n)), area)
  {
    MonitorSame(a, b, area, m.id);
    hide MonitorIndex, Serves, AreaLogs, ZonesSame;
  }

  lemma OrderSame(cfg: Config, a: State, b: State, step: Step, area: string)
    requires AreaSame(a, b, area) && (step.Maintain? || step.Calibrate?)
    ensures AreaSame(Apply(cfg, a, step), Apply(cfg, b, step), area)
  {
    hide AreaSame, PutMonitor, MonitorIndex;
    MonitorSame(a, b, area, step.monitorId);
    var m, n := FindMonitor(a.monitors, step.monitorId), FindMonitor(b.monitors, step.monitorId);
    if m.Some? {
      match step
      case Maintain(now, monitorId, on, note) =>
        PutMonitorsSame(a, b, m.value.SetMaintenance(on, note, now), n.value.SetMaintenance(on, note, now), area);
      case Calibrate(now, monitorId, due) =>
        PutMonitorsSame(a, b, m.value.SetCalibration(due, now), n.value.SetCalibration(due, now), area);
    }
  }

  // ---- Every step, every run ----------------------------------------------------------------------

  lemma AlertStepSame(cfg: Config, a: State, b: State, step: Step, area: string)
    requires AreaSame(a, b, area) && (step.Acknowledge? || step.Promote? || step.SweepAlerts?)
    ensures AreaSame(Apply(cfg, a, step), Apply(cfg, b, step), area)
  {
    hide AreaSame, PlantOf, Apply;
    AlertStepsKeepPlant(cfg, a, step);
    AlertStepsKeepPlant(cfg, b, step);
    SamePlants(a, b, Apply(cfg, a, step), Apply(cfg, b, step), area);
  }

  lemma RequestApplied(cfg: Config, st: State, step: Step)
    requires step.Interlock?
    ensures Apply(cfg, st, step) ==
            Issue(st, step.zoneId, ManualTrigger(st, step.zoneId, step.trigger), ManualReason(step.reason),
                  ManualRatio(step.ratio), step.now).0
  {
    hide Issue, FirstMonitor;
  }

  lemma TriggerSame(a: State, b: State, zoneId: string, trigger: string, area: string)
    requires AreaSame(a, b, area)
    ensures ManualTrigger(a, zoneId, trigger) == ManualTrigger(b, zoneId, trigger)
  {
    FirstMonitorSame(a.monitors, b.monitors, zoneId);
    hide AreaSame, FirstMonitor;
  }

  lemma RequestSame(cfg: Config, a: State, b: State, step: Step, area: string)
    requires AreaSame(a, b, area) && step.Interlock?
    ensures AreaSame(Apply(cfg, a, step), Apply(cfg, b, step), area)
  {
    hide Apply, AreaSame, Issue, FirstMonitor, ManualTrigger;
    RequestApplied(cfg, a, step);
    RequestApplied(cfg, b, step);
    TriggerSame(a, b, step.zoneId, step.trigger, area);
    IssueSame(a, b, step.zoneId, ManualTrigger(a, step.zoneId, step.trigger), ManualReason(step.reason), ManualRatio(step.ratio),
              step.now, area);
  }

  /** Two states that agree on an area agree on it after any step. */
  lemma StepSame(cfg: Config, a: State, b: State, step: Step, area: string)
    requires AreaSame(a, b, area) && UniqueZones(a.zones) && UniqueZones(b.zones) && MonitorsPlaced(a.monitors, a.zones)
    ensures AreaSame(Apply(cfg, a, step), Apply(cfg, b, step), area)
  {
    hide AreaSame, UniqueZones, MonitorsPlaced, ProcessSample, ZoneSweep, Restore;
    match step
    case AddZone(_, _, _, _, _, _) => CreationSame(cfg, a, b, step, area);
    case AddMonitor(_, _, _, _, _, _, _) => CreationSame(cfg, a, b, step, area);
    case Report(_, req) => ReportSame(cfg, a, b, req, step.now, area);
    case Interlock(_, _, _, _, _) => RequestSame(cfg, a, b, step, area);
    case Confirm(_, zoneId, operator, note) => RestoreSame(a, b, zoneId, operator, note, step.now, area);
    case SweepZones(_, tick) => ZoneSweepSame(cfg, a, b, tick, step.now, area);
    case Maintain(_, _, _, _) => OrderSame(cfg, a, b, step, area);
    case Calibrate(_, _, _) => OrderSame(cfg, a, b, step, area);
    case _ => AlertStepSame(cfg, a, b, step, area);
  }

  // The step concerns a zone or monitor zone of another area, or only alerts.
  ghost predicate Elsewhere(st: State, step: Step, area: string) {
    match step
    case Report(now, req) => var j := Judge(st, req, now); j.Judged? && j.valid ==> j.zone.area != area
    case Interlock(_, zoneId, _, _, _) => !Serves(st.zones, zoneId, area)
    case Confirm(_, zoneId, _, _) => !Serves(st.zones, zoneId, area)
    case Maintain(_, monitorId, _, _) =>
      var m := FindMonitor(st.monitors, monitorId); m.Some? ==> !Serves(st.zones, m.value.zoneId, area)
    case Calibrate(_, monitorId, _) =>
      var m := FindMonitor(st.monitors, monitorId); m.Some? ==> !Serves(st.zones, m.value.zoneId, area)
    case Acknowledge(_, _, _, _) => true
    case Promote(_, _) => true
    case SweepAlerts(_, _) => true
    case _ => false
  }

  lemma PutElsewhere(st: State, m: MonitorZone, area: string)
    requires var x := FindMonitor(st.monitors, m.id);
             x.Some? && m.zoneId == x.value.zoneId && m.counterId == x.value.counterId && !Serves(st.zones, m.zoneId, area)
    ensures AreaSame(st, st.(monitors := PutMonitor(st.monitors, m)), area)
  {
    hide Serves, AreaLogs, MonitorIndex;
  }

  lemma OrderElsewhere(cfg: Config, st: State, step: Step, area: string)
    requires Elsewhere(st, step, area) && (step.Maintain? || step.Calibrate?)
    ensures AreaSame(st, Apply(cfg, st, step), area)
  {
    hide AreaSame, Serves, MonitorIndex, PutMonitor;
    SameItself(st, area);
    var m := FindMonitor(st.monitors, step.monitorId);
    if m.Some? {
      match step
      case Maintain(now, _, on, note) => PutElsewhere(st, m.value.SetMaintenance(on, note, now), area);
      case Calibrate(now, _, due) => PutElsewhere(st, m.value.SetCalibration(due, now), area);
    }
  }

  lemma RequestElsewhere(cfg: Config, st: State, step: Step, area: string)
    requires Elsewhere(st, step, area) && (step.Interlock? || step.Confirm?)
    ensures AreaSame(st, Apply(cfg, st, step), area)
  {
    hide AreaSame, IssueFor, LogFor, ZoneIndex, RestoreArea, CloseArea, InArea, RestoredOnly, FirstMonitor, CanTransition;
    SameItself(st, area);
    var z := FindZone(st.zones, step.zoneId);
    if z.Some? {
      if step.Interlock? {
        IssueElsewhere(st, z.value, ManualTrigger(st, step.zoneId, step.trigger), ManualReason(step.reason), ManualRatio(step.ratio),
                       step.now, area);
      } else {
        RestoredElsewhere(st, z.value.area, step.operator, step.note, step.now, area);
      }
    }
  }

  /** A step that concerns other areas leaves this one alone. */
  lemma ElsewhereChangesNothing(cfg: Config, st: State, step: Step, area: string)
    requires Elsewhere(st, step, area) && UniqueZones(st.zones)
    ensures AreaSame(st, Apply(cfg, st, step), area)
  {
    hide AreaSame, UniqueZones, ProcessSample, MovePlant, Judge, PlantOf, AlertIndex, EscalateAll;
    SameItself(st, area);
    match step
    case Report(_, req) =>
      MovedElsewhere(cfg, st, req, step.now, area);
      ReportMoves(cfg, st, req, step.now);
      SamePlant(st, Moved(cfg, st, req, step.now), ProcessSample(cfg, st, req, step.now).0, area);
    case Interlock(_, _, _, _, _) => RequestElsewhere(cfg, st, step, area);
    case Confirm(_, _, _, _) => RequestElsewhere(cfg, st, step, area);
    case Maintain(_, _, _, _) => OrderElsewhere(cfg, st, step, area);
    case Calibrate(_, _, _) => OrderElsewhere(cfg, st, step, area);
    case _ =>
      AlertStepsKeepPlant(cfg, st, step);
      hide Apply;
      SamePlant(st, st, Apply(cfg, st, step), area);
  }

  lemma PlacesCarryOver(a: State, b: State, area: string)
    requires AreaSame(a, b, area) && UniqueZones(a.zones)
    ensures UniqueZones(b.zones)
  {
    hide MonitorsSame, AreaLogs;
  }

  lemma PlantPlaces(cfg: Config, st: State, now: Time)
    requires Sound(cfg, st, now)
    ensures UniqueZones(st.zones) && MonitorsPlaced(st.monitors, st.zones)
  {
    hide ZonesValid, UniqueMonitors, MonitorsValid, UniqueLogs, LogIdsUsed, ZonesCoupled, AreasAgree;
  }

  /**
   Areas do not influence one another: deleting any of the readings, interlocks, restores, maintenance and calibration
   orders that concern other areas, and any of the calls about alerts, leaves the zones, monitor zones and logs of an
   area exactly as they were, the ids of the logs aside.
   */
  lemma {:induction false} OtherAreasDoNotMatter(cfg: Config, run: seq<Step>, dropped: set<nat>, area: string)
    requires cfg.Valid() && Clocked(run)
    requires forall n :: n in dropped && n < |run| ==> Elsewhere(At(cfg, run, n), run[n], area)
    ensures AreaSame(Exec(cfg, run), Exec(cfg, Without(run, dropped)), area)
  {
    hide Apply, AreaSame, Elsewhere, Sound, UniqueZones, MonitorsPlaced;
    if run == [] {
      SameItself(EMPTY, area);
    } else {
      var front, last := run[..|run| - 1], run[|run| - 1];
      var shorter := Without(front, dropped);
      var a, b := Exec(cfg, front), Exec(cfg, shorter);
      forall n | n in dropped && n < |front|
        ensures Elsewhere(At(cfg, front, n), front[n], area)
      {
        assert front[..n] == run[..n];
        assert Elsewhere(At(cfg, run, n), run[n], area);
      }
      OtherAreasDoNotMatter(cfg, front, dropped, area);
      ReachableSound(cfg, front, last.now);
      PlantPlaces(cfg, a, last.now);
      PlacesCarryOver(a, b, area);
      if |run| - 1 in dropped {
        assert Elsewhere(At(cfg, run, |front|), run[|front|], area);
        ElsewhereChangesNothing(cfg, a, last, area);
        assert Without(run, dropped) == shorter;
        SameBack(a, Exec(cfg, run), area);
        SameThrough(Exec(cfg, run), a, b, area);
      } else {
        assert Without(run, dropped)[..|shorter|] == shorter;
        StepSame(cfg, a, b, last, area);
      }
    }
  }
}
