/** The repository: one mutable aggregate holding every entity, accessed by id. */
module Store {
  import opened Types
  import opened Sequences
  import opened Zones
  import opened Monitors
  import opened Interlocks
  import opened Samples
  import opened Alerts
  import opened State
  import opened Overviews
  import Text

  function Found<T>(o: Option<T>): Result<T> {
    match o
    case None => Err(NotFound)
    case Some(x) => Ok(x)
  }

  class Store {
    var zones: seq<CleanZone>
    var monitors: seq<MonitorZone>
    var samples: array<EnvSample>  // the backing array of the sample slice
    var sampleCount: nat           // and its length
    var logs: seq<InterlockLog>
    var alerts: seq<CleanAlert>
    var seqs: map<string, nat>

    // The abstract value of the store.
    ghost function Snapshot(): State
      reads this, samples
      requires sampleCount <= samples.Length
    {
      State(zones, monitors, samples[..sampleCount], logs, alerts, seqs)
    }

    ghost predicate Valid()
      reads this`samples, this`sampleCount
    {
      sampleCount <= samples.Length
    }

    constructor ()
      ensures Valid() && fresh(samples) && Snapshot() == EMPTY
    {
      zones, monitors, logs, alerts, seqs := [], [], [], [], map[];
      samples := new EnvSample[0];
      sampleCount := 0;
    }

    method NewID(prefix: string) returns (id: string)
      modifies this`seqs
      ensures seqs == Bump(old(seqs), prefix)
      ensures id == NextId(old(seqs), prefix)
    {
      seqs := Bump(seqs, prefix);
      id := Text.IdOf(prefix, seqs[prefix]);
    }

    // ---- Clean zones --------------------------------------------------------------------------

    method CreateCleanZone(z: CleanZone) returns (r: Result<CleanZone>)
      requires Valid()
      modifies this`zones
      ensures Valid() && (Snapshot(), r) == CreateZone(old(Snapshot()), z)
    {
      if !z.Valid() {
        return Err(InvalidInput);
      }
      for i := 0 to |zones|
        invariant ZoneIndex(zones, z.id) >= i
      {
        if zones[i].id == z.id {
          return Err(Conflict);
        }
      }
      zones := zones + [z];
      r := Ok(z);
    }

    method UpdateCleanZone(z: CleanZone) returns (r: Result<CleanZone>)
      modifies this`zones
      ensures !z.Valid() ==> r == Err(InvalidInput) && zones == old(zones)
      ensures z.Valid() ==> zones == PutZone(old(zones), z)
      ensures z.Valid() ==> r == if FindZone(old(zones), z.id).Some? then Ok(z) else Err(NotFound)
    {
      if !z.Valid() {
        return Err(InvalidInput);
      }
      for i := 0 to |zones|
        invariant zones == old(zones) && ZoneIndex(zones, z.id) >= i
      {
        if zones[i].id == z.id {
          zones := zones[i := z];
          return Ok(z);
        }
      }
      r := Err(NotFound);
    }

    method GetCleanZone(id: string) returns (r: Result<CleanZone>)
      ensures r == Found(FindZone(zones, id))
    {
      for i := 0 to |zones|
        invariant ZoneIndex(zones, id) >= i
      {
        if zones[i].id == id {
          return Ok(zones[i]);
        }
      }
      r := Err(NotFound);
    }

    method ListByPhysicalArea(area: string) returns (out: seq<CleanZone>)
      ensures out == InArea(zones, area)
    {
      out := [];
      for i := 0 to |zones|
        invariant out == InArea(zones[..i], area)
      {
        assert zones[..i + 1][..i] == zones[..i];
        if zones[i].area == area {
          out := out + [zones[i]];
        }
      }
      assert zones[..|zones|] == zones;
    }

    // ---- Monitor zones ------------------------------------------------------------------------

    method CreateMonitorZone(m: MonitorZone) returns (r: Result<MonitorZone>)
      requires Valid()
      modifies this`monitors
      ensures Valid() && (Snapshot(), r) == CreateMonitor(old(Snapshot()), m)
    {
      if !m.Valid() {
        return Err(InvalidInput);
      }
      var zoneExists := false;
      for i := 0 to |zones|
        invariant !zoneExists && ZoneIndex(zones, m.zoneId) >= i
      {
        if zones[i].id == m.zoneId {
          zoneExists := true;
          break;
        }
      }
      if !zoneExists {
        return Err(NotFound);
      }
      for i := 0 to |monitors|
        invariant MonitorIndex(monitors, m.id) >= i
        invariant forall k :: 0 <= k < i ==> monitors[k].counterId != m.counterId
      {
        if monitors[i].id == m.id {
          return Err(Conflict);
        }
        if monitors[i].counterId == m.counterId {
          return Err(Conflict);
        }
      }
      monitors := monitors + [m];
      r := Ok(m);
    }

    method UpdateMonitorZone(m: MonitorZone) returns (r: Result<MonitorZone>)
      modifies this`monitors
      ensures !m.Valid() ==> r == Err(InvalidInput) && monitors == old(monitors)
      ensures m.Valid() ==> monitors == PutMonitor(old(monitors), m)
      ensures m.Valid() ==> r == if FindMonitor(old(monitors), m.id).Some? then Ok(m) else Err(NotFound)
    {
      if !m.Valid() {
        return Err(InvalidInput);
      }
      for i := 0 to |monitors|
        invariant monitors == old(monitors) && MonitorIndex(monitors, m.id) >= i
      {
        if monitors[i].id == m.id {
          monitors := monitors[i := m];
          return Ok(m);
        }
      }
      r := Err(NotFound);
    }

    method GetMonitorZone(id: string) returns (r: Result<MonitorZone>)
      ensures r == Found(FindMonitor(monitors, id))
    {
      for i := 0 to |monitors|
        invariant MonitorIndex(monitors, id) >= i
      {
        if monitors[i].id == id {
          return Ok(monitors[i]);
        }
      }
      r := Err(NotFound);
    }

    method ListByCleanZone(zoneId: string) returns (out: seq<MonitorZone>)
      ensures out == OfZone(monitors, zoneId)
    {
      out := [];
      for i := 0 to |monitors|
        invariant out == OfZone(monitors[..i], zoneId)
      {
        assert monitors[..i + 1][..i] == monitors[..i];
        if monitors[i].zoneId == zoneId {
          out := out + [monitors[i]];
        }
      }
      assert monitors[..|monitors|] == monitors;
    }

    // ---- Interlock logs -----------------------------------------------------------------------

    method CreateInterlock(log: InterlockLog)
      modifies this`logs
      ensures logs == old(logs) + [log]
    {
      logs := logs + [log];
    }

    method UpdateInterlock(log: InterlockLog) returns (r: Result<InterlockLog>)
      modifies this`logs
      ensures logs == PutLog(old(logs), log)
      ensures r == if FindLog(old(logs), log.id).Some? then Ok(log) else Err(NotFound)
    {
      for i := 0 to |logs|
        invariant logs == old(logs) && LogIndex(logs, log.id) >= i
      {
        if logs[i].id == log.id {
          logs := logs[i := log];
          return Ok(log);
        }
      }
      r := Err(NotFound);
    }

    // How many interlocks are still active overall.
    method OpenCount() returns (n: int)
      ensures n == Sum(logs, OpenUnit)
    {
      n := 0;
      for i := 0 to |logs|
        invariant n == Sum(logs[..i], OpenUnit)
      {
        assert logs[..i + 1][..i] == logs[..i];
        if logs[i].IsOpen() {
          n := n + 1;
        }
      }
      assert logs[..|logs|] == logs;
    }

    method ListInterlocks() returns (out: seq<InterlockLog>)
      ensures out == SortBy(logs, Interlocks.Newer)
    {
      out := SortBy(logs, Interlocks.Newer);
    }

    // ---- Alerts -------------------------------------------------------------------------------

    method CreateAlert(a: CleanAlert)
      modifies this`alerts
      ensures alerts == old(alerts) + [a]
    {
      alerts := alerts + [a];
    }

    method UpdateAlert(a: CleanAlert) returns (r: Result<CleanAlert>)
      modifies this`alerts
      ensures alerts == PutAlert(old(alerts), a)
      ensures r == if FindAlert(old(alerts), a.id).Some? then Ok(a) else Err(NotFound)
    {
      for i := 0 to |alerts|
        invariant alerts == old(alerts) && AlertIndex(alerts, a.id) >= i
      {
        if alerts[i].id == a.id {
          alerts := alerts[i := a];
          return Ok(a);
        }
      }
      r := Err(NotFound);
    }

    method GetAlert(id: string) returns (r: Result<CleanAlert>)
      ensures r == Found(FindAlert(alerts, id))
    {
      for i := 0 to |alerts|
        invariant AlertIndex(alerts, id) >= i
      {
        if alerts[i].id == id {
          return Ok(alerts[i]);
        }
      }
      r := Err(NotFound);
    }

    method ListAlerts(filter: AlertFilter) returns (out: seq<CleanAlert>)
      ensures out == SortBy(Select(alerts, filter), Alerts.Newer)
    {
      out := [];
      for i := 0 to |alerts|
        invariant out == Select(alerts[..i], filter)
      {
        assert alerts[..i + 1][..i] == alerts[..i];
        if Matches(filter, alerts[i]) {
          out := out + [alerts[i]];
        }
      }
      assert alerts[..|alerts|] == alerts;
      out := SortBy(out, Alerts.Newer);
    }

    method FindOpenByDedupKey(key: string) returns (best: Option<CleanAlert>)
      ensures best == FindOpen(alerts, key)
    {
      best := None;
      for i := 0 to |alerts|
        invariant best == FindOpen(alerts[..i], key)
      {
        assert alerts[..i + 1][..i] == alerts[..i];
        var a := alerts[i];
        if a.dedupKey != key {
          continue;
        }
        if a.status == Closed {
          continue;
        }
        if best.None? || a.createdAt > best.value.createdAt {
          best := Some(a);
        }
      }
      assert alerts[..|alerts|] == alerts;
    }

    // How many alerts still need attention.
    method CountActive() returns (n: int)
      ensures n == |ActiveOwners(alerts)|
    {
      n := 0;
      for i := 0 to |alerts|
        invariant n == |ActiveOwners(alerts[..i])|
      {
        assert alerts[..i + 1][..i] == alerts[..i];
        if alerts[i].IsActive() {
          n := n + 1;
        }
      }
      assert alerts[..|alerts|] == alerts;
    }

    method CountByCleanZoneActive() returns (out: map<string, int>)
      ensures out == ActiveByZone(alerts)
    {
      out := map[];
      for i := 0 to |alerts|
        invariant out == ActiveByZone(alerts[..i])
      {
        assert alerts[..i + 1][..i] == alerts[..i];
        var a := alerts[i];
        if a.IsActive() {
          out := out[a.zoneId := Lookup(out, a.zoneId) + 1];
        }
      }
      assert alerts[..|alerts|] == alerts;
    }

    method ListOverdue(now: Time, window: Time) returns (out: seq<CleanAlert>)
      ensures out == OverdueAlerts(SortBy(alerts, Alerts.Newer), now, window)
    {
      var all := ListAlerts(NO_FILTER);
      SelectAll(alerts);
      hide Select, SortBy;
      out := [];
      for i := 0 to |all|
        invariant out == OverdueAlerts(all[..i], now, window)
      {
        assert all[..i + 1][..i] == all[..i];
        if all[i].NeedsEscalation(now, window) {
          out := out + [all[i]];
        }
      }
      assert all[..|all|] == all;
    }

    // ---- Samples ------------------------------------------------------------------------------

    method Append(sample: EnvSample, maxPerZone: int)
      requires Valid()
      modifies this`samples, this`sampleCount, samples
      ensures Valid() && (samples == old(samples) || fresh(samples))
      ensures Snapshot() == old(Snapshot()).(samples := AppendSample(old(Snapshot()).samples, sample, maxPerZone))
    {
      if sampleCount == samples.Length {
        // append moves a full slice to a larger backing array
        var grown := new EnvSample[2 * samples.Length + 1];
        forall i | 0 <= i < sampleCount {
          grown[i] := samples[i];
        }
        samples := grown;
      }
      samples[sampleCount] := sample;
      sampleCount := sampleCount + 1;
      assert samples[..sampleCount] == old(Snapshot()).samples + [sample];
      if maxPerZone > 0 {
        Trim(sample.monitorId, maxPerZone);
      }
    }

    // Keeps at most maxPerZone newest samples of the monitor zone.
    method Trim(monitorId: string, maxPerZone: int)
      requires Valid() && maxPerZone > 0
      modifies this`sampleCount, samples
      ensures Valid()
      ensures Snapshot() == old(Snapshot()).(samples := Keep(old(Snapshot()).samples, monitorId, maxPerZone))
    {
      ghost var all := samples[..sampleCount];
      assert all[..sampleCount] == all;
      var count := 0;
      for i := sampleCount downto 0
        invariant count + |OfMonitor(all[..i], monitorId)| == |OfMonitor(all, monitorId)|
      {
        assert all[..i + 1][..i] == all[..i];
        if samples[i].monitorId == monitorId {
          count := count + 1;
        }
      }
      var excess := count - maxPerZone;
      if excess <= 0 {
        KeepAll(all, monitorId, maxPerZone);
        return;
      }
      assert all[..|all|] == all;
      sampleCount := Compact(samples, sampleCount, monitorId, excess);
    }

    method ListSamples(monitorId: string, limit: nat) returns (out: seq<EnvSample>)
      requires Valid()
      ensures out == Recent(Snapshot().samples, monitorId, limit)
    {
      out := [];
      ghost var all := samples[..sampleCount];
      for i := 0 to sampleCount
        invariant out == OfMonitor(all[..i], monitorId)
      {
        assert all[..i + 1][..i] == all[..i];
        if samples[i].monitorId == monitorId {
          out := out + [samples[i]];
        }
      }
      assert all[..sampleCount] == all;
      out := SortBy(out, Samples.Newer);
      if limit > 0 && |out| > limit {
        out := out[..limit];
      }
    }
  }

  lemma {:induction false} SelectAll(s: seq<CleanAlert>)
    ensures Select(s, NO_FILTER) == s
  {
    if s != [] {
      SelectAll(s[..|s| - 1]);
    }
  }

  // What the compaction has kept after i samples.
  ghost function KeptOf(s: seq<EnvSample>, i: nat, monitorId: string, excess: nat): seq<EnvSample>
    requires i <= |s|
  {
    Keep(s[..i], monitorId, |OfMonitor(s[..i], monitorId)| - DroppedOf(s, i, monitorId, excess))
  }

  /** Compacts the first n samples into their own array, dropping the oldest `excess` ones of the monitor zone. */
  method Compact(samples: array<EnvSample>, n: nat, monitorId: string, excess: nat) returns (kept: nat)
    requires n <= samples.Length
    modifies samples
    ensures kept <= n && samples[..kept] == KeptOf(old(samples[..n]), n, monitorId, excess)
  {
    ghost var all := samples[..n];
    ghost var out := [];
    var removed := 0;
    kept := 0;
    assert DroppedOf(all, 0, monitorId, excess) == 0 && KeptOf(all, 0, monitorId, excess) == [];
    hide *;
    for i := 0 to n
      invariant |out| == kept <= i
      invariant removed == DroppedOf(all, i, monitorId, excess)
      invariant out == KeptOf(all, i, monitorId, excess)
      invariant forall k :: 0 <= k < kept ==> samples[k] == out[k]
      invariant forall k :: i <= k < n ==> samples[k] == all[k]
    {
      KeptExtends(all, i, monitorId, excess);
      if samples[i].monitorId == monitorId && removed < excess {
        removed := removed + 1;
      } else {
        samples[kept] := samples[i];
        out := out + [all[i]];
        kept := kept + 1;
      }
    }
    assert samples[..kept] == out;
  }

  ghost function DroppedOf(s: seq<EnvSample>, i: nat, monitorId: string, excess: nat): nat
    requires i <= |s|
  {
    Min(|OfMonitor(s[..i], monitorId)|, excess)
  }

  lemma KeptExtends(s: seq<EnvSample>, i: nat, monitorId: string, excess: nat)
    requires i < |s|
    ensures var drop := s[i].monitorId == monitorId && DroppedOf(s, i, monitorId, excess) < excess;
            && DroppedOf(s, i + 1, monitorId, excess) == DroppedOf(s, i, monitorId, excess) + (if drop then 1 else 0)
            && KeptOf(s, i + 1, monitorId, excess) == KeptOf(s, i, monitorId, excess) + (if drop then [] else [s[i]])
  {
    assert s[..i + 1][..i] == s[..i];
  }

  lemma {:induction false} KeepAll(s: seq<EnvSample>, monitorId: string, budget: nat)
    requires |OfMonitor(s, monitorId)| <= budget
    ensures Keep(s, monitorId, budget) == s
  {
    if s != [] {
      var front, last := s[..|s| - 1], s[|s| - 1];
      KeepAll(front, monitorId, if last.monitorId == monitorId then budget - 1 else budget);
    }
  }
}
