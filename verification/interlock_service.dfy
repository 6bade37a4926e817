/** Interlock orchestration with the whole-physical-area rule, and the auto-interlock sweeper. */
module InterlockService {
  import opened Types
  import opened Sequences
  import opened Config
  import opened Zones
  import opened Monitors
  import opened Interlocks
  import opened State
  import opened WellFormedness
  import opened Store
  import opened Writeback

  lemma {:induction false} ServesByLayout(a: seq<CleanZone>, b: seq<CleanZone>, zoneId: string, area: string)
    requires SameLayout(a, b)
    ensures Serves(a, zoneId, area) == Serves(b, zoneId, area)
  {
    if a != [] && a[0].id != zoneId {
      ServesByLayout(a[1..], b[1..], zoneId, area);
    }
  }

  /** Fans and fresh air depend on where the zones are, not on their status. */
  lemma VentilateByLayout(ms: seq<MonitorZone>, a: seq<CleanZone>, b: seq<CleanZone>, area: string, level: int, now: Time)
    requires SameLayout(a, b)
    ensures Ventilate(ms, a, area, level, now) == Ventilate(ms, b, area, level, now)
  {
    forall i | 0 <= i < |ms|
      ensures Serves(a, ms[i].zoneId, area) == Serves(b, ms[i].zoneId, area)
    {
      ServesByLayout(a, b, ms[i].zoneId, area);
    }
  }

  lemma ServesInArea(zs: seq<CleanZone>, zoneId: string, area: string)
    requires UniqueZones(zs)
    ensures Serves(zs, zoneId, area) <==> exists z :: z in InArea(zs, area) && z.id == zoneId
  {
    forall z | z in InArea(zs, area) && z.id == zoneId
      ensures Serves(zs, zoneId, area)
    {
      var k :| 0 <= k < |zs| && zs[k] == z;
      assert ZoneIndex(zs, zoneId) == k;
    }
    if Serves(zs, zoneId, area) {
      assert FindZone(zs, zoneId).value in InArea(zs, area);
    }
  }

  /** Moves the whole physical area of the zone to interlocked, ventilates it and opens a log. */
  method IssueForArea(st: Store, zoneId: string, trigger: string, reason: string, peakRatio: real, now: Time)
    returns (r: Result<InterlockLog>, areaZones: seq<CleanZone>)
    requires st.Valid() && PlantOk(st.Snapshot())
    modifies st`zones, st`monitors, st`logs, st`seqs
    ensures st.Valid() && (st.Snapshot(), r) == Issue(old(st.Snapshot()), zoneId, trigger, reason, peakRatio, now)
    ensures r.Ok? ==> areaZones == InArea(st.zones, r.value.area)
  {
    hide PlantOk, InterlockArea, Ventilate, InArea, ZoneIndex, LevelForRatio;
    areaZones := [];
    var found := st.GetCleanZone(zoneId);
    if found.Err? {
      return Err(found.error), [];
    }
    var zone := found.value;
    areaZones := VentilateArea(st, zone, trigger, reason, peakRatio, now);
    r := Ok(st.logs[|st.logs| - 1]);
  }

  method VentilateArea(st: Store, zone: CleanZone, trigger: string, reason: string, peakRatio: real, now: Time)
    returns (areaZones: seq<CleanZone>)
    requires st.Valid() && PlantOk(st.Snapshot())
    modifies st`zones, st`monitors, st`logs, st`seqs
    ensures st.Snapshot() == IssueFor(old(st.Snapshot()), zone, trigger, reason, peakRatio, now)
    ensures areaZones == InArea(st.zones, zone.area)
  {
    hide UniqueZones, ZonesValid, UniqueMonitors, MonitorsValid, MonitorsPlaced, UniqueLogs, LogIdsUsed;
    hide InterlockArea, Ventilate, InArea, ZoneIds, SameLayout, LevelForRatio, NextId, Bump, Serves, ZoneIndex, ActionsForLevel;
    ghost var zones, monitors := st.zones, st.monitors;
    LayoutKept(zones, zone.area, now);
    var affected;
    areaZones, affected := InterlockZones(st, zone.area, now);
    var level := LevelForRatio(peakRatio);
    var actions := ActionsForLevel(level);
    ApplyInterlockCommands(st, zone.area, actions, level, now);
    VentilateByLayout(monitors, zones, st.zones, zone.area, level, now);
    FansComeFirst(level);
    OpenLog(st, zone, trigger, affected, actions[0], level, reason, peakRatio, now);
  }

  lemma FansComeFirst(level: int)
    ensures var actions := ActionsForLevel(level); actions != [] && actions[0] == FFUSpeedUp
  {
  }

  method OpenLog(st: Store, zone: CleanZone, trigger: string, affected: seq<string>, action: Action, level: int,
                 reason: string, peakRatio: real, now: Time)
    modifies st`logs, st`seqs
    ensures st.seqs == Bump(old(st.seqs), INTERLOCK_IDS)
    ensures st.logs == old(st.logs) + [NewInterlockLog(NextId(old(st.seqs), INTERLOCK_IDS), zone.id, zone.area, trigger,
                                                       affected, action, level, reason, peakRatio, now)]
  {
    var id := st.NewID(INTERLOCK_IDS);
    st.CreateInterlock(NewInterlockLog(id, zone.id, zone.area, trigger, affected, action, level, reason, peakRatio, now));
  }

  lemma LayoutKept(zs: seq<CleanZone>, area: string, now: Time)
    ensures SameLayout(zs, InterlockArea(zs, area, now))
    ensures UniqueZones(zs) ==> UniqueZones(InterlockArea(zs, area, now))
  {
  }

  /** Moves every zone of the area to interlocked and collects the affected zone ids. */
  method InterlockZones(st: Store, area: string, now: Time) returns (areaZones: seq<CleanZone>, affected: seq<string>)
    requires UniqueZones(st.zones) && ZonesValid(st.zones)
    modifies st`zones
    ensures st.zones == InterlockArea(old(st.zones), area, now)
    ensures areaZones == InArea(st.zones, area)
    ensures affected == ZoneIds(InArea(old(st.zones), area))
  {
    hide UniqueZones, ZonesValid, CleanZone.Valid, InArea, InterlockedUpTo, ZoneIds;
    areaZones := st.ListByPhysicalArea(area);
    ghost var before, listed := st.zones, areaZones;
    affected := [];
    assert ZonesMoved(before, {}, Interlocked, now) == before;
    ElementsEnds(listed);
    InterlockedEnds(listed, area, now);
    hide ZonesMoved, PutZone, FindZone, InterlockArea, Moved, CanTransition, Elements;
    for i := 0 to |areaZones|
      invariant areaZones == InterlockedUpTo(listed, i, now) && affected == ZoneIds(listed[..i])
      invariant st.zones == ZonesMoved(before, Elements(listed[..i]), Interlocked, now)
    {
      InterlockedExtends(listed, i, now);
      var z := areaZones[i];
      EveryStatusInterlocks(z, now);
      ElementsExtend(listed, i);
      ZoneWritten(before, Elements(listed[..i]), z, Interlocked, now);
      MovedStaysValid(before, z, Interlocked, now);
      affected := affected + [z.id];
      if z.status == Interlocked {
        continue;
      }
      assert CanTransition(z.status, Interlocked);
      z := z.SetStatus(Interlocked, now);
      areaZones := areaZones[i := z];
      var updated := st.UpdateCleanZone(z);
      assert updated.Ok?;
    }
    MovedIsInterlocked(before, Elements(listed), area, now);
    InAreaOfInterlocked(before, area, now);
  }

  // The list of copies once the first n of them have been interlocked.
  ghost function InterlockedUpTo(listed: seq<CleanZone>, n: nat, now: Time): (r: seq<CleanZone>)
    ensures |r| == |listed|
  {
    seq(|listed|, k requires 0 <= k < |listed| => if k < n then Moved(listed[k], Interlocked, now) else listed[k])
  }

  lemma InterlockedExtends(listed: seq<CleanZone>, n: nat, now: Time)
    requires n < |listed|
    ensures InterlockedUpTo(listed, n, now)[n] == listed[n]
    ensures InterlockedUpTo(listed, n + 1, now) == InterlockedUpTo(listed, n, now)[n := Moved(listed[n], Interlocked, now)]
    ensures ZoneIds(listed[..n + 1]) == ZoneIds(listed[..n]) + [listed[n].id]
  {
    hide Moved;
  }

  lemma InterlockedEnds(listed: seq<CleanZone>, area: string, now: Time)
    requires forall z :: z in listed ==> z.area == area
    ensures InterlockedUpTo(listed, 0, now) == listed && ZoneIds(listed[..0]) == [] && listed[..|listed|] == listed
    ensures InterlockedUpTo(listed, |listed|, now) == InterlockArea(listed, area, now)
  {
    assert forall k :: 0 <= k < |listed| ==> listed[k] in listed;
  }

  // The conflict branch of the source is never taken.
  lemma EveryStatusInterlocks(z: CleanZone, now: Time)
    ensures CanTransition(z.status, Interlocked) && Moved(z, Interlocked, now) == z.SetStatus(Interlocked, now)
  {
  }

  lemma MovedIsInterlocked(zs: seq<CleanZone>, done: set<CleanZone>, area: string, now: Time)
    requires forall z :: z in zs ==> (z in done <==> z.area == area)
    ensures ZonesMoved(zs, done, Interlocked, now) == InterlockArea(zs, area, now)
  {
    assert forall i :: 0 <= i < |zs| ==> zs[i] in zs;
  }

  lemma InAreaUnfolds(zs: seq<CleanZone>, z: CleanZone, area: string)
    ensures InArea(zs + [z], area) == if z.area == area then InArea(zs, area) + [z] else InArea(zs, area)
  {
    assert (zs + [z])[..|zs|] == zs;
    if z.area != area {
      assert InArea(zs + [z], area) == InArea(zs, area);
    }
  }

  lemma InAreaNone(area: string, now: Time)
    ensures InArea([], area) == [] && InterlockArea([], area, now) == [] && RestoreArea([], area, now) == []
  {
  }

  lemma AreaUnfolds(zs: seq<CleanZone>, z: CleanZone, area: string, now: Time)
    ensures InterlockArea(zs + [z], area, now) == InterlockArea(zs, area, now) + [InterlockOne(z, area, now)]
    ensures RestoreArea(zs + [z], area, now) == RestoreArea(zs, area, now) + [RestoreOne(z, area, now)]
    ensures InterlockOne(z, area, now).area == RestoreOne(z, area, now).area == z.area
  {
  }

  lemma {:induction false} InAreaOfInterlocked(zs: seq<CleanZone>, area: string, now: Time)
    ensures InArea(InterlockArea(zs, area, now), area) == InterlockArea(InArea(zs, area), area, now)
  {
    hide InArea, InterlockArea, InterlockOne;
    if zs == [] {
      InAreaNone(area, now);
    } else {
      var front, last := zs[..|zs| - 1], zs[|zs| - 1];
      InAreaOfInterlocked(front, area, now);
      assert zs == front + [last];
      AreaUnfolds(front, last, area, now);
      AreaUnfolds(InArea(front, area), last, area, now);
      InAreaUnfolds(front, last, area);
      InAreaUnfolds(InterlockArea(front, area, now), InterlockOne(last, area, now), area);
    }
  }

  /** Sends the command set to every monitor zone of the area. */
  method ApplyInterlockCommands(st: Store, area: string, actions: seq<Action>, level: int, now: Time)
    requires UniqueZones(st.zones) && UniqueMonitors(st.monitors) && MonitorsValid(st.monitors)
    requires level >= 1 && actions == ActionsForLevel(level)
    modifies st`monitors
    ensures st.monitors == Ventilate(old(st.monitors), st.zones, area, level, now)
  {
    hide UniqueZones, UniqueMonitors, MonitorsValid, MonitorZone.Valid, Serves, InArea, Ventilated;
    var zones := st.ListByPhysicalArea(area);
    var zoneIds := {};
    for i := 0 to |zones|
      invariant zoneIds == set k | 0 <= k < i :: zones[k].id
    {
      zoneIds := zoneIds + {zones[i].id};
    }
    var monitors := st.monitors;
    for i := 0 to |monitors|
      invariant st.monitors == VentilatedUpTo(monitors, i, st.zones, area, level, now)
    {
      MonitorWritten(monitors, i, st.zones, area, level, now);
      ServesInArea(st.zones, monitors[i].zoneId, area);
      var m := monitors[i];
      if m.zoneId !in zoneIds {
        continue;
      }
      m := Obey(m, actions, level, now);
      var updated := st.UpdateMonitorZone(m);
      assert updated.Ok?;
    }
    assert st.monitors == Ventilate(monitors, st.zones, area, level, now);
  }

  /** Confirms recovery: the interlocked zones of the area become restored and its open logs close. */
  method RestoreZone(st: Store, zoneId: string, operator: string, note: string, now: Time)
    returns (r: Result<seq<CleanZone>>)
    requires st.Valid() && PlantOk(st.Snapshot())
    modifies st`zones, st`logs
    ensures st.Valid() && (st.Snapshot(), r) == Restore(old(st.Snapshot()), zoneId, operator, note, now)
  {
    hide UniqueZones, ZonesValid, UniqueMonitors, MonitorsValid, MonitorsPlaced, UniqueLogs, LogIdsUsed;
    hide RestoreArea, CloseArea, InArea, RestoredOnly;
    var found := st.GetCleanZone(zoneId);
    if found.Err? {
      return Err(found.error);
    }
    var zone := found.value;
    if !CanTransition(zone.status, Restored) {
      return Err(Conflict);
    }
    var restored := RestoreZones(st, zone.area, now);
    CloseLogs(st, zone.area, operator, note, now);
    r := Ok(restored);
  }

  /** Moves every interlocked zone of the area to restored and lists the restored ones. */
  method RestoreZones(st: Store, area: string, now: Time) returns (restored: seq<CleanZone>)
    requires UniqueZones(st.zones) && ZonesValid(st.zones)
    modifies st`zones
    ensures st.zones == RestoreArea(old(st.zones), area, now)
    ensures restored == RestoredOnly(InArea(st.zones, area))
  {
    hide UniqueZones, ZonesValid, CleanZone.Valid, InArea;
    var areaZones := st.ListByPhysicalArea(area);
    ghost var before := st.zones;
    restored := [];
    ElementsEnds(areaZones);
    assert ZonesMoved(before, {}, Restored, now) == before && RestoredSoFar(areaZones, 0, area, now) == [];
    hide RestoredOnly, RestoreArea, RestoredSoFar, ZonesMoved, PutZone, FindZone, Moved, CanTransition,
         Elements;
    for i := 0 to |areaZones|
      invariant st.zones == ZonesMoved(before, Elements(areaZones[..i]), Restored, now)
      invariant restored == RestoredSoFar(areaZones, i, area, now)
    {
      var z := areaZones[i];
      RestoreMoves(z, now);
      RestoredExtends(areaZones, i, area, now);
      ElementsExtend(areaZones, i);
      ZoneWritten(before, Elements(areaZones[..i]), z, Restored, now);
      MovedStaysValid(before, z, Restored, now);
      if z.status == Restored {
        restored := restored + [z];
        continue;
      }
      if !CanTransition(z.status, Restored) {
        continue;
      }
      z := z.SetStatus(Restored, now);
      var updated := st.UpdateCleanZone(z);
      assert updated.Ok?;
      restored := restored + [z];
    }
    AllRestored(before, areaZones, Elements(areaZones), area, now);
  }

  lemma RestoreMoves(z: CleanZone, now: Time)
    ensures Moved(z, Restored, now) == if CanTransition(z.status, Restored) then z.SetStatus(Restored, now) else z
    ensures z.status == Restored ==> CanTransition(z.status, Restored)
  {
  }

  // Once the whole list has been written back.
  lemma AllRestored(before: seq<CleanZone>, areaZones: seq<CleanZone>, done: set<CleanZone>, area: string, now: Time)
    requires areaZones == InArea(before, area)
    requires forall z :: z in done <==> z in areaZones
    ensures ZonesMoved(before, done, Restored, now) == RestoreArea(before, area, now)
    ensures RestoredSoFar(areaZones, |areaZones|, area, now) == RestoredOnly(InArea(RestoreArea(before, area, now), area))
  {
    assert areaZones[..|areaZones|] == areaZones;
    MovedIsRestored(before, done, area, now);
    InAreaOfRestored(before, area, now);
    hide ZonesMoved, RestoreArea, RestoredOnly, InArea;
  }

  lemma MovedIsRestored(zs: seq<CleanZone>, done: set<CleanZone>, area: string, now: Time)
    requires forall z :: z in zs ==> (z in done <==> z.area == area)
    ensures ZonesMoved(zs, done, Restored, now) == RestoreArea(zs, area, now)
  {
    assert forall i :: 0 <= i < |zs| ==> zs[i] in zs;
  }

  ghost function RestoredSoFar(zs: seq<CleanZone>, i: nat, area: string, now: Time): seq<CleanZone>
    requires i <= |zs|
  {
    RestoredOnly(RestoreArea(zs[..i], area, now))
  }

  lemma RestoredExtends(zs: seq<CleanZone>, i: nat, area: string, now: Time)
    requires i < |zs| && zs[i].area == area
    ensures var z := Moved(zs[i], Restored, now);
            RestoredSoFar(zs, i + 1, area, now) == RestoredSoFar(zs, i, area, now) + (if z.status == Restored then [z] else [])
  {
    assert RestoreArea(zs[..i + 1], area, now)[..i] == RestoreArea(zs[..i], area, now);
  }

  lemma {:induction false} InAreaOfRestored(zs: seq<CleanZone>, area: string, now: Time)
    ensures InArea(RestoreArea(zs, area, now), area) == RestoreArea(InArea(zs, area), area, now)
  {
    hide InArea, RestoreArea, RestoreOne;
    if zs == [] {
      InAreaNone(area, now);
    } else {
      var front, last := zs[..|zs| - 1], zs[|zs| - 1];
      InAreaOfRestored(front, area, now);
      assert zs == front + [last];
      AreaUnfolds(front, last, area, now);
      AreaUnfolds(InArea(front, area), last, area, now);
      InAreaUnfolds(front, last, area);
      InAreaUnfolds(RestoreArea(front, area, now), RestoreOne(last, area, now), area);
    }
  }

  /** Closes every open log of the area, in the order the logs are listed. */
  method CloseLogs(st: Store, area: string, operator: string, note: string, now: Time)
    requires UniqueLogs(st.logs)
    modifies st`logs
    ensures st.logs == CloseArea(old(st.logs), area, operator, note, now)
  {
    hide UniqueLogs, SortBy, Elements;
    var logs := st.ListInterlocks();
    ghost var before := st.logs;
    ElementsEnds(logs);
    SortKeepsMembers(before, Interlocks.Newer);
    for i := 0 to |logs|
      invariant st.logs == LogsClosed(before, Elements(logs[..i]), area, operator, note, now)
    {
      var l := logs[i];
      ElementsExtend(logs, i);
      LogWritten(before, Elements(logs[..i]), l, area, operator, note, now);
      if !l.IsOpen() || l.area != area {
        continue;
      }
      l := l.Close(operator, note, now);
      var updated := st.UpdateInterlock(l);
      assert updated.Ok?;
    }
    assert forall k :: 0 <= k < |before| ==> before[k] in logs;
    assert st.logs == CloseArea(before, area, operator, note, now);
  }

  /** The zones that stayed elevated or over limit for the auto-interlock timeout. */
  method AutoInterlockCandidates(cfg: Config, st: Store, tick: Time) returns (out: seq<CleanZone>)
    ensures out == Candidates(cfg, st.zones, tick)
  {
    out := [];
    var zones := st.zones;
    for i := 0 to |zones|
      invariant out == Candidates(cfg, zones[..i], tick)
    {
      assert zones[..i + 1][..i] == zones[..i];
      var z := zones[i];
      if z.status != Elevated && z.status != OverLimit {
        continue;
      }
      if tick - z.since >= cfg.autoInterlockAfter {
        out := out + [z];
      }
    }
    assert zones[..|zones|] == zones;
  }

  /** Interlocks the area of every candidate; returns how many triggered. */
  method Sweep(cfg: Config, st: Store, tick: Time, now: Time) returns (triggered: nat)
    requires st.Valid() && PlantOk(st.Snapshot())
    modifies st`zones, st`monitors, st`logs, st`seqs
    ensures st.Valid() && st.Snapshot() == ZoneSweep(cfg, old(st.Snapshot()), tick, now)
    ensures triggered == |Candidates(cfg, old(st.zones), tick)|
  {
    hide PlantOk, Candidates, IssueFor;
    var candidates := AutoInterlockCandidates(cfg, st, tick);
    triggered := 0;
    for i := 0 to |candidates|
      invariant st.Valid() && triggered == i
      invariant PlantOk(st.Snapshot())
      invariant forall z :: z in candidates ==> FindZone(st.zones, z.id).Some?
      invariant SweepFrom(st.Snapshot(), candidates[i..], now) == ZoneSweep(cfg, old(st.Snapshot()), tick, now)
    {
      var z := candidates[i];
      assert candidates[i..][0] == z && candidates[i..][1..] == candidates[i + 1..];
      var monitors := st.ListByCleanZone(z.id);
      var trigger := if |monitors| > 0 then monitors[0].id else "";
      var ratio := z.ratio;
      if ratio < 1.0 {
        ratio := 1.0;
      }
      IssueKeepsPlantOk(st.Snapshot(), z.id, trigger, AUTO_REASON, ratio, now);
      var r, _ := IssueForArea(st, z.id, trigger, AUTO_REASON, ratio, now);
      assert r.Ok?;
      triggered := triggered + 1;
    }
  }
}
