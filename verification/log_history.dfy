/** What every interlock log of every reachable state looks like, and the order the logs are in. */
module LogHistory {
  import opened Types
  import opened Sequences
  import opened Config
  import opened Zones
  import opened Monitors
  import opened Interlocks
  import opened State
  import opened Runs
  import opened Plants
  import opened WellFormedness
  import opened InterlockInvariants
  import opened Evolution
  import opened InterlockTheorems
  import opened Ventilation

  /** The command strength is the whole part of the ratio, held between 1 and 3. */
  lemma LevelIsWholeRatio(ratio: real)
    ensures LevelForRatio(ratio) == Min(3, Max(1, ratio.Floor))
  {
  }

  /** The command set: fans and fresh air always, the exhaust from level 2 on. */
  lemma CommandsOfLevel(level: int)
    ensures ActionsForLevel(level) ==
            if level < 2 then [FFUSpeedUp, FreshAirIncrease] else [FFUSpeedUp, FreshAirIncrease, ExhaustIncrease]
  {
  }

  // One log by itself, at `now`.
  ghost predicate LogOk(l: InterlockLog, now: Time) {
    && l.peakRatio >= 1.0 && l.level == Min(3, Max(1, l.peakRatio.Floor))
    && l.zoneId in l.affected
    && l.issuedAt <= now
    && (l.restoredAt.Some? ==> l.issuedAt <= l.restoredAt.value <= now && l.restoreNote != "")
  }

  ghost predicate LogsOk(logs: seq<InterlockLog>, now: Time) {
    && (forall i :: 0 <= i < |logs| ==> LogOk(logs[i], now))
    && (forall i, j :: 0 <= i < j < |logs| ==> logs[i].issuedAt <= logs[j].issuedAt)
  }

  lemma LogsOkLater(logs: seq<InterlockLog>, now: Time, later: Time)
    requires LogsOk(logs, now) && now <= later
    ensures LogsOk(logs, later)
  {
  }

  lemma NewLogOk(st: State, z: CleanZone, trigger: string, reason: string, ratio: real, now: Time)
    requires z in st.zones && ratio >= 1.0
    ensures LogOk(LogFor(st, z, trigger, reason, ratio, now), now)
  {
    var own := InArea(st.zones, z.area);
    assert z in own;
    var k :| 0 <= k < |own| && own[k] == z;
    assert ZoneIds(own)[k] == z.id;
  }

  lemma IssueLogsOk(st: State, z: CleanZone, trigger: string, reason: string, ratio: real, now: Time)
    requires z in st.zones && ratio >= 1.0 && LogsOk(st.logs, now)
    ensures LogsOk(IssueFor(st, z, trigger, reason, ratio, now).logs, now)
  {
    NewLogOk(st, z, trigger, reason, ratio, now);
    LogIsIssued(st, z, trigger, reason, ratio, now);
    hide LogFor, LogOk, InterlockArea, Ventilate;
  }

  lemma LogIsIssued(st: State, z: CleanZone, trigger: string, reason: string, ratio: real, now: Time)
    ensures LogFor(st, z, trigger, reason, ratio, now).issuedAt == now
  {
  }

  lemma MoveLogsOk(cfg: Config, st: State, z: CleanZone, m: MonitorZone, ratio: real, now: Time)
    requires cfg.Valid() && FindZone(st.zones, z.id) == Some(z) && LogsOk(st.logs, now)
    ensures LogsOk(MovePlant(cfg, st, z, m, ratio, now).logs, now)
  {
    assert z in st.zones;
    hide IssueFor, LogsOk, PutZone, TargetStatusFromRatio, ZoneIndex;
    if ratio >= 1.0 {
      IssueLogsOk(st, z, m.id, OVER_LIMIT_REASON, ratio, now);
    }
  }

  lemma {:induction false} SweepLogsOk(st: State, candidates: seq<CleanZone>, now: Time)
    requires LogsOk(st.logs, now)
    ensures LogsOk(SweepFrom(st, candidates, now).logs, now)
    decreases |candidates|
  {
    if candidates != [] {
      var z := candidates[0];
      var found, trigger := FindZone(st.zones, z.id), FirstMonitor(st.monitors, z.id);
      hide LogsOk, IssueFor, LogFor, FirstMonitor, ZoneIndex;
      if found.Some? {
        IssueLogsOk(st, found.value, trigger, AUTO_REASON, SweepRatio(z), now);
      }
      SweepLogsOk(Issue(st, z.id, trigger, AUTO_REASON, SweepRatio(z), now).0, candidates[1..], now);
    }
  }

  lemma RestoreLogsOk(st: State, zoneId: string, operator: string, note: string, now: Time)
    requires LogsOk(st.logs, now) && note != ""
    ensures LogsOk(Restore(st, zoneId, operator, note, now).0.logs, now)
  {
    hide ZoneIndex, InArea, RestoredOnly, RestoreArea;
  }

  lemma OtherStepsKeepLogs(cfg: Config, st: State, step: Step)
    requires !step.Report? && !step.Interlock? && !step.Confirm? && !step.SweepZones?
    ensures Apply(cfg, st, step).logs == st.logs
  {
    hide CleanZone.Valid, MonitorZone.Valid, CounterTaken, ZoneIndex, MonitorIndex, AlertIndex, EscalateAll;
  }

  lemma StepLogsOk(cfg: Config, st: State, step: Step)
    requires cfg.Valid() && LogsOk(st.logs, step.now)
    ensures LogsOk(Apply(cfg, st, step).logs, step.now)
  {
    hide LogsOk, ProcessSample, MovePlant, SweepFrom, IssueFor, Candidates, Restore, RatioOf, LogFor;
    match step
    case Report(_, req) =>
      ReportOnPlant(cfg, st, req, step.now);
      var j := Judge(st, req, step.now);
      if j.Judged? {
        MoveLogsOk(cfg, st, j.zone, j.monitor, j.ratio, step.now);
      }
    case Interlock(_, zoneId, trigger, reason, ratio) =>
      var z := FindZone(st.zones, zoneId);
      if z.Some? {
        IssueLogsOk(st, z.value, ManualTrigger(st, zoneId, trigger), ManualReason(reason), ManualRatio(ratio), step.now);
      }
    case Confirm(_, zoneId, operator, note) =>
      if note != "" {
        RestoreLogsOk(st, zoneId, operator, note, step.now);
      }
    case SweepZones(_, tick) => SweepLogsOk(st, Candidates(cfg, st.zones, tick), step.now);
    case _ => OtherStepsKeepLogs(cfg, st, step);
  }

  /**
   In every reachable state the logs are in the order of their issue times; each names its own zone among the
   affected ones, has a peak ratio of at least 1 and the level of its whole part; and a closed one was restored no
   earlier than issued, with a note.
   */
  lemma {:induction false} ReachableLogs(cfg: Config, run: seq<Step>, now: Time)
    requires cfg.Valid() && Clocked(run) && Until(run, now)
    ensures LogsOk(Exec(cfg, run).logs, now)
  {
    if run != [] {
      hide Apply, LogsOk;
      var front, last := run[..|run| - 1], run[|run| - 1];
      ReachableLogs(cfg, front, last.now);
      StepLogsOk(cfg, Exec(cfg, front), last);
      LogsOkLater(Exec(cfg, run).logs, last.now, now);
    }
  }

  // ---- Which zones a log names --------------------------------------------------------------------

  function AreaIds(zs: seq<CleanZone>, area: string): seq<string> {
    ZoneIds(InArea(zs, area))
  }

  // Every log a step adds names the area's zones as they were, and uses up one id.
  ghost predicate LogsAdded(a: State, b: State) {
    && |a.logs| <= |b.logs|
    && (forall k :: |a.logs| <= k < |b.logs| ==> b.logs[k].affected == AreaIds(a.zones, b.logs[k].area))
    && Issued(b.seqs, INTERLOCK_IDS) - |b.logs| == Issued(a.seqs, INTERLOCK_IDS) - |a.logs|
  }

  lemma {:induction false} AreaIdsLike(a: seq<CleanZone>, b: seq<CleanZone>, area: string)
    requires SameLayout(a, b)
    ensures AreaIds(a, area) == AreaIds(b, area)
  {
    if a != [] {
      AreaIdsLike(a[..|a| - 1], b[..|b| - 1], area);
      AreaIdsUnfold(a, area);
      AreaIdsUnfold(b, area);
      hide AreaIds;
    }
  }

  lemma AreaIdsUnfold(zs: seq<CleanZone>, area: string)
    requires zs != []
    ensures var front, last := zs[..|zs| - 1], zs[|zs| - 1];
            AreaIds(zs, area) == if last.area == area then AreaIds(front, area) + [last.id] else AreaIds(front, area)
  {
    var own := InArea(zs, area);
    if zs[|zs| - 1].area == area {
      assert own[..|own| - 1] == InArea(zs[..|zs| - 1], area);
    } else {
      assert own == InArea(zs[..|zs| - 1], area);
    }
  }

  lemma IssueAdds(st: State, zoneId: string, trigger: string, reason: string, ratio: real, now: Time)
    ensures var next := Issue(st, zoneId, trigger, reason, ratio, now).0;
            LogsAdded(st, next) && SameLayout(st.zones, next.zones) && st.logs <= next.logs
  {
    hide Ventilate, InArea, ZoneIds, NextId, ZoneIndex, LevelForRatio;
  }

  lemma AddedTwice(a: State, b: State, c: State)
    requires LogsAdded(a, b) && SameLayout(a.zones, b.zones) && LogsAdded(b, c) && b.logs <= c.logs
    ensures LogsAdded(a, c)
  {
    hide AreaIds;
    forall k | |a.logs| <= k < |c.logs|
      ensures c.logs[k].affected == AreaIds(a.zones, c.logs[k].area)
    {
      AreaIdsLike(a.zones, b.zones, c.logs[k].area);
      if k < |b.logs| {
        assert c.logs[k] == b.logs[k];
      }
    }
  }

  lemma {:induction false} SweepAdds(st: State, candidates: seq<CleanZone>, now: Time)
    ensures var next := SweepFrom(st, candidates, now); LogsAdded(st, next) && st.logs <= next.logs
    decreases |candidates|
  {
    if candidates != [] {
      var z := candidates[0];
      var next := Strike(st, z, now);
      IssueAdds(st, z.id, FirstMonitor(st.monitors, z.id), AUTO_REASON, SweepRatio(z), now);
      SweepUnfolds(st, candidates, now);
      hide Issue, FirstMonitor, SweepRatio, SweepFrom, LogsAdded, SameLayout;
      SweepAdds(next, candidates[1..], now);
      AddedTwice(st, next, SweepFrom(next, candidates[1..], now));
    }
  }

  lemma MoveAdds(cfg: Config, st: State, z: CleanZone, m: MonitorZone, ratio: real, now: Time)
    ensures LogsAdded(st, MovePlant(cfg, st, z, m, ratio, now))
  {
    hide Ventilate, InterlockArea, InArea, ZoneIds, NextId, PutZone, RecordRatio, LevelForRatio, TargetStatusFromRatio;
  }

  lemma OtherStepsAdd(cfg: Config, st: State, step: Step)
    requires !step.Report? && !step.Interlock? && !step.SweepZones?
    ensures LogsAdded(st, Apply(cfg, st, step)) && |Apply(cfg, st, step).logs| == |st.logs|
  {
    hide CleanZone.Valid, MonitorZone.Valid, CounterTaken, ZoneIndex, MonitorIndex, AlertIndex, EscalateAll, RestoreArea, InArea,
         RestoredOnly, NextId, AreaIds;
  }

  lemma StepAdds(cfg: Config, st: State, step: Step)
    ensures LogsAdded(st, Apply(cfg, st, step))
  {
    hide LogsAdded, ProcessSample, MovePlant, SweepFrom, Issue, Candidates, RatioOf, Judge, SameLayout;
    match step
    case Report(_, req) =>
      ReportOnPlant(cfg, st, req, step.now);
      var j, next := Judge(st, req, step.now), ProcessSample(cfg, st, req, step.now).0;
      if j.Judged? && j.valid {
        var moved := MovePlant(cfg, st, j.zone, j.monitor, j.ratio, step.now);
        MoveAdds(cfg, st, j.zone, j.monitor, j.ratio, step.now);
        AddedLike(st, moved, next);
      } else {
        NothingAdded(st);
        AddedLike(st, st, next);
      }
    case Interlock(_, zoneId, trigger, reason, ratio) =>
      IssueAdds(st, zoneId, ManualTrigger(st, zoneId, trigger), ManualReason(reason), ManualRatio(ratio), step.now);
    case SweepZones(_, tick) => SweepAdds(st, Candidates(cfg, st.zones, tick), step.now);
    case _ => OtherStepsAdd(cfg, st, step);
  }

  lemma AddedLike(a: State, b: State, c: State)
    requires LogsAdded(a, b) && PlantOf(b) == PlantOf(c)
    ensures LogsAdded(a, c)
  {
    hide AreaIds;
  }

  lemma NothingAdded(st: State)
    ensures LogsAdded(st, st)
  {
  }

  // For every log of a run, how many zones there were when it was issued.
  ghost function ZonesThen(cfg: Config, run: seq<Step>): seq<nat> {
    if run == [] then []
    else
      var front := run[..|run| - 1];
      ZonesThen(cfg, front) + seq(Max(0, |Exec(cfg, run).logs| - |Exec(cfg, front).logs|), _ => |Exec(cfg, front).zones|)
  }

  // Every log names exactly the area's zones among the first ones, as many as there were at its issue.
  ghost predicate NamedThen(st: State, counts: seq<nat>) {
    && |counts| == |st.logs|
    && forall k :: 0 <= k < |st.logs| ==>
         counts[k] <= |st.zones| && st.logs[k].affected == AreaIds(st.zones[..counts[k]], st.logs[k].area)
  }

  lemma NamedStep(a: State, b: State, counts: seq<nat>, now: Time, confirmed: bool)
    requires NamedThen(a, counts) && LogsAdded(a, b) && Evolves(a, b, now, confirmed)
    ensures NamedThen(b, counts + seq(Max(0, |b.logs| - |a.logs|), _ => |a.zones|))
  {
    hide AreaIds;
    var after := counts + seq(Max(0, |b.logs| - |a.logs|), _ => |a.zones|);
    forall k | 0 <= k < |b.logs|
      ensures after[k] <= |b.zones| && b.logs[k].affected == AreaIds(b.zones[..after[k]], b.logs[k].area)
    {
      if k < |a.logs| {
        assert LogStep(a.logs[k], b.logs[k], confirmed);
        FirstZonesLike(a, b, now, confirmed, counts[k], b.logs[k].area);
      } else {
        FirstZonesLike(a, b, now, confirmed, |a.zones|, b.logs[k].area);
        assert a.zones[..|a.zones|] == a.zones;
      }
    }
  }

  lemma FirstZonesLike(a: State, b: State, now: Time, confirmed: bool, n: nat, area: string)
    requires Evolves(a, b, now, confirmed) && n <= |a.zones|
    ensures n <= |b.zones| && AreaIds(a.zones[..n], area) == AreaIds(b.zones[..n], area)
  {
    assert forall i :: 0 <= i < |a.zones| ==> ZoneStep(a.zones[i], b.zones[i], now, confirmed);
    hide Evolves, AreaIds;
    AreaIdsLike(a.zones[..n], b.zones[..n], area);
  }

  lemma NothingNamed()
    ensures NamedThen(EMPTY, [])
  {
  }

  /**
   In every reachable state each log names exactly the ids of its area's zones that existed when it was issued, in
   store order, and as many interlock ids have been handed out as there are logs: none is ever lost.
   */
  lemma {:induction false} LogsNameTheirArea(cfg: Config, run: seq<Step>)
    requires cfg.Valid() && Clocked(run)
    ensures NamedThen(Exec(cfg, run), ZonesThen(cfg, run))
    ensures Issued(Exec(cfg, run).seqs, INTERLOCK_IDS) == |Exec(cfg, run).logs|
  {
    hide Apply, NamedThen, Evolves, Sound;
    if run != [] {
      var front, last := run[..|run| - 1], run[|run| - 1];
      var a, b := Exec(cfg, front), Exec(cfg, run);
      LogsNameTheirArea(cfg, front);
      ReachableSound(cfg, front, last.now);
      EvolvesFrom(cfg, a, last);
      StepAdds(cfg, a, last);
      NamedStep(a, b, ZonesThen(cfg, front), last.now, last.Confirm?);
    } else {
      NothingNamed();
    }
  }
}
