/** Readings judged invalid have no influence on the plant, however many of them a run contains. */
module Inert {
  import opened Types
  import opened Config
  import opened Zones
  import opened Monitors
  import opened State
  import opened Runs
  import opened Plants
  import opened InterlockInvariants
  import opened Evolution
  import opened InterlockTheorems

  // ---- The plant after a step depends on the plant before it only -------------------------------

  lemma IssueLike(a: State, b: State, zoneId: string, trigger: string, reason: string, ratio: real, now: Time)
    requires PlantOf(a) == PlantOf(b)
    ensures PlantOf(Issue(a, zoneId, trigger, reason, ratio, now).0) == PlantOf(Issue(b, zoneId, trigger, reason, ratio, now).0)
  {
    hide InterlockArea, Ventilate, InArea, ZoneIds, ZoneIndex;
  }

  lemma {:induction false} SweepLike(a: State, b: State, candidates: seq<CleanZone>, now: Time)
    requires PlantOf(a) == PlantOf(b)
    ensures PlantOf(SweepFrom(a, candidates, now)) == PlantOf(SweepFrom(b, candidates, now))
    decreases |candidates|
  {
    if candidates != [] {
      var z := candidates[0];
      IssueLike(a, b, z.id, FirstMonitor(a.monitors, z.id), AUTO_REASON, SweepRatio(z), now);
      SweepUnfolds(a, candidates, now);
      SweepUnfolds(b, candidates, now);
      hide Issue, FirstMonitor, SweepRatio, SweepFrom;
      SweepLike(Strike(a, z, now), Strike(b, z, now), candidates[1..], now);
    }
  }

  lemma ReportLike(cfg: Config, a: State, b: State, req: IngestRequest, now: Time)
    requires PlantOf(a) == PlantOf(b)
    ensures PlantOf(ProcessSample(cfg, a, req, now).0) == PlantOf(ProcessSample(cfg, b, req, now).0)
  {
    hide ProcessSample, MovePlant, RatioOf, MonitorIndex, ZoneIndex;
    ReportOnPlant(cfg, a, req, now);
    ReportOnPlant(cfg, b, req, now);
    var j := Judge(a, req, now);
    if j.Judged? && j.valid {
      MovePlantLike(cfg, a, b, j.zone, j.monitor, j.ratio, now);
    }
  }

  lemma ChoiceLike(a: State, b: State, prefix: string, id: string)
    requires PlantOf(a) == PlantOf(b) && prefix in {ZONE_IDS, MONITOR_IDS}
    ensures ChosenId(a.seqs, prefix, id) == ChosenId(b.seqs, prefix, id)
    ensures PlantOf(a.(seqs := SeqsAfterChoice(a.seqs, prefix, id))) == PlantOf(b.(seqs := SeqsAfterChoice(b.seqs, prefix, id)))
  {
  }

  lemma NewZoneLike(a: State, b: State, z: CleanZone)
    requires PlantOf(a) == PlantOf(b)
    ensures PlantOf(CreateZone(a, z).0) == PlantOf(CreateZone(b, z).0)
  {
    hide CleanZone.Valid, ZoneIndex;
  }

  lemma NewMonitorLike(a: State, b: State, m: MonitorZone)
    requires PlantOf(a) == PlantOf(b)
    ensures PlantOf(CreateMonitor(a, m).0) == PlantOf(CreateMonitor(b, m).0)
  {
    hide MonitorZone.Valid, CounterTaken, ZoneIndex, MonitorIndex;
  }

  lemma CreationLike(cfg: Config, a: State, b: State, step: Step)
    requires PlantOf(a) == PlantOf(b) && (step.AddZone? || step.AddMonitor?)
    ensures PlantOf(Apply(cfg, a, step)) == PlantOf(Apply(cfg, b, step))
  {
    hide PlantOf, CreateZone, CreateMonitor, ChosenId, SeqsAfterChoice;
    match step
    case AddZone(now, id, name, area, iso, process) =>
      ChoiceLike(a, b, ZONE_IDS, id);
      NewZoneLike(a.(seqs := SeqsAfterChoice(a.seqs, ZONE_IDS, id)), b.(seqs := SeqsAfterChoice(b.seqs, ZONE_IDS, id)),
                  NewCleanZone(ChosenId(a.seqs, ZONE_IDS, id), name, area, iso, process, now));
    case AddMonitor(now, id, zoneId, name, counterId, thresholds, due) =>
      ChoiceLike(a, b, MONITOR_IDS, id);
      NewMonitorLike(a.(seqs := SeqsAfterChoice(a.seqs, MONITOR_IDS, id)), b.(seqs := SeqsAfterChoice(b.seqs, MONITOR_IDS, id)),
                     NewMonitorZone(ChosenId(a.seqs, MONITOR_IDS, id), zoneId, name, counterId, thresholds, due, now));
  }

  lemma OtherLike(cfg: Config, a: State, b: State, step: Step)
    requires PlantOf(a) == PlantOf(b) && (step.Maintain? || step.Calibrate? || step.Confirm?)
    ensures PlantOf(Apply(cfg, a, step)) == PlantOf(Apply(cfg, b, step))
  {
    hide ZoneIndex, MonitorIndex, RestoreArea, CloseArea, InArea, RestoredOnly;
  }

  /** Two states with one plant have one plant after any step: alerts and samples steer nothing. */
  lemma StepLike(cfg: Config, a: State, b: State, step: Step)
    requires PlantOf(a) == PlantOf(b)
    ensures PlantOf(Apply(cfg, a, step)) == PlantOf(Apply(cfg, b, step))
  {
    hide ProcessSample, Issue, SweepFrom, Candidates, FirstMonitor;
    match step
    case AddZone(_, _, _, _, _, _) => CreationLike(cfg, a, b, step);
    case AddMonitor(_, _, _, _, _, _, _) => CreationLike(cfg, a, b, step);
    case Report(_, req) => ReportLike(cfg, a, b, req, step.now);
    case Interlock(_, zoneId, trigger, reason, ratio) =>
      IssueLike(a, b, zoneId, ManualTrigger(a, zoneId, trigger), ManualReason(reason), ManualRatio(ratio), step.now);
    case SweepZones(_, tick) => SweepLike(a, b, Candidates(cfg, a.zones, tick), step.now);
    case Maintain(_, _, _, _) => OtherLike(cfg, a, b, step);
    case Calibrate(_, _, _) => OtherLike(cfg, a, b, step);
    case Confirm(_, _, _, _) => OtherLike(cfg, a, b, step);
    case _ =>
      AlertStepsKeepPlant(cfg, a, step);
      AlertStepsKeepPlant(cfg, b, step);
  }

  // ---- Over whole runs --------------------------------------------------------------------------

  // The step is a report of a known monitor zone that is judged invalid in the state it meets.
  ghost predicate Rejected(st: State, step: Step) {
    step.Report? && var j := Judge(st, step.req, step.now); j.Judged? && !j.valid
  }

  // The run without the steps at these positions.
  function Without(run: seq<Step>, dropped: set<nat>): seq<Step> {
    if run == [] then []
    else
      var front, last := run[..|run| - 1], run[|run| - 1];
      Without(front, dropped) + (if |run| - 1 in dropped then [] else [last])
  }

  /**
   Deleting any of the readings judged invalid, or all of them, from any run leaves zones, monitor zones and
   interlock logs exactly as they were, generated ids included.
   */
  lemma {:induction false} InvalidReadingsAreInert(cfg: Config, run: seq<Step>, dropped: set<nat>)
    requires forall n :: n in dropped && n < |run| ==> Rejected(At(cfg, run, n), run[n])
    ensures PlantOf(Exec(cfg, Without(run, dropped))) == PlantOf(Exec(cfg, run))
  {
    hide Apply, PlantOf, Rejected;
    if run != [] {
      var front, last := run[..|run| - 1], run[|run| - 1];
      var shorter := Without(front, dropped);
      forall n | n in dropped && n < |front|
        ensures Rejected(At(cfg, front, n), front[n])
      {
        assert front[..n] == run[..n];
        assert Rejected(At(cfg, run, n), run[n]);
      }
      InvalidReadingsAreInert(cfg, front, dropped);
      if |run| - 1 in dropped {
        assert Rejected(At(cfg, run, |front|), run[|front|]);
        RejectedChangesNothing(cfg, Exec(cfg, front), last);
        assert Without(run, dropped) == shorter;
      } else {
        assert Without(run, dropped)[..|shorter|] == shorter;
        StepLike(cfg, Exec(cfg, shorter), Exec(cfg, front), last);
      }
    }
  }

  lemma RejectedChangesNothing(cfg: Config, st: State, step: Step)
    requires Rejected(st, step)
    ensures PlantOf(Apply(cfg, st, step)) == PlantOf(st)
  {
    hide ProcessSample, MovePlant, RatioOf, PlantOf;
    ReportOnPlant(cfg, st, step.req, step.now);
  }
}
