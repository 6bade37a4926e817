/** How zones and interlock logs change from step to step, whatever the step is. */
module Evolution {
  import opened Types
  import opened Config
  import opened Zones
  import opened Monitors
  import opened Interlocks
  import opened State
  import opened Runs
  import opened Plants
  import opened InterlockInvariants

  // One zone before and after a step at `now`; `confirmed` when the step is a restore confirmation.
  predicate ZoneStep(a: CleanZone, b: CleanZone, now: Time, confirmed: bool) {
    && b == a.(status := b.status, since := b.since, ratio := b.ratio, updatedAt := b.updatedAt)
    && CanTransition(a.status, b.status)
    && (a.status == Interlocked && b.status != Interlocked ==> confirmed && b.status == Restored)
    && b.since == (if a.status == b.status then a.since else now)
    && (a.status == b.status && a.ratio == b.ratio ==> b == a)
    && (b != a ==> b.updatedAt == now)
  }

  // A zone as it is right after its creation at `now`.
  predicate NewZone(z: CleanZone, now: Time) {
    z.status == Normal && z.ratio == 0.0 && z.since == now && z.createdAt == now && z.updatedAt == now
  }

  predicate LogStep(a: InterlockLog, b: InterlockLog, confirmed: bool) {
    b == a || (confirmed && a.IsOpen() && !b.IsOpen()
               && b == a.(restoreBy := b.restoreBy, restoreNote := b.restoreNote, restoredAt := b.restoredAt))
  }

  ghost predicate ZonesStep(a: seq<CleanZone>, b: seq<CleanZone>, now: Time, confirmed: bool) {
    && |a| <= |b|
    && (forall i :: 0 <= i < |a| ==> ZoneStep(a[i], b[i], now, confirmed))
    && (forall i :: |a| <= i < |b| ==> NewZone(b[i], now))
  }

  ghost predicate LogsStep(a: seq<InterlockLog>, b: seq<InterlockLog>, confirmed: bool) {
    |a| <= |b| && forall i :: 0 <= i < |a| ==> LogStep(a[i], b[i], confirmed)
  }

  ghost predicate Evolves(a: State, b: State, now: Time, confirmed: bool) {
    ZonesStep(a.zones, b.zones, now, confirmed) && LogsStep(a.logs, b.logs, confirmed)
  }

  lemma EvolvesLike(a: State, b: State, c: State, now: Time, confirmed: bool)
    requires Evolves(a, b, now, confirmed) && PlantOf(b) == PlantOf(c)
    ensures Evolves(a, c, now, confirmed)
  {
  }

  lemma IssueForEvolves(st: State, z: CleanZone, trigger: string, reason: string, ratio: real, now: Time)
    ensures var next := IssueFor(st, z, trigger, reason, ratio, now);
            && Evolves(st, next, now, false) && |next.zones| == |st.zones|
            && forall i :: 0 <= i < |st.zones| ==> next.zones[i].ratio == st.zones[i].ratio
  {
    hide Ventilate, LogFor;
  }

  lemma MoveZoneEvolves(cfg: Config, st: State, z: CleanZone, m: MonitorZone, ratio: real, now: Time)
    requires UniqueZones(st.zones) && FindZone(st.zones, z.id) == Some(z)
    ensures var moved := MoveZone(cfg, st, z, m, ratio, now);
            && Evolves(st, moved, now, false) && |moved.zones| == |st.zones|
            && forall i :: 0 <= i < |st.zones| ==> moved.zones[i].ratio == st.zones[i].ratio
  {
    hide IssueFor, UniqueZones;
    IssueForEvolves(st, z, m.id, OVER_LIMIT_REASON, ratio, now);
    Unchanged(st, now);
  }

  lemma RecordEvolves(a: CleanZone, b: CleanZone, ratio: real, now: Time)
    requires ZoneStep(a, b, now, false) && b.ratio == a.ratio
    ensures ZoneStep(a, b.SetRatio(ratio, now), now, false)
  {
    hide CanTransition;
  }

  lemma MovePlantEvolves(cfg: Config, st: State, z: CleanZone, m: MonitorZone, ratio: real, now: Time)
    requires UniqueZones(st.zones) && FindZone(st.zones, z.id) == Some(z)
    ensures Evolves(st, MovePlant(cfg, st, z, m, ratio, now), now, false)
  {
    hide MoveZone, UniqueZones, ZoneIndex, CanTransition, LogStep, LogsStep;
    MoveZoneEvolves(cfg, st, z, m, ratio, now);
    var moved := MoveZone(cfg, st, z, m, ratio, now);
    forall i | 0 <= i < |st.zones|
      ensures ZoneStep(st.zones[i], RecordRatio(moved.zones, z.id, ratio, now)[i], now, false)
    {
      assert ZoneStep(st.zones[i], moved.zones[i], now, false);
      RecordEvolves(st.zones[i], moved.zones[i], ratio, now);
    }
  }

  // A sweep either leaves a zone alone or interlocks it.
  predicate SweptZone(a: CleanZone, b: CleanZone, now: Time) {
    b == a || b == a.SetStatus(Interlocked, now)
  }

  lemma {:induction false} SweepShape(st: State, candidates: seq<CleanZone>, now: Time)
    ensures var next := SweepFrom(st, candidates, now);
            && |next.zones| == |st.zones|
            && (forall i :: 0 <= i < |st.zones| ==> SweptZone(st.zones[i], next.zones[i], now))
            && st.logs <= next.logs
    decreases |candidates|
  {
    if candidates != [] {
      hide Ventilate, LogFor, ZoneIndex, FirstMonitor;
      var z := candidates[0];
      var next := Issue(st, z.id, FirstMonitor(st.monitors, z.id), AUTO_REASON, SweepRatio(z), now).0;
      assert |next.zones| == |st.zones| && st.logs <= next.logs;
      assert forall i :: 0 <= i < |st.zones| ==> SweptZone(st.zones[i], next.zones[i], now);
      hide Issue;
      SweepShape(next, candidates[1..], now);
    }
  }

  lemma SweepEvolves(cfg: Config, st: State, tick: Time, now: Time)
    ensures Evolves(st, ZoneSweep(cfg, st, tick, now), now, false)
  {
    hide SweepFrom, Candidates;
    SweepShape(st, Candidates(cfg, st.zones, tick), now);
  }

  lemma RestoreEvolves(st: State, zoneId: string, operator: string, note: string, now: Time)
    ensures Evolves(st, Restore(st, zoneId, operator, note, now).0, now, true)
  {
    hide ZoneIndex, InArea, RestoredOnly;
  }

  lemma ReportEvolves(cfg: Config, st: State, req: IngestRequest, now: Time)
    requires PlantOk(st)
    ensures Evolves(st, ProcessSample(cfg, st, req, now).0, now, false)
  {
    hide Evolves, ProcessSample, MovePlant, PlantOf, RatioOf;
    ReportOnPlant(cfg, st, req, now);
    Unchanged(st, now);
    var next, j := ProcessSample(cfg, st, req, now).0, Judge(st, req, now);
    if j.Judged? && j.valid {
      MovePlantEvolves(cfg, st, j.zone, j.monitor, j.ratio, now);
      EvolvesLike(st, MovePlant(cfg, st, j.zone, j.monitor, j.ratio, now), next, now, false);
    } else if j.Judged? {
      EvolvesLike(st, st, next, now, false);
    }
  }

  lemma Unchanged(st: State, now: Time)
    ensures Evolves(st, st, now, false)
  {
  }

  /**
   Every status change of every step is an edge of the transition table, only a restore confirmation takes a
   zone out of interlocked, and an interlock log once closed is never touched again.
   */
  lemma EveryStepEvolves(cfg: Config, st: State, step: Step)
    requires PlantOk(st)
    ensures Evolves(st, Apply(cfg, st, step), step.now, step.Confirm?)
  {
    hide PlantOk, CleanZone.Valid, MonitorZone.Valid, CounterTaken, ZoneIndex, MonitorIndex;
    Unchanged(st, step.now);
    match step
    case Report(_, req) => ReportEvolves(cfg, st, req, step.now);
    case Interlock(_, zoneId, trigger, reason, ratio) =>
      var z := FindZone(st.zones, zoneId);
      if z.Some? {
        IssueForEvolves(st, z.value, ManualTrigger(st, zoneId, trigger), ManualReason(reason), ManualRatio(ratio), step.now);
      }
    case Confirm(_, zoneId, operator, note) => RestoreEvolves(st, zoneId, operator, note, step.now);
    case SweepZones(_, tick) => SweepEvolves(cfg, st, tick, step.now);
    case AddZone(_, _, _, _, _, _) =>
    case AddMonitor(_, _, _, _, _, _, _) =>
    case Maintain(_, _, _, _) =>
    case Calibrate(_, _, _) =>
    case _ =>
      AlertStepsKeepPlant(cfg, st, step);
      EvolvesLike(st, st, Apply(cfg, st, step), step.now, false);
  }

  // ---- Over whole runs --------------------------------------------------------------------------

  // The state after the first n steps.
  function At(cfg: Config, run: seq<Step>, n: nat): State
    requires n <= |run|
  {
    Exec(cfg, run[..n])
  }

  lemma AtNext(cfg: Config, run: seq<Step>, n: nat)
    requires n < |run|
    ensures At(cfg, run, n + 1) == Apply(cfg, At(cfg, run, n), run[n])
  {
    hide Apply;
    assert run[..n + 1][..n] == run[..n];
  }

  lemma ClockedPrefix(run: seq<Step>, n: nat)
    requires Clocked(run) && n < |run|
    ensures Clocked(run[..n]) && Until(run[..n], run[n].now)
  {
  }

  lemma SoundAt(cfg: Config, run: seq<Step>, n: nat)
    requires cfg.Valid() && Clocked(run) && n < |run|
    ensures Sound(cfg, At(cfg, run, n), run[n].now)
  {
    hide Apply, Exec;
    ClockedPrefix(run, n);
    ReachableSound(cfg, run[..n], run[n].now);
  }

  /** One step of a run, seen from a reachable state. */
  lemma StepOfRun(cfg: Config, run: seq<Step>, n: nat)
    requires cfg.Valid() && Clocked(run) && n < |run|
    ensures Evolves(At(cfg, run, n), At(cfg, run, n + 1), run[n].now, run[n].Confirm?)
  {
    SoundAt(cfg, run, n);
    AtNext(cfg, run, n);
    hide Apply, Evolves, Exec;
    EveryStepEvolves(cfg, At(cfg, run, n), run[n]);
  }

  /** Zones and logs keep their place for ever. */
  lemma {:induction false} PlacesKept(cfg: Config, run: seq<Step>, i: nat, j: nat)
    requires cfg.Valid() && Clocked(run) && i <= j <= |run|
    ensures |At(cfg, run, i).zones| <= |At(cfg, run, j).zones| && |At(cfg, run, i).logs| <= |At(cfg, run, j).logs|
    decreases j
  {
    hide Apply, Exec;
    if i < j {
      PlacesKept(cfg, run, i, j - 1);
      StepOfRun(cfg, run, j - 1);
    }
  }

  /** Whatever samples, sweeps and requests come in, an interlocked zone stays interlocked until a restore confirmation. */
  lemma {:induction false} OnlyConfirmationReleases(cfg: Config, run: seq<Step>, i: nat, j: nat, k: nat)
    requires cfg.Valid() && Clocked(run) && i <= j <= |run|
    requires k < |At(cfg, run, i).zones| && At(cfg, run, i).zones[k].status == Interlocked
    requires forall n :: i <= n < j ==> !run[n].Confirm?
    ensures k < |At(cfg, run, j).zones| && At(cfg, run, j).zones[k].status == Interlocked
    decreases j
  {
    hide Apply, Exec;
    if i < j {
      OnlyConfirmationReleases(cfg, run, i, j - 1, k);
      StepOfRun(cfg, run, j - 1);
    }
  }

  /** A closed interlock log is final. */
  lemma {:induction false} ClosedLogsAreFinal(cfg: Config, run: seq<Step>, i: nat, j: nat, k: nat)
    requires cfg.Valid() && Clocked(run) && i <= j <= |run|
    requires k < |At(cfg, run, i).logs| && !At(cfg, run, i).logs[k].IsOpen()
    ensures k < |At(cfg, run, j).logs| && At(cfg, run, j).logs[k] == At(cfg, run, i).logs[k]
    decreases j
  {
    hide Apply, Exec;
    if i < j {
      ClosedLogsAreFinal(cfg, run, i, j - 1, k);
      StepOfRun(cfg, run, j - 1);
    }
  }
}
