/** How soon an alarming zone is ventilated. */
module Ventilation {
  import opened Types
  import opened Config
  import opened Zones
  import opened State
  import opened Runs
  import opened InterlockInvariants
  import opened Evolution
  import opened InterlockTheorems

  // ---- Bounded time to ventilation --------------------------------------------------------------

  // The tick of the last zone sweep, or the start of the run.
  function LastTick(run: seq<Step>, start: Time): Time {
    if run == [] then start
    else
      var last := run[|run| - 1];
      if last.SweepZones? then last.tick else LastTick(run[..|run| - 1], start)
  }

  ghost predicate Since(run: seq<Step>, start: Time) {
    forall i :: 0 <= i < |run| ==> start <= run[i].now
  }

  lemma {:induction false} TickInThePast(run: seq<Step>, start: Time, now: Time)
    requires Clocked(run) && Since(run, start) && Until(run, now) && start <= now
    ensures LastTick(run, start) <= now
  {
    if run != [] {
      var front, last := run[..|run| - 1], run[|run| - 1];
      TickInThePast(front, start, now);
      assert TickPassed(last);
    }
  }

  // At the tick no zone had been alarming for the whole timeout.
  ghost predicate InTime(cfg: Config, zs: seq<CleanZone>, tick: Time) {
    forall i :: 0 <= i < |zs| && Alarming(zs[i].status) ==> tick - zs[i].since < cfg.autoInterlockAfter
  }

  lemma NotCandidate(cfg: Config, zs: seq<CleanZone>, tick: Time)
    requires Candidates(cfg, zs, tick) == []
    ensures InTime(cfg, zs, tick)
  {
    forall i | 0 <= i < |zs|
      ensures !Overdue(cfg, zs[i], tick)
    {
      assert zs[i] in zs;
      assert zs[i] !in Candidates(cfg, zs, tick);
    }
  }

  lemma InTimeStep(cfg: Config, st: State, step: Step, tick: Time)
    requires cfg.Valid() && Sound(cfg, st, step.now) && InTime(cfg, st.zones, tick) && tick <= step.now
    ensures InTime(cfg, Apply(cfg, st, step).zones, if step.SweepZones? then step.tick else tick)
  {
    hide Apply, Sound, PlantOk;
    var next := Apply(cfg, st, step);
    if step.SweepZones? {
      SweepLeavesNone(cfg, st, step);
      NotCandidate(cfg, next.zones, step.tick);
    } else {
      EvolvesFrom(cfg, st, step);
    }
  }

  lemma SweepApplied(cfg: Config, st: State, step: Step)
    requires step.SweepZones?
    ensures Apply(cfg, st, step) == ZoneSweep(cfg, st, step.tick, step.now)
  {
    hide ZoneSweep;
  }

  lemma SweepLeavesNone(cfg: Config, st: State, step: Step)
    requires Sound(cfg, st, step.now) && step.SweepZones?
    ensures Candidates(cfg, Apply(cfg, st, step).zones, step.tick) == []
  {
    hide Apply, Sound, UniqueZones, Located, Struck, OneLogEach, SweepFrom, Candidates;
    SoundHasUniqueZones(cfg, st, step.now);
    SweepApplied(cfg, st, step);
    CandidatesLocated(cfg, st.zones, step.tick);
    var cs, next := Candidates(cfg, st.zones, step.tick), ZoneSweep(cfg, st, step.tick, step.now);
    SweepStrikes(st, cs, step.now);
    NothingLeftOverdue(cfg, st.zones, next.zones, step.tick, step.now);
  }

  lemma SoundHasUniqueZones(cfg: Config, st: State, now: Time)
    requires Sound(cfg, st, now)
    ensures UniqueZones(st.zones)
  {
  }

  lemma EvolvesFrom(cfg: Config, st: State, step: Step)
    requires Sound(cfg, st, step.now)
    ensures Evolves(st, Apply(cfg, st, step), step.now, step.Confirm?)
  {
    hide Apply, Evolves;
    EveryStepEvolves(cfg, st, step);
  }

  lemma {:induction false} AlwaysInTime(cfg: Config, run: seq<Step>, start: Time)
    requires cfg.Valid() && Clocked(run) && Since(run, start)
    ensures InTime(cfg, Exec(cfg, run).zones, LastTick(run, start))
  {
    hide Apply, InTime;
    if run != [] {
      var front, last := run[..|run| - 1], run[|run| - 1];
      AlwaysInTime(cfg, front, start);
      TickInThePast(front, start, last.now);
      ReachableSound(cfg, front, last.now);
      InTimeStep(cfg, Exec(cfg, front), last, LastTick(front, start));
    } else {
      NoneInTime(cfg, start);
    }
  }

  lemma NoneInTime(cfg: Config, tick: Time)
    ensures InTime(cfg, [], tick)
  {
  }

  /** While a zone stays elevated its status time does not move. */
  lemma {:induction false} SinceStands(cfg: Config, run: seq<Step>, i: nat, j: nat, k: nat)
    requires cfg.Valid() && Clocked(run) && i <= j <= |run| && k < |At(cfg, run, i).zones|
    requires forall n :: i <= n <= j ==> k < |At(cfg, run, n).zones| && At(cfg, run, n).zones[k].status == Elevated
    ensures At(cfg, run, j).zones[k].since == At(cfg, run, i).zones[k].since
    decreases j
  {
    hide Apply, Exec;
    if i < j {
      SinceStands(cfg, run, i, j - 1, k);
      StepOfRun(cfg, run, j - 1);
    }
  }

  // Zone k is elevated or over limit after every number of steps from i to j.
  ghost predicate AlarmingThroughout(cfg: Config, run: seq<Step>, i: nat, j: nat, k: nat)
    requires i <= j <= |run|
  {
    forall n :: i <= n <= j ==> k < |At(cfg, run, n).zones| && Alarming(At(cfg, run, n).zones[k].status)
  }

  /**
   Bounded time to ventilation: when the last sweep is at most `interval` old, a zone that is alarming now and has
   been so without a break since step i was taken less than the timeout plus the interval ago.
   */
  lemma BoundedTimeToVentilation(cfg: Config, run: seq<Step>, start: Time, i: nat, k: nat, now: Time, interval: Time)
    requires cfg.Valid() && Clocked(run) && Since(run, start) && Until(run, now)
    requires 1 <= i <= |run| && AlarmingThroughout(cfg, run, i, |run|, k)
    requires now - LastTick(run, start) <= interval
    ensures now - run[i - 1].now < cfg.autoInterlockAfter + interval
  {
    hide Apply, Exec;
    var j := |run|;
    assert run[..j] == run;
    forall n | i <= n <= j
      ensures k < |At(cfg, run, n).zones| && At(cfg, run, n).zones[k].status == Elevated
    {
      NeverRestsOverLimit(cfg, run, n, now, k);
    }
    SinceStands(cfg, run, i, j, k);
    SinceNoLater(cfg, run, i, k);
    AlwaysInTime(cfg, run, start);
  }

  lemma NeverRestsOverLimit(cfg: Config, run: seq<Step>, n: nat, now: Time, k: nat)
    requires cfg.Valid() && Clocked(run) && Until(run, now) && n <= |run| && k < |At(cfg, run, n).zones|
    ensures At(cfg, run, n).zones[k].status != OverLimit
  {
    hide Apply, Exec;
    ReachableSound(cfg, run[..n], now);
    CoupledAt(cfg, At(cfg, run, n).zones, now, k);
  }

  lemma SinceNoLater(cfg: Config, run: seq<Step>, i: nat, k: nat)
    requires cfg.Valid() && Clocked(run) && 1 <= i <= |run| && k < |At(cfg, run, i).zones|
    ensures At(cfg, run, i).zones[k].since <= run[i - 1].now
  {
    hide Apply, Exec;
    assert Until(run[..i], run[i - 1].now);
    ReachableSound(cfg, run[..i], run[i - 1].now);
    CoupledAt(cfg, At(cfg, run, i).zones, run[i - 1].now, k);
  }
}
