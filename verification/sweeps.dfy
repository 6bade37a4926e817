/** What a zone sweep acts on, and that it never acts before the timeout is over. */
module Sweeps {
  import opened Types
  import opened Sequences
  import opened Config
  import opened Zones
  import opened Monitors
  import opened Interlocks
  import opened State
  import opened Runs
  import opened InterlockInvariants
  import opened Evolution
  import opened InterlockTheorems
  import opened AreaIndependence

  // The zone has been elevated or over limit for the timeout.
  ghost predicate Due(cfg: Config, z: CleanZone, tick: Time) {
    (z.status == Elevated || z.status == OverLimit) && tick - z.since >= cfg.autoInterlockAfter
  }

  ghost predicate DueIn(cfg: Config, zs: seq<CleanZone>, area: string, tick: Time) {
    exists i :: 0 <= i < |zs| && zs[i].area == area && Due(cfg, zs[i], tick)
  }

  ghost function DueZones(cfg: Config, zs: seq<CleanZone>, tick: Time): seq<CleanZone> {
    if zs == [] then []
    else
      var front, last := zs[..|zs| - 1], zs[|zs| - 1];
      if Due(cfg, last, tick) then DueZones(cfg, front, tick) + [last] else DueZones(cfg, front, tick)
  }

  lemma {:induction false} CandidatesAreDue(cfg: Config, zs: seq<CleanZone>, tick: Time)
    ensures Candidates(cfg, zs, tick) == DueZones(cfg, zs, tick)
  {
    if zs != [] {
      CandidatesAreDue(cfg, zs[..|zs| - 1], tick);
    }
  }

  lemma HitMeansDue(cfg: Config, zs: seq<CleanZone>, tick: Time, area: string)
    ensures Hit(Candidates(cfg, zs, tick), area) <==> DueIn(cfg, zs, area, tick)
  {
    var cs := Candidates(cfg, zs, tick);
    if Hit(cs, area) {
      var i :| 0 <= i < |cs| && cs[i].area == area;
      assert cs[i] in cs;
      var k :| 0 <= k < |zs| && zs[k] == cs[i];
      assert Due(cfg, zs[k], tick);
    }
    if DueIn(cfg, zs, area, tick) {
      var k :| 0 <= k < |zs| && zs[k].area == area && Due(cfg, zs[k], tick);
      assert zs[k] in cs;
      var i :| 0 <= i < |cs| && cs[i] == zs[k];
    }
  }

  // The monitor zone a log refers to when no reading caused it: the first one stored for the zone, if there is any.
  ghost predicate RefersToFirst(trigger: string, ms: seq<MonitorZone>, zoneId: string) {
    || (trigger == "" && forall k :: 0 <= k < |ms| ==> ms[k].zoneId != zoneId)
    || (exists k :: 0 <= k < |ms| && ms[k].zoneId == zoneId && trigger == ms[k].id && forall j :: 0 <= j < k ==> ms[j].zoneId != zoneId)
  }

  lemma FirstUnfolds(ms: seq<MonitorZone>, last: MonitorZone, zoneId: string)
    ensures OfZone(ms + [last], zoneId) == if last.zoneId == zoneId then OfZone(ms, zoneId) + [last] else OfZone(ms, zoneId)
    ensures FirstMonitor(ms + [last], zoneId) ==
            if OfZone(ms, zoneId) != [] then FirstMonitor(ms, zoneId) else if last.zoneId == zoneId then last.id else ""
  {
    assert (ms + [last])[..|ms|] == ms;
    if last.zoneId != zoneId {
      assert OfZone(ms + [last], zoneId) == OfZone(ms, zoneId);
    }
  }

  lemma RefersStill(trigger: string, ms: seq<MonitorZone>, last: MonitorZone, zoneId: string)
    requires RefersToFirst(trigger, ms, zoneId)
    ensures (exists k :: 0 <= k < |ms| && ms[k].zoneId == zoneId) || last.zoneId != zoneId ==>
              RefersToFirst(trigger, ms + [last], zoneId)
    ensures !(exists k :: 0 <= k < |ms| && ms[k].zoneId == zoneId) && last.zoneId == zoneId ==>
              RefersToFirst(last.id, ms + [last], zoneId)
  {
    var all := ms + [last];
    if k :| 0 <= k < |ms| && ms[k].zoneId == zoneId && trigger == ms[k].id && forall j :: 0 <= j < k ==> ms[j].zoneId != zoneId {
      assert all[k] == ms[k];
    }
    assert all[|ms|] == last;
  }

  lemma {:induction false} FirstOfZone(ms: seq<MonitorZone>, zoneId: string)
    ensures RefersToFirst(FirstMonitor(ms, zoneId), ms, zoneId)
    ensures OfZone(ms, zoneId) == [] <==> !(exists k :: 0 <= k < |ms| && ms[k].zoneId == zoneId)
  {
    if ms != [] {
      var front, last := ms[..|ms| - 1], ms[|ms| - 1];
      FirstOfZone(front, zoneId);
      assert ms == front + [last];
      FirstUnfolds(front, last, zoneId);
      RefersStill(FirstMonitor(front, zoneId), front, last, zoneId);
      OwnedExtends(front, last, zoneId);
      hide OfZone, FirstMonitor, RefersToFirst;
    }
  }

  lemma OwnedExtends(ms: seq<MonitorZone>, last: MonitorZone, zoneId: string)
    ensures (exists k :: 0 <= k < |ms + [last]| && (ms + [last])[k].zoneId == zoneId) <==>
            (exists k :: 0 <= k < |ms| && ms[k].zoneId == zoneId) || last.zoneId == zoneId
  {
    var all := ms + [last];
    assert all[|ms|] == last;
    if k :| 0 <= k < |ms| && ms[k].zoneId == zoneId {
      assert all[k] == ms[k];
    }
    if k :| 0 <= k < |all| && all[k].zoneId == zoneId {
      assert k < |ms| ==> ms[k].zoneId == zoneId;
    }
  }

  // The log a due zone leaves behind.
  ghost predicate TimeoutLog(l: InterlockLog, z: CleanZone, ms: seq<MonitorZone>, now: Time) {
    && l.zoneId == z.id && l.area == z.area && l.reason == "auto_interlock_timeout" && l.action == FFUSpeedUp
    && l.peakRatio == z.ratio && l.level == Min(3, Max(1, z.ratio.Floor))
    && l.issuedAt == now && l.restoredAt.None?
    && RefersToFirst(l.trigger, ms, z.id)
  }

  lemma StrikeTriggers(st: State, z: CleanZone, now: Time)
    requires Located(st.zones, [z])
    ensures var next := Strike(st, z, now);
            && |next.logs| == |st.logs| + 1 && next.logs[|st.logs|].trigger == FirstMonitor(st.monitors, z.id)
            && next.logs[|st.logs|].action == FFUSpeedUp
            && next.logs[|st.logs|].peakRatio == (if z.ratio >= 1.0 then z.ratio else 1.0)
            && |next.monitors| == |st.monitors|
            && forall i :: 0 <= i < |st.monitors| ==>
                 next.monitors[i].id == st.monitors[i].id && next.monitors[i].zoneId == st.monitors[i].zoneId
  {
    assert [z][0] == z;
    hide FirstMonitor, InterlockArea, Serves, InArea, ZoneIds, NextId, Bump, LevelForRatio, ZoneIndex;
  }

  // The logs behind position `from` refer to the first monitor zones of these zones.
  ghost predicate Triggered(logs: seq<InterlockLog>, from: nat, cs: seq<CleanZone>, ms: seq<MonitorZone>) {
    && |logs| == from + |cs|
    && forall i :: 0 <= i < |cs| ==> logs[from + i].trigger == FirstMonitor(ms, cs[i].id) && logs[from + i].action == FFUSpeedUp
  }

  lemma {:induction false} SweepTriggers(st: State, cs: seq<CleanZone>, now: Time)
    requires Located(st.zones, cs)
    ensures Triggered(SweepFrom(st, cs, now).logs, |st.logs|, cs, st.monitors)
    decreases |cs|
  {
    hide Strike, FirstMonitor, SweepFrom, Located;
    if cs == [] {
      SweepOfNone(st);
    } else {
      var next := Strike(st, cs[0], now);
      StruckLocated(st, cs, now);
      StrikeTriggers(st, cs[0], now);
      SweepTriggers(next, cs[1..], now);
      SweepUnfolds(st, cs, now);
      SweepKeepsLogs(next, cs[1..], now);
      TriggersJoin(st.logs, next.logs, SweepFrom(st, cs, now).logs, cs, st.monitors, next.monitors);
    }
  }

  lemma TriggersJoin(a: seq<InterlockLog>, b: seq<InterlockLog>, c: seq<InterlockLog>,
                     cs: seq<CleanZone>, ms: seq<MonitorZone>, ns: seq<MonitorZone>)
    requires cs != [] && |b| == |a| + 1 && b <= c && Triggered(c, |b|, cs[1..], ns)
    requires b[|a|].trigger == FirstMonitor(ms, cs[0].id) && b[|a|].action == FFUSpeedUp
    requires |ms| == |ns| && forall i :: 0 <= i < |ms| ==> ns[i].id == ms[i].id && ns[i].zoneId == ms[i].zoneId
    ensures Triggered(c, |a|, cs, ms)
  {
    hide FirstMonitor;
    forall i | 0 <= i < |cs|
      ensures c[|a| + i].trigger == FirstMonitor(ms, cs[i].id) && c[|a| + i].action == FFUSpeedUp
    {
      FirstMonitorSame(ms, ns, cs[i].id);
      if i == 0 {
        assert c[|a|] == b[|a|];
      } else {
        assert cs[1..][i - 1] == cs[i] && |b| + (i - 1) == |a| + i;
      }
    }
  }

  lemma SweepKeepsLogs(st: State, cs: seq<CleanZone>, now: Time)
    ensures st.logs <= SweepFrom(st, cs, now).logs
  {
    hide SweepFrom;
    SweepShape(st, cs, now);
  }

  /**
   A sweep interlocks an area exactly when some zone of it has been elevated or over limit for the timeout at the tick;
   then every zone of the area ends interlocked, and no other zone changes. It adds one log for each such zone, in store
   order, with the zone's own ratio.
   */
  lemma SweepActsOnTheDue(cfg: Config, st: State, tick: Time, now: Time)
    requires cfg.Valid() && Sound(cfg, st, now)
    ensures var next, due := ZoneSweep(cfg, st, tick, now), DueZones(cfg, st.zones, tick);
            && |next.zones| == |st.zones|
            && (forall i :: 0 <= i < |st.zones| ==>
                  next.zones[i] == if DueIn(cfg, st.zones, st.zones[i].area, tick) && st.zones[i].status != Interlocked
                                   then st.zones[i].(status := Interlocked, since := now, updatedAt := now) else st.zones[i])
            && |next.logs| == |st.logs| + |due| && st.logs <= next.logs
            && forall i :: 0 <= i < |due| ==> TimeoutLog(next.logs[|st.logs| + i], due[i], st.monitors, now)
  {
    hide PlantOk, AreasAgree, SweepFrom, ZonesCoupled, UniqueZones, Located, Candidates, Hit, DueIn, DueZones, Triggered;
    var cs, next := Candidates(cfg, st.zones, tick), ZoneSweep(cfg, st, tick, now);
    PlantHasUniqueZones(st);
    CandidatesLocated(cfg, st.zones, tick);
    CandidateRatios(cfg, st.zones, cs, tick, now);
    SweepStrikes(st, cs, now);
    CandidatesAreDue(cfg, st.zones, tick);
    forall area
      ensures Hit(cs, area) <==> DueIn(cfg, st.zones, area, tick)
    {
      HitMeansDue(cfg, st.zones, tick, area);
    }
    SweepTriggers(st, cs, now);
    TimeoutLogs(cs, st.logs, next.logs, st.monitors, now);
  }

  lemma TimeoutLogs(cs: seq<CleanZone>, a: seq<InterlockLog>, b: seq<InterlockLog>, ms: seq<MonitorZone>, now: Time)
    requires OneLogEach(a, b, cs, now) && forall i :: 0 <= i < |cs| ==> SweepRatio(cs[i]) == cs[i].ratio
    requires Triggered(b, |a|, cs, ms)
    ensures forall i :: 0 <= i < |cs| ==> TimeoutLog(b[|a| + i], cs[i], ms, now)
  {
    hide FirstMonitor, RefersToFirst, SweepRatio;
    forall i | 0 <= i < |cs|
      ensures TimeoutLog(b[|a| + i], cs[i], ms, now)
    {
      assert LogOf(b[|a| + i], cs[i], now);
      FirstOfZone(ms, cs[i].id);
    }
  }

  // ---- Never too early ----------------------------------------------------------------------------

  // The zone has had its present status since the step before the i-th state.
  ghost predicate SteadySince(cfg: Config, run: seq<Step>, i: nat, n: nat, k: nat) {
    && 1 <= i <= n <= |run| && k < |At(cfg, run, n).zones|
    && (forall t :: i <= t <= n ==> k < |At(cfg, run, t).zones| && At(cfg, run, t).zones[k].status == At(cfg, run, n).zones[k].status)
    && At(cfg, run, n).zones[k].since == run[i - 1].now
  }

  /** The time a zone's status is dated with is that of the step that set it. */
  lemma {:induction false} StatusIsDated(cfg: Config, run: seq<Step>, n: nat, k: nat) returns (i: nat)
    requires cfg.Valid() && Clocked(run) && n <= |run| && k < |At(cfg, run, n).zones|
    ensures SteadySince(cfg, run, i, n, k)
    decreases n
  {
    hide Apply, Exec;
    if n == 0 {
      NoZonesAtFirst(cfg, run);
    } else {
      StepOfRun(cfg, run, n - 1);
      var a, b := At(cfg, run, n - 1), At(cfg, run, n);
      if k < |a.zones| && a.zones[k].status == b.zones[k].status {
        i := StatusIsDated(cfg, run, n - 1, k);
        assert a.zones[k].since == b.zones[k].since by { assert ZoneStep(a.zones[k], b.zones[k], run[n - 1].now, run[n - 1].Confirm?); }
        SteadyLonger(cfg, run, i, n - 1, k);
      } else {
        i := n;
        DatedNow(a, b, run[n - 1].now, run[n - 1].Confirm?, k);
      }
    }
  }

  lemma NoZonesAtFirst(cfg: Config, run: seq<Step>)
    ensures At(cfg, run, 0).zones == []
  {
    hide Apply;
    assert run[..0] == [];
  }

  lemma SteadyLonger(cfg: Config, run: seq<Step>, i: nat, n: nat, k: nat)
    requires n < |run| && SteadySince(cfg, run, i, n, k) && k < |At(cfg, run, n + 1).zones|
    requires At(cfg, run, n + 1).zones[k].status == At(cfg, run, n).zones[k].status
    requires At(cfg, run, n + 1).zones[k].since == At(cfg, run, n).zones[k].since
    ensures SteadySince(cfg, run, i, n + 1, k)
  {
    hide Exec;
  }

  lemma DatedNow(a: State, b: State, now: Time, confirmed: bool, k: nat)
    requires Evolves(a, b, now, confirmed) && k < |b.zones|
    requires k < |a.zones| ==> a.zones[k].status != b.zones[k].status
    ensures b.zones[k].since == now
  {
    if k < |a.zones| {
      assert ZoneStep(a.zones[k], b.zones[k], now, confirmed);
    } else {
      assert NewZone(b.zones[k], now);
    }
  }

  // Zone j of the area has been elevated without a break since a step that lies the timeout before the sweep's tick.
  ghost predicate LongElevated(cfg: Config, run: seq<Step>, n: nat, i: nat, j: nat, area: string) {
    && n < |run| && run[n].SweepZones? && SteadySince(cfg, run, i, n, j)
    && At(cfg, run, n).zones[j].area == area && At(cfg, run, n).zones[j].status == Elevated
    && run[n].tick - run[i - 1].now >= cfg.autoInterlockAfter
  }

  /**
   A sweep never acts too early: when it turns a zone interlocked, some zone of the same area has been elevated without
   a break for at least the timeout.
   */
  lemma SweepNeverTooEarly(cfg: Config, run: seq<Step>, n: nat, k: nat)
    requires cfg.Valid() && Clocked(run) && n < |run| && run[n].SweepZones? && k < |At(cfg, run, n).zones|
    requires At(cfg, run, n).zones[k].status != Interlocked
    requires k < |At(cfg, run, n + 1).zones| && At(cfg, run, n + 1).zones[k].status == Interlocked
    ensures exists i: nat, j: nat :: LongElevated(cfg, run, n, i, j, At(cfg, run, n).zones[k].area)
  {
    hide Apply, Exec, SteadySince, Sound;
    var st := At(cfg, run, n);
    SoundAt(cfg, run, n);
    AtNext(cfg, run, n);
    SweepStep(cfg, st, run[n], k);
    var j :| 0 <= j < |st.zones| && st.zones[j].area == st.zones[k].area && Due(cfg, st.zones[j], run[n].tick);
    var i := StatusIsDated(cfg, run, n, j);
    DueIsElevated(cfg, st, run[n].now, j);
    assert LongElevated(cfg, run, n, i, j, st.zones[k].area) by { SteadyIsDated(cfg, run, i, n, j); }
  }

  lemma SteadyIsDated(cfg: Config, run: seq<Step>, i: nat, n: nat, k: nat)
    requires SteadySince(cfg, run, i, n, k)
    ensures 1 <= i <= n <= |run| && k < |At(cfg, run, n).zones| && At(cfg, run, n).zones[k].since == run[i - 1].now
  {
    hide Exec;
  }

  lemma SweepStep(cfg: Config, st: State, step: Step, k: nat)
    requires cfg.Valid() && Sound(cfg, st, step.now) && step.SweepZones? && k < |st.zones| && st.zones[k].status != Interlocked
    requires var next := Apply(cfg, st, step); k < |next.zones| && next.zones[k].status == Interlocked
    ensures DueIn(cfg, st.zones, st.zones[k].area, step.tick)
  {
    hide ZoneSweep, Sound, DueIn, DueZones, TimeoutLog;
    SweepActsOnTheDue(cfg, st, step.tick, step.now);
  }

  lemma DueIsElevated(cfg: Config, st: State, now: Time, j: nat)
    requires Sound(cfg, st, now) && j < |st.zones|
    ensures st.zones[j].status != OverLimit
  {
    hide PlantOk, AreasAgree;
    CoupledAt(cfg, st.zones, now, j);
  }
}
