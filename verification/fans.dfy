/** Fan and fresh-air levels as a closed form of the interlock log history. */
module Fans {
  import opened Types
  import opened Sequences
  import opened Config
  import opened Zones
  import opened Monitors
  import opened Interlocks
  import opened State
  import opened WellFormedness
  import opened Runs
  import opened Plants
  import opened InterlockInvariants
  import opened Evolution
  import opened InterlockTheorems

  // The levels of the area's logs issued from position `from` on, summed up.
  function LevelSum(logs: seq<InterlockLog>, from: nat, area: string): int {
    if |logs| <= from then 0
    else
      var last := logs[|logs| - 1];
      LevelSum(logs[..|logs| - 1], from, area) + (if last.area == area then last.level else 0)
  }

  // How many logs there were when each monitor zone was created.
  ghost function Births(cfg: Config, run: seq<Step>): map<string, nat> {
    if run == [] then map[]
    else
      var front := run[..|run| - 1];
      BirthsAfter(Births(cfg, front), Exec(cfg, front), Exec(cfg, run))
  }

  function BirthsAfter(births: map<string, nat>, a: State, b: State): map<string, nat> {
    if |b.monitors| > |a.monitors| then births[b.monitors[|a.monitors|].id := |a.logs|] else births
  }

  function AreaOf(zs: seq<CleanZone>, zoneId: string): string {
    var z := FindZone(zs, zoneId);
    if z.Some? then z.value.area else ""
  }

  // One monitor zone runs at what the logs of its area since its creation add up to.
  ghost predicate FanAt(st: State, m: MonitorZone, births: map<string, nat>) {
    && m.id in births && births[m.id] <= |st.logs|
    && var s := LevelSum(st.logs, births[m.id], AreaOf(st.zones, m.zoneId));
       m.equipment.ffuLevel == Min(100, 60 + 10 * s) && m.equipment.freshAirRatio == Min(100, 30 + 5 * s)
  }

  ghost predicate FansMatch(st: State, births: map<string, nat>) {
    forall i :: 0 <= i < |st.monitors| ==> FanAt(st, st.monitors[i], births)
  }

  ghost predicate LevelsPositive(logs: seq<InterlockLog>) {
    forall i :: 0 <= i < |logs| ==> logs[i].level >= 1
  }

  // ---- Changes that leave fans and sums alone ---------------------------------------------------

  ghost predicate LogsLike(a: seq<InterlockLog>, b: seq<InterlockLog>) {
    |a| == |b| && forall i :: 0 <= i < |a| ==> a[i].area == b[i].area && a[i].level == b[i].level
  }

  lemma {:induction false} SumLike(a: seq<InterlockLog>, b: seq<InterlockLog>, from: nat, area: string)
    requires LogsLike(a, b)
    ensures LevelSum(a, from, area) == LevelSum(b, from, area)
  {
    if |a| > from {
      SumLike(a[..|a| - 1], b[..|b| - 1], from, area);
    }
  }

  ghost predicate FansLike(a: seq<MonitorZone>, b: seq<MonitorZone>) {
    |a| == |b| && forall i :: 0 <= i < |a| ==>
      && a[i].id == b[i].id && a[i].zoneId == b[i].zoneId
      && a[i].equipment.ffuLevel == b[i].equipment.ffuLevel && a[i].equipment.freshAirRatio == b[i].equipment.freshAirRatio
  }

  lemma AreaKept(a: seq<CleanZone>, b: seq<CleanZone>, zoneId: string)
    requires ZonesExtend(a, b) && FindZone(a, zoneId).Some?
    ensures FindZone(b, zoneId).Some? && AreaOf(b, zoneId) == AreaOf(a, zoneId)
  {
    var i, j := ZoneIndex(a, zoneId), ZoneIndex(b, zoneId);
    assert b[i].id == zoneId;
    assert j < |a| ==> a[j].id == zoneId;
  }

  lemma FansStay(a: State, b: State, births: map<string, nat>)
    requires FansMatch(a, births) && MonitorsPlaced(a.monitors, a.zones)
    requires FansLike(a.monitors, b.monitors) && ZonesExtend(a.zones, b.zones) && LogsLike(a.logs, b.logs)
    ensures FansMatch(b, births)
  {
    forall i | 0 <= i < |b.monitors|
      ensures FanAt(b, b.monitors[i], births)
    {
      var m := a.monitors[i];
      assert FanAt(a, m, births);
      assert FindZone(a.zones, m.zoneId).Some?;
      hide FansMatch, MonitorsPlaced, FindZone, LevelSum;
      AreaKept(a.zones, b.zones, m.zoneId);
      SumLike(a.logs, b.logs, births[m.id], AreaOf(a.zones, m.zoneId));
    }
  }

  // ---- An interlock raises fans by what its log adds ---------------------------------------------

  lemma SumAdded(logs: seq<InterlockLog>, l: InterlockLog, from: nat, area: string)
    requires from <= |logs|
    ensures LevelSum(logs + [l], from, area) == LevelSum(logs, from, area) + (if l.area == area then l.level else 0)
  {
    assert (logs + [l])[..|logs|] == logs;
  }

  lemma IssueRaisesFans(st: State, z: CleanZone, trigger: string, reason: string, ratio: real, now: Time, births: map<string, nat>)
    requires FansMatch(st, births) && MonitorsPlaced(st.monitors, st.zones) && z in st.zones
    ensures FansMatch(IssueFor(st, z, trigger, reason, ratio, now), births)
  {
    var next := IssueFor(st, z, trigger, reason, ratio, now);
    forall i | 0 <= i < |next.monitors|
      ensures FanAt(next, next.monitors[i], births)
    {
      assert FanAt(st, st.monitors[i], births);
      assert FindZone(st.zones, st.monitors[i].zoneId).Some?;
      hide FansMatch, MonitorsPlaced, FanAt, LogFor;
      IssueRaisesFan(st, z, trigger, reason, ratio, now, births, i);
    }
  }

  lemma IssueRaisesFan(st: State, z: CleanZone, trigger: string, reason: string, ratio: real, now: Time,
                       births: map<string, nat>, i: nat)
    requires i < |st.monitors| && FanAt(st, st.monitors[i], births) && FindZone(st.zones, st.monitors[i].zoneId).Some?
    ensures var next := IssueFor(st, z, trigger, reason, ratio, now); FanAt(next, next.monitors[i], births)
  {
    hide LevelSum, InArea, ZoneIds, NextId, Bump, ZoneIndex, LevelForRatio, InterlockArea;
    var m := st.monitors[i];
    var area := AreaOf(st.zones, m.zoneId);
    AreaKept(st.zones, InterlockArea(st.zones, z.area, now), m.zoneId) by { InterlockExtends(st.zones, z.area, now); }
    SumAdded(st.logs, LogFor(st, z, trigger, reason, ratio, now), births[m.id], area);
    assert Serves(st.zones, m.zoneId, z.area) <==> area == z.area;
  }

  lemma InterlockExtends(zs: seq<CleanZone>, area: string, now: Time)
    ensures ZonesExtend(zs, InterlockArea(zs, area, now))
  {
  }

  lemma {:induction false} SweepRaisesFans(cfg: Config, st: State, candidates: seq<CleanZone>, now: Time, births: map<string, nat>)
    requires FansMatch(st, births) && Sound(cfg, st, now) && LevelsPositive(st.logs)
    ensures FansMatch(SweepFrom(st, candidates, now), births) && LevelsPositive(SweepFrom(st, candidates, now).logs)
    decreases |candidates|
  {
    if candidates != [] {
      var z := candidates[0];
      var found := FindZone(st.zones, z.id);
      var trigger := FirstMonitor(st.monitors, z.id);
      var next := Issue(st, z.id, trigger, AUTO_REASON, SweepRatio(z), now).0;
      assert MonitorsPlaced(st.monitors, st.zones);
      if found.Some? {
        IssueForSound(cfg, st, found.value, trigger, AUTO_REASON, SweepRatio(z), now);
        IssueRaisesFans(st, found.value, trigger, AUTO_REASON, SweepRatio(z), now, births);
      }
      hide Sound, FansMatch, MonitorsPlaced, FirstMonitor, SweepRatio, Ventilate, InterlockArea;
      SweepRaisesFans(cfg, next, candidates[1..], now, births);
    }
  }

  lemma PlantIsPlaced(st: State)
    requires PlantOk(st)
    ensures MonitorsPlaced(st.monitors, st.zones) && UniqueMonitors(st.monitors)
  {
  }

  lemma MovePlantRaisesFans(cfg: Config, st: State, z: CleanZone, m: MonitorZone, ratio: real, now: Time, births: map<string, nat>)
    requires FansMatch(st, births) && PlantOk(st) && FindZone(st.zones, z.id) == Some(z) && LevelsPositive(st.logs)
    ensures FansMatch(MovePlant(cfg, st, z, m, ratio, now), births) && LevelsPositive(MovePlant(cfg, st, z, m, ratio, now).logs)
  {
    hide PlantOk, MonitorsPlaced, FansMatch, ZoneIndex, MoveZone, LevelsPositive, RecordRatio, FansLike, ZonesExtend, LogsLike;
    var moved, next := MoveZone(cfg, st, z, m, ratio, now), MovePlant(cfg, st, z, m, ratio, now);
    MoveZoneKeepsPlantOk(cfg, st, z, m, ratio, now);
    PlantIsPlaced(st);
    PlantIsPlaced(moved);
    MoveZoneRaisesFans(cfg, st, z, m, ratio, now, births);
    SameIsLike(moved);
    RecordExtends(moved.zones, z.id, ratio, now);
    FansStay(moved, next, births);
  }

  lemma RecordExtends(zs: seq<CleanZone>, zoneId: string, ratio: real, now: Time)
    ensures ZonesExtend(zs, RecordRatio(zs, zoneId, ratio, now))
  {
  }

  lemma MoveZoneRaisesFans(cfg: Config, st: State, z: CleanZone, m: MonitorZone, ratio: real, now: Time, births: map<string, nat>)
    requires FansMatch(st, births) && MonitorsPlaced(st.monitors, st.zones) && FindZone(st.zones, z.id) == Some(z)
    requires LevelsPositive(st.logs)
    ensures FansMatch(MoveZone(cfg, st, z, m, ratio, now), births) && LevelsPositive(MoveZone(cfg, st, z, m, ratio, now).logs)
  {
    hide FansMatch, MonitorsPlaced, Ventilate, InterlockArea, InArea, ZoneIds;
    assert z in st.zones;
    IssueRaisesFans(st, z, m.id, OVER_LIMIT_REASON, ratio, now, births);
    if ratio < cfg.overLimitRatio {
      FansStay(st, MoveZone(cfg, st, z, m, ratio, now), births);
    }
  }

  // ---- Every step, every run ----------------------------------------------------------------------

  lemma FansSamePlant(a: State, b: State, births: map<string, nat>)
    requires PlantOf(a) == PlantOf(b)
    ensures FansMatch(a, births) == FansMatch(b, births)
  {
    hide LevelSum, FindZone;
    assert forall m :: FanAt(a, m, births) == FanAt(b, m, births);
  }

  lemma ReportRaisesFans(cfg: Config, st: State, req: IngestRequest, now: Time, births: map<string, nat>)
    requires FansMatch(st, births) && PlantOk(st) && LevelsPositive(st.logs)
    ensures var next := ProcessSample(cfg, st, req, now).0; FansMatch(next, births) && LevelsPositive(next.logs)
  {
    hide FansMatch, PlantOk, LevelsPositive, ProcessSample, MovePlant, RatioOf;
    ReportOnPlant(cfg, st, req, now);
    var next, j := ProcessSample(cfg, st, req, now).0, Judge(st, req, now);
    if j.Judged? && j.valid {
      MovePlantRaisesFans(cfg, st, j.zone, j.monitor, j.ratio, now, births);
      FansSamePlant(MovePlant(cfg, st, j.zone, j.monitor, j.ratio, now), next, births);
    } else if j.Judged? {
      FansSamePlant(st, next, births);
    }
  }

  lemma NewMonitorRuns(st: State, m: MonitorZone, births: map<string, nat>)
    requires FansMatch(st, births) && FindMonitor(st.monitors, m.id).None?
    requires m.equipment.ffuLevel == 60 && m.equipment.freshAirRatio == 30
    ensures FansMatch(st.(monitors := st.monitors + [m]), births[m.id := |st.logs|])
  {
    var next, after := st.(monitors := st.monitors + [m]), births[m.id := |st.logs|];
    forall i | 0 <= i < |next.monitors|
      ensures FanAt(next, next.monitors[i], after)
    {
      if i < |st.monitors| {
        assert FanAt(st, st.monitors[i], births);
        assert st.monitors[i].id != m.id;
      }
    }
  }

  // A new monitor zone goes behind the others under an id of its own, or the request changes nothing but a counter.
  lemma AddMonitorShape(cfg: Config, st: State, step: Step)
    requires step.AddMonitor?
    ensures var next := Apply(cfg, st, step);
            var m := NewMonitorZone(ChosenId(st.seqs, MONITOR_IDS, step.id), step.zoneId, step.name, step.counterId,
                                    step.thresholds, step.due, step.now);
            && next.zones == st.zones && next.logs == st.logs
            && (next.monitors == st.monitors ||
                (next.monitors == st.monitors + [m] && FindMonitor(st.monitors, m.id).None? && !CounterTaken(st.monitors, m.counterId)))
  {
    hide MonitorZone.Valid, CounterTaken, MonitorIndex, ZoneIndex, NextId, Bump;
  }

  lemma AddMonitorRuns(cfg: Config, st: State, step: Step, births: map<string, nat>)
    requires FansMatch(st, births) && MonitorsPlaced(st.monitors, st.zones) && step.AddMonitor?
    ensures FansMatch(Apply(cfg, st, step), BirthsAfter(births, st, Apply(cfg, st, step)))
  {
    AddMonitorShape(cfg, st, step);
    hide Apply, FansMatch, MonitorsPlaced, MonitorIndex, NextId;
    var next := Apply(cfg, st, step);
    if next.monitors == st.monitors {
      FansSameFields(st, next, births);
    } else {
      var m := next.monitors[|st.monitors|];
      NewMonitorRuns(st, m, births);
      FansSameFields(st.(monitors := st.monitors + [m]), next, births[m.id := |st.logs|]);
    }
  }

  lemma FansSameFields(a: State, b: State, births: map<string, nat>)
    requires a.zones == b.zones && a.monitors == b.monitors && a.logs == b.logs
    ensures FansMatch(a, births) == FansMatch(b, births)
  {
    hide LevelSum, FindZone;
    assert forall m :: FanAt(a, m, births) == FanAt(b, m, births);
  }

  // The steps that change no fan.
  lemma OtherStepsKeepFans(cfg: Config, st: State, step: Step)
    requires step.AddZone? || step.Maintain? || step.Calibrate? || step.Confirm? || step.Acknowledge? || step.Promote? || step.SweepAlerts?
    ensures var next := Apply(cfg, st, step);
            FansLike(st.monitors, next.monitors) && ZonesExtend(st.zones, next.zones) && LogsLike(st.logs, next.logs)
  {
    hide CleanZone.Valid, ZoneIndex, InArea, RestoredOnly, EscalateAll, AlertIndex, FansLike, ZonesExtend, LogsLike;
    assert FansLike(st.monitors, st.monitors) && ZonesExtend(st.zones, st.zones) && LogsLike(st.logs, st.logs) by { SameIsLike(st); }
    match step
    case AddZone(_, _, _, _, _, _) => AddZoneKeepsFans(cfg, st, step);
    case Maintain(_, monitorId, on, note) =>
      var m := FindMonitor(st.monitors, monitorId);
      if m.Some? {
        PutKeepsFans(st.monitors, m.value, m.value.SetMaintenance(on, note, step.now));
      }
    case Calibrate(_, monitorId, due) =>
      var m := FindMonitor(st.monitors, monitorId);
      if m.Some? {
        PutKeepsFans(st.monitors, m.value, m.value.SetCalibration(due, step.now));
      }
    case Confirm(_, zoneId, operator, note) => RestoreKeepsFans(st, zoneId, operator, note, step.now);
    case _ =>
  }

  lemma SameIsLike(st: State)
    ensures FansLike(st.monitors, st.monitors) && ZonesExtend(st.zones, st.zones) && LogsLike(st.logs, st.logs)
  {
  }

  lemma PutKeepsFans(ms: seq<MonitorZone>, m: MonitorZone, updated: MonitorZone)
    requires FindMonitor(ms, m.id) == Some(m) && FansLike([m], [updated])
    ensures FansLike(ms, PutMonitor(ms, updated))
  {
    assert [m][0] == m && [updated][0] == updated;
  }

  lemma AddZoneKeepsFans(cfg: Config, st: State, step: Step)
    requires step.AddZone?
    ensures var next := Apply(cfg, st, step);
            next.monitors == st.monitors && ZonesExtend(st.zones, next.zones) && next.logs == st.logs
  {
    hide CleanZone.Valid, ZoneIndex;
  }

  lemma RestoreKeepsFans(st: State, zoneId: string, operator: string, note: string, now: Time)
    ensures var next := Restore(st, zoneId, operator, note, now).0;
            next.monitors == st.monitors && ZonesExtend(st.zones, next.zones) && LogsLike(st.logs, next.logs)
  {
    hide ZoneIndex, InArea, RestoredOnly;
  }

  lemma FansStep(cfg: Config, st: State, step: Step, births: map<string, nat>)
    requires cfg.Valid() && Sound(cfg, st, step.now) && FansMatch(st, births) && LevelsPositive(st.logs)
    ensures var next := Apply(cfg, st, step); FansMatch(next, BirthsAfter(births, st, next)) && LevelsPositive(next.logs)
  {
    PlantIsPlaced(st);
    hide FansMatch, ProcessSample, SweepFrom, Issue, PlantOk, AreasAgree, ZonesCoupled, MonitorsPlaced, LevelsPositive;
    var next := Apply(cfg, st, step);
    match step
    case Report(_, req) =>
      ReportRaisesFans(cfg, st, req, step.now, births);
      ReportKeepsCount(cfg, st, req, step.now);
    case Interlock(_, zoneId, trigger, reason, ratio) =>
      ManualRaisesFans(st, zoneId, ManualTrigger(st, zoneId, trigger), ManualReason(reason), ManualRatio(ratio), step.now, births);
    case SweepZones(_, tick) =>
      SweepRaisesFans(cfg, st, Candidates(cfg, st.zones, tick), step.now, births);
      SweepKeepsCount(st, Candidates(cfg, st.zones, tick), step.now);
    case AddMonitor(_, _, _, _, _, _, _) =>
      AddMonitorRuns(cfg, st, step, births);
      AddMonitorShape(cfg, st, step);
    case _ =>
      OtherStepsKeepFans(cfg, st, step);
      hide Apply;
      FansStay(st, next, births);
      LevelsLike(st.logs, next.logs);
  }

  lemma LevelsLike(a: seq<InterlockLog>, b: seq<InterlockLog>)
    requires LogsLike(a, b) && LevelsPositive(a)
    ensures LevelsPositive(b)
  {
  }

  lemma ManualRaisesFans(st: State, zoneId: string, trigger: string, reason: string, ratio: real, now: Time, births: map<string, nat>)
    requires FansMatch(st, births) && MonitorsPlaced(st.monitors, st.zones) && LevelsPositive(st.logs)
    ensures var next := Issue(st, zoneId, trigger, reason, ratio, now).0;
            FansMatch(next, births) && LevelsPositive(next.logs) && |next.monitors| == |st.monitors|
  {
    hide FansMatch, MonitorsPlaced, InterlockArea;
    var z := FindZone(st.zones, zoneId);
    if z.Some? {
      IssueRaisesFans(st, z.value, trigger, reason, ratio, now, births);
    }
  }

  lemma ReportKeepsCount(cfg: Config, st: State, req: IngestRequest, now: Time)
    ensures |ProcessSample(cfg, st, req, now).0.monitors| == |st.monitors|
  {
    hide ProcessSample, RatioOf;
    ReportOnPlant(cfg, st, req, now);
  }

  lemma {:induction false} SweepKeepsCount(st: State, candidates: seq<CleanZone>, now: Time)
    ensures |SweepFrom(st, candidates, now).monitors| == |st.monitors|
    decreases |candidates|
  {
    if candidates != [] {
      hide FirstMonitor, SweepRatio, InterlockArea, LogFor;
      SweepKeepsCount(Strike(st, candidates[0], now), candidates[1..], now);
      SweepUnfolds(st, candidates, now);
    }
  }

  /**
   In every reachable state every monitor zone's fan level is min(100, 60 + 10 s) and its fresh-air ratio
   min(100, 30 + 5 s), where s sums the levels of all logs of its area issued since it was created.
   */
  lemma {:induction false} FansAreClosedForm(cfg: Config, run: seq<Step>)
    requires cfg.Valid() && Clocked(run)
    ensures FansMatch(Exec(cfg, run), Births(cfg, run)) && LevelsPositive(Exec(cfg, run).logs)
  {
    hide Apply, FansMatch, LevelsPositive, BirthsAfter;
    if run != [] {
      var front, last := run[..|run| - 1], run[|run| - 1];
      FansAreClosedForm(cfg, front);
      ReachableSound(cfg, front, last.now);
      FansStep(cfg, Exec(cfg, front), last, Births(cfg, front));
    } else {
      NoFans(Births(cfg, []));
    }
  }

  lemma NoFans(births: map<string, nat>)
    ensures FansMatch(EMPTY, births) && LevelsPositive(EMPTY.logs)
  {
  }

  // ---- Never falling ------------------------------------------------------------------------------

  lemma {:induction false} SumGrows(a: seq<InterlockLog>, b: seq<InterlockLog>, from: nat, area: string)
    requires |a| <= |b| && LogsLike(a, b[..|a|]) && LevelsPositive(b)
    ensures 0 <= LevelSum(a, from, area) <= LevelSum(b, from, area)
    decreases |b|
  {
    if |b| > |a| {
      assert b[..|b| - 1][..|a|] == b[..|a|];
      SumGrows(a, b[..|b| - 1], from, area);
    } else {
      assert b[..|a|] == b;
      SumLike(a, b, from, area);
      if |a| > from {
        SumGrows(a[..|a| - 1], b[..|b| - 1], from, area);
      }
    }
  }

  // More log history never lowers a fan.
  lemma HigherWithHistory(a: State, b: State, m: MonitorZone, n: MonitorZone, births: map<string, nat>)
    requires FanAt(a, m, births) && FanAt(b, n, births) && m.id == n.id
    requires AreaOf(a.zones, m.zoneId) == AreaOf(b.zones, n.zoneId)
    requires |a.logs| <= |b.logs| && LogsLike(a.logs, b.logs[..|a.logs|]) && LevelsPositive(b.logs)
    ensures 60 <= m.equipment.ffuLevel <= n.equipment.ffuLevel <= 100
    ensures 30 <= m.equipment.freshAirRatio <= n.equipment.freshAirRatio <= 100
  {
    hide LevelSum, AreaOf;
    SumGrows(a.logs, b.logs, births[m.id], AreaOf(a.zones, m.zoneId));
  }

  // Monitor zones keep their place, their id and their zone.
  ghost predicate MonitorsExtend(a: seq<MonitorZone>, b: seq<MonitorZone>) {
    |a| <= |b| && forall i :: 0 <= i < |a| ==> a[i].id == b[i].id && a[i].zoneId == b[i].zoneId
  }

  lemma MovePlantExtends(cfg: Config, st: State, z: CleanZone, m: MonitorZone, ratio: real, now: Time)
    ensures MonitorsExtend(st.monitors, MovePlant(cfg, st, z, m, ratio, now).monitors)
  {
    hide InterlockArea, LogFor, PutZone, RecordRatio, Serves, TargetStatusFromRatio;
  }

  lemma {:induction false} SweepExtends(st: State, candidates: seq<CleanZone>, now: Time)
    ensures MonitorsExtend(st.monitors, SweepFrom(st, candidates, now).monitors)
    decreases |candidates|
  {
    if candidates != [] {
      var next := Strike(st, candidates[0], now);
      SweepUnfolds(st, candidates, now);
      IssueExtends(st, candidates[0].id, FirstMonitor(st.monitors, candidates[0].id), AUTO_REASON, SweepRatio(candidates[0]), now);
      hide Issue, FirstMonitor, SweepRatio, SweepFrom;
      SweepExtends(next, candidates[1..], now);
    }
  }

  lemma IssueExtends(st: State, zoneId: string, trigger: string, reason: string, ratio: real, now: Time)
    ensures MonitorsExtend(st.monitors, Issue(st, zoneId, trigger, reason, ratio, now).0.monitors)
  {
    hide InterlockArea, LogFor, Serves, ZoneIndex;
  }

  lemma MonitorsKeepPlace(cfg: Config, st: State, step: Step)
    ensures MonitorsExtend(st.monitors, Apply(cfg, st, step).monitors)
  {
    hide ProcessSample, MovePlant, SweepFrom, Issue, Restore, CreateZone, Candidates, RatioOf, EscalateAll, Judge;
    match step
    case Report(_, req) =>
      var j := Judge(st, req, step.now);
      ReportOnPlant(cfg, st, req, step.now);
      if j.Judged? && j.valid {
        MovePlantExtends(cfg, st, j.zone, j.monitor, j.ratio, step.now);
      }
    case Interlock(_, zoneId, trigger, reason, ratio) =>
      IssueExtends(st, zoneId, ManualTrigger(st, zoneId, trigger), ManualReason(reason), ManualRatio(ratio), step.now);
    case SweepZones(_, tick) => SweepExtends(st, Candidates(cfg, st.zones, tick), step.now);
    case AddMonitor(_, _, _, _, _, _, _) => AddMonitorShape(cfg, st, step);
    case _ =>
      OtherStepsKeepFans(cfg, st, step);
  }

  // One reading of a fan is no lower than another, and both are in range.
  predicate FanRisen(m: MonitorZone, n: MonitorZone) {
    && m.id == n.id
    && 60 <= m.equipment.ffuLevel <= n.equipment.ffuLevel <= 100
    && 30 <= m.equipment.freshAirRatio <= n.equipment.freshAirRatio <= 100
  }

  lemma FanRises(a: State, b: State, births: map<string, nat>, now: Time, confirmed: bool, k: nat)
    requires FansMatch(a, births) && FansMatch(b, BirthsAfter(births, a, b)) && LevelsPositive(b.logs)
    requires MonitorsPlaced(a.monitors, a.zones) && UniqueMonitors(b.monitors)
    requires MonitorsExtend(a.monitors, b.monitors) && Evolves(a, b, now, confirmed) && k < |a.monitors|
    ensures FanRisen(a.monitors[k], b.monitors[k])
  {
    var m, n, after := a.monitors[k], b.monitors[k], BirthsAfter(births, a, b);
    assert FanAt(a, m, births) && FanAt(b, n, after);
    assert FindZone(a.zones, m.zoneId).Some?;
    assert FanAt(b, n, births);
    EvolvesExtends(a, b, now, confirmed);
    hide FansMatch, MonitorsPlaced, UniqueMonitors, Evolves, LevelSum, FindZone;
    AreaKept(a.zones, b.zones, m.zoneId);
    HigherWithHistory(a, b, m, n, births);
  }

  lemma EvolvesExtends(a: State, b: State, now: Time, confirmed: bool)
    requires Evolves(a, b, now, confirmed)
    ensures ZonesExtend(a.zones, b.zones) && |a.logs| <= |b.logs| && LogsLike(a.logs, b.logs[..|a.logs|])
  {
  }

  lemma FanRisesNext(cfg: Config, run: seq<Step>, n: nat, k: nat)
    requires cfg.Valid() && Clocked(run) && n < |run| && k < |At(cfg, run, n).monitors|
    ensures k < |At(cfg, run, n + 1).monitors| && FanRisen(At(cfg, run, n).monitors[k], At(cfg, run, n + 1).monitors[k])
  {
    hide Apply, Evolves, FansMatch, Births, BirthsAfter;
    var a, b := At(cfg, run, n), At(cfg, run, n + 1);
    ClockedPrefix(run, n);
    FansAreClosedForm(cfg, run[..n]);
    FansAreClosedForm(cfg, run[..n + 1]);
    BirthsNext(cfg, run, n);
    StepOfRun(cfg, run, n);
    AtNext(cfg, run, n);
    MonitorsKeepPlace(cfg, a, run[n]);
    SoundAt(cfg, run, n);
    ReachableSound(cfg, run[..n + 1], run[n].now);
    PlantIsPlaced(a);
    PlantIsPlaced(b);
    hide Sound, Exec, MonitorsPlaced, UniqueMonitors, LevelsPositive, Clocked, Until;
    FanRises(a, b, Births(cfg, run[..n]), run[n].now, run[n].Confirm?, k);
  }

  lemma BirthsNext(cfg: Config, run: seq<Step>, n: nat)
    requires n < |run|
    ensures Births(cfg, run[..n + 1]) == BirthsAfter(Births(cfg, run[..n]), At(cfg, run, n), At(cfg, run, n + 1))
  {
    hide Exec, BirthsAfter;
    assert run[..n + 1][..n] == run[..n];
  }

  /** Along a run no fan and no fresh-air share ever falls, and both stay within 0 to 100. */
  lemma {:induction false} FansNeverFall(cfg: Config, run: seq<Step>, i: nat, j: nat, k: nat)
    requires cfg.Valid() && Clocked(run) && i <= j <= |run| && k < |At(cfg, run, i).monitors|
    ensures k < |At(cfg, run, j).monitors| && FanRisen(At(cfg, run, i).monitors[k], At(cfg, run, j).monitors[k])
    decreases j
  {
    hide Apply, Exec;
    if i < j {
      FansNeverFall(cfg, run, i, j - 1, k);
      FanRisesNext(cfg, run, j - 1, k);
    } else {
      FansAreClosedForm(cfg, run[..i]);
      var st, births := At(cfg, run, i), Births(cfg, run[..i]);
      assert FanAt(st, st.monitors[k], births);
      hide FansMatch;
      assert st.logs[..|st.logs|] == st.logs;
      HigherWithHistory(st, st, st.monitors[k], st.monitors[k], births);
    }
  }
}
