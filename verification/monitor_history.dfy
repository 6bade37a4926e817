/** What becomes of a monitor zone over a run: its maintenance and calibration orders decide which readings count. */
module MonitorHistory {
  import opened Types
  import opened Config
  import opened Zones
  import opened Monitors
  import opened State
  import opened Runs
  import opened Plants
  import opened InterlockTheorems
  import opened Register
  import Fans

  // The orders in force for a monitor zone's counter: maintenance with its note and since when, and the calibration date.
  datatype Care = Care(maintenance: bool, note: string, since: Option<Time>, due: Option<Time>)

  function CareFor(e: Equipment): Care {
    Care(e.inMaintenance, e.maintenanceNote, e.maintenanceSince, e.calibrationDue)
  }

  function CareOf(ms: seq<MonitorZone>, id: string): Option<Care> {
    var m := FindMonitor(ms, id);
    if m.Some? then Some(CareFor(m.value.equipment)) else None
  }

  // The orders in force after a run, told from the requests alone: the last maintenance toggle and the last
  // calibration date requested for the monitor zone since its creation.
  ghost function Ordered(run: seq<Step>, id: string): Option<Care> {
    if run == [] then None
    else
      var front, last := run[..|run| - 1], run[|run| - 1];
      var before := Ordered(front, id);
      match last
      case AddMonitor(_, _, _, _, _, _, due) =>
        if before.None? && Known(run, id) then Some(Care(false, "", None, Some(due))) else before
      case Maintain(now, monitorId, on, note) =>
        if before.Some? && monitorId == id then Some(Care(on, note, if on then Some(now) else None, before.value.due)) else before
      case Calibrate(_, monitorId, due) =>
        if before.Some? && monitorId == id then Some(before.value.(due := due)) else before
      case _ => before
  }

  ghost predicate CareLike(a: seq<MonitorZone>, b: seq<MonitorZone>) {
    |a| == |b| && forall i :: 0 <= i < |a| ==>
      && a[i].id == b[i].id && a[i].counterId == b[i].counterId
      && CareFor(a[i].equipment) == CareFor(b[i].equipment)
  }

  lemma SameCare(a: seq<MonitorZone>, b: seq<MonitorZone>, id: string)
    requires CareLike(a, b)
    ensures CareOf(a, id) == CareOf(b, id)
  {
    var i, j := MonitorIndex(a, id), MonitorIndex(b, id);
    assert i < |a| ==> b[i].id == id;
    assert j < |b| ==> a[j].id == id;
  }

  lemma IssueKeepsCare(st: State, zoneId: string, trigger: string, reason: string, ratio: real, now: Time)
    ensures CareLike(st.monitors, Issue(st, zoneId, trigger, reason, ratio, now).0.monitors)
  {
    hide InterlockArea, LogFor, Serves, ZoneIndex;
  }

  lemma MoveKeepsCare(cfg: Config, st: State, z: CleanZone, m: MonitorZone, ratio: real, now: Time)
    ensures CareLike(st.monitors, MovePlant(cfg, st, z, m, ratio, now).monitors)
  {
    hide InterlockArea, LogFor, PutZone, RecordRatio, Serves, TargetStatusFromRatio;
  }

  lemma {:induction false} SweepKeepsCare(st: State, candidates: seq<CleanZone>, now: Time)
    ensures CareLike(st.monitors, SweepFrom(st, candidates, now).monitors)
    decreases |candidates|
  {
    if candidates != [] {
      var z := candidates[0];
      IssueKeepsCare(st, z.id, FirstMonitor(st.monitors, z.id), AUTO_REASON, SweepRatio(z), now);
      SweepUnfolds(st, candidates, now);
      hide Issue, FirstMonitor, SweepRatio, SweepFrom;
      SweepKeepsCare(Strike(st, z, now), candidates[1..], now);
    }
  }

  // Steps that give no orders.
  lemma OtherStepsKeepCare(cfg: Config, st: State, step: Step)
    requires !step.AddMonitor? && !step.Maintain? && !step.Calibrate?
    ensures CareLike(st.monitors, Apply(cfg, st, step).monitors)
  {
    hide ProcessSample, MovePlant, SweepFrom, Issue, Candidates, RatioOf, ZoneIndex, CleanZone.Valid, InArea, RestoredOnly,
         EscalateAll, AlertIndex, RestoreArea, CloseArea;
    match step
    case Report(_, req) =>
      var j := Judge(st, req, step.now);
      ReportOnPlant(cfg, st, req, step.now);
      if j.Judged? {
        MoveKeepsCare(cfg, st, j.zone, j.monitor, j.ratio, step.now);
      }
    case Interlock(_, zoneId, trigger, reason, ratio) =>
      IssueKeepsCare(st, zoneId, ManualTrigger(st, zoneId, trigger), ManualReason(reason), ManualRatio(ratio), step.now);
    case SweepZones(_, tick) => SweepKeepsCare(st, Candidates(cfg, st.zones, tick), step.now);
    case _ =>
  }

  lemma PutCare(ms: seq<MonitorZone>, m: MonitorZone, id: string)
    requires FindMonitor(ms, m.id).Some?
    ensures CareOf(PutMonitor(ms, m), id) ==
            if m.id == id then Some(CareFor(m.equipment)) else CareOf(ms, id)
  {
    var next := PutMonitor(ms, m);
    var i, j := MonitorIndex(ms, id), MonitorIndex(next, id);
    assert i < |ms| ==> next[i].id == id;
    assert j < |ms| ==> ms[j].id == id;
  }

  lemma NewCare(ms: seq<MonitorZone>, m: MonitorZone, id: string)
    requires FindMonitor(ms, m.id).None?
    ensures CareOf(ms + [m], id) ==
            if m.id == id then Some(CareFor(m.equipment)) else CareOf(ms, id)
  {
    var next := ms + [m];
    var i, j := MonitorIndex(ms, id), MonitorIndex(next, id);
    assert i < |ms| ==> next[i].id == id;
    assert j < |ms| ==> ms[j].id == id;
    assert m.id == id ==> next[|ms|].id == id;
  }

  lemma OrderedStep(cfg: Config, st: State, step: Step, id: string)
    ensures var before, after := CareOf(st.monitors, id), CareOf(Apply(cfg, st, step).monitors, id);
            match step
            case AddMonitor(_, _, _, _, _, _, due) =>
              if before.None? && after.Some? then after == Some(Care(false, "", None, Some(due))) else after == before
            case Maintain(now, monitorId, on, note) =>
              after == if before.Some? && monitorId == id
                       then Some(Care(on, note, if on then Some(now) else None, before.value.due))
                       else before
            case Calibrate(_, monitorId, due) =>
              after == if before.Some? && monitorId == id then Some(before.value.(due := due)) else before
            case _ => after == before
  {
    hide CareOf, PutMonitor, MonitorIndex;
    var next := Apply(cfg, st, step);
    match step
    case AddMonitor(_, _, _, _, _, _, _) =>
      Fans.AddMonitorShape(cfg, st, step);
      hide Apply;
      if next.monitors != st.monitors {
        NewCare(st.monitors, next.monitors[|st.monitors|], id);
        FoundCare(st.monitors, id);
      }
    case Maintain(_, monitorId, on, note) =>
      MaintainCare(st, monitorId, on, note, step.now, id);
    case Calibrate(_, monitorId, due) =>
      CalibrateCare(st, monitorId, due, step.now, id);
    case _ =>
      hide Apply;
      OtherStepsKeepCare(cfg, st, step);
      SameCare(st.monitors, next.monitors, id);
  }

  lemma FoundCare(ms: seq<MonitorZone>, id: string)
    ensures CareOf(ms, id).Some? <==> FindMonitor(ms, id).Some?
  {
  }

  lemma MaintainCare(st: State, monitorId: string, on: bool, note: string, now: Time, id: string)
    ensures var before := CareOf(st.monitors, id);
            CareOf(SetMaintenance(st, monitorId, on, note, now).0.monitors, id) ==
            if before.Some? && monitorId == id then Some(Care(on, note, if on then Some(now) else None, before.value.due)) else before
  {
    var m := FindMonitor(st.monitors, monitorId);
    if m.Some? {
      PutCare(st.monitors, m.value.SetMaintenance(on, note, now), id);
    }
  }

  lemma CalibrateCare(st: State, monitorId: string, due: Option<Time>, now: Time, id: string)
    ensures var before := CareOf(st.monitors, id);
            CareOf(SetCalibration(st, monitorId, due, now).0.monitors, id) ==
            if before.Some? && monitorId == id then Some(before.value.(due := due)) else before
  {
    var m := FindMonitor(st.monitors, monitorId);
    if m.Some? {
      PutCare(st.monitors, m.value.SetCalibration(due, now), id);
    }
  }

  lemma {:induction false} OrdersAreKept(cfg: Config, run: seq<Step>, id: string)
    ensures CareOf(Exec(cfg, run).monitors, id) == Ordered(run, id)
  {
    if run != [] {
      var front, last := run[..|run| - 1], run[|run| - 1];
      OrdersAreKept(cfg, front, id);
      hide Apply, CareOf, Known;
      OrderedStep(cfg, Exec(cfg, front), last, id);
      FoundCare(Exec(cfg, run).monitors, id);
      KnownIsStored(cfg, run, id);
    }
  }

  /**
   A reading counts exactly when the last maintenance toggle of its monitor zone was off, or there was none, and its
   own report time lies within the last calibration date given, or that was withdrawn; whatever else happened in
   between, and whatever the clock says. Maintenance is the reason given first.
   */
  lemma ValidityFollowsTheOrders(cfg: Config, run: seq<Step>, req: IngestRequest, now: Time)
    requires Judge(Exec(cfg, run), req, now).Judged?
    ensures var order := Ordered(run, req.monitorId);
            var at := if req.timestamp.Some? then req.timestamp.value else now;
            var expired := order.Some? && order.value.due.Some? && at > order.value.due.value;
            && order.Some?
            && CareOf(Exec(cfg, run).monitors, req.monitorId) == order
            && (Judge(Exec(cfg, run), req, now).valid <==> !order.value.maintenance && !expired)
            && Reading(Exec(cfg, run), Judge(Exec(cfg, run), req, now).monitor, req, now).invalidReason ==
               (if order.value.maintenance then "counter_in_pm_maintenance" else if expired then "calibration_expired" else "")
  {
    OrdersAreKept(cfg, run, req.monitorId);
    hide Exec, Ordered, Known, RatioOf, MonitorIndex, ZoneIndex;
  }

  // ---- Particle counters --------------------------------------------------------------------------

  // Every particle counter serves one monitor zone.
  ghost predicate CountersUnique(ms: seq<MonitorZone>) {
    forall i, j :: 0 <= i < j < |ms| ==> ms[i].counterId != ms[j].counterId
  }

  lemma CountersStay(a: seq<MonitorZone>, b: seq<MonitorZone>)
    requires CountersUnique(a) && |a| == |b| && forall i :: 0 <= i < |a| ==> a[i].counterId == b[i].counterId
    ensures CountersUnique(b)
  {
  }

  lemma NewCounter(ms: seq<MonitorZone>, m: MonitorZone)
    requires CountersUnique(ms) && !CounterTaken(ms, m.counterId)
    ensures CountersUnique(ms + [m])
  {
  }

  lemma OrdersKeepCounters(cfg: Config, st: State, step: Step)
    requires step.Maintain? || step.Calibrate?
    ensures var next := Apply(cfg, st, step);
            && |next.monitors| == |st.monitors|
            && forall i :: 0 <= i < |st.monitors| ==> st.monitors[i].counterId == next.monitors[i].counterId
  {
  }

  lemma CountersStep(cfg: Config, st: State, step: Step)
    requires CountersUnique(st.monitors)
    ensures CountersUnique(Apply(cfg, st, step).monitors)
  {
    hide Apply, CountersUnique, CounterTaken;
    var next := Apply(cfg, st, step);
    if step.AddMonitor? {
      Fans.AddMonitorShape(cfg, st, step);
      if next.monitors != st.monitors {
        NewCounter(st.monitors, next.monitors[|st.monitors|]);
      }
    } else {
      if step.Maintain? || step.Calibrate? {
        OrdersKeepCounters(cfg, st, step);
      } else {
        OtherStepsKeepCare(cfg, st, step);
      }
      CountersStay(st.monitors, next.monitors);
    }
  }

  /** In every reachable state no particle counter serves two monitor zones. */
  lemma {:induction false} CountersAreUnique(cfg: Config, run: seq<Step>)
    ensures CountersUnique(Exec(cfg, run).monitors)
  {
    if run != [] {
      hide Apply, CountersUnique;
      CountersAreUnique(cfg, run[..|run| - 1]);
      CountersStep(cfg, Exec(cfg, run[..|run| - 1]), run[|run| - 1]);
    } else {
      NoCounters();
    }
  }

  lemma NoCounters()
    ensures CountersUnique(EMPTY.monitors)
  {
  }

  // ---- When a monitor zone was last touched -------------------------------------------------------

  // What changed carries the clock, and what is new was created at it.
  ghost predicate Touched(a: seq<MonitorZone>, b: seq<MonitorZone>, now: Time) {
    && |a| <= |b|
    && (forall i :: 0 <= i < |a| ==> b[i] == a[i] || b[i].updatedAt == now)
    && (forall i :: |a| <= i < |b| ==> b[i].createdAt == now && b[i].updatedAt == now)
  }

  lemma IssueTouches(st: State, zoneId: string, trigger: string, reason: string, ratio: real, now: Time)
    ensures Touched(st.monitors, Issue(st, zoneId, trigger, reason, ratio, now).0.monitors, now)
  {
    hide InterlockArea, LogFor, Serves, ZoneIndex;
  }

  lemma MoveTouches(cfg: Config, st: State, z: CleanZone, m: MonitorZone, ratio: real, now: Time)
    ensures Touched(st.monitors, MovePlant(cfg, st, z, m, ratio, now).monitors, now)
  {
    hide InterlockArea, LogFor, PutZone, RecordRatio, Serves, TargetStatusFromRatio;
  }

  lemma {:induction false} SweepTouches(st: State, candidates: seq<CleanZone>, now: Time)
    ensures Touched(st.monitors, SweepFrom(st, candidates, now).monitors, now)
    decreases |candidates|
  {
    if candidates != [] {
      var z := candidates[0];
      var next := Strike(st, z, now);
      IssueTouches(st, z.id, FirstMonitor(st.monitors, z.id), AUTO_REASON, SweepRatio(z), now);
      SweepUnfolds(st, candidates, now);
      hide Issue, FirstMonitor, SweepRatio, SweepFrom;
      SweepTouches(next, candidates[1..], now);
    }
  }

  lemma OrdersTouch(cfg: Config, st: State, step: Step)
    requires step.Maintain? || step.Calibrate?
    ensures Touched(st.monitors, Apply(cfg, st, step).monitors, step.now)
  {
    hide MonitorIndex;
  }

  /** Every step dates the monitor zones it changes or creates with its clock. */
  lemma StepTouches(cfg: Config, st: State, step: Step)
    ensures Touched(st.monitors, Apply(cfg, st, step).monitors, step.now)
  {
    hide Touched, ProcessSample, MovePlant, SweepFrom, Issue, Candidates, RatioOf, Judge;
    NothingTouched(st.monitors, step.now);
    match step
    case AddMonitor(_, _, _, _, _, _, _) =>
      Fans.AddMonitorShape(cfg, st, step);
      hide Apply;
      NewTouched(st.monitors, Apply(cfg, st, step).monitors, step.now);
    case Maintain(_, _, _, _) => OrdersTouch(cfg, st, step);
    case Calibrate(_, _, _) => OrdersTouch(cfg, st, step);
    case Report(_, req) =>
      ReportOnPlant(cfg, st, req, step.now);
      var j := Judge(st, req, step.now);
      if j.Judged? {
        MoveTouches(cfg, st, j.zone, j.monitor, j.ratio, step.now);
      }
    case Interlock(_, zoneId, trigger, reason, ratio) =>
      IssueTouches(st, zoneId, ManualTrigger(st, zoneId, trigger), ManualReason(reason), ManualRatio(ratio), step.now);
    case SweepZones(_, tick) => SweepTouches(st, Candidates(cfg, st.zones, tick), step.now);
    case _ => QuietForMonitors(cfg, st, step);
  }

  lemma NothingTouched(ms: seq<MonitorZone>, now: Time)
    ensures Touched(ms, ms, now)
  {
  }

  lemma NewTouched(a: seq<MonitorZone>, b: seq<MonitorZone>, now: Time)
    requires b == a || (|b| == |a| + 1 && b[..|a|] == a && b[|a|].createdAt == now && b[|a|].updatedAt == now)
    ensures Touched(a, b, now)
  {
  }

  lemma QuietForMonitors(cfg: Config, st: State, step: Step)
    requires step.AddZone? || step.Confirm? || step.Acknowledge? || step.Promote? || step.SweepAlerts?
    ensures Apply(cfg, st, step).monitors == st.monitors
  {
    hide CleanZone.Valid, ZoneIndex, InArea, RestoredOnly, RestoreArea, CloseArea, AlertIndex, EscalateAll;
  }
}
