/** Conservation of alert occurrences, and what the escalation sweep achieves. */
module AlertTheorems {
  import opened Types
  import opened Sequences
  import opened Config
  import opened Zones
  import opened Monitors
  import opened Samples
  import opened Alerts
  import opened State
  import opened Runs
  import opened Plants
  import opened Ventilation
  import opened AlertInvariants
  import Text

  // ---- Occurrences ------------------------------------------------------------------------------

  function CountFor(monitorId: string, kind: AlertType): CleanAlert -> int {
    (a: CleanAlert) => if a.monitorId == monitorId && a.kind == kind then a.count else 0
  }

  // All occurrences recorded for a monitor zone and type, closed alerts included.
  function Occurrences(s: seq<CleanAlert>, monitorId: string, kind: AlertType): int {
    Sum(s, CountFor(monitorId, kind))
  }

  function Hits(flag: bool): int {
    if flag then 1 else 0
  }

  lemma {:induction false} SumPut<T>(s: seq<T>, k: nat, x: T, f: T -> int)
    requires k < |s|
    ensures Sum(s[k := x], f) == Sum(s, f) - f(s[k]) + f(x)
  {
    if k == |s| - 1 {
      assert s[k := x][..k] == s[..k];
    } else {
      assert s[k := x][..|s| - 1] == s[..|s| - 1][k := x];
      SumPut(s[..|s| - 1], k, x, f);
    }
  }

  lemma {:induction false} SumSame<T>(s: seq<T>, t: seq<T>, f: T -> int)
    requires |s| == |t| && forall i :: 0 <= i < |s| ==> f(s[i]) == f(t[i])
    ensures Sum(s, f) == Sum(t, f)
  {
    if s != [] {
      SumSame(s[..|s| - 1], t[..|t| - 1], f);
    }
  }

  lemma SumAdd<T>(s: seq<T>, x: T, f: T -> int)
    ensures Sum(s + [x], f) == Sum(s, f) + f(x)
  {
    assert (s + [x])[..|s|] == s;
  }

  lemma TendedCounts(a: seq<CleanAlert>, b: seq<CleanAlert>, now: Time, monitorId: string, kind: AlertType)
    requires Tended(a, b, now)
    ensures Occurrences(b, monitorId, kind) == Occurrences(a, monitorId, kind)
  {
    SumSame(a, b, CountFor(monitorId, kind));
  }

  /** A raise adds one occurrence to its own monitor zone and type and to no other: keys do not collide. */
  lemma RaiseCounts(cfg: Config, st: State, zoneId: string, monitorId: string, kind: AlertType, level: AlertLevel,
                    message: Message, sampleId: string, now: Time, m: string, k: AlertType)
    requires AlertInv(cfg, st, now)
    ensures var next := Raise(cfg, st, zoneId, monitorId, kind, level, message, sampleId, now).st;
            Occurrences(next.alerts, m, k) == Occurrences(st.alerts, m, k) + Hits(m == monitorId && k == kind)
  {
    var r := Raise(cfg, st, zoneId, monitorId, kind, level, message, sampleId, now);
    MergeHitsTheLast(cfg, st, zoneId, monitorId, kind, level, message, sampleId, now);
    hide AlertsOk, Separated, LivesOk, Raise, DedupKeyOf, NextId, Sum, MergedIntoLast, NoneWithin;
    var incoming := Incoming(st, zoneId, monitorId, kind, level, message, sampleId, now);
    if r.isNew {
      SumAdd(st.alerts, incoming, CountFor(m, k));
    } else {
      MergedCounts(st.alerts, r.st.alerts, incoming, cfg.alertDedupWindow, now, m, k);
    }
  }

  lemma MergedCounts(s: seq<CleanAlert>, t: seq<CleanAlert>, incoming: CleanAlert, window: Time, now: Time, m: string, k: AlertType)
    requires LivesOk(s, now) && MergedIntoLast(s, t, DedupKeyOf(incoming.monitorId, incoming.kind), incoming, window)
    ensures Occurrences(t, m, k) == Occurrences(s, m, k) + Hits(m == incoming.monitorId && k == incoming.kind)
  {
    var i :| LastOfKey(s, i, DedupKeyOf(incoming.monitorId, incoming.kind)) && t == s[i := s[i].Merge(incoming)];
    LifeAt(s, now, i);
    hide LivesOk, LastOfKey, DedupKeyOf, Sum;
    DedupKeyInjective(incoming.monitorId, incoming.kind, s[i].monitorId, s[i].kind);
    SumPut(s, i, s[i].Merge(incoming), CountFor(m, k));
  }

  lemma SignalCounts(cfg: Config, p: Progress, bad: bool, zoneId: string, monitorId: string, kind: AlertType,
                     level: AlertLevel, message: Message, sampleId: string, now: Time, m: string, k: AlertType)
    requires AlertInv(cfg, p.st, now)
    ensures var next := Signal(cfg, p, bad, zoneId, monitorId, kind, level, message, sampleId, now).st;
            && AlertInv(cfg, next, now)
            && Occurrences(next.alerts, m, k) == Occurrences(p.st.alerts, m, k) + Hits(bad && m == monitorId && k == kind)
  {
    SignalKeepsInv(cfg, p, bad, zoneId, monitorId, kind, level, message, sampleId, now);
    if bad {
      hide AlertInv, Raise, Occurrences;
      RaiseCounts(cfg, p.st, zoneId, monitorId, kind, level, message, sampleId, now, m, k);
    } else {
      hide AlertsOk, Separated, Resolve, Occurrences;
      ResolveTends(p.st.alerts, ResolveFilter(monitorId, kind), now);
      hide LivesOk, Tended;
      TendedCounts(p.st.alerts, Resolve(p.st.alerts, ResolveFilter(monitorId, kind), now), now, m, k);
    }
  }

  // The reading as it is judged and stored.
  function Judgeable(st: State, m: MonitorZone, req: IngestRequest, now: Time): EnvSample {
    Classified(Reading(st, m, req, now))
  }

  // Whether the reading shows the condition an alert type stands for.
  ghost predicate Shows(cfg: Config, st: State, z: CleanZone, m: MonitorZone, s: EnvSample, kind: AlertType) {
    var range := m.EffectiveEnvRange(z.process);
    match kind
    case Particle => s.valid && RatioOf(z, m, s.count03, s.count05) >= 1.0
    case TempHumidity => s.valid && (TempOut(s, range) || HumidityOut(s, range))
    case Pressure => s.valid && PressureOut(s, range)
    case DataQuality => CredibilityLost(cfg, Window(cfg, st.samples, s))
  }

  // The step reports a reading of this monitor zone that shows the condition of this alert type.
  ghost predicate Demands(cfg: Config, st: State, step: Step, monitorId: string, kind: AlertType) {
    && step.Report? && step.req.monitorId == monitorId
    && var j := Judge(st, step.req, step.now);
       j.Judged? && Shows(cfg, st, j.zone, j.monitor, Judgeable(st, j.monitor, step.req, step.now), kind)
  }

  ghost function Demanded(cfg: Config, run: seq<Step>, monitorId: string, kind: AlertType): int {
    if run == [] then 0
    else
      var front, last := run[..|run| - 1], run[|run| - 1];
      Demanded(cfg, front, monitorId, kind) + Hits(Demands(cfg, Exec(cfg, front), last, monitorId, kind))
  }

  lemma ActCounts(cfg: Config, p: Progress, z: CleanZone, m: MonitorZone, s: EnvSample, now: Time, id: string, k: AlertType)
    requires AlertInv(cfg, p.st, now) && s.valid
    ensures var next := ActOn(cfg, p, z, m, s, now).st;
            && AlertInv(cfg, next, now)
            && Occurrences(next.alerts, id, k) ==
               Occurrences(p.st.alerts, id, k) + Hits(id == m.id && k != DataQuality && Shows(cfg, p.st, z, m, s, k))
  {
    var ratio := RatioOf(z, m, s.count03, s.count05);
    var moved := Progress(
      MovePlant(cfg, p.st, z, m, ratio, now),
      p.res.(ratio := ratio, stateChanged := MoveChanged(cfg, z, ratio), interlock := MoveLog(cfg, p.st, z, m, ratio, now)));
    MoveLeavesAlerts(cfg, p.st, z, m, ratio, now);
    hide MovePlant, MoveLog, MoveChanged, RatioOf, Window;
    UntouchedEvolves(cfg, p.st, moved.st, now, z.id);
    hide AlertInv, Signal, Occurrences, CredibilityLost;
    forall q: Progress, bad, kind, level, message | AlertInv(cfg, q.st, now)
      ensures var next := Signal(cfg, q, bad, z.id, m.id, kind, level, message, s.id, now).st;
              && AlertInv(cfg, next, now)
              && Occurrences(next.alerts, id, k) == Occurrences(q.st.alerts, id, k) + Hits(bad && id == m.id && k == kind)
    {
      SignalCounts(cfg, q, bad, z.id, m.id, kind, level, message, s.id, now, id, k);
    }
  }

  lemma QualityCounts(cfg: Config, p: Progress, z: CleanZone, m: MonitorZone, s: EnvSample, now: Time, id: string, k: AlertType)
    requires AlertInv(cfg, p.st, now)
    ensures Occurrences(SignalQuality(cfg, p, z, m, s, now).st.alerts, id, k) ==
            Occurrences(p.st.alerts, id, k) + Hits(id == m.id && k == DataQuality && CredibilityLost(cfg, Window(cfg, p.st.samples, s)))
  {
    hide AlertInv, Signal, Window, Occurrences, CredibilityLost;
    var window := Window(cfg, p.st.samples, s);
    var ratio, low := InvalidRatio(window), CredibilityLost(cfg, window);
    var noted := p.(res := p.res.(invalidRatio := ratio, credibilityLow := low));
    SignalCounts(cfg, noted, low, z.id, m.id, DataQuality, Warning, CredibilityLow(ratio), s.id, now, id, k);
  }

  lemma ReportCounts(cfg: Config, st: State, step: Step, id: string, k: AlertType)
    requires AlertInv(cfg, st, step.now) && step.Report?
    ensures Occurrences(Apply(cfg, st, step).alerts, id, k) ==
            Occurrences(st.alerts, id, k) + Hits(Demands(cfg, st, step, id, k))
  {
    hide ActOn, SignalQuality, AppendSample, ZoneIndex, AlertInv, Occurrences, RatioOf, Window, CredibilityLost;
    var req, now := step.req, step.now;
    var j := Judge(st, req, now);
    if j.Judged? {
      var z, m := j.zone, j.monitor;
      var p := Started(st, z, m, req, now);
      var s := Classified(p.res.sample);
      UntouchedEvolves(cfg, st, p.st, now, z.id);
      var acted := if s.valid then ActOn(cfg, p, z, m, s, now) else p;
      if s.valid {
        ActCounts(cfg, p, z, m, s, now, id, k);
        ActLeavesSamples(cfg, p, z, m, s, now);
      }
      QualityCounts(cfg, acted, z, m, s, now, id, k);
    }
  }

  lemma ActLeavesSamples(cfg: Config, p: Progress, z: CleanZone, m: MonitorZone, s: EnvSample, now: Time)
    ensures HistoryKept(p.st, ActOn(cfg, p, z, m, s, now).st)
  {
    ActFrame(cfg, p, z, m, s, now);
    MoveLeavesAlerts(cfg, p.st, z, m, RatioOf(z, m, s.count03, s.count05), now);
    hide ActOn, RatioOf, MovePlant;
  }

  lemma StepCounts(cfg: Config, st: State, step: Step, id: string, k: AlertType)
    requires AlertInv(cfg, st, step.now)
    ensures Occurrences(Apply(cfg, st, step).alerts, id, k) ==
            Occurrences(st.alerts, id, k) + Hits(Demands(cfg, st, step, id, k))
  {
    hide Apply, AlertsOk, Separated, Occurrences, Shows, Judge;
    if step.Report? {
      ReportCounts(cfg, st, step, id, k);
    } else if step.Acknowledge? || step.Promote? || step.SweepAlerts? {
      CareTends(cfg, st, step);
      hide LivesOk, Tended;
      TendedCounts(st.alerts, Apply(cfg, st, step).alerts, step.now, id, k);
    } else {
      PlantStepsLeaveAlerts(cfg, st, step);
    }
  }

  /**
   Conservation: for every monitor zone and type, the counts of all its alerts add up to the number of reported
   readings that showed the condition, however they were merged, acknowledged, escalated or closed in between.
   */
  lemma {:induction false} OccurrencesAreConserved(cfg: Config, run: seq<Step>, monitorId: string, kind: AlertType)
    requires Clocked(run)
    ensures Occurrences(Exec(cfg, run).alerts, monitorId, kind) == Demanded(cfg, run, monitorId, kind)
  {
    if run != [] {
      var front, last := run[..|run| - 1], run[|run| - 1];
      hide Apply, Occurrences, Demands, AlertInv;
      OccurrencesAreConserved(cfg, front, monitorId, kind);
      ReachableAlerts(cfg, front, last.now);
      StepCounts(cfg, Exec(cfg, front), last, monitorId, kind);
    }
  }

  // ---- Acknowledging ------------------------------------------------------------------------------

  // One alert changed into another, all others as before.
  ghost predicate OnlyOneChanged(a: seq<CleanAlert>, b: seq<CleanAlert>, k: int, changed: CleanAlert) {
    0 <= k < |a| && b == a[k := changed]
  }

  /**
   An acknowledgement goes through exactly for a stored alert that is not closed and a disposition that is not
   blank; the blank disposition is reported first. Then that one alert carries who, when and how, whatever its
   status was, and nothing else changes.
   */
  lemma AckIsExact(st: State, id: string, operator: string, note: string, now: Time)
    requires AlertsOk(st)
    ensures var (next, r) := Ack(st, id, operator, note, now);
            var found := FindAlert(st.alerts, id);
            && (r.Ok? <==> found.Some? && !Text.Blank(note) && found.value.status != Closed)
            && (r.Err? ==> next == st && r.error == if found.None? then NotFound else if Text.Blank(note) then InvalidInput else Conflict)
            && (r.Ok? ==>
                  && OnlyOneChanged(st.alerts, next.alerts, AlertIndex(st.alerts, id), r.value)
                  && r.value == found.value.(status := Acknowledged, ackBy := operator, disposition := note, acknowledgedAt := Some(now))
                  && forall a :: a in st.alerts && a.id != id ==> a in next.alerts)
  {
    hide Text.Blank;
    var next, k := Ack(st, id, operator, note, now).0, AlertIndex(st.alerts, id);
    forall a | a in st.alerts && a.id != id
      ensures a in next.alerts
    {
      var i :| 0 <= i < |st.alerts| && st.alerts[i] == a;
      assert next.alerts[i] == a;
    }
  }

  // ---- Escalation -------------------------------------------------------------------------------

  /**
   A requested escalation goes through exactly for a stored alert. It leaves a closed one alone and makes any other
   one active, even one that was acknowledged before; a second request changes at most the time.
   */
  lemma EscalateIsExact(st: State, id: string, now: Time, later: Time)
    requires AlertsOk(st)
    ensures var (next, r) := Escalate(st, id, now);
            var found := FindAlert(st.alerts, id);
            && (r.Ok? <==> found.Some?)
            && (r.Err? ==> r.error == NotFound && next == st)
            && (r.Ok? ==>
                  && OnlyOneChanged(st.alerts, next.alerts, AlertIndex(st.alerts, id), r.value)
                  && (r.value.IsActive() <==> found.value.status != Closed)
                  && r.value == (if found.value.status == Closed then found.value
                                 else found.value.(status := Escalated, escalatedAt := Some(now)))
                  && (found.value.status == Closed ==> next == st)
                  && (forall tick :: !r.value.NeedsEscalation(tick, 0))
                  && Escalate(next, id, later).0 == Escalate(st, id, later).0)
  {
    var next, found := Escalate(st, id, now).0, FindAlert(st.alerts, id);
    if found.Some? {
      var k := AlertIndex(st.alerts, id);
      assert AlertIndex(next.alerts, id) == k by {
        assert next.alerts[k].id == id;
        assert forall i :: 0 <= i < k ==> next.alerts[i] == st.alerts[i];
      }
      assert next.alerts[k := found.value.Escalate(later)] == st.alerts[k := found.value.Escalate(later)];
    }
  }

  /**
   An escalation sweep escalates exactly the alerts that were open and last seen at least the timeout before its tick,
   and leaves every other one, acknowledged ones included, as it was; the list it works through has one entry for each.
   Afterwards no open alert is that old, and a second sweep finds nothing to do.
   */
  lemma EscalationIsExact(cfg: Config, st: State, tick: Time, now: Time)
    ensures var next := EscalateSweep(cfg, st, tick, now);
            && next == st.(alerts := next.alerts) && |next.alerts| == |st.alerts|
            && (forall i :: 0 <= i < |st.alerts| ==>
                  next.alerts[i] == if st.alerts[i].status == Open && tick - st.alerts[i].createdAt >= cfg.alertEscalateAfter
                                    then st.alerts[i].(status := Escalated, escalatedAt := Some(now)) else st.alerts[i])
            && (forall i :: 0 <= i < |next.alerts| && next.alerts[i].status == Open ==>
                  tick - next.alerts[i].createdAt < cfg.alertEscalateAfter)
            && |OverdueAlerts(st.alerts, tick, cfg.alertEscalateAfter)| == Sum(st.alerts, OpenSince(tick, cfg.alertEscalateAfter))
            && OverdueAlerts(next.alerts, tick, cfg.alertEscalateAfter) == []
            && forall later :: EscalateSweep(cfg, next, tick, later) == next
  {
    var next := EscalateSweep(cfg, st, tick, now);
    NothingOverdue(next.alerts, tick, cfg.alertEscalateAfter);
    OverdueCounted(st.alerts, tick, cfg.alertEscalateAfter);
    hide OverdueAlerts, Sum;
  }

  // One for an alert open since the window before the tick.
  function OpenSince(tick: Time, window: Time): CleanAlert -> int {
    (a: CleanAlert) => if a.status == Open && tick - a.createdAt >= window then 1 else 0
  }

  lemma {:induction false} OverdueCounted(s: seq<CleanAlert>, tick: Time, window: Time)
    ensures |OverdueAlerts(s, tick, window)| == Sum(s, OpenSince(tick, window))
  {
    if s != [] {
      OverdueCounted(s[..|s| - 1], tick, window);
    }
  }

  lemma {:induction false} NothingOverdue(s: seq<CleanAlert>, tick: Time, window: Time)
    requires forall i :: 0 <= i < |s| ==> !s[i].NeedsEscalation(tick, window)
    ensures OverdueAlerts(s, tick, window) == []
  {
    if s != [] {
      NothingOverdue(s[..|s| - 1], tick, window);
    }
  }

  // The tick of the last escalation sweep, or the start of the run.
  function LastAlertTick(run: seq<Step>, start: Time): Time {
    if run == [] then start
    else
      var last := run[|run| - 1];
      if last.SweepAlerts? then last.tick else LastAlertTick(run[..|run| - 1], start)
  }

  lemma {:induction false} AlertTickInThePast(run: seq<Step>, start: Time, now: Time)
    requires Clocked(run) && Since(run, start) && Until(run, now) && start <= now
    ensures LastAlertTick(run, start) <= now
  {
    if run != [] {
      var front, last := run[..|run| - 1], run[|run| - 1];
      AlertTickInThePast(front, start, now);
      assert TickPassed(last);
    }
  }

  // At the tick no alert had been open for the whole timeout.
  ghost predicate Attended(cfg: Config, s: seq<CleanAlert>, tick: Time) {
    forall i :: 0 <= i < |s| && s[i].status == Open ==> tick - s[i].createdAt < cfg.alertEscalateAfter
  }

  lemma AttendedStep(cfg: Config, st: State, step: Step, tick: Time)
    requires cfg.Valid() && AlertInv(cfg, st, step.now) && Attended(cfg, st.alerts, tick) && tick <= step.now
    ensures Attended(cfg, Apply(cfg, st, step).alerts, if step.SweepAlerts? then step.tick else tick)
  {
    if step.SweepAlerts? {
      hide AlertInv, EscalateSweep;
      EscalationIsExact(cfg, st, step.tick, step.now);
    } else {
      StepKeepsInv(cfg, st, step);
      hide Apply, AlertInv;
    }
  }

  /**
   Bounded time to escalation: when the last escalation sweep is at most `interval` old, no alert has stayed open
   for the escalation timeout plus the interval since its latest occurrence.
   */
  lemma BoundedTimeToEscalation(cfg: Config, run: seq<Step>, start: Time, now: Time, interval: Time)
    requires cfg.Valid() && Clocked(run) && Since(run, start) && now - LastAlertTick(run, start) <= interval
    ensures var s := Exec(cfg, run).alerts;
            forall i :: 0 <= i < |s| && s[i].status == Open ==> now - s[i].createdAt < cfg.alertEscalateAfter + interval
  {
    hide Exec;
    AlwaysAttended(cfg, run, start);
  }

  lemma {:induction false} AlwaysAttended(cfg: Config, run: seq<Step>, start: Time)
    requires cfg.Valid() && Clocked(run) && Since(run, start)
    ensures Attended(cfg, Exec(cfg, run).alerts, LastAlertTick(run, start))
  {
    if run != [] {
      hide Apply, Attended, AlertInv;
      var front, last := run[..|run| - 1], run[|run| - 1];
      AlwaysAttended(cfg, front, start);
      AlertTickInThePast(front, start, last.now);
      ReachableAlerts(cfg, front, last.now);
      AttendedStep(cfg, Exec(cfg, front), last, LastAlertTick(front, start));
    }
  }
}
