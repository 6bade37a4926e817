/** The alert lifecycle over whole runs: separation of the dedup windows, order of the timestamps, finality. */
module AlertInvariants {
  import opened Types
  import opened Config
  import opened Zones
  import opened Monitors
  import opened Samples
  import opened Alerts
  import opened State
  import opened WellFormedness
  import opened Runs
  import opened Plants
  import opened Evolution
  import Text

  // What holds of one alert at any time of its life.
  ghost predicate LifeOk(a: CleanAlert, now: Time) {
    && a.dedupKey == DedupKeyOf(a.monitorId, a.kind)
    && a.count >= 1
    && a.firstSeenAt <= a.createdAt <= now
    && (a.acknowledgedAt.Some? ==> a.acknowledgedAt.value <= now && !Text.Blank(a.disposition))
    && (a.status == Acknowledged ==> a.acknowledgedAt.Some?)
    && (a.closedAt.Some? <==> a.status == Closed)
    && (a.status == Closed ==>
          && a.acknowledgedAt.Some? && a.createdAt <= a.closedAt.value
          && a.acknowledgedAt.value <= a.closedAt.value <= now)
  }

  ghost predicate LivesOk(s: seq<CleanAlert>, now: Time) {
    forall i :: 0 <= i < |s| ==> LifeOk(s[i], now)
  }

  // Of two alerts of one key, the later one was first seen a whole dedup window after the earlier one's
  // last occurrence, unless the earlier one is closed.
  ghost predicate Separated(cfg: Config, s: seq<CleanAlert>) {
    forall i, j :: 0 <= i < j < |s| && s[i].dedupKey == s[j].dedupKey && s[i].status != Closed ==>
      s[j].firstSeenAt - s[i].createdAt >= cfg.alertDedupWindow
  }

  ghost predicate AlertInv(cfg: Config, st: State, now: Time) {
    AlertsOk(st) && LivesOk(st.alerts, now) && Separated(cfg, st.alerts)
  }

  // One alert before and after any number of changes: its identity stays, and once closed it is final.
  predicate AlertGrows(a: CleanAlert, b: CleanAlert) {
    && a.id == b.id && a.zoneId == b.zoneId && a.monitorId == b.monitorId && a.kind == b.kind
    && a.level == b.level && a.dedupKey == b.dedupKey && a.firstSeenAt == b.firstSeenAt
    && a.createdAt <= b.createdAt && a.count <= b.count
    && (a.status == Closed ==> b == a)
    && (b.status == Open ==> a.status == Open)
  }

  // New alerts belong to the one zone a reading can concern.
  ghost predicate AlertsEvolve(a: seq<CleanAlert>, b: seq<CleanAlert>, now: Time, home: string) {
    && |a| <= |b|
    && (forall i :: 0 <= i < |a| ==> AlertGrows(a[i], b[i]))
    && (forall i :: |a| <= i < |b| ==> b[i].createdAt >= now && b[i].zoneId == home)
  }

  lemma EvolveCompose(a: seq<CleanAlert>, b: seq<CleanAlert>, c: seq<CleanAlert>, now: Time, home: string)
    requires AlertsEvolve(a, b, now, home) && AlertsEvolve(b, c, now, home)
    ensures AlertsEvolve(a, c, now, home)
  {
    assert forall i :: 0 <= i < |b| ==> AlertGrows(b[i], c[i]);
    assert forall i :: 0 <= i < |a| ==> AlertGrows(a[i], b[i]) && AlertGrows(b[i], c[i]);
  }

  // ---- Raising ----------------------------------------------------------------------------------

  // The alert at k is not closed and is the last one of the key.
  ghost predicate LastOfKey(s: seq<CleanAlert>, k: int, key: string) {
    && 0 <= k < |s| && s[k].dedupKey == key && s[k].status != Closed
    && forall j :: k < j < |s| ==> s[j].dedupKey != key
  }

  // The occurrence was merged into the last alert of the key, which lay within the window.
  ghost predicate MergedIntoLast(s: seq<CleanAlert>, t: seq<CleanAlert>, key: string, incoming: CleanAlert, window: Time) {
    exists k ::
      && LastOfKey(s, k, key) && incoming.createdAt - s[k].createdAt < window
      && t == s[k := s[k].(count := s[k].count + 1, createdAt := incoming.createdAt,
                           message := incoming.message, sampleId := incoming.sampleId)]
  }

  ghost predicate NoneWithin(s: seq<CleanAlert>, key: string, now: Time, window: Time) {
    forall i :: 0 <= i < |s| && s[i].dedupKey == key && s[i].status != Closed ==> now - s[i].createdAt >= window
  }

  function Incoming(st: State, zoneId: string, monitorId: string, kind: AlertType, level: AlertLevel, message: Message,
                    sampleId: string, now: Time): CleanAlert {
    NewAlert(NextId(st.seqs, ALERT_IDS), zoneId, monitorId, kind, level, message, sampleId, now)
  }

  /**
   A raise either finds no alert of its key within the window and adds a new one, or merges into the very last
   alert of its key, closed ones included: an older alert is never merged into again.
   */
  lemma MergeHitsTheLast(cfg: Config, st: State, zoneId: string, monitorId: string, kind: AlertType, level: AlertLevel,
                         message: Message, sampleId: string, now: Time)
    requires AlertInv(cfg, st, now)
    ensures var r := Raise(cfg, st, zoneId, monitorId, kind, level, message, sampleId, now);
            var incoming, key := Incoming(st, zoneId, monitorId, kind, level, message, sampleId, now), DedupKeyOf(monitorId, kind);
            if r.isNew then
              r.st.alerts == st.alerts + [incoming] && NoneWithin(st.alerts, key, now, cfg.alertDedupWindow)
            else
              MergedIntoLast(st.alerts, r.st.alerts, key, incoming, cfg.alertDedupWindow)
  {
    var s, key := st.alerts, DedupKeyOf(monitorId, kind);
    var r := Raise(cfg, st, zoneId, monitorId, kind, level, message, sampleId, now);
    var incoming := Incoming(st, zoneId, monitorId, kind, level, message, sampleId, now);
    var existing := FindOpen(s, key);
    if r.isNew {
      NoneFound(s, key, now, cfg.alertDedupWindow);
    } else {
      var a, k := existing.value, AlertIndex(s, existing.value.id);
      FoundAt(st, a);
      hide AlertsOk, LivesOk, Separated, FindOpen, NextId, DedupKeyOf, LastOfKey, MergedIntoLast;
      OpenIsLast(cfg, s, k, now);
      MergedIs(s, k, key, incoming, cfg.alertDedupWindow);
    }
  }

  lemma MergedIs(s: seq<CleanAlert>, k: nat, key: string, incoming: CleanAlert, window: Time)
    requires LastOfKey(s, k, key) && incoming.createdAt - s[k].createdAt < window
    ensures MergedIntoLast(s, s[k := s[k].Merge(incoming)], key, incoming, window)
  {
    hide LastOfKey;
  }

  lemma NoneFound(s: seq<CleanAlert>, key: string, now: Time, window: Time)
    requires FindOpen(s, key).Some? ==> now - FindOpen(s, key).value.createdAt >= window
    ensures NoneWithin(s, key, now, window)
  {
    forall i | 0 <= i < |s| && s[i].dedupKey == key && s[i].status != Closed
      ensures now - s[i].createdAt >= window
    {
      assert s[i] in s;
    }
  }

  // An alert whose window is still open is the last one of its key.
  lemma OpenIsLast(cfg: Config, s: seq<CleanAlert>, k: nat, now: Time)
    requires LivesOk(s, now) && Separated(cfg, s)
    requires k < |s| && s[k].status != Closed && now - s[k].createdAt < cfg.alertDedupWindow
    ensures LastOfKey(s, k, s[k].dedupKey)
  {
    forall j | k < j < |s|
      ensures s[j].dedupKey != s[k].dedupKey
    {
      LifeAt(s, now, j);
      SeparatedAt(cfg, s, k, j);
    }
  }

  lemma FoundAt(st: State, a: CleanAlert)
    requires AlertsOk(st) && a in st.alerts
    ensures var k := AlertIndex(st.alerts, a.id); k < |st.alerts| && st.alerts[k] == a
  {
    var i :| 0 <= i < |st.alerts| && st.alerts[i] == a;
  }

  lemma LifeAt(s: seq<CleanAlert>, now: Time, i: nat)
    requires LivesOk(s, now) && i < |s|
    ensures LifeOk(s[i], now)
  {
  }

  lemma SeparatedAt(cfg: Config, s: seq<CleanAlert>, i: nat, j: nat)
    requires Separated(cfg, s) && i < j < |s|
    ensures s[i].dedupKey == s[j].dedupKey && s[i].status != Closed ==> s[j].firstSeenAt - s[i].createdAt >= cfg.alertDedupWindow
  {
  }

  lemma AddedStaysSeparated(cfg: Config, s: seq<CleanAlert>, a: CleanAlert)
    requires Separated(cfg, s) && NoneWithin(s, a.dedupKey, a.firstSeenAt, cfg.alertDedupWindow)
    ensures Separated(cfg, s + [a])
  {
  }

  lemma MergedStaysSeparated(cfg: Config, s: seq<CleanAlert>, k: nat, key: string, merged: CleanAlert)
    requires Separated(cfg, s) && LastOfKey(s, k, key)
    requires merged.dedupKey == key && merged.firstSeenAt == s[k].firstSeenAt
    ensures Separated(cfg, s[k := merged])
  {
    var t := s[k := merged];
    forall i, j | 0 <= i < j < |t| && t[i].dedupKey == t[j].dedupKey && t[i].status != Closed
      ensures t[j].firstSeenAt - t[i].createdAt >= cfg.alertDedupWindow
    {
      if i != k {
        SeparatedAt(cfg, s, i, j);
      }
    }
  }

  lemma RaiseKeepsInv(cfg: Config, st: State, zoneId: string, monitorId: string, kind: AlertType, level: AlertLevel,
                      message: Message, sampleId: string, now: Time)
    requires AlertInv(cfg, st, now)
    ensures var next := Raise(cfg, st, zoneId, monitorId, kind, level, message, sampleId, now).st;
            AlertInv(cfg, next, now) && AlertsEvolve(st.alerts, next.alerts, now, zoneId)
  {
    var r := Raise(cfg, st, zoneId, monitorId, kind, level, message, sampleId, now);
    MergeHitsTheLast(cfg, st, zoneId, monitorId, kind, level, message, sampleId, now);
    RaiseKeepsAlertsOk(cfg, st, zoneId, monitorId, kind, level, message, sampleId, now);
    hide AlertsOk, Raise, Separated, LivesOk, AlertsEvolve, NoneWithin, MergedIntoLast;
    var incoming, key := Incoming(st, zoneId, monitorId, kind, level, message, sampleId, now), DedupKeyOf(monitorId, kind);
    if r.isNew {
      AddedStaysSeparated(cfg, st.alerts, incoming);
      AddedLives(st.alerts, incoming, now);
    } else {
      MergedStaysInOrder(cfg, st.alerts, r.st.alerts, key, incoming, now, zoneId);
    }
  }

  lemma AddedLives(s: seq<CleanAlert>, a: CleanAlert, now: Time)
    requires LivesOk(s, now) && LifeOk(a, now) && a.createdAt == now
    ensures LivesOk(s + [a], now) && AlertsEvolve(s, s + [a], now, a.zoneId)
  {
    hide LifeOk;
  }

  lemma MergedStaysInOrder(cfg: Config, s: seq<CleanAlert>, t: seq<CleanAlert>, key: string, incoming: CleanAlert, now: Time, home: string)
    requires LivesOk(s, now) && Separated(cfg, s) && incoming.createdAt == now
    requires MergedIntoLast(s, t, key, incoming, cfg.alertDedupWindow)
    ensures LivesOk(t, now) && Separated(cfg, t) && AlertsEvolve(s, t, now, home)
  {
    var k :| LastOfKey(s, k, key) && t == s[k := s[k].Merge(incoming)];
    MergedStaysSeparated(cfg, s, k, key, s[k].Merge(incoming));
    LifeAt(s, now, k);
    hide Separated;
  }

  // ---- Changes one alert at a time ----------------------------------------------------------------

  // Nothing was merged in between.
  predicate SameOccurrence(a: CleanAlert, b: CleanAlert) {
    a.createdAt == b.createdAt && a.count == b.count && a.sampleId == b.sampleId
  }

  // Every alert changed, if at all, into one that is still in order.
  ghost predicate Tended(a: seq<CleanAlert>, b: seq<CleanAlert>, now: Time) {
    |a| == |b| && forall i :: 0 <= i < |a| ==>
      AlertGrows(a[i], b[i]) && SameOccurrence(a[i], b[i]) && LifeOk(b[i], now)
  }

  lemma TendedKeepsInv(cfg: Config, a: State, b: State, now: Time, home: string)
    requires AlertInv(cfg, a, now) && Tended(a.alerts, b.alerts, now)
    requires Issued(a.seqs, ALERT_IDS) == Issued(b.seqs, ALERT_IDS)
    ensures AlertInv(cfg, b, now) && AlertsEvolve(a.alerts, b.alerts, now, home)
  {
    SameAlertIdsKeepOk(a, b);
    hide AlertsOk, LifeOk;
  }

  lemma ResolveTends(s: seq<CleanAlert>, f: AlertFilter, now: Time)
    requires LivesOk(s, now)
    ensures Tended(s, Resolve(s, f, now), now)
  {
    hide Matches;
  }

  lemma EscalateAllTends(s: seq<CleanAlert>, tick: Time, window: Time, now: Time)
    requires LivesOk(s, now)
    ensures Tended(s, EscalateAll(s, tick, window, now), now)
  {
  }

  lemma PutTends(s: seq<CleanAlert>, a: CleanAlert, b: CleanAlert, now: Time)
    requires LivesOk(s, now) && FindAlert(s, a.id) == Some(a)
    requires AlertGrows(a, b) && SameOccurrence(a, b) && LifeOk(b, now)
    ensures Tended(s, PutAlert(s, b), now)
  {
  }

  lemma AckTends(st: State, id: string, operator: string, note: string, now: Time)
    requires LivesOk(st.alerts, now)
    ensures Tended(st.alerts, Ack(st, id, operator, note, now).0.alerts, now)
  {
    hide Text.Blank;
    var found := FindAlert(st.alerts, id);
    if found.Some? {
      var acked := found.value.Ack(operator, note, now);
      LifeAt(st.alerts, now, AlertIndex(st.alerts, id));
      if acked.Ok? {
        hide LivesOk;
        PutTends(st.alerts, found.value, acked.value, now);
      }
    }
  }

  lemma EscalateTends(st: State, id: string, now: Time)
    requires LivesOk(st.alerts, now)
    ensures Tended(st.alerts, Escalate(st, id, now).0.alerts, now)
  {
    var found := FindAlert(st.alerts, id);
    if found.Some? {
      LifeAt(st.alerts, now, AlertIndex(st.alerts, id));
      hide LivesOk;
      PutTends(st.alerts, found.value, found.value.Escalate(now), now);
    }
  }

  lemma UntouchedEvolves(cfg: Config, a: State, b: State, now: Time, home: string)
    requires AlertInv(cfg, a, now) && b.alerts == a.alerts && Issued(a.seqs, ALERT_IDS) == Issued(b.seqs, ALERT_IDS)
    ensures AlertInv(cfg, b, now) && AlertsEvolve(a.alerts, b.alerts, now, home)
  {
    TendedKeepsInv(cfg, a, b, now, home);
  }

  // ---- One reading ------------------------------------------------------------------------------

  lemma SignalKeepsInv(cfg: Config, p: Progress, bad: bool, zoneId: string, monitorId: string, kind: AlertType,
                       level: AlertLevel, message: Message, sampleId: string, now: Time)
    requires AlertInv(cfg, p.st, now)
    ensures var next := Signal(cfg, p, bad, zoneId, monitorId, kind, level, message, sampleId, now).st;
            AlertInv(cfg, next, now) && AlertsEvolve(p.st.alerts, next.alerts, now, zoneId)
  {
    hide Raise, Resolve, Select, AlertsOk, Separated, AlertsEvolve;
    if bad {
      RaiseKeepsInv(cfg, p.st, zoneId, monitorId, kind, level, message, sampleId, now);
    } else {
      var next := Signal(cfg, p, bad, zoneId, monitorId, kind, level, message, sampleId, now).st;
      ResolveTends(p.st.alerts, ResolveFilter(monitorId, kind), now);
      hide LivesOk, Tended;
      TendedKeepsInv(cfg, p.st, next, now, zoneId);
    }
  }

  // Alerts, samples and the counters behind their ids are the same.
  predicate RestKept(a: State, b: State) {
    a.alerts == b.alerts && Issued(a.seqs, ALERT_IDS) == Issued(b.seqs, ALERT_IDS) && HistoryKept(a, b)
  }

  lemma MoveLeavesAlerts(cfg: Config, st: State, z: CleanZone, m: MonitorZone, ratio: real, now: Time)
    ensures var next := MovePlant(cfg, st, z, m, ratio, now);
            RestKept(st, next)
  {
    hide InterlockArea, Ventilate, RecordRatio, PutZone, LogFor;
  }

  lemma ActKeepsInv(cfg: Config, p: Progress, z: CleanZone, m: MonitorZone, s: EnvSample, now: Time)
    requires AlertInv(cfg, p.st, now)
    ensures var next := ActOn(cfg, p, z, m, s, now).st;
            AlertInv(cfg, next, now) && AlertsEvolve(p.st.alerts, next.alerts, now, z.id)
  {
    var ratio := RatioOf(z, m, s.count03, s.count05);
    var moved := Progress(
      MovePlant(cfg, p.st, z, m, ratio, now),
      p.res.(ratio := ratio, stateChanged := MoveChanged(cfg, z, ratio), interlock := MoveLog(cfg, p.st, z, m, ratio, now)));
    MoveLeavesAlerts(cfg, p.st, z, m, ratio, now);
    hide MovePlant, MoveLog, MoveChanged, RatioOf;
    UntouchedEvolves(cfg, p.st, moved.st, now, z.id);
    hide AlertInv, AlertsEvolve, Signal;
    forall q: Progress, bad, kind, level, message | AlertInv(cfg, q.st, now)
      ensures var next := Signal(cfg, q, bad, z.id, m.id, kind, level, message, s.id, now).st;
              AlertInv(cfg, next, now) && AlertsEvolve(q.st.alerts, next.alerts, now, z.id)
    {
      SignalKeepsInv(cfg, q, bad, z.id, m.id, kind, level, message, s.id, now);
    }
    var p1 := SignalParticle(cfg, moved, z, m, s, ratio, now);
    var p2 := SignalClimate(cfg, p1, z, m, s, now);
    var p3 := SignalPressure(cfg, p2, z, m, s, now);
    EvolveCompose(p.st.alerts, moved.st.alerts, p1.st.alerts, now, z.id);
    EvolveCompose(p.st.alerts, p1.st.alerts, p2.st.alerts, now, z.id);
    EvolveCompose(p.st.alerts, p2.st.alerts, p3.st.alerts, now, z.id);
  }

  lemma QualityKeepsInv(cfg: Config, p: Progress, z: CleanZone, m: MonitorZone, s: EnvSample, now: Time)
    requires AlertInv(cfg, p.st, now)
    ensures var next := SignalQuality(cfg, p, z, m, s, now).st;
            AlertInv(cfg, next, now) && AlertsEvolve(p.st.alerts, next.alerts, now, z.id)
  {
    UntouchedEvolves(cfg, p.st, p.st, now, z.id);
    hide AlertInv, AlertsEvolve, Signal, Window;
    var window := Window(cfg, p.st.samples, s);
    var ratio, low := InvalidRatio(window), CredibilityLost(cfg, window);
    var noted := p.(res := p.res.(invalidRatio := ratio, credibilityLow := low));
    SignalKeepsInv(cfg, noted, low, z.id, m.id, DataQuality, Warning, CredibilityLow(ratio), s.id, now);
  }

  // The id of the clean zone a report concerns.
  function HomeOf(st: State, req: IngestRequest): string {
    var m := FindMonitor(st.monitors, req.monitorId);
    if m.Some? then m.value.zoneId else ""
  }

  lemma ReportKeepsInv(cfg: Config, st: State, req: IngestRequest, now: Time)
    requires AlertInv(cfg, st, now)
    ensures var next := ProcessSample(cfg, st, req, now).0;
            AlertInv(cfg, next, now) && AlertsEvolve(st.alerts, next.alerts, now, HomeOf(st, req))
  {
    UntouchedEvolves(cfg, st, st, now, HomeOf(st, req));
    hide ActOn, SignalQuality, AppendSample, ZoneIndex, MonitorIndex, AlertInv, AlertsEvolve;
    var j := Judge(st, req, now);
    if j.Judged? {
      var z, m := j.zone, j.monitor;
      var p := Started(st, z, m, req, now);
      var s := Classified(p.res.sample);
      UntouchedEvolves(cfg, st, p.st, now, HomeOf(st, req));
      var acted := if s.valid then ActOn(cfg, p, z, m, s, now) else p;
      UntouchedEvolves(cfg, p.st, p.st, now, HomeOf(st, req));
      ActKeepsInv(cfg, p, z, m, s, now);
      var judged := SignalQuality(cfg, acted, z, m, s, now);
      QualityKeepsInv(cfg, acted, z, m, s, now);
      EvolveCompose(st.alerts, p.st.alerts, acted.st.alerts, now, HomeOf(st, req));
      EvolveCompose(st.alerts, acted.st.alerts, judged.st.alerts, now, HomeOf(st, req));
      UntouchedEvolves(cfg, judged.st, Ingest(cfg, st, z, m, req, now).st, now, HomeOf(st, req));
    }
  }

  // ---- Every step, every run ----------------------------------------------------------------------

  lemma PlantStepsLeaveAlerts(cfg: Config, st: State, step: Step)
    requires !step.Report? && !step.Acknowledge? && !step.Promote? && !step.SweepAlerts?
    ensures var next := Apply(cfg, st, step);
            RestKept(st, next)
  {
    hide CreateZone, CreateMonitor, SweepFrom, Candidates, Restore, Issue, SetMaintenance, SetCalibration;
    match step
    case AddZone(_, _, _, _, _, _) => CreationLeavesAlerts(cfg, st, step);
    case AddMonitor(_, _, _, _, _, _, _) => CreationLeavesAlerts(cfg, st, step);
    case Interlock(_, zoneId, trigger, reason, ratio) =>
      IssueLeavesAlerts(st, zoneId, ManualTrigger(st, zoneId, trigger), ManualReason(reason), ManualRatio(ratio), step.now);
    case SweepZones(_, tick) => SweepLeavesAlerts(st, Candidates(cfg, st.zones, tick), step.now);
    case _ => RequestsLeaveAlerts(cfg, st, step);
  }

  lemma RequestsLeaveAlerts(cfg: Config, st: State, step: Step)
    requires step.Maintain? || step.Calibrate? || step.Confirm?
    ensures var next := Apply(cfg, st, step); next.alerts == st.alerts && next.samples == st.samples && next.seqs == st.seqs
  {
    hide ZoneIndex, MonitorIndex, RestoreArea, CloseArea, InArea, RestoredOnly;
  }

  lemma CreationLeavesAlerts(cfg: Config, st: State, step: Step)
    requires step.AddZone? || step.AddMonitor?
    ensures var next := Apply(cfg, st, step);
            RestKept(st, next)
  {
    hide CleanZone.Valid, MonitorZone.Valid, CounterTaken, ZoneIndex, MonitorIndex, NextId;
  }

  lemma IssueLeavesAlerts(st: State, zoneId: string, trigger: string, reason: string, ratio: real, now: Time)
    ensures var next := Issue(st, zoneId, trigger, reason, ratio, now).0;
            RestKept(st, next)
  {
    hide InterlockArea, Ventilate, LogFor, ZoneIndex;
  }

  lemma {:induction false} SweepLeavesAlerts(st: State, candidates: seq<CleanZone>, now: Time)
    ensures var next := SweepFrom(st, candidates, now);
            RestKept(st, next)
    decreases |candidates|
  {
    if candidates != [] {
      var z := candidates[0];
      IssueLeavesAlerts(st, z.id, FirstMonitor(st.monitors, z.id), AUTO_REASON, SweepRatio(z), now);
      hide Issue, FirstMonitor, SweepRatio;
      SweepLeavesAlerts(Issue(st, z.id, FirstMonitor(st.monitors, z.id), AUTO_REASON, SweepRatio(z), now).0, candidates[1..], now);
    }
  }

  // What the operator calls and the escalation sweep do to the alerts.
  lemma CareTends(cfg: Config, st: State, step: Step)
    requires LivesOk(st.alerts, step.now) && (step.Acknowledge? || step.Promote? || step.SweepAlerts?)
    ensures var next := Apply(cfg, st, step);
            Tended(st.alerts, next.alerts, step.now) && next.samples == st.samples && next.seqs == st.seqs
  {
    hide LivesOk, Tended, AlertIndex, EscalateAll;
    match step
    case Acknowledge(_, id, operator, note) => AckTends(st, id, operator, note, step.now);
    case Promote(_, id) => EscalateTends(st, id, step.now);
    case SweepAlerts(_, tick) => EscalateAllTends(st.alerts, tick, cfg.alertEscalateAfter, step.now);
  }

  function StepHome(st: State, step: Step): string {
    if step.Report? then HomeOf(st, step.req) else ""
  }

  /** Every step keeps the alert invariant and only lets alerts grow. */
  lemma StepKeepsInv(cfg: Config, st: State, step: Step)
    requires AlertInv(cfg, st, step.now)
    ensures AlertInv(cfg, Apply(cfg, st, step), step.now)
    ensures AlertsEvolve(st.alerts, Apply(cfg, st, step).alerts, step.now, StepHome(st, step))
  {
    if step.Report? {
      hide ProcessSample, AlertInv, AlertsEvolve;
      ReportKeepsInv(cfg, st, step.req, step.now);
    } else if step.Acknowledge? || step.Promote? || step.SweepAlerts? {
      hide AlertsOk, Separated, AlertsEvolve;
      CareTends(cfg, st, step);
      hide LivesOk, Tended, Apply;
      TendedKeepsInv(cfg, st, Apply(cfg, st, step), step.now, StepHome(st, step));
    } else {
      PlantStepsLeaveAlerts(cfg, st, step);
      hide Apply, AlertInv, AlertsEvolve;
      UntouchedEvolves(cfg, st, Apply(cfg, st, step), step.now, StepHome(st, step));
    }
  }

  lemma InvLater(cfg: Config, st: State, now: Time, later: Time)
    requires AlertInv(cfg, st, now) && now <= later
    ensures AlertInv(cfg, st, later)
  {
    hide AlertsOk, Separated;
  }

  lemma InvLives(cfg: Config, st: State, now: Time)
    requires AlertInv(cfg, st, now)
    ensures LivesOk(st.alerts, now)
  {
  }

  lemma EmptyInv(cfg: Config, now: Time)
    ensures AlertInv(cfg, EMPTY, now)
  {
  }

  /**
   In every reachable state: alert ids are unique; of two alerts of one key the later one was first seen at least a
   dedup window after the last occurrence of the earlier one, unless that is closed; timestamps are in order; and
   whatever is closed was acknowledged with a disposition first.
   */
  lemma {:induction false} ReachableAlerts(cfg: Config, run: seq<Step>, now: Time)
    requires Clocked(run) && Until(run, now)
    ensures AlertInv(cfg, Exec(cfg, run), now)
  {
    if run != [] {
      var front, last := run[..|run| - 1], run[|run| - 1];
      ReachableAlerts(cfg, front, last.now);
      hide AlertInv, Apply;
      StepKeepsInv(cfg, Exec(cfg, front), last);
      InvLater(cfg, Exec(cfg, run), last.now, now);
    } else {
      EmptyInv(cfg, now);
    }
  }

  /** No two alerts of one key that are not closed share a creation time, so the newest one is unique. */
  lemma NoTies(cfg: Config, st: State, now: Time, i: nat, j: nat)
    requires cfg.Valid() && AlertInv(cfg, st, now) && i < j < |st.alerts|
    requires st.alerts[i].dedupKey == st.alerts[j].dedupKey && st.alerts[i].status != Closed
    ensures st.alerts[i].createdAt + cfg.alertDedupWindow <= st.alerts[j].createdAt
    ensures st.alerts[i].createdAt < st.alerts[j].createdAt
  {
    LifeAt(st.alerts, now, j);
    SeparatedAt(cfg, st.alerts, i, j);
  }

  /** A closed alert is final: no later sample, request or sweep changes it. */
  lemma {:induction false} ClosedAlertsAreFinal(cfg: Config, run: seq<Step>, i: nat, j: nat, k: nat)
    requires Clocked(run) && i <= j <= |run|
    requires k < |At(cfg, run, i).alerts| && At(cfg, run, i).alerts[k].status == Closed
    ensures k < |At(cfg, run, j).alerts| && At(cfg, run, j).alerts[k] == At(cfg, run, i).alerts[k]
    decreases j
  {
    hide Apply, Exec;
    if i < j {
      ClosedAlertsAreFinal(cfg, run, i, j - 1, k);
      AlertStepOfRun(cfg, run, j - 1);
    }
  }

  lemma AlertStepOfRun(cfg: Config, run: seq<Step>, n: nat)
    requires Clocked(run) && n < |run|
    ensures AlertsEvolve(At(cfg, run, n).alerts, At(cfg, run, n + 1).alerts, run[n].now, StepHome(At(cfg, run, n), run[n]))
  {
    hide Apply, Exec, AlertInv, AlertsEvolve;
    ClockedPrefix(run, n);
    ReachableAlerts(cfg, run[..n], run[n].now);
    AtNext(cfg, run, n);
    StepKeepsInv(cfg, At(cfg, run, n), run[n]);
  }

  /**
   From its first sighting on an alert keeps its severity, as it keeps its zone, monitor zone and type: a critical
   occurrence merged into a warning leaves a warning, and its counter never falls.
   */
  lemma {:induction false} SeverityNeverChanges(cfg: Config, run: seq<Step>, i: nat, j: nat, k: nat)
    requires Clocked(run) && i <= j <= |run| && k < |At(cfg, run, i).alerts|
    ensures k < |At(cfg, run, j).alerts| && AlertGrows(At(cfg, run, i).alerts[k], At(cfg, run, j).alerts[k])
    decreases j
  {
    hide Apply, Exec;
    if i < j {
      SeverityNeverChanges(cfg, run, i, j - 1, k);
      AlertStepOfRun(cfg, run, j - 1);
    }
  }
}
