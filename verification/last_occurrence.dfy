/** The creation time and the sample of an alert are those of its latest occurrence, over whole runs. */
module LastOccurrence {
  import opened Types
  import opened Config
  import opened Zones
  import opened Monitors
  import opened Samples
  import opened Alerts
  import opened State
  import opened Runs
  import opened Plants
  import opened AlertInvariants
  import opened AlertTheorems

  // When an occurrence was recorded, and for which sample.
  datatype Stamp = Stamp(at: Time, sampleId: string)

  // The stamp of the last stored alert of a monitor zone and type.
  function StampOf(s: seq<CleanAlert>, monitorId: string, kind: AlertType): Option<Stamp> {
    if s == [] then None
    else
      var last := s[|s| - 1];
      if last.monitorId == monitorId && last.kind == kind then Some(Stamp(last.createdAt, last.sampleId))
      else StampOf(s[..|s| - 1], monitorId, kind)
  }

  // The stamp of the last report that showed the condition of the alert type.
  ghost function LastDemand(cfg: Config, run: seq<Step>, monitorId: string, kind: AlertType): Option<Stamp> {
    if run == [] then None
    else
      var front, last := run[..|run| - 1], run[|run| - 1];
      if Demands(cfg, Exec(cfg, front), last, monitorId, kind)
      then Some(Stamp(last.now, NextId(Exec(cfg, front).seqs, SAMPLE_IDS)))
      else LastDemand(cfg, front, monitorId, kind)
  }

  lemma StampAdded(s: seq<CleanAlert>, a: CleanAlert, m: string, k: AlertType)
    ensures StampOf(s + [a], m, k) ==
            if a.monitorId == m && a.kind == k then Some(Stamp(a.createdAt, a.sampleId)) else StampOf(s, m, k)
  {
    assert (s + [a])[..|s|] == s;
  }

  // Replacing an alert by one of the same monitor zone and type.
  lemma {:induction false} StampReplaced(s: seq<CleanAlert>, i: nat, a: CleanAlert, m: string, k: AlertType)
    requires i < |s| && a.monitorId == s[i].monitorId && a.kind == s[i].kind
    requires a.monitorId == m && a.kind == k ==> forall j :: i < j < |s| ==> s[j].monitorId != m || s[j].kind != k
    ensures StampOf(s[i := a], m, k) ==
            if a.monitorId == m && a.kind == k then Some(Stamp(a.createdAt, a.sampleId)) else StampOf(s, m, k)
  {
    var last := |s| - 1;
    if i == last {
      assert s[i := a][..last] == s[..last];
    } else {
      assert s[i := a][..last] == s[..last][i := a];
      StampReplaced(s[..last], i, a, m, k);
    }
  }

  lemma {:induction false} TendedStamps(a: seq<CleanAlert>, b: seq<CleanAlert>, now: Time, m: string, k: AlertType)
    requires Tended(a, b, now)
    ensures StampOf(b, m, k) == StampOf(a, m, k)
    decreases |a|
  {
    if a != [] {
      var last := |a| - 1;
      assert AlertGrows(a[last], b[last]) && SameOccurrence(a[last], b[last]);
      hide AlertGrows, SameOccurrence, LifeOk;
      TendedStamps(a[..last], b[..last], now, m, k);
    }
  }

  /** A raise stamps the last alert of its monitor zone and type, and that of no other. */
  lemma RaiseStamps(cfg: Config, st: State, zoneId: string, monitorId: string, kind: AlertType, level: AlertLevel,
                    message: Message, sampleId: string, now: Time, m: string, k: AlertType)
    requires AlertInv(cfg, st, now)
    ensures var next := Raise(cfg, st, zoneId, monitorId, kind, level, message, sampleId, now).st;
            StampOf(next.alerts, m, k) ==
            if m == monitorId && k == kind then Some(Stamp(now, sampleId)) else StampOf(st.alerts, m, k)
  {
    hide AlertsOk, Separated, LivesOk, Raise, DedupKeyOf, NextId, StampOf, MergedIntoLast, NoneWithin;
    var r := Raise(cfg, st, zoneId, monitorId, kind, level, message, sampleId, now);
    MergeHitsTheLast(cfg, st, zoneId, monitorId, kind, level, message, sampleId, now);
    var incoming := Incoming(st, zoneId, monitorId, kind, level, message, sampleId, now);
    if r.isNew {
      StampAdded(st.alerts, incoming, m, k);
    } else {
      MergedStamps(st.alerts, r.st.alerts, incoming, cfg.alertDedupWindow, now, m, k);
    }
  }

  lemma MergedStamps(s: seq<CleanAlert>, t: seq<CleanAlert>, incoming: CleanAlert, window: Time, now: Time, m: string, k: AlertType)
    requires LivesOk(s, now) && MergedIntoLast(s, t, DedupKeyOf(incoming.monitorId, incoming.kind), incoming, window)
    ensures StampOf(t, m, k) ==
            if m == incoming.monitorId && k == incoming.kind then Some(Stamp(incoming.createdAt, incoming.sampleId)) else StampOf(s, m, k)
  {
    var i :| LastOfKey(s, i, DedupKeyOf(incoming.monitorId, incoming.kind)) && t == s[i := s[i].Merge(incoming)];
    hide StampOf, DedupKeyOf;
    forall j | i <= j < |s|
      ensures s[j].monitorId == incoming.monitorId && s[j].kind == incoming.kind <==> i == j
    {
      LifeAt(s, now, j);
      DedupKeyInjective(incoming.monitorId, incoming.kind, s[j].monitorId, s[j].kind);
    }
    StampReplaced(s, i, s[i].Merge(incoming), m, k);
  }

  lemma SignalStamps(cfg: Config, p: Progress, bad: bool, zoneId: string, monitorId: string, kind: AlertType,
                     level: AlertLevel, message: Message, sampleId: string, now: Time, m: string, k: AlertType)
    requires AlertInv(cfg, p.st, now)
    ensures var next := Signal(cfg, p, bad, zoneId, monitorId, kind, level, message, sampleId, now).st;
            && AlertInv(cfg, next, now)
            && StampOf(next.alerts, m, k) ==
               if bad && m == monitorId && k == kind then Some(Stamp(now, sampleId)) else StampOf(p.st.alerts, m, k)
  {
    SignalKeepsInv(cfg, p, bad, zoneId, monitorId, kind, level, message, sampleId, now);
    if bad {
      hide AlertInv, Raise, StampOf;
      RaiseStamps(cfg, p.st, zoneId, monitorId, kind, level, message, sampleId, now, m, k);
    } else {
      hide AlertsOk, Separated, Resolve, StampOf;
      ResolveTends(p.st.alerts, ResolveFilter(monitorId, kind), now);
      hide LivesOk, Tended;
      TendedStamps(p.st.alerts, Resolve(p.st.alerts, ResolveFilter(monitorId, kind), now), now, m, k);
    }
  }

  lemma ActStamps(cfg: Config, p: Progress, z: CleanZone, m: MonitorZone, s: EnvSample, now: Time, id: string, k: AlertType)
    requires AlertInv(cfg, p.st, now) && s.valid
    ensures var next := ActOn(cfg, p, z, m, s, now).st;
            && AlertInv(cfg, next, now)
            && StampOf(next.alerts, id, k) ==
               if id == m.id && k != DataQuality && Shows(cfg, p.st, z, m, s, k) then Some(Stamp(now, s.id))
               else StampOf(p.st.alerts, id, k)
  {
    var ratio := RatioOf(z, m, s.count03, s.count05);
    var moved := Progress(
      MovePlant(cfg, p.st, z, m, ratio, now),
      p.res.(ratio := ratio, stateChanged := MoveChanged(cfg, z, ratio), interlock := MoveLog(cfg, p.st, z, m, ratio, now)));
    MoveLeavesAlerts(cfg, p.st, z, m, ratio, now);
    hide MovePlant, MoveLog, MoveChanged, RatioOf, Window;
    UntouchedEvolves(cfg, p.st, moved.st, now, z.id);
    hide AlertInv, Signal, StampOf, CredibilityLost;
    forall q: Progress, bad, kind, level, message | AlertInv(cfg, q.st, now)
      ensures var next := Signal(cfg, q, bad, z.id, m.id, kind, level, message, s.id, now).st;
              && AlertInv(cfg, next, now)
              && StampOf(next.alerts, id, k) ==
                 if bad && id == m.id && k == kind then Some(Stamp(now, s.id)) else StampOf(q.st.alerts, id, k)
    {
      SignalStamps(cfg, q, bad, z.id, m.id, kind, level, message, s.id, now, id, k);
    }
  }

  lemma QualityStamps(cfg: Config, p: Progress, z: CleanZone, m: MonitorZone, s: EnvSample, now: Time, id: string, k: AlertType)
    requires AlertInv(cfg, p.st, now)
    ensures StampOf(SignalQuality(cfg, p, z, m, s, now).st.alerts, id, k) ==
            if id == m.id && k == DataQuality && CredibilityLost(cfg, Window(cfg, p.st.samples, s)) then Some(Stamp(now, s.id))
            else StampOf(p.st.alerts, id, k)
  {
    hide AlertInv, Signal, Window, StampOf, CredibilityLost;
    var window := Window(cfg, p.st.samples, s);
    var ratio, low := InvalidRatio(window), CredibilityLost(cfg, window);
    var noted := p.(res := p.res.(invalidRatio := ratio, credibilityLow := low));
    SignalStamps(cfg, noted, low, z.id, m.id, DataQuality, Warning, CredibilityLow(ratio), s.id, now, id, k);
  }

  lemma ReportStamps(cfg: Config, st: State, step: Step, id: string, k: AlertType)
    requires AlertInv(cfg, st, step.now) && step.Report?
    ensures StampOf(Apply(cfg, st, step).alerts, id, k) ==
            if Demands(cfg, st, step, id, k) then Some(Stamp(step.now, NextId(st.seqs, SAMPLE_IDS))) else StampOf(st.alerts, id, k)
  {
    hide ActOn, SignalQuality, AppendSample, ZoneIndex, AlertInv, StampOf, RatioOf, Window, CredibilityLost;
    var req, now := step.req, step.now;
    var j := Judge(st, req, now);
    if j.Judged? {
      var z, m := j.zone, j.monitor;
      var p := Started(st, z, m, req, now);
      var s := Classified(p.res.sample);
      UntouchedEvolves(cfg, st, p.st, now, z.id);
      var acted := if s.valid then ActOn(cfg, p, z, m, s, now) else p;
      if s.valid {
        ActStamps(cfg, p, z, m, s, now, id, k);
        ActLeavesSamples(cfg, p, z, m, s, now);
      }
      QualityStamps(cfg, acted, z, m, s, now, id, k);
    }
  }

  lemma StepStamps(cfg: Config, st: State, step: Step, id: string, k: AlertType)
    requires AlertInv(cfg, st, step.now)
    ensures StampOf(Apply(cfg, st, step).alerts, id, k) ==
            if Demands(cfg, st, step, id, k) then Some(Stamp(step.now, NextId(st.seqs, SAMPLE_IDS))) else StampOf(st.alerts, id, k)
  {
    hide Apply, AlertsOk, Separated, StampOf, Shows, Judge, NextId;
    if step.Report? {
      ReportStamps(cfg, st, step, id, k);
    } else if step.Acknowledge? || step.Promote? || step.SweepAlerts? {
      CareTends(cfg, st, step);
      hide LivesOk, Tended;
      TendedStamps(st.alerts, Apply(cfg, st, step).alerts, step.now, id, k);
    } else {
      PlantStepsLeaveAlerts(cfg, st, step);
    }
  }

  /**
   Over any run the last stored alert of each monitor zone and type carries the clock and the sample of the last
   report that showed its condition, and there is none exactly when there was no such report.
   */
  lemma {:induction false} StampIsLastDemand(cfg: Config, run: seq<Step>, monitorId: string, kind: AlertType)
    requires Clocked(run)
    ensures StampOf(Exec(cfg, run).alerts, monitorId, kind) == LastDemand(cfg, run, monitorId, kind)
  {
    if run != [] {
      var front, last := run[..|run| - 1], run[|run| - 1];
      hide Apply, StampOf, Demands, AlertInv, NextId;
      StampIsLastDemand(cfg, front, monitorId, kind);
      ReachableAlerts(cfg, front, last.now);
      StepStamps(cfg, Exec(cfg, front), last, monitorId, kind);
    }
  }
}
