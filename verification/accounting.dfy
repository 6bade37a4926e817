/** The result of a report tells the truth: what it lists and counts is what happened to the store. */
module Accounting {
  import opened Types
  import opened Sequences
  import opened Config
  import opened Zones
  import opened Monitors
  import opened Samples
  import opened Alerts
  import opened State
  import opened Runs
  import opened Plants
  import opened InterlockTheorems
  import opened AlertInvariants
  import opened AlertTheorems
  import History

  // ---- Balance ----------------------------------------------------------------------------------

  function CountUnit(a: CleanAlert): int {
    a.count
  }

  function ClosedUnit(a: CleanAlert): int {
    if a.status == Closed then 1 else 0
  }

  // From one moment of the call to another, the store has gained what the result has gained.
  ghost predicate Balanced(p: Progress, q: Progress) {
    && |q.st.alerts| - |q.res.created| == |p.st.alerts| - |p.res.created|
    && Sum(q.st.alerts, CountUnit) - |q.res.created| - |q.res.merged| ==
       Sum(p.st.alerts, CountUnit) - |p.res.created| - |p.res.merged|
    && Issued(q.st.seqs, ALERT_IDS) - Sum(q.st.alerts, CountUnit) == Issued(p.st.seqs, ALERT_IDS) - Sum(p.st.alerts, CountUnit)
    && Sum(q.st.alerts, ClosedUnit) - q.res.closed == Sum(p.st.alerts, ClosedUnit) - p.res.closed
  }

  lemma NothingCloses(f: AlertFilter, now: Time)
    ensures Resolve([], f, now) == [] && Select([], f) == []
    ensures Sum([], ClosedUnit) == 0 && Sum([], AckUnit) == 0
  {
  }

  lemma SelectUnfolds(s: seq<CleanAlert>, last: CleanAlert, f: AlertFilter)
    ensures Select(s + [last], f) == if Matches(f, last) then Select(s, f) + [last] else Select(s, f)
  {
    assert (s + [last])[..|s|] == s;
  }

  lemma ResolveUnfolds(s: seq<CleanAlert>, last: CleanAlert, f: AlertFilter, now: Time)
    ensures Resolve(s + [last], f, now) == Resolve(s, f, now) + [if Matches(f, last) then Resolved(last, now) else last]
  {
    hide Matches, Resolved;
  }

  lemma {:induction false} ResolveCloses(s: seq<CleanAlert>, f: AlertFilter, now: Time)
    ensures Sum(Resolve(s, f, now), ClosedUnit) == Sum(s, ClosedUnit) + Sum(Select(s, f), AckUnit)
  {
    hide Sum, Select, Resolve, Matches;
    if s == [] {
      NothingCloses(f, now);
    } else {
      var front, last := s[..|s| - 1], s[|s| - 1];
      ResolveCloses(front, f, now);
      assert s == front + [last];
      SelectUnfolds(front, last, f);
      ResolveUnfolds(front, last, f, now);
      SumAdd(front, last, ClosedUnit);
      SumAdd(Resolve(front, f, now), if Matches(f, last) then Resolved(last, now) else last, ClosedUnit);
      SumAdd(Select(front, f), last, AckUnit);
    }
  }

  lemma TendedSum(a: seq<CleanAlert>, b: seq<CleanAlert>, now: Time)
    requires Tended(a, b, now)
    ensures Sum(b, CountUnit) == Sum(a, CountUnit)
  {
    SumSame(a, b, CountUnit);
  }

  lemma RaiseBalances(cfg: Config, p: Progress, zoneId: string, monitorId: string, kind: AlertType, level: AlertLevel,
                      message: Message, sampleId: string, now: Time)
    requires AlertInv(cfg, p.st, now)
    ensures Balanced(p, Record(p, Raise(cfg, p.st, zoneId, monitorId, kind, level, message, sampleId, now)))
  {
    hide AlertInv, Raise, DedupKeyOf, NextId, Sum, LastOfKey, NoneWithin, MergedIntoLast, Issued;
    var s, r := p.st.alerts, Raise(cfg, p.st, zoneId, monitorId, kind, level, message, sampleId, now);
    RaiseSpendsOneId(cfg, p.st, zoneId, monitorId, kind, level, message, sampleId, now);
    MergeHitsTheLast(cfg, p.st, zoneId, monitorId, kind, level, message, sampleId, now);
    var incoming := Incoming(p.st, zoneId, monitorId, kind, level, message, sampleId, now);
    if r.isNew {
      SumAdd(s, incoming, CountUnit);
      SumAdd(s, incoming, ClosedUnit);
    } else {
      MergeBalances(s, r.st.alerts, DedupKeyOf(monitorId, kind), incoming, cfg.alertDedupWindow);
    }
  }

  lemma RaiseSpendsOneId(cfg: Config, st: State, zoneId: string, monitorId: string, kind: AlertType, level: AlertLevel,
                         message: Message, sampleId: string, now: Time)
    ensures var next := Raise(cfg, st, zoneId, monitorId, kind, level, message, sampleId, now).st;
            Issued(next.seqs, ALERT_IDS) == Issued(st.seqs, ALERT_IDS) + 1
  {
    hide FindOpen, PutAlert, NextId, NewAlert, CleanAlert.Merge;
  }

  lemma MergeBalances(s: seq<CleanAlert>, t: seq<CleanAlert>, key: string, incoming: CleanAlert, window: Time)
    requires MergedIntoLast(s, t, key, incoming, window)
    ensures |t| == |s| && Sum(t, CountUnit) == Sum(s, CountUnit) + 1 && Sum(t, ClosedUnit) == Sum(s, ClosedUnit)
  {
    var k :| LastOfKey(s, k, key) && t == s[k := s[k].Merge(incoming)];
    hide Sum;
    SumPut(s, k, s[k].Merge(incoming), CountUnit);
    SumPut(s, k, s[k].Merge(incoming), ClosedUnit);
  }

  lemma SignalBalances(cfg: Config, p: Progress, bad: bool, zoneId: string, monitorId: string, kind: AlertType,
                       level: AlertLevel, message: Message, sampleId: string, now: Time)
    requires AlertInv(cfg, p.st, now)
    ensures var q := Signal(cfg, p, bad, zoneId, monitorId, kind, level, message, sampleId, now);
            AlertInv(cfg, q.st, now) && Balanced(p, q)
  {
    SignalKeepsInv(cfg, p, bad, zoneId, monitorId, kind, level, message, sampleId, now);
    if bad {
      hide AlertInv, Raise, Balanced, Record;
      RaiseBalances(cfg, p, zoneId, monitorId, kind, level, message, sampleId, now);
    } else {
      hide AlertsOk, Separated, Resolve, Sum, Select;
      var f := ResolveFilter(monitorId, kind);
      ResolveTends(p.st.alerts, f, now);
      ResolveCloses(p.st.alerts, f, now);
      TendedSum(p.st.alerts, Resolve(p.st.alerts, f, now), now);
      hide LivesOk;
    }
  }

  // ---- Listing ----------------------------------------------------------------------------------

  // How severe an occurrence of an alert type is, and what it says.
  datatype Verdict = Verdict(level: AlertLevel, message: Message)

  // A listed alert is stored as listed, and carries the reading that raised it.
  predicate Carries(a: CleanAlert, monitorId: string, kinds: set<AlertType>, sampleId: string, now: Time) {
    a.monitorId == monitorId && a.kind in kinds && a.sampleId == sampleId && a.createdAt == now
  }

  predicate CreatedOk(a: CleanAlert, zoneId: string, severity: AlertType -> Verdict, now: Time) {
    && a.zoneId == zoneId && a.level == severity(a.kind).level && a.message == severity(a.kind).message
    && a.status == Open && a.count == 1 && a.firstSeenAt == now
    && a.acknowledgedAt.None? && a.escalatedAt.None? && a.closedAt.None? && a.ackBy == "" && a.disposition == ""
  }

  predicate MergedOk(a: CleanAlert, severity: AlertType -> Verdict) {
    a.status != Closed && a.count > 1 && a.message == severity(a.kind).message
  }

  ghost predicate Listed(s: seq<CleanAlert>, created: seq<CleanAlert>, merged: seq<CleanAlert>, kinds: set<AlertType>,
                         zoneId: string, monitorId: string, sampleId: string,
                         severity: AlertType -> Verdict, now: Time) {
    && (forall a :: a in created ==> a in s && Carries(a, monitorId, kinds, sampleId, now) && CreatedOk(a, zoneId, severity, now))
    && (forall a :: a in merged ==> a in s && Carries(a, monitorId, kinds, sampleId, now) && MergedOk(a, severity))
  }

  /** Raising or resolving one alert type leaves the alerts of every other type as they are. */
  lemma SignalTouchesItsKind(cfg: Config, p: Progress, bad: bool, zoneId: string, monitorId: string, kind: AlertType,
                             level: AlertLevel, message: Message, sampleId: string, now: Time, a: CleanAlert)
    requires AlertInv(cfg, p.st, now) && a in p.st.alerts && a.kind != kind
    ensures a in Signal(cfg, p, bad, zoneId, monitorId, kind, level, message, sampleId, now).st.alerts
  {
    var s := p.st.alerts;
    var i :| 0 <= i < |s| && s[i] == a;
    if bad {
      var r := Raise(cfg, p.st, zoneId, monitorId, kind, level, message, sampleId, now);
      MergeHitsTheLast(cfg, p.st, zoneId, monitorId, kind, level, message, sampleId, now);
      hide AlertsOk, Separated, Raise, NextId, LastOfKey, NoneWithin, MergedIntoLast, DedupKeyOf, LivesOk;
      if r.isNew {
        assert r.st.alerts[i] == a;
      } else {
        var incoming := Incoming(p.st, zoneId, monitorId, kind, level, message, sampleId, now);
        MergeSparesOthers(s, r.st.alerts, incoming, cfg.alertDedupWindow, now, i);
      }
    } else {
      hide AlertInv, Select, Sum;
      assert Resolve(s, ResolveFilter(monitorId, kind), now)[i] == a;
    }
  }

  lemma MergeSparesOthers(s: seq<CleanAlert>, t: seq<CleanAlert>, incoming: CleanAlert, window: Time, now: Time, i: nat)
    requires LivesOk(s, now) && MergedIntoLast(s, t, DedupKeyOf(incoming.monitorId, incoming.kind), incoming, window)
    requires i < |s| && (s[i].kind != incoming.kind || s[i].monitorId != incoming.monitorId)
    ensures |t| == |s| && t[i] == s[i]
  {
    hide LivesOk, DedupKeyOf, LifeOk;
    var k :| LastOfKey(s, k, DedupKeyOf(incoming.monitorId, incoming.kind))
             && t == s[k := s[k].(count := s[k].count + 1, createdAt := incoming.createdAt,
                                  message := incoming.message, sampleId := incoming.sampleId)];
    KeyedAs(s, now, k);
    DedupKeyInjective(incoming.monitorId, incoming.kind, s[k].monitorId, s[k].kind);
  }

  lemma KeyedAs(s: seq<CleanAlert>, now: Time, k: nat)
    requires LivesOk(s, now) && k < |s|
    ensures s[k].dedupKey == DedupKeyOf(s[k].monitorId, s[k].kind)
  {
    LifeAt(s, now, k);
    hide LivesOk, DedupKeyOf;
  }

  lemma RaisedIsStored(cfg: Config, st: State, zoneId: string, monitorId: string, kind: AlertType, level: AlertLevel,
                       message: Message, sampleId: string, now: Time, severity: AlertType -> Verdict)
    requires AlertInv(cfg, st, now) && severity(kind) == Verdict(level, message)
    ensures var r := Raise(cfg, st, zoneId, monitorId, kind, level, message, sampleId, now);
            && r.alert in r.st.alerts && Carries(r.alert, monitorId, {kind}, sampleId, now)
            && (r.isNew ==> CreatedOk(r.alert, zoneId, severity, now))
            && (!r.isNew ==> MergedOk(r.alert, severity))
  {
    var r := Raise(cfg, st, zoneId, monitorId, kind, level, message, sampleId, now);
    if r.isNew {
      assert r.st.alerts[|st.alerts|] == r.alert;
      hide NextId, FindOpen, PutAlert, AlertInv;
    } else {
      var a := FindOpen(st.alerts, DedupKeyOf(monitorId, kind)).value;
      FoundAt(st, a);
      LifeAt(st.alerts, now, AlertIndex(st.alerts, a.id));
      hide AlertInv, FindOpen, NextId, DedupKeyOf;
      DedupKeyInjective(monitorId, kind, a.monitorId, a.kind);
      assert r.st.alerts[AlertIndex(st.alerts, a.id)] == r.alert;
    }
  }

  lemma SignalLists(cfg: Config, p: Progress, bad: bool, zoneId: string, monitorId: string, kind: AlertType,
                    level: AlertLevel, message: Message, sampleId: string, now: Time, kinds: set<AlertType>,
                    severity: AlertType -> Verdict)
    requires severity(kind) == Verdict(level, message) && AlertInv(cfg, p.st, now) && kind !in kinds
    requires Listed(p.st.alerts, p.res.created, p.res.merged, kinds, zoneId, monitorId, sampleId, severity, now)
    ensures var q := Signal(cfg, p, bad, zoneId, monitorId, kind, level, message, sampleId, now);
            Listed(q.st.alerts, q.res.created, q.res.merged, kinds + {kind}, zoneId, monitorId, sampleId, severity, now)
  {
    var q := Signal(cfg, p, bad, zoneId, monitorId, kind, level, message, sampleId, now);
    hide AlertInv, Raise, Resolve, Select, Sum, CreatedOk, MergedOk;
    forall a | (a in p.res.created || a in p.res.merged) && a.kind != kind
      ensures a in q.st.alerts
    {
      SignalTouchesItsKind(cfg, p, bad, zoneId, monitorId, kind, level, message, sampleId, now, a);
    }
    RaisedIsStored(cfg, p.st, zoneId, monitorId, kind, level, message, sampleId, now, severity);
    var kept := Progress(q.st, p.res);
    ListedLonger(p, kept, kinds, kind, zoneId, monitorId, sampleId, severity, now);
    if bad {
      var r := Raise(cfg, p.st, zoneId, monitorId, kind, level, message, sampleId, now);
      RecordLists(kept, r, kinds, kind, zoneId, monitorId, sampleId, severity, now);
    } else {
      hide Carries;
    }
  }

  lemma ListedLonger(p: Progress, q: Progress, kinds: set<AlertType>, kind: AlertType, zoneId: string, monitorId: string,
                    sampleId: string, severity: AlertType -> Verdict, now: Time)
    requires Listed(p.st.alerts, p.res.created, p.res.merged, kinds, zoneId, monitorId, sampleId, severity, now)
    requires q.res == p.res && kind !in kinds
    requires forall a :: (a in p.res.created || a in p.res.merged) && a.kind != kind ==> a in q.st.alerts
    ensures Listed(q.st.alerts, q.res.created, q.res.merged, kinds + {kind}, zoneId, monitorId, sampleId, severity, now)
  {
    hide CreatedOk, MergedOk;
  }

  lemma RecordLists(p: Progress, r: Raised, kinds: set<AlertType>, kind: AlertType, zoneId: string, monitorId: string,
                    sampleId: string, severity: AlertType -> Verdict, now: Time)
    requires Listed(p.st.alerts, p.res.created, p.res.merged, kinds + {kind}, zoneId, monitorId, sampleId, severity, now)
    requires r.st.alerts == p.st.alerts
    requires r.alert in r.st.alerts && Carries(r.alert, monitorId, {kind}, sampleId, now)
    requires (r.isNew ==> CreatedOk(r.alert, zoneId, severity, now)) && (!r.isNew ==> MergedOk(r.alert, severity))
    ensures var q := Record(p, r);
            Listed(q.st.alerts, q.res.created, q.res.merged, kinds + {kind}, zoneId, monitorId, sampleId, severity, now)
  {
    hide CreatedOk, MergedOk;
  }

  // ---- The whole report ---------------------------------------------------------------------------

  const ALL_KINDS := {Particle, TempHumidity, Pressure, DataQuality}

  // What each alert type would say of a reading.
  function Severity(cfg: Config, stored: seq<EnvSample>, z: CleanZone, m: MonitorZone, s: EnvSample): AlertType -> Verdict {
    var ratio, range := RatioOf(z, m, s.count03, s.count05), m.EffectiveEnvRange(z.process);
    (kind: AlertType) =>
      match kind
      case Particle => Verdict(if ratio >= cfg.overLimitRatio then Critical else Warning, AboveLimit(ratio, s.count03, s.count05))
      case TempHumidity => Verdict(if TempOut(s, range) then Critical else Warning, ClimateOutOfRange(s.temperature, s.humidity))
      case Pressure => Verdict(Warning, PressureOutOfRange(s.pressure, range.pressureMin, range.pressureMax))
      case DataQuality => Verdict(Warning, CredibilityLow(InvalidRatio(Window(cfg, stored, s))))
  }

  // The call so far: balanced since the start, alerts in order, everything listed stored.
  ghost predicate Truthful(cfg: Config, start: Progress, p: Progress, kinds: set<AlertType>, z: CleanZone, m: MonitorZone,
                           s: EnvSample, now: Time) {
    && AlertInv(cfg, p.st, now) && Balanced(start, p)
    && Listed(p.st.alerts, p.res.created, p.res.merged, kinds, z.id, m.id, s.id, Severity(cfg, start.st.samples, z, m, s), now)
  }

  lemma SignalStaysTruthful(cfg: Config, start: Progress, p: Progress, bad: bool, z: CleanZone, m: MonitorZone, kind: AlertType,
                            level: AlertLevel, message: Message, s: EnvSample, now: Time, kinds: set<AlertType>)
    requires Truthful(cfg, start, p, kinds, z, m, s, now) && kind !in kinds
    requires Verdict(level, message) == Severity(cfg, start.st.samples, z, m, s)(kind)
    ensures Truthful(cfg, start, Signal(cfg, p, bad, z.id, m.id, kind, level, message, s.id, now), kinds + {kind}, z, m, s, now)
  {
    hide AlertInv, Listed, Signal, Severity, Sum;
    SignalBalances(cfg, p, bad, z.id, m.id, kind, level, message, s.id, now);
    SignalLists(cfg, p, bad, z.id, m.id, kind, level, message, s.id, now, kinds, Severity(cfg, start.st.samples, z, m, s));
  }

  lemma TruthfulLike(cfg: Config, start: Progress, p: Progress, q: Progress, kinds: set<AlertType>, z: CleanZone, m: MonitorZone,
                     s: EnvSample, now: Time)
    requires Truthful(cfg, start, p, kinds, z, m, s, now)
    requires q.res.created == p.res.created && q.res.merged == p.res.merged && q.res.closed == p.res.closed
    requires q.st.alerts == p.st.alerts && Issued(q.st.seqs, ALERT_IDS) == Issued(p.st.seqs, ALERT_IDS)
    ensures Truthful(cfg, start, q, kinds, z, m, s, now)
  {
    UntouchedEvolves(cfg, p.st, q.st, now, z.id);
    hide AlertInv, Severity, Sum, Carries, CreatedOk, MergedOk;
  }

  lemma ActStaysTruthful(cfg: Config, p: Progress, z: CleanZone, m: MonitorZone, s: EnvSample, now: Time)
    requires Truthful(cfg, p, p, {}, z, m, s, now)
    ensures Truthful(cfg, p, ActOn(cfg, p, z, m, s, now), {Particle, TempHumidity, Pressure}, z, m, s, now)
  {
    var ratio := RatioOf(z, m, s.count03, s.count05);
    var moved := Progress(
      MovePlant(cfg, p.st, z, m, ratio, now),
      p.res.(ratio := ratio, stateChanged := MoveChanged(cfg, z, ratio), interlock := MoveLog(cfg, p.st, z, m, ratio, now)));
    hide MovePlant, MoveLog, MoveChanged, Truthful, Signal, RatioOf;
    MoveLeavesAlerts(cfg, p.st, z, m, ratio, now);
    TruthfulLike(cfg, p, p, moved, {}, z, m, s, now);
    var range := m.EffectiveEnvRange(z.process);
    var p1 := SignalParticle(cfg, moved, z, m, s, ratio, now);
    var p2 := SignalClimate(cfg, p1, z, m, s, now);
    SignalStaysTruthful(cfg, p, moved, ratio >= 1.0, z, m, Particle, if ratio >= cfg.overLimitRatio then Critical else Warning,
                        AboveLimit(ratio, s.count03, s.count05), s, now, {});
    SignalStaysTruthful(cfg, p, p1, TempOut(s, range) || HumidityOut(s, range), z, m, TempHumidity,
                        if TempOut(s, range) then Critical else Warning,
                        ClimateOutOfRange(s.temperature, s.humidity), s, now, {} + {Particle});
    SignalStaysTruthful(cfg, p, p2, PressureOut(s, range), z, m, Pressure, Warning,
                        PressureOutOfRange(s.pressure, range.pressureMin, range.pressureMax), s, now, {} + {Particle} + {TempHumidity});
    assert {} + {Particle} + {TempHumidity} + {Pressure} == {Particle, TempHumidity, Pressure};
  }

  lemma QualityStaysTruthful(cfg: Config, start: Progress, p: Progress, z: CleanZone, m: MonitorZone, s: EnvSample,
                             now: Time, kinds: set<AlertType>)
    requires Truthful(cfg, start, p, kinds, z, m, s, now) && kinds <= {Particle, TempHumidity, Pressure}
    requires p.st.samples == start.st.samples
    ensures Truthful(cfg, start, SignalQuality(cfg, p, z, m, s, now), ALL_KINDS, z, m, s, now)
  {
    hide AlertInv, Signal, Window, CredibilityLost, InvalidRatio, Severity, Sum;
    var window := Window(cfg, p.st.samples, s);
    var ratio, low := InvalidRatio(window), CredibilityLost(cfg, window);
    var noted := p.(res := p.res.(invalidRatio := ratio, credibilityLow := low));
    assert Truthful(cfg, start, noted, kinds, z, m, s, now);
    QualityVerdictIs(cfg, start.st.samples, z, m, s);
    SignalStaysTruthful(cfg, start, noted, low, z, m, DataQuality, Warning, CredibilityLow(ratio), s, now, kinds);
    var q := SignalQuality(cfg, p, z, m, s, now);
    hide SignalQuality, Balanced;
    if q == noted {
      ListedWider(noted, kinds, ALL_KINDS, z.id, m.id, s.id, Severity(cfg, start.st.samples, z, m, s), now);
    } else {
      ListedWider(q, kinds + {DataQuality}, ALL_KINDS, z.id, m.id, s.id, Severity(cfg, start.st.samples, z, m, s), now);
    }
  }

  lemma QualityVerdictIs(cfg: Config, stored: seq<EnvSample>, z: CleanZone, m: MonitorZone, s: EnvSample)
    ensures Severity(cfg, stored, z, m, s)(DataQuality) == Verdict(Warning, CredibilityLow(InvalidRatio(Window(cfg, stored, s))))
  {
  }

  lemma ListedWider(p: Progress, kinds: set<AlertType>, more: set<AlertType>, zoneId: string, monitorId: string,
                    sampleId: string, severity: AlertType -> Verdict, now: Time)
    requires Listed(p.st.alerts, p.res.created, p.res.merged, kinds, zoneId, monitorId, sampleId, severity, now) && kinds <= more
    ensures Listed(p.st.alerts, p.res.created, p.res.merged, more, zoneId, monitorId, sampleId, severity, now)
  {
    hide CreatedOk, MergedOk;
  }

  lemma StartIsTruthful(cfg: Config, st: State, z: CleanZone, m: MonitorZone, s: EnvSample, req: IngestRequest, now: Time)
    requires AlertInv(cfg, st, now)
    ensures var p := Started(st, z, m, req, now); Truthful(cfg, p, p, {}, z, m, s, now)
  {
    UntouchedEvolves(cfg, st, Started(st, z, m, req, now).st, now, z.id);
    hide AlertInv, Reading, Severity, Sum, Carries, CreatedOk, MergedOk;
  }

  lemma IngestIsTruthful(cfg: Config, st: State, z: CleanZone, m: MonitorZone, req: IngestRequest, now: Time)
    requires AlertInv(cfg, st, now)
    ensures Truthful(cfg, Started(st, z, m, req, now), Ingest(cfg, st, z, m, req, now), ALL_KINDS, z, m, Judgeable(st, m, req, now), now)
  {
    var p := Started(st, z, m, req, now);
    var s := Classified(p.res.sample);
    StartIsTruthful(cfg, st, z, m, s, req, now);
    hide ActOn, SignalQuality, AppendSample, Reading, Classified, Truthful, AlertInv;
    ActStaysTruthful(cfg, p, z, m, s, now);
    ActLeavesSamples(cfg, p, z, m, s, now);
    var acted := if s.valid then ActOn(cfg, p, z, m, s, now) else p;
    QualityStaysTruthful(cfg, p, acted, z, m, s, now, if s.valid then {Particle, TempHumidity, Pressure} else {});
    TruthfulLike(cfg, p, SignalQuality(cfg, acted, z, m, s, now), Ingest(cfg, st, z, m, req, now), ALL_KINDS, z, m, s, now);
  }

  // What a truthful end of a report says in terms of the state it began in.
  lemma TruthfulMeans(cfg: Config, st: State, z: CleanZone, m: MonitorZone, req: IngestRequest, s: EnvSample, now: Time, p: Progress)
    requires Truthful(cfg, Started(st, z, m, req, now), p, ALL_KINDS, z, m, s, now)
    ensures && |p.st.alerts| == |st.alerts| + |p.res.created|
            && Sum(p.st.alerts, CountUnit) == Sum(st.alerts, CountUnit) + |p.res.created| + |p.res.merged|
            && Sum(p.st.alerts, ClosedUnit) == Sum(st.alerts, ClosedUnit) + p.res.closed
            && Issued(p.st.seqs, ALERT_IDS) - Sum(p.st.alerts, CountUnit) == Issued(st.seqs, ALERT_IDS) - Sum(st.alerts, CountUnit)
            && Listed(p.st.alerts, p.res.created, p.res.merged, ALL_KINDS, z.id, m.id, s.id, Severity(cfg, st.samples, z, m, s), now)
  {
    hide AlertInv, Severity, Sum, Listed, Reading;
  }

  lemma ReportEnds(cfg: Config, st: State, req: IngestRequest, now: Time)
    requires Judge(st, req, now).Judged?
    ensures var (next, r) := ProcessSample(cfg, st, req, now);
            var j := Judge(st, req, now);
            var p := Ingest(cfg, st, j.zone, j.monitor, req, now);
            && next == p.st && r.Ok? && r.value.created == p.res.created && r.value.merged == p.res.merged && r.value.closed == p.res.closed
            && r.value.sample == p.res.sample
  {
    hide Ingest, RatioOf;
  }

  /**
   The result of an accepted report accounts for what happened to the alerts: as many are new as it lists as created,
   the occurrences have grown by one for each listed alert, as many have closed as it says; and every listed alert
   is stored as listed, belongs to the reading, and is as severe as the reading demands when it is new.
   */
  lemma ResultIsTruthful(cfg: Config, st: State, req: IngestRequest, now: Time)
    requires AlertInv(cfg, st, now) && Judge(st, req, now).Judged?
    ensures var (next, r) := ProcessSample(cfg, st, req, now);
            var j := Judge(st, req, now);
            && r.Ok?
            && |next.alerts| == |st.alerts| + |r.value.created|
            && Sum(next.alerts, CountUnit) == Sum(st.alerts, CountUnit) + |r.value.created| + |r.value.merged|
            && Sum(next.alerts, ClosedUnit) == Sum(st.alerts, ClosedUnit) + r.value.closed
            && Listed(next.alerts, r.value.created, r.value.merged, ALL_KINDS, j.zone.id, j.monitor.id, r.value.sample.id,
                      Severity(cfg, st.samples, j.zone, j.monitor, Judgeable(st, j.monitor, req, now)), now)
  {
    var j := Judge(st, req, now);
    var p, s := Ingest(cfg, st, j.zone, j.monitor, req, now), Judgeable(st, j.monitor, req, now);
    IngestIsTruthful(cfg, st, j.zone, j.monitor, req, now);
    TruthfulMeans(cfg, st, j.zone, j.monitor, req, s, now, p);
    ReportEnds(cfg, st, req, now);
    ReturnedId(cfg, st, req, now);
    hide Ingest, ProcessSample, AlertInv, Severity, Sum, Listed, Judge, Truthful, Judgeable, RatioOf;
  }

  lemma ReturnedId(cfg: Config, st: State, req: IngestRequest, now: Time)
    requires Judge(st, req, now).Judged?
    ensures ProcessSample(cfg, st, req, now).1.value.sample.id == Judgeable(st, Judge(st, req, now).monitor, req, now).id
  {
    History.ReturnedReading(cfg, st, req, now);
    hide ProcessSample, RatioOf;
  }

  /** The result carries an interlock log exactly when one was issued, and then it is the newest one stored. */
  lemma InterlockIsReported(cfg: Config, st: State, req: IngestRequest, now: Time)
    requires Judge(st, req, now).Judged?
    ensures var (next, r) := ProcessSample(cfg, st, req, now);
            && r.Ok?
            && next.logs == st.logs + (if r.value.interlock.Some? then [r.value.interlock.value] else [])
            && (r.value.interlock.Some? <==>
                  var j := Judge(st, req, now); j.valid && j.ratio >= cfg.overLimitRatio && j.zone.status != Interlocked)
  {
    var j := Judge(st, req, now);
    RatioReturned(cfg, st, req, now);
    ReportOnPlant(cfg, st, req, now);
    hide ProcessSample, MovePlant, Judge;
    MovedLogs(cfg, st, j.zone, j.monitor, j.ratio, now);
    hide LogFor;
  }

  lemma MovedLogs(cfg: Config, st: State, z: CleanZone, m: MonitorZone, ratio: real, now: Time)
    ensures var log := MoveLog(cfg, st, z, m, ratio, now);
            MovePlant(cfg, st, z, m, ratio, now).logs == st.logs + (if log.Some? then [log.value] else [])
  {
    hide LogFor, InterlockArea, Ventilate, RecordRatio, PutZone, TargetStatusFromRatio;
  }

  // ---- Ids and occurrences ------------------------------------------------------------------------

  lemma ReportSpendsIds(cfg: Config, st: State, req: IngestRequest, now: Time)
    requires AlertInv(cfg, st, now)
    ensures var next := ProcessSample(cfg, st, req, now).0;
            Issued(next.seqs, ALERT_IDS) - Sum(next.alerts, CountUnit) == Issued(st.seqs, ALERT_IDS) - Sum(st.alerts, CountUnit)
  {
    hide Ingest, AlertInv, Sum, Truthful, RatioOf, ZoneIndex, MonitorIndex;
    var j := Judge(st, req, now);
    if j.Judged? {
      var p, s := Ingest(cfg, st, j.zone, j.monitor, req, now), Judgeable(st, j.monitor, req, now);
      IngestIsTruthful(cfg, st, j.zone, j.monitor, req, now);
      TruthfulMeans(cfg, st, j.zone, j.monitor, req, s, now, p);
    }
  }

  lemma StepSpendsIds(cfg: Config, st: State, step: Step)
    requires AlertInv(cfg, st, step.now)
    ensures var next := Apply(cfg, st, step);
            Issued(next.seqs, ALERT_IDS) - Sum(next.alerts, CountUnit) == Issued(st.seqs, ALERT_IDS) - Sum(st.alerts, CountUnit)
  {
    hide ProcessSample, AlertsOk, Separated, Sum;
    if step.Report? {
      ReportSpendsIds(cfg, st, step.req, step.now);
    } else if step.Acknowledge? || step.Promote? || step.SweepAlerts? {
      CareTends(cfg, st, step);
      hide Apply, LivesOk, Tended;
      TendedSum(st.alerts, Apply(cfg, st, step).alerts, step.now);
    } else {
      hide Apply;
      PlantStepsLeaveAlerts(cfg, st, step);
    }
  }

  /**
   Every occurrence uses up an alert id, merged ones included: in every reachable state as many alert ids have been
   handed out as the counts of all alerts add up to.
   */
  lemma {:induction false} IdsAreOccurrences(cfg: Config, run: seq<Step>)
    requires Clocked(run)
    ensures Issued(Exec(cfg, run).seqs, ALERT_IDS) == Sum(Exec(cfg, run).alerts, CountUnit)
  {
    if run != [] {
      var front, last := run[..|run| - 1], run[|run| - 1];
      hide Apply, AlertInv, Sum;
      IdsAreOccurrences(cfg, front);
      ReachableAlerts(cfg, front, last.now);
      StepSpendsIds(cfg, Exec(cfg, front), last);
    }
  }

  // ---- When alerts close --------------------------------------------------------------------------

  // The reading shows that the condition of an alert type is over. For data quality that takes a window which is
  // credible again but still holds an invalid reading.
  ghost predicate Clears(cfg: Config, st: State, z: CleanZone, m: MonitorZone, s: EnvSample, kind: AlertType) {
    if kind == DataQuality then
      var window := Window(cfg, st.samples, s);
      !CredibilityLost(cfg, window) && InvalidRatio(window) > 0.0
    else
      s.valid && !Shows(cfg, st, z, m, s, kind)
  }

  // What becomes of one stored alert: an occurrence of its own may be merged into it, which leaves its status; else it
  // closes when its condition is over and it was acknowledged; else it stays as it is.
  predicate Outcome(a: CleanAlert, b: CleanAlert, own: bool, shown: bool, cleared: bool, now: Time) {
    && b.id == a.id && b.monitorId == a.monitorId && b.kind == a.kind
    && if own && shown then b.status == a.status
       else b == if own && cleared && a.status == Acknowledged then a.(status := Closed, closedAt := Some(now)) else a
  }

  lemma SignalOutcome(cfg: Config, p: Progress, bad: bool, zoneId: string, monitorId: string, kind: AlertType,
                      level: AlertLevel, message: Message, sampleId: string, now: Time, i: nat)
    requires AlertInv(cfg, p.st, now) && i < |p.st.alerts| && monitorId != ""
    ensures var next := Signal(cfg, p, bad, zoneId, monitorId, kind, level, message, sampleId, now).st;
            var a := p.st.alerts[i];
            && AlertInv(cfg, next, now) && i < |next.alerts|
            && Outcome(a, next.alerts[i], a.monitorId == monitorId, bad && a.kind == kind, !bad && a.kind == kind, now)
  {
    var next := Signal(cfg, p, bad, zoneId, monitorId, kind, level, message, sampleId, now).st;
    SignalKeepsInv(cfg, p, bad, zoneId, monitorId, kind, level, message, sampleId, now);
    assert AlertGrows(p.st.alerts[i], next.alerts[i]);
    if bad {
      hide AlertInv, Raise, AlertsEvolve;
      RaiseOutcome(cfg, p.st, zoneId, monitorId, kind, level, message, sampleId, now, i);
    } else {
      hide AlertInv, Select, Sum, AlertsEvolve;
    }
  }

  lemma RaiseOutcome(cfg: Config, st: State, zoneId: string, monitorId: string, kind: AlertType, level: AlertLevel,
                     message: Message, sampleId: string, now: Time, i: nat)
    requires AlertInv(cfg, st, now) && i < |st.alerts|
    ensures var next, a := Raise(cfg, st, zoneId, monitorId, kind, level, message, sampleId, now).st, st.alerts[i];
            && i < |next.alerts| && next.alerts[i].status == a.status
            && (a.monitorId != monitorId || a.kind != kind ==> next.alerts[i] == a)
  {
    MergeHitsTheLast(cfg, st, zoneId, monitorId, kind, level, message, sampleId, now);
    InvLives(cfg, st, now);
    hide AlertInv, Raise, NextId, DedupKeyOf, NoneWithin, LastOfKey, LivesOk, MergedIntoLast;
    var r := Raise(cfg, st, zoneId, monitorId, kind, level, message, sampleId, now);
    if !r.isNew {
      var incoming := Incoming(st, zoneId, monitorId, kind, level, message, sampleId, now);
      MergeKeepsStatus(st.alerts, r.st.alerts, DedupKeyOf(monitorId, kind), incoming, cfg.alertDedupWindow, i);
      if st.alerts[i].monitorId != monitorId || st.alerts[i].kind != kind {
        MergeSparesOthers(st.alerts, r.st.alerts, incoming, cfg.alertDedupWindow, now, i);
      }
    }
  }

  lemma MergeKeepsStatus(s: seq<CleanAlert>, t: seq<CleanAlert>, key: string, incoming: CleanAlert, window: Time, i: nat)
    requires MergedIntoLast(s, t, key, incoming, window) && i < |s|
    ensures |t| == |s| && t[i].status == s[i].status
  {
    var k :| LastOfKey(s, k, key) && t == s[k := s[k].(count := s[k].count + 1, createdAt := incoming.createdAt,
                                                       message := incoming.message, sampleId := incoming.sampleId)];
  }

  // The numbers of a valid reading show the condition of an alert type.
  predicate Bad(z: CleanZone, m: MonitorZone, s: EnvSample, ratio: real, kind: AlertType) {
    var range := m.EffectiveEnvRange(z.process);
    match kind
    case Particle => ratio >= 1.0
    case TempHumidity => TempOut(s, range) || HumidityOut(s, range)
    case Pressure => PressureOut(s, range)
    case DataQuality => false
  }

  lemma ThreeSignals(cfg: Config, p: Progress, z: CleanZone, m: MonitorZone, s: EnvSample, ratio: real, now: Time, i: nat)
    requires AlertInv(cfg, p.st, now) && i < |p.st.alerts| && m.id != ""
    ensures var next := SignalPressure(cfg, SignalClimate(cfg, SignalParticle(cfg, p, z, m, s, ratio, now), z, m, s, now), z, m, s, now).st;
            var a := p.st.alerts[i];
            var bad := Bad(z, m, s, ratio, a.kind);
            && AlertInv(cfg, next, now) && i < |next.alerts|
            && Outcome(a, next.alerts[i], a.monitorId == m.id, bad, a.kind != DataQuality && !bad, now)
  {
    hide AlertInv, Signal, MonitorZone.EffectiveEnvRange;
    var range := m.EffectiveEnvRange(z.process);
    var p1 := SignalParticle(cfg, p, z, m, s, ratio, now);
    var p2 := SignalClimate(cfg, p1, z, m, s, now);
    SignalOutcome(cfg, p, ratio >= 1.0, z.id, m.id, Particle, if ratio >= cfg.overLimitRatio then Critical else Warning,
                  AboveLimit(ratio, s.count03, s.count05), s.id, now, i);
    SignalOutcome(cfg, p1, TempOut(s, range) || HumidityOut(s, range), z.id, m.id, TempHumidity,
                  if TempOut(s, range) then Critical else Warning, ClimateOutOfRange(s.temperature, s.humidity), s.id, now, i);
    SignalOutcome(cfg, p2, PressureOut(s, range), z.id, m.id, Pressure, Warning,
                  PressureOutOfRange(s.pressure, range.pressureMin, range.pressureMax), s.id, now, i);
  }

  lemma ActOutcome(cfg: Config, p: Progress, z: CleanZone, m: MonitorZone, s: EnvSample, now: Time, i: nat)
    requires AlertInv(cfg, p.st, now) && i < |p.st.alerts| && m.id != "" && s.valid
    ensures var next := ActOn(cfg, p, z, m, s, now).st;
            var a := p.st.alerts[i];
            && AlertInv(cfg, next, now) && i < |next.alerts|
            && Outcome(a, next.alerts[i], a.monitorId == m.id, a.kind != DataQuality && Shows(cfg, p.st, z, m, s, a.kind),
                       a.kind != DataQuality && Clears(cfg, p.st, z, m, s, a.kind), now)
  {
    hide MovePlant, MoveLog, MoveChanged, RatioOf, AlertInv, SignalParticle, SignalClimate, SignalPressure, Window,
         CredibilityLost, InvalidRatio, MonitorZone.EffectiveEnvRange, Outcome;
    var ratio := RatioOf(z, m, s.count03, s.count05);
    var moved := Progress(
      MovePlant(cfg, p.st, z, m, ratio, now),
      p.res.(ratio := ratio, stateChanged := MoveChanged(cfg, z, ratio), interlock := MoveLog(cfg, p.st, z, m, ratio, now)));
    MoveLeavesAlerts(cfg, p.st, z, m, ratio, now);
    UntouchedEvolves(cfg, p.st, moved.st, now, z.id);
    ThreeSignals(cfg, moved, z, m, s, ratio, now, i);
  }

  lemma QualityOutcome(cfg: Config, p: Progress, z: CleanZone, m: MonitorZone, s: EnvSample, now: Time, i: nat)
    requires AlertInv(cfg, p.st, now) && i < |p.st.alerts| && m.id != ""
    ensures var next := SignalQuality(cfg, p, z, m, s, now).st;
            var a := p.st.alerts[i];
            && i < |next.alerts|
            && Outcome(a, next.alerts[i], a.monitorId == m.id, a.kind == DataQuality && Shows(cfg, p.st, z, m, s, DataQuality),
                       a.kind == DataQuality && Clears(cfg, p.st, z, m, s, DataQuality), now)
  {
    hide AlertInv, Signal, Window, CredibilityLost, InvalidRatio, MonitorZone.EffectiveEnvRange, RatioOf;
    var window := Window(cfg, p.st.samples, s);
    var ratio, low := InvalidRatio(window), CredibilityLost(cfg, window);
    var noted := p.(res := p.res.(invalidRatio := ratio, credibilityLow := low));
    SignalOutcome(cfg, noted, low, z.id, m.id, DataQuality, Warning, CredibilityLow(ratio), s.id, now, i);
  }

  /**
   What a report does to every alert stored before it. One of its own monitor zone whose condition the reading shows
   keeps its status; an acknowledged one whose condition the reading shows to be over is closed at the clock; every
   other alert stays as it is. An acknowledged data quality alert therefore outlives a window without any invalid
   reading.
   */
  lemma ClosesExactlyWhatCleared(cfg: Config, st: State, req: IngestRequest, now: Time, i: nat)
    requires AlertInv(cfg, st, now) && MonitorsValid(st.monitors) && Judge(st, req, now).Judged? && i < |st.alerts|
    ensures var next, j, a := ProcessSample(cfg, st, req, now).0, Judge(st, req, now), st.alerts[i];
            var s := Judgeable(st, j.monitor, req, now);
            && i < |next.alerts|
            && Outcome(a, next.alerts[i], a.monitorId == req.monitorId, Shows(cfg, st, j.zone, j.monitor, s, a.kind),
                       Clears(cfg, st, j.zone, j.monitor, s, a.kind), now)
            && (next.alerts[i].status == Closed <==>
                  || a.status == Closed
                  || (a.status == Acknowledged && a.monitorId == req.monitorId && Clears(cfg, st, j.zone, j.monitor, s, a.kind)))
  {
    var j := Judge(st, req, now);
    JudgedHasId(st, req, now);
    ReportEnds(cfg, st, req, now);
    hide Ingest, Judge, ProcessSample, Judgeable, AlertInv, Shows, Clears, MonitorsValid;
    IngestOutcome(cfg, st, j.zone, j.monitor, req, now, i);
    NotBoth(cfg, st, j.zone, j.monitor, Judgeable(st, j.monitor, req, now), st.alerts[i].kind);
  }

  lemma IngestOutcome(cfg: Config, st: State, z: CleanZone, m: MonitorZone, req: IngestRequest, now: Time, i: nat)
    requires AlertInv(cfg, st, now) && m.id != "" && i < |st.alerts|
    ensures var next, a, s := Ingest(cfg, st, z, m, req, now).st, st.alerts[i], Judgeable(st, m, req, now);
            && i < |next.alerts|
            && Outcome(a, next.alerts[i], a.monitorId == m.id, Shows(cfg, st, z, m, s, a.kind), Clears(cfg, st, z, m, s, a.kind), now)
  {
    var p := Started(st, z, m, req, now);
    var s := Classified(p.res.sample);
    UntouchedEvolves(cfg, st, p.st, now, z.id);
    var acted := if s.valid then ActOn(cfg, p, z, m, s, now) else p;
    hide ActOn, SignalQuality, AppendSample, Reading, Classified, AlertInv, Shows, Clears, Outcome;
    var a := st.alerts[i];
    if s.valid {
      ActOutcome(cfg, p, z, m, s, now, i);
      ActLeavesSamples(cfg, p, z, m, s, now);
    } else {
      if a.kind != DataQuality {
        OnlyWhenValid(cfg, st, z, m, s, a.kind);
      }
      NoOutcome(a, a.monitorId == m.id, now);
    }
    SamplesDecide(cfg, p.st, st, z, m, s);
    SamplesDecide(cfg, acted.st, st, z, m, s);
    QualityOutcome(cfg, acted, z, m, s, now, i);
    SameByOutcome(a, acted.st.alerts[i], a.monitorId == m.id, a.kind != DataQuality && Shows(cfg, st, z, m, s, a.kind),
                  a.kind != DataQuality && Clears(cfg, st, z, m, s, a.kind), now);
    BothOutcomes(a, acted.st.alerts[i], SignalQuality(cfg, acted, z, m, s, now).st.alerts[i], a.monitorId == m.id,
                 Shows(cfg, st, z, m, s, a.kind), Clears(cfg, st, z, m, s, a.kind), now);
  }

  lemma BothOutcomes(a: CleanAlert, b: CleanAlert, c: CleanAlert, own: bool, shown: bool, cleared: bool, now: Time)
    requires Outcome(a, b, own, a.kind != DataQuality && shown, a.kind != DataQuality && cleared, now)
    requires Outcome(b, c, own, a.kind == DataQuality && shown, a.kind == DataQuality && cleared, now)
    ensures Outcome(a, c, own, shown, cleared, now)
  {
  }

  lemma SameByOutcome(a: CleanAlert, b: CleanAlert, own: bool, shown: bool, cleared: bool, now: Time)
    requires Outcome(a, b, own, shown, cleared, now)
    ensures a.kind == b.kind && a.monitorId == b.monitorId
  {
  }

  lemma NoOutcome(a: CleanAlert, own: bool, now: Time)
    ensures Outcome(a, a, own, false, false, now)
  {
  }

  lemma OnlyWhenValid(cfg: Config, st: State, z: CleanZone, m: MonitorZone, s: EnvSample, kind: AlertType)
    requires !s.valid && kind != DataQuality
    ensures !Shows(cfg, st, z, m, s, kind) && !Clears(cfg, st, z, m, s, kind)
  {
  }

  lemma NotBoth(cfg: Config, st: State, z: CleanZone, m: MonitorZone, s: EnvSample, kind: AlertType)
    ensures !(Shows(cfg, st, z, m, s, kind) && Clears(cfg, st, z, m, s, kind))
  {
  }

  lemma SamplesDecide(cfg: Config, a: State, b: State, z: CleanZone, m: MonitorZone, s: EnvSample)
    requires a.samples == b.samples
    ensures forall kind :: Shows(cfg, a, z, m, s, kind) == Shows(cfg, b, z, m, s, kind)
    ensures forall kind :: Clears(cfg, a, z, m, s, kind) == Clears(cfg, b, z, m, s, kind)
  {
  }

  lemma JudgedHasId(st: State, req: IngestRequest, now: Time)
    requires MonitorsValid(st.monitors) && Judge(st, req, now).Judged?
    ensures Judge(st, req, now).monitor.id == req.monitorId && req.monitorId != ""
  {
    hide RatioOf;
    var k := MonitorIndex(st.monitors, req.monitorId);
    assert st.monitors[k].Valid();
  }
}
