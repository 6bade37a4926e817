/** The bounded sample history as a queue per monitor zone. */
module History {
  import opened Types
  import opened Sequences
  import opened Config
  import opened Zones
  import opened Monitors
  import opened Samples
  import opened Alerts
  import opened State
  import opened WellFormedness
  import opened Runs
  import opened Plants
  import opened AlertInvariants
  import opened AlertTheorems
  import Iso

  // ---- Trimming ---------------------------------------------------------------------------------

  // One more sample at the end of what is trimmed.
  lemma KeepUnfolds(s: seq<EnvSample>, monitorId: string, budget: nat)
    requires s != []
    ensures var front, last := s[..|s| - 1], s[|s| - 1];
            Keep(s, monitorId, budget) ==
            if last.monitorId != monitorId then Keep(front, monitorId, budget) + [last]
            else if budget > 0 then Keep(front, monitorId, budget - 1) + [last]
            else Keep(front, monitorId, 0)
  {
  }

  lemma KeepNone(monitorId: string, budget: nat, other: string)
    ensures Keep([], monitorId, budget) == [] && OfMonitor([], other) == [] && Last<EnvSample>([], budget) == []
  {
  }

  lemma LastExtends<T>(s: seq<T>, x: T, n: nat)
    ensures Last(s, 0) == []
    ensures Last(s + [x], n + 1) == Last(s, n) + [x]
  {
  }

  /** Trimming keeps exactly the newest entries of its monitor zone. */
  lemma {:induction false} KeepIsLast(s: seq<EnvSample>, monitorId: string, budget: nat)
    ensures OfMonitor(Keep(s, monitorId, budget), monitorId) == Last(OfMonitor(s, monitorId), budget)
  {
    hide Keep, OfMonitor, Last;
    if s == [] {
      KeepNone(monitorId, budget, monitorId);
    } else {
      var front, last := s[..|s| - 1], s[|s| - 1];
      var left := if last.monitorId == monitorId && budget > 0 then budget - 1 else budget;
      KeepIsLast(front, monitorId, left);
      KeepUnfolds(s, monitorId, budget);
      assert s == front + [last];
      OfMonitorAppend(front, last, monitorId);
      OfMonitorAppend(Keep(front, monitorId, left), last, monitorId);
      LastExtends(OfMonitor(front, monitorId), last, left);
      LastExtends(OfMonitor(s, monitorId), last, left);
    }
  }

  /** Trimming one monitor zone leaves the entries of every other one alone. */
  lemma {:induction false} KeepSparesOthers(s: seq<EnvSample>, monitorId: string, budget: nat, other: string)
    requires other != monitorId
    ensures OfMonitor(Keep(s, monitorId, budget), other) == OfMonitor(s, other)
  {
    hide Keep, OfMonitor;
    if s == [] {
      KeepNone(monitorId, budget, other);
    } else {
      var front, last := s[..|s| - 1], s[|s| - 1];
      var left := if last.monitorId == monitorId && budget > 0 then budget - 1 else budget;
      KeepSparesOthers(front, monitorId, left, other);
      KeepUnfolds(s, monitorId, budget);
      assert s == front + [last];
      OfMonitorAppend(front, last, other);
      OfMonitorAppend(Keep(front, monitorId, left), last, other);
    }
  }

  lemma OfMonitorAppend(s: seq<EnvSample>, x: EnvSample, monitorId: string)
    ensures OfMonitor(s + [x], monitorId) ==
            if x.monitorId == monitorId then OfMonitor(s, monitorId) + [x] else OfMonitor(s, monitorId)
  {
    assert (s + [x])[..|s|] == s;
  }

  // The bounded queue the store is meant to be: the last `max` entries, all of them when max is 0.
  function Bounded(s: seq<EnvSample>, max: nat): seq<EnvSample> {
    if max > 0 then Last(s, max) else s
  }

  lemma AppendIsQueued(s: seq<EnvSample>, x: EnvSample, max: nat, monitorId: string)
    ensures OfMonitor(AppendSample(s, x, max), monitorId) ==
            if x.monitorId == monitorId then Bounded(OfMonitor(s, monitorId) + [x], max) else OfMonitor(s, monitorId)
  {
    OfMonitorAppend(s, x, monitorId);
    if max > 0 {
      if x.monitorId == monitorId {
        KeepIsLast(s + [x], monitorId, max);
      } else {
        KeepSparesOthers(s + [x], x.monitorId, max, monitorId);
      }
    }
  }

  // ---- Whole runs -------------------------------------------------------------------------------

  // Every sample ever recorded for the monitor zone, in the order of the reports.
  ghost function Reported(cfg: Config, run: seq<Step>, monitorId: string): seq<EnvSample> {
    if run == [] then []
    else
      var front, last := run[..|run| - 1], run[|run| - 1];
      Reported(cfg, front, monitorId) + Contributed(Exec(cfg, front), last, monitorId)
  }

  ghost function Contributed(st: State, step: Step, monitorId: string): seq<EnvSample> {
    var j := if step.Report? && step.req.monitorId == monitorId then Judge(st, step.req, step.now) else Unknown;
    if j.Judged? then [Judgeable(st, j.monitor, step.req, step.now)] else []
  }

  lemma ReportAppends(cfg: Config, st: State, req: IngestRequest, now: Time)
    ensures var next, j := ProcessSample(cfg, st, req, now).0, Judge(st, req, now);
            && next.samples == (if j.Judged?
                                then AppendSample(st.samples, Judgeable(st, j.monitor, req, now), cfg.maxSamplesPerZone)
                                else st.samples)
            && Issued(next.seqs, SAMPLE_IDS) == Issued(st.seqs, SAMPLE_IDS) + (if j.Judged? then 1 else 0)
  {
    hide ActOn, SignalQuality, AppendSample, ZoneIndex, MonitorIndex, RatioOf, PlantOf;
    var j := Judge(st, req, now);
    if j.Judged? {
      var z, m := j.zone, j.monitor;
      var p := Started(st, z, m, req, now);
      var s := Classified(p.res.sample);
      ActLeavesSamples(cfg, p, z, m, s, now);
      QualityFrame(cfg, if s.valid then ActOn(cfg, p, z, m, s, now) else p, z, m, s, now);
    }
  }

  lemma NewestIsKept(s: seq<EnvSample>, x: EnvSample, max: int)
    ensures var next := AppendSample(s, x, max); next != [] && next[|next| - 1] == x
  {
    assert (s + [x])[..|s|] == s;
    if max > 0 {
      KeepUnfolds(s + [x], x.monitorId, max);
    }
  }

  lemma ClassifiedHasClass(s: EnvSample)
    requires s.valid
    ensures Classified(s).iso != ""
  {
    Iso.StandardTableIsGraded();
    Iso.SearchUnfolds(Iso.StandardLimits(), s.count03, s.count05);
    hide Iso.Classify, Iso.OverTable, Iso.StandardLimits, Iso.Complete, Iso.Graded;
  }

  lemma ActLeavesReturned(cfg: Config, p: Progress, z: CleanZone, m: MonitorZone, s: EnvSample, now: Time)
    ensures ActOn(cfg, p, z, m, s, now).res.sample == p.res.sample
    ensures SignalQuality(cfg, p, z, m, s, now).res.sample == p.res.sample
  {
    hide MovePlant, MoveLog, MoveChanged, RatioOf, Window, CredibilityLost, InvalidRatio, Signal;
    forall q: Progress, bad, zoneId, monitorId, kind, level, message, sampleId
      ensures Signal(cfg, q, bad, zoneId, monitorId, kind, level, message, sampleId, now).res.sample == q.res.sample
    {
      SignalLeavesReturned(cfg, q, bad, zoneId, monitorId, kind, level, message, sampleId, now);
    }
  }

  lemma SignalLeavesReturned(cfg: Config, p: Progress, bad: bool, zoneId: string, monitorId: string, kind: AlertType,
                             level: AlertLevel, message: Message, sampleId: string, now: Time)
    ensures Signal(cfg, p, bad, zoneId, monitorId, kind, level, message, sampleId, now).res.sample == p.res.sample
  {
    hide Raise, Resolve, Select, Sum;
  }

  lemma ReturnedReading(cfg: Config, st: State, req: IngestRequest, now: Time)
    requires Judge(st, req, now).Judged?
    ensures var r := ProcessSample(cfg, st, req, now).1;
            r.Ok? && r.value.sample == Reading(st, Judge(st, req, now).monitor, req, now)
  {
    hide ZoneIndex, MonitorIndex, ActOn, SignalQuality, Reading, Classified, AppendSample, RatioOf;
    var j := Judge(st, req, now);
    var p := Started(st, j.zone, j.monitor, req, now);
    var s := Classified(p.res.sample);
    ActLeavesReturned(cfg, p, j.zone, j.monitor, s, now);
    ActLeavesReturned(cfg, if s.valid then ActOn(cfg, p, j.zone, j.monitor, s, now) else p, j.zone, j.monitor, s, now);
  }

  /**
   The reading an accepted report returns is a copy made before the classification: the stored one is its classified
   form, so the two are the same exactly when the reading was judged invalid.
   */
  lemma ReturnedIsStoredWhenInvalid(cfg: Config, st: State, req: IngestRequest, now: Time)
    requires Judge(st, req, now).Judged?
    ensures var (next, r) := ProcessSample(cfg, st, req, now);
            && r.Ok? && next.samples != []
            && next.samples[|next.samples| - 1] == Classified(r.value.sample)
            && (next.samples[|next.samples| - 1] == r.value.sample <==> !Judge(st, req, now).valid)
  {
    var m := Judge(st, req, now).monitor;
    var s := Reading(st, m, req, now);
    ReportAppends(cfg, st, req, now);
    ReturnedReading(cfg, st, req, now);
    hide ProcessSample, AppendSample, RatioOf, MonitorIndex, ZoneIndex;
    NewestIsKept(st.samples, Classified(s), cfg.maxSamplesPerZone);
    assert s.iso == "" && s.valid == Judge(st, req, now).valid;
    if s.valid {
      ClassifiedHasClass(s);
    }
  }

  lemma StepRecords(cfg: Config, st: State, step: Step, monitorId: string)
    requires cfg.Valid()
    ensures var own, added := OfMonitor(st.samples, monitorId), Contributed(st, step, monitorId);
            OfMonitor(Apply(cfg, st, step).samples, monitorId) ==
            if added == [] then own else Bounded(own + added, cfg.maxSamplesPerZone)
  {
    hide OfMonitor, AppendSample, Bounded, ZoneIndex, RatioOf, ProcessSample, EscalateAll;
    if step.Report? {
      ReportAppends(cfg, st, step.req, step.now);
      var j := Judge(st, step.req, step.now);
      if j.Judged? {
        AppendIsQueued(st.samples, Judgeable(st, j.monitor, step.req, step.now), cfg.maxSamplesPerZone, monitorId);
      }
    } else if !step.Acknowledge? && !step.Promote? && !step.SweepAlerts? {
      hide Apply;
      PlantStepsLeaveAlerts(cfg, st, step);
    }
  }

  lemma BoundedAgain(s: seq<EnvSample>, added: seq<EnvSample>, max: nat)
    requires |added| <= 1
    ensures Bounded(s + added, max) == if added == [] then Bounded(s, max) else Bounded(Bounded(s, max) + added, max)
  {
    if added == [] {
      assert s + added == s;
    }
  }

  /**
   The store refines a bounded queue: after any run the stored samples of every monitor zone are exactly the last
   `max` ones ever recorded for it, in order, or all of them when max is 0.
   */
  lemma {:induction false} StoredIsBounded(cfg: Config, run: seq<Step>, monitorId: string)
    requires cfg.Valid()
    ensures OfMonitor(Exec(cfg, run).samples, monitorId) == Bounded(Reported(cfg, run, monitorId), cfg.maxSamplesPerZone)
  {
    if run != [] {
      var front, last := run[..|run| - 1], run[|run| - 1];
      hide Apply, Bounded, OfMonitor;
      StoredIsBounded(cfg, front, monitorId);
      StepRecords(cfg, Exec(cfg, front), last, monitorId);
      hide Exec;
      BoundedAgain(Reported(cfg, front, monitorId), Contributed(Exec(cfg, front), last, monitorId), cfg.maxSamplesPerZone);
    }
  }

  // ---- Every recorded sample is one of its kind ---------------------------------------------------

  // No two ids are the same, and none will be handed out again.
  ghost predicate IdsSpent(s: seq<EnvSample>, seqs: map<string, nat>) {
    && (forall i, j :: 0 <= i < j < |s| ==> s[i].id != s[j].id)
    && (forall i :: 0 <= i < |s| ==> Unused(seqs, SAMPLE_IDS, s[i].id))
  }

  lemma CounterStep(cfg: Config, st: State, step: Step)
    ensures var j := if step.Report? then Judge(st, step.req, step.now) else Unknown;
            Issued(Apply(cfg, st, step).seqs, SAMPLE_IDS) == Issued(st.seqs, SAMPLE_IDS) + (if j.Judged? then 1 else 0)
  {
    hide ProcessSample, Judge, AlertIndex, EscalateAll;
    if step.Report? {
      ReportAppends(cfg, st, step.req, step.now);
    } else if !step.Acknowledge? && !step.Promote? && !step.SweepAlerts? {
      hide Apply;
      PlantStepsLeaveAlerts(cfg, st, step);
    }
  }

  lemma SpentLonger(s: seq<EnvSample>, added: seq<EnvSample>, a: map<string, nat>, b: map<string, nat>)
    requires IdsSpent(s, a) && |added| <= 1 && Issued(a, SAMPLE_IDS) + |added| <= Issued(b, SAMPLE_IDS)
    requires added != [] ==> added[0].id == NextId(a, SAMPLE_IDS)
    ensures IdsSpent(s + added, b)
  {
    NextIdIsFresh(a, SAMPLE_IDS);
    assert forall id :: Unused(a, SAMPLE_IDS, id) ==> Unused(b, SAMPLE_IDS, id);
    if added != [] {
      assert Issued(Bump(a, SAMPLE_IDS), SAMPLE_IDS) <= Issued(b, SAMPLE_IDS);
      assert forall id :: Unused(Bump(a, SAMPLE_IDS), SAMPLE_IDS, id) ==> Unused(b, SAMPLE_IDS, id);
    }
    hide Unused, NextId, Bump;
  }

  lemma ContributedId(st: State, step: Step, monitorId: string)
    ensures var added := Contributed(st, step, monitorId);
            |added| <= 1 && (added != [] ==> added[0].id == NextId(st.seqs, SAMPLE_IDS))
            && (added != [] ==> step.Report? && Judge(st, step.req, step.now).Judged?)
  {
    hide Judge, NextId;
  }

  /** No two samples ever recorded for a monitor zone share an id. */
  lemma {:induction false} ReportedIdsSpent(cfg: Config, run: seq<Step>, monitorId: string)
    ensures IdsSpent(Reported(cfg, run, monitorId), Exec(cfg, run).seqs)
  {
    if run != [] {
      hide Apply, IdsSpent, Contributed;
      var front, last := run[..|run| - 1], run[|run| - 1];
      var st := Exec(cfg, front);
      ReportedIdsSpent(cfg, front, monitorId);
      ContributedId(st, last, monitorId);
      CounterStep(cfg, st, last);
      SpentLonger(Reported(cfg, front, monitorId), Contributed(st, last, monitorId), st.seqs, Exec(cfg, run).seqs);
    } else {
      NothingSpent(map[]);
    }
  }

  lemma NothingSpent(seqs: map<string, nat>)
    ensures IdsSpent([], seqs)
  {
  }
}
