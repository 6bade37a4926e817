/** Short concrete runs on which the service does not do what one might expect of it. */
module Scenarios {
  import opened Types
  import opened Sequences
  import opened Config
  import opened Zones
  import opened Monitors
  import opened Samples
  import opened Alerts
  import opened State
  import opened Runs
  import opened Plants
  import opened Areas
  import opened AlertInvariants
  import opened AlertTheorems
  import opened Accounting
  import opened History
  import opened SlidingWindow
  import Process
  import Iso
  import Text

  // A window of one reading, a dedup window and an escalation timeout of ten.
  const PLAN := Config(100, 10, 10, 0.5, 1, 2.0, 0)

  const ZONE := NewCleanZone("z", "Bay 1", "A", "iso5", "etching", 0)
  const NO_THRESHOLDS := ZoneThresholds(0.0, 0.0, Process.EnvRange(0.0, 0.0, 0.0, 0.0, 0.0, 0.0))
  const POINT := NewMonitorZone("m", "z", "Point 1", "c", NO_THRESHOLDS, 1000, 0)

  const OPENING := [AddZone(0, "z", "Bay 1", "A", "iso5", "etching"),
                    AddMonitor(0, "m", "z", "Point 1", "c", NO_THRESHOLDS, 1000)]
  const SERVICING := OPENING + [Maintain(0, "m", true, "pm")]

  const OPENED := EMPTY.(zones := [ZONE], monitors := [POINT])
  const SERVICED := OPENED.(monitors := [POINT.SetMaintenance(true, "pm", 0)])

  // A clean reading within every climate range, taken at `at` and reported at `now`.
  function Clean(at: Time): IngestRequest {
    IngestRequest("m", 0.0, 0.0, 22.0, 50.0, 15.0, Some(at))
  }

  lemma ExecNext(cfg: Config, run: seq<Step>, step: Step)
    ensures Exec(cfg, run + [step]) == Apply(cfg, Exec(cfg, run), step)
  {
    hide Apply;
    assert (run + [step])[..|run|] == run;
  }

  lemma NotBlank(s: string)
    requires s != "" && !Text.IsSpace(s[0])
    ensures !Text.Blank(s)
  {
  }

  lemma ClassParses()
    ensures Iso.Parses("iso5")
  {
    assert Text.Normalise("iso5") == "iso5";
    assert Iso.CLASSES[0] == "iso5";
  }

  lemma ProcessParses()
    ensures Process.Parses("etching")
  {
    assert Text.Normalise("etching") == "etching";
  }

  lemma NamesAreValid()
    ensures ZONE.Valid() && POINT.Valid()
  {
    hide Iso.Parses, Process.Parses, Text.Blank;
    ClassParses();
    ProcessParses();
    NotBlank("z");
    NotBlank("Bay 1");
    NotBlank("A");
    NotBlank("m");
    NotBlank("Point 1");
    NotBlank("c");
  }

  lemma ZoneOpened(cfg: Config)
    ensures Exec(cfg, [OPENING[0]]) == EMPTY.(zones := [ZONE])
  {
    NamesAreValid();
    hide CleanZone.Valid, MonitorZone.Valid;
    ExecNext(cfg, [], OPENING[0]);
    assert [] + [OPENING[0]] == [OPENING[0]];
  }

  lemma Opened(cfg: Config)
    ensures Exec(cfg, OPENING) == OPENED
  {
    NamesAreValid();
    ZoneOpened(cfg);
    hide Exec, CleanZone.Valid, MonitorZone.Valid;
    ExecNext(cfg, [OPENING[0]], OPENING[1]);
    assert [OPENING[0]] + [OPENING[1]] == OPENING;
  }

  lemma Serviced(cfg: Config)
    ensures Exec(cfg, SERVICING) == SERVICED
  {
    Opened(cfg);
    hide Exec;
    ExecNext(cfg, OPENING, Maintain(0, "m", true, "pm"));
  }

  // ---- An area that is not interlocked as a whole -------------------------------------------------

  const LATE := AddZone(2, "y", "Bay 1", "A", "iso5", "etching")
  const LATE_RUN := [OPENING[0], Interlock(1, "z", "", "", 1.5), LATE]

  lemma OneInterlocked(cfg: Config)
    ensures Exec(cfg, LATE_RUN[..2]).zones == [ZONE.SetStatus(Interlocked, 1)]
  {
    ZoneOpened(cfg);
    hide Exec;
    ExecNext(cfg, [OPENING[0]], LATE_RUN[1]);
    assert [OPENING[0]] + [LATE_RUN[1]] == LATE_RUN[..2];
    hide LogFor, Ventilate, FirstMonitor;
  }

  lemma LateIsValid()
    ensures NewCleanZone("y", "Bay 1", "A", "iso5", "etching", 2).Valid()
  {
    NamesAreValid();
    NotBlank("y");
    hide Iso.Parses, Process.Parses, Text.Blank;
  }

  /** Adding a zone, interlocking it and adding another one in its area leaves an area interlocked by half. */
  lemma LateZoneSplitsTheArea(cfg: Config)
    ensures Clocked(LATE_RUN) && !Uniform(Exec(cfg, LATE_RUN).zones)
  {
    OneInterlocked(cfg);
    LateIsValid();
    hide Exec, CleanZone.Valid;
    ExecNext(cfg, LATE_RUN[..2], LATE);
    assert LATE_RUN[..2] + [LATE] == LATE_RUN;
    var zones := Exec(cfg, LATE_RUN).zones;
    assert zones[0].area == zones[1].area && zones[0].status == Interlocked && zones[1].status == Normal;
  }

  // ---- A result that is not what was stored -------------------------------------------------------

  /** A valid reading is accepted, and what is returned for it is not what is stored. */
  lemma ReturnedDiffersFromStored(cfg: Config)
    ensures var st := Exec(cfg, OPENING);
            var (next, r) := ProcessSample(cfg, st, Clean(1), 1);
            && Judge(st, Clean(1), 1).Judged? && Judge(st, Clean(1), 1).valid
            && r.Ok? && next.samples != [] && next.samples[|next.samples| - 1] != r.value.sample
  {
    Opened(cfg);
    hide Exec, ProcessSample, RatioOf;
    ReturnedIsStoredWhenInvalid(cfg, OPENED, Clean(1), 1);
  }

  // ---- Windows that do not slide ------------------------------------------------------------------

  // Two readings taken at the given times, reported while the counter is serviced.
  function Twice(first: Time, second: Time): seq<Step> {
    SERVICING + [Report(20, Clean(first))] + [Report(20, Clean(second))]
  }

  lemma ReportedNext(cfg: Config, run: seq<Step>, step: Step, monitorId: string)
    ensures Reported(cfg, run + [step], monitorId) == Reported(cfg, run, monitorId) + Contributed(Exec(cfg, run), step, monitorId)
  {
    hide Exec, Contributed;
    assert (run + [step])[..|run|] == run;
  }

  // While the counter is serviced every reading is recorded as invalid and changes no zone or monitor zone.
  lemma ServicedReport(cfg: Config, st: State, at: Time)
    requires st.zones == SERVICED.zones && st.monitors == SERVICED.monitors
    ensures var step := Report(20, Clean(at));
            var next, added := Apply(cfg, st, step), Contributed(st, step, "m");
            && next.zones == st.zones && next.monitors == st.monitors
            && |added| == 1 && added[0].timestamp == at && added[0].monitorId == "m" && !added[0].valid
  {
    hide ProcessSample, MovePlant, RatioOf;
    ReportOnPlant(cfg, st, Clean(at), 20);
  }

  lemma NothingReported(cfg: Config)
    ensures Reported(cfg, SERVICING, "m") == []
  {
    hide Exec;
    var last := Maintain(0, "m", true, "pm");
    assert Reported(cfg, [], "m") == [];
    hide Reported;
    ReportedNext(cfg, [], OPENING[0], "m");
    ReportedNext(cfg, [OPENING[0]], OPENING[1], "m");
    ReportedNext(cfg, OPENING, last, "m");
    assert [] + [OPENING[0]] == [OPENING[0]] && [OPENING[0]] + [OPENING[1]] == OPENING;
  }

  lemma TwiceReported(cfg: Config, first: Time, second: Time)
    ensures var s := Reported(cfg, Twice(first, second), "m");
            |s| == 2 && s[0].timestamp == first && s[1].timestamp == second
  {
    Serviced(cfg);
    NothingReported(cfg);
    hide Exec, Apply, Reported, Contributed, Clean;
    var a, b := Report(20, Clean(first)), Report(20, Clean(second));
    ServicedReport(cfg, SERVICED, first);
    ExecNext(cfg, SERVICING, a);
    ServicedReport(cfg, Exec(cfg, SERVICING + [a]), second);
    ReportedNext(cfg, SERVICING, a, "m");
    ReportedNext(cfg, SERVICING + [a], b, "m");
  }

  /** A store that keeps one reading per monitor zone cannot fill a window of three, however regular the reports are. */
  lemma ShortStoreCutsTheWindow(s: EnvSample)
    requires s.monitorId == "m"
    ensures var cfg, run := PLAN.(maxSamplesPerZone := 1, invalidRatioWindow := 3), Twice(1, 2);
            && cfg.Valid() && RisesAtTheEnd(Reported(cfg, run, "m"), 2)
            && Window(cfg, Exec(cfg, run).samples, s) != Reverse(Last(Reported(cfg, run, "m") + [s], 3))
  {
    var cfg, run := PLAN.(maxSamplesPerZone := 1, invalidRatioWindow := 3), Twice(1, 2);
    TwiceReported(cfg, 1, 2);
    hide Exec, Reported, Window, Reverse, Last, Twice;
    WindowSlides(cfg, run, s);
  }

  /** A reading that arrives out of order is left out of a window of two although it was recorded last. */
  lemma LateReadingLeavesTheWindow(s: EnvSample)
    requires s.monitorId == "m" && s.timestamp == 20
    ensures var cfg, run := PLAN.(invalidRatioWindow := 2), Twice(10, 5);
            && cfg.Valid() && Suffices(cfg, |Reported(cfg, run, "m")|)
            && Window(cfg, Exec(cfg, run).samples, s) != Reverse(Last(Reported(cfg, run, "m") + [s], 2))
  {
    var cfg, run := PLAN.(invalidRatioWindow := 2), Twice(10, 5);
    TwiceReported(cfg, 10, 5);
    StoredIsBounded(cfg, run, "m");
    hide Exec, Reported, Window, Reverse, Last, Twice, OfMonitor;
    WindowSlides(cfg, run, s);
    var own := OfMonitor(Exec(cfg, run).samples, "m");
    assert own[0].timestamp > own[1].timestamp;
  }

  // ---- Alerts -----------------------------------------------------------------------------------

  // With a window of one, an invalid reading alone makes the data incredible and raises its alert.
  lemma InvalidReadingRaises(cfg: Config, st: State, now: Time)
    requires st.zones == SERVICED.zones && st.monitors == SERVICED.monitors
    requires cfg.SampleWindow() == 1 && cfg.invalidRatioThreshold < 1.0
    ensures var next, seqs := ProcessSample(cfg, st, Clean(now), now).0, Bump(st.seqs, SAMPLE_IDS);
            && next.zones == st.zones && next.monitors == st.monitors
            && next.alerts == Raise(cfg, st.(seqs := seqs), "z", "m", DataQuality, Warning, CredibilityLow(1.0),
                                    NextId(st.seqs, SAMPLE_IDS), now).st.alerts
  {
    ReportOnPlant(cfg, st, Clean(now), now);
    hide Raise, NextId, ActOn, AppendSample, RatioOf, Recent, Bump, MovePlant;
    var m, z := SERVICED.monitors[0], ZONE;
    var p := Started(st, z, m, Clean(now), now);
    var s := Classified(p.res.sample);
    assert !s.valid;
    OneInvalid(cfg, st.samples, s);
    hide Window, CredibilityLost, InvalidRatio;
  }

  lemma OneInvalid(cfg: Config, stored: seq<EnvSample>, s: EnvSample)
    requires cfg.SampleWindow() == 1 && cfg.invalidRatioThreshold < 1.0 && !s.valid
    ensures CredibilityLost(cfg, Window(cfg, stored, s)) && InvalidRatio(Window(cfg, stored, s)) == 1.0
  {
    hide Recent;
    var window := Window(cfg, stored, s);
    assert window == [s];
    SumAdd([], s, InvalidUnit);
    assert [] + [s] == [s];
  }

  // Nothing stored yet: the raise adds the first alert.
  lemma FirstRaise(cfg: Config, st: State, kind: AlertType, level: AlertLevel, message: Message, sampleId: string, now: Time)
    requires st.alerts == []
    ensures Raise(cfg, st, "z", "m", kind, level, message, sampleId, now).st.alerts ==
            [Incoming(st, "z", "m", kind, level, message, sampleId, now)]
  {
    hide NextId, DedupKeyOf;
  }

  // One alert stored and still within its window: the raise merges into it.
  lemma SecondRaise(cfg: Config, st: State, kind: AlertType, level: AlertLevel, message: Message, sampleId: string, now: Time)
    requires |st.alerts| == 1 && st.alerts[0].dedupKey == DedupKeyOf("m", kind) && st.alerts[0].status != Closed
    requires now - st.alerts[0].createdAt < cfg.alertDedupWindow
    ensures Raise(cfg, st, "z", "m", kind, level, message, sampleId, now).st.alerts ==
            [st.alerts[0].Merge(Incoming(st, "z", "m", kind, level, message, sampleId, now))]
  {
    hide NextId, DedupKeyOf;
    assert st.alerts[..0] == [];
  }

  // ---- An alert kept open by its repetitions --------------------------------------------------------

  const RAISED := SERVICING + [Report(1, Clean(1))]
  const REPEATED := RAISED + [Report(8, Clean(8))]
  const SWEPT := REPEATED + [SweepAlerts(12, 12)]

  lemma AfterFirst(cfg: Config)
    requires cfg.SampleWindow() == 1 && cfg.invalidRatioThreshold < 1.0
    ensures var st := Exec(cfg, RAISED);
            && st.zones == SERVICED.zones && st.monitors == SERVICED.monitors
            && |st.alerts| == 1 && st.alerts[0].kind == DataQuality && st.alerts[0].monitorId == "m"
            && st.alerts[0].dedupKey == DedupKeyOf("m", DataQuality) && st.alerts[0].status == Open
            && st.alerts[0].firstSeenAt == st.alerts[0].createdAt == 1
            && st.alerts[0].id == NextId(map[], ALERT_IDS)
  {
    Serviced(cfg);
    hide Exec, ProcessSample, Raise, DedupKeyOf, Clean;
    ExecNext(cfg, SERVICING, Report(1, Clean(1)));
    InvalidReadingRaises(cfg, SERVICED, 1);
    FirstRaise(cfg, SERVICED.(seqs := Bump(SERVICED.seqs, SAMPLE_IDS)), DataQuality, Warning, CredibilityLow(1.0),
               NextId(SERVICED.seqs, SAMPLE_IDS), 1);
  }

  lemma ReportApplied(cfg: Config, run: seq<Step>, req: IngestRequest, now: Time)
    ensures Exec(cfg, run + [Report(now, req)]) == ProcessSample(cfg, Exec(cfg, run), req, now).0
  {
    hide Exec, ProcessSample;
    ExecNext(cfg, run, Report(now, req));
  }

  lemma AfterSecond()
    ensures var s := Exec(PLAN, REPEATED).alerts;
            |s| == 1 && s[0].status == Open && s[0].firstSeenAt == 1 && s[0].createdAt == 8
  {
    AfterFirst(PLAN);
    hide Exec, ProcessSample, Raise, DedupKeyOf, Clean, NextId, Bump;
    var st := Exec(PLAN, RAISED);
    ReportApplied(PLAN, RAISED, Clean(8), 8);
    InvalidReadingRaises(PLAN, st, 8);
    SecondRaise(PLAN, st.(seqs := Bump(st.seqs, SAMPLE_IDS)), DataQuality, Warning, CredibilityLow(1.0),
                NextId(st.seqs, SAMPLE_IDS), 8);
  }

  /**
   A condition seen at 1 and again at 8 is still an open alert after the escalation sweep at 12, although the timeout
   since its first sighting is over: the merge at 8 started it anew.
   */
  lemma MergesPostponeEscalation()
    ensures PLAN.Valid() && Clocked(SWEPT)
    ensures var s := Exec(PLAN, SWEPT).alerts;
            |s| == 1 && s[0].status == Open && 12 - s[0].firstSeenAt >= PLAN.alertEscalateAfter
  {
    AfterSecond();
    hide Exec;
    ExecNext(PLAN, REPEATED, SweepAlerts(12, 12));
  }

  // ---- An acknowledged alert that outlives its condition --------------------------------------------

  const ACKNOWLEDGED := RAISED + [Acknowledge(2, NextId(map[], ALERT_IDS), "op", "counter serviced")]
  const RECOVERED := ACKNOWLEDGED + [Maintain(3, "m", false, "")]

  lemma AckOnly(st: State, now: Time)
    requires |st.alerts| == 1 && st.alerts[0].status != Closed
    ensures var next := Ack(st, st.alerts[0].id, "op", "counter serviced", now).0;
            && next == st.(alerts := next.alerts) && |next.alerts| == 1 && next.alerts[0].status == Acknowledged
            && next.alerts[0].kind == st.alerts[0].kind && next.alerts[0].monitorId == st.alerts[0].monitorId
            && next.alerts[0].id == st.alerts[0].id
  {
    NotBlank("counter serviced");
    hide Text.Blank;
  }

  lemma AckApplied(cfg: Config, run: seq<Step>, now: Time, id: string)
    ensures Exec(cfg, run + [Acknowledge(now, id, "op", "counter serviced")]) ==
            Ack(Exec(cfg, run), id, "op", "counter serviced", now).0
  {
    hide Exec, Ack;
    ExecNext(cfg, run, Acknowledge(now, id, "op", "counter serviced"));
  }

  lemma AfterAcknowledging()
    ensures var st := Exec(PLAN, ACKNOWLEDGED);
            && st.zones == SERVICED.zones && st.monitors == SERVICED.monitors
            && |st.alerts| == 1 && st.alerts[0].kind == DataQuality && st.alerts[0].monitorId == "m"
            && st.alerts[0].status == Acknowledged && st.alerts[0].id == NextId(map[], ALERT_IDS)
  {
    AfterFirst(PLAN);
    hide Exec, NextId, DedupKeyOf, Ack, Clean;
    AckOnly(Exec(PLAN, RAISED), 2);
    AckApplied(PLAN, RAISED, 2, NextId(map[], ALERT_IDS));
  }

  lemma AfterRecovery()
    ensures var st := Exec(PLAN, RECOVERED);
            && st.zones == OPENED.zones && st.monitors == [POINT.SetMaintenance(true, "pm", 0).SetMaintenance(false, "", 3)]
            && |st.alerts| == 1 && st.alerts[0].kind == DataQuality && st.alerts[0].monitorId == "m"
            && st.alerts[0].status == Acknowledged
  {
    AfterAcknowledging();
    hide Exec;
    ExecNext(PLAN, ACKNOWLEDGED, Maintain(3, "m", false, ""));
  }

  lemma OneValid(cfg: Config, stored: seq<EnvSample>, s: EnvSample)
    requires cfg.Valid() && cfg.SampleWindow() == 1 && s.valid
    ensures !CredibilityLost(cfg, Window(cfg, stored, s)) && InvalidRatio(Window(cfg, stored, s)) == 0.0
  {
    hide Recent;
    var window := Window(cfg, stored, s);
    assert window == [s];
    SumAdd([], s, InvalidUnit);
    assert [] + [s] == [s];
  }

  /**
   The data quality alert raised while the counter was serviced and then acknowledged stays acknowledged when the
   window holds nothing but a valid reading.
   */
  lemma AcknowledgedOutlivesRecovery()
    ensures PLAN.Valid() && Clocked(RECOVERED + [Report(4, Clean(4))])
    ensures var st := Exec(PLAN, RECOVERED);
            var next, r := ProcessSample(PLAN, st, Clean(4), 4).0, ProcessSample(PLAN, st, Clean(4), 4).1;
            && |st.alerts| == 1 && st.alerts[0].kind == DataQuality && st.alerts[0].status == Acknowledged
            && r.Ok? && r.value.sample.valid && r.value.invalidRatio == 0.0
            && |next.alerts| > 0 && next.alerts[0].status != Closed
  {
    AfterRecovery();
    RecoveredInOrder();
    hide Exec, Clocked, Until, ProcessSample;
    ReachableAlerts(PLAN, RECOVERED, 4);
    hide AlertInv;
    OutlivesValidWindow(Exec(PLAN, RECOVERED));
  }

  lemma RecoveredInOrder()
    ensures Clocked(RECOVERED + [Report(4, Clean(4))]) && Clocked(RECOVERED) && Until(RECOVERED, 4)
  {
    hide NextId;
    var all := RECOVERED + [Report(4, Clean(4))];
    assert all[0].now == 0 && all[1].now == 0 && all[2].now == 0 && all[3].now == 1 && all[4].now == 2 && all[5].now == 3
           && all[6].now == 4;
    assert RECOVERED == all[..6];
  }

  ghost predicate IsRecovered(st: State) {
    st.zones == OPENED.zones && st.monitors == [POINT.SetMaintenance(true, "pm", 0).SetMaintenance(false, "", 3)]
  }

  lemma ValidOnRecovery(st: State)
    requires IsRecovered(st)
    ensures var j := Judge(st, Clean(4), 4);
            j.Judged? && j.valid && j.monitor.id == "m" && Judgeable(st, j.monitor, Clean(4), 4).valid
    ensures MonitorsValid(st.monitors)
  {
    NamesAreValid();
    hide RatioOf, Iso.Classify, Iso.OverTable, Text.Blank;
  }

  lemma OutlivesValidWindow(st: State)
    requires IsRecovered(st) && AlertInv(PLAN, st, 4)
    requires |st.alerts| == 1 && st.alerts[0].kind == DataQuality && st.alerts[0].status == Acknowledged
    ensures var next, r := ProcessSample(PLAN, st, Clean(4), 4).0, ProcessSample(PLAN, st, Clean(4), 4).1;
            && r.Ok? && r.value.sample.valid && r.value.invalidRatio == 0.0
            && |next.alerts| > 0 && next.alerts[0].status != Closed
  {
    ValidOnRecovery(st);
    hide ProcessSample, Judge, AlertInv, Window, CredibilityLost, InvalidRatio, IsRecovered, MonitorsValid, Shows;
    var m := Judge(st, Clean(4), 4).monitor;
    var s := Judgeable(st, m, Clean(4), 4);
    OneValid(PLAN, st.samples, s);
    JudgedOnWindow(PLAN, st, Clean(4), 4);
    ReturnedReading(PLAN, st, Clean(4), 4);
    ClosesExactlyWhatCleared(PLAN, st, Clean(4), 4, 0);
  }

  // ---- An acknowledged alert made active again ------------------------------------------------------

  const PROMOTED := ACKNOWLEDGED + [Promote(3, NextId(map[], ALERT_IDS))]

  lemma PromoteApplied(cfg: Config, run: seq<Step>, now: Time, id: string)
    ensures Exec(cfg, run + [Promote(now, id)]) == Escalate(Exec(cfg, run), id, now).0
  {
    hide Exec, Escalate;
    ExecNext(cfg, run, Promote(now, id));
  }

  lemma PromoteOnly(st: State, now: Time)
    requires |st.alerts| == 1 && st.alerts[0].status != Closed
    ensures var next := Escalate(st, st.alerts[0].id, now).0; |next.alerts| == 1 && next.alerts[0].status == Escalated
  {
  }

  /** An escalation requested for the acknowledged alert makes it active again. */
  lemma PromotionReactivates()
    ensures var before, after := Exec(PLAN, ACKNOWLEDGED).alerts, Exec(PLAN, PROMOTED).alerts;
            |before| == |after| == 1 && before[0].status == Acknowledged && !before[0].IsActive() && after[0].IsActive()
  {
    AfterAcknowledging();
    hide Exec, Escalate, NextId;
    PromoteOnly(Exec(PLAN, ACKNOWLEDGED), 3);
    PromoteApplied(PLAN, ACKNOWLEDGED, 3, NextId(map[], ALERT_IDS));
  }

  // ---- A critical reading merged into a warning -----------------------------------------------------

  // A reading without particles whose climate is given; the zone's ranges are 20 to 24 degrees and 40 to 60 percent.
  function Climate(temperature: real, humidity: real, at: Time): IngestRequest {
    IngestRequest("m", 0.0, 0.0, temperature, humidity, 15.0, Some(at))
  }

  const HUMID := OPENING + [Report(1, Climate(22.0, 70.0, 1))]
  const HOT := HUMID + [Report(2, Climate(30.0, 50.0, 2))]

  // The zone is in order and no alert waits for its condition to clear.
  ghost predicate Calm(st: State) {
    st.zones == OPENED.zones && st.monitors == OPENED.monitors
    && forall i :: 0 <= i < |st.alerts| ==> st.alerts[i].status == Open
  }

  lemma NoParticles()
    ensures RatioOf(ZONE, POINT, 0.0, 0.0) == 0.0
  {
    hide LimitsOf;
  }

  lemma EtchingRange()
    ensures POINT.EffectiveEnvRange(ZONE.process) == Process.EnvRange(20.0, 24.0, 40.0, 60.0, 10.0, 25.0)
  {
    assert ZONE.process[0] == 'e' && Process.LITHOGRAPHY[0] == 'l' && Process.DIFFUSION[0] == 'd';
  }

  lemma NothingResolved(s: seq<CleanAlert>, f: AlertFilter, now: Time)
    requires forall i :: 0 <= i < |s| ==> s[i].status == Open
    ensures Resolve(s, f, now) == s
  {
    hide Matches;
  }

  lemma PlantStaysCalm(cfg: Config, st: State, now: Time)
    requires cfg.Valid() && st.zones == OPENED.zones
    ensures MovePlant(cfg, st, ZONE, POINT, 0.0, now) == st
  {
    assert RecordRatio(st.zones, "z", 0.0, now) == st.zones;
    hide IssueFor, PutZone;
  }

  function LevelOf(temperature: real): AlertLevel {
    if temperature < 20.0 || temperature > 24.0 then Critical else Warning
  }

  // The state a climate alert of this level is raised to, all other rules being content.
  function ClimateRaised(st: State, temperature: real, humidity: real, sampleId: string, now: Time): State {
    Raise(PLAN, st, "z", "m", TempHumidity, LevelOf(temperature), ClimateOutOfRange(temperature, humidity), sampleId, now).st
  }

  lemma ClimateActs(p: Progress, s: EnvSample, now: Time)
    requires Calm(p.st) && s.count03 == 0.0 && s.count05 == 0.0 && s.pressure == 15.0
    requires s.temperature > 24.0 || s.humidity > 60.0
    requires forall i :: 0 <= i < |ClimateRaised(p.st, s.temperature, s.humidity, s.id, now).alerts| ==>
               ClimateRaised(p.st, s.temperature, s.humidity, s.id, now).alerts[i].status == Open
    ensures ActOn(PLAN, p, ZONE, POINT, s, now).st == ClimateRaised(p.st, s.temperature, s.humidity, s.id, now)
  {
    hide RatioOf, MovePlant, MoveLog, MoveChanged, Raise, Resolve, Select, Sum, MonitorZone.EffectiveEnvRange;
    NoParticles();
    EtchingRange();
    PlantStaysCalm(PLAN, p.st, now);
    NothingResolved(p.st.alerts, ResolveFilter("m", Particle), now);
    NothingResolved(ClimateRaised(p.st, s.temperature, s.humidity, s.id, now).alerts, ResolveFilter("m", Pressure), now);
  }

  lemma ClimateReported(st: State, temperature: real, humidity: real, now: Time)
    requires Calm(st) && now <= 1000 && (temperature > 24.0 || humidity > 60.0)
    requires var raised := ClimateRaised(st.(seqs := Bump(st.seqs, SAMPLE_IDS)), temperature, humidity, NextId(st.seqs, SAMPLE_IDS), now);
             forall i :: 0 <= i < |raised.alerts| ==> raised.alerts[i].status == Open
    ensures var raised := ClimateRaised(st.(seqs := Bump(st.seqs, SAMPLE_IDS)), temperature, humidity, NextId(st.seqs, SAMPLE_IDS), now);
            var next := ProcessSample(PLAN, st, Climate(temperature, humidity, now), now).0;
            next.zones == raised.zones && next.monitors == raised.monitors && next.alerts == raised.alerts
  {
    hide ActOn, ClimateRaised, NextId, Bump, AppendSample, Window, CredibilityLost, InvalidRatio, Iso.Classify, Iso.OverTable;
    var req := Climate(temperature, humidity, now);
    var p := Started(st, ZONE, POINT, req, now);
    var s := Classified(p.res.sample);
    assert s.valid;
    ClimateActs(p, s, now);
    OneValid(PLAN, ActOn(PLAN, p, ZONE, POINT, s, now).st.samples, s);
  }

  lemma RaiseKeepsPlaces(cfg: Config, st: State, kind: AlertType, level: AlertLevel, message: Message, sampleId: string, now: Time)
    ensures var next := Raise(cfg, st, "z", "m", kind, level, message, sampleId, now).st;
            next.zones == st.zones && next.monitors == st.monitors
  {
    hide FindOpen, PutAlert, NextId, NewAlert, DedupKeyOf;
  }

  lemma AfterHumid()
    ensures var st := Exec(PLAN, HUMID);
            && Calm(st) && |st.alerts| == 1 && st.alerts[0].kind == TempHumidity && st.alerts[0].level == Warning
            && st.alerts[0].dedupKey == DedupKeyOf("m", TempHumidity) && st.alerts[0].createdAt == 1 && st.alerts[0].count == 1
  {
    Opened(PLAN);
    hide Exec, ProcessSample, Raise, DedupKeyOf, Climate, NextId, Bump;
    ReportApplied(PLAN, OPENING, Climate(22.0, 70.0, 1), 1);
    var st, id := OPENED.(seqs := Bump(OPENED.seqs, SAMPLE_IDS)), NextId(OPENED.seqs, SAMPLE_IDS);
    FirstRaise(PLAN, st, TempHumidity, Warning, ClimateOutOfRange(22.0, 70.0), id, 1);
    RaiseKeepsPlaces(PLAN, st, TempHumidity, Warning, ClimateOutOfRange(22.0, 70.0), id, 1);
    ClimateReported(OPENED, 22.0, 70.0, 1);
  }

  /**
   A humidity warning is followed by a temperature that would be critical by itself. It is merged: the one alert
   counts both and tells of the second, but stays a warning.
   */
  lemma CriticalMergedIntoWarning()
    ensures PLAN.Valid() && LevelOf(30.0) == Critical
    ensures var s := Exec(PLAN, HOT).alerts;
            |s| == 1 && s[0].count == 2 && s[0].level == Warning && s[0].message == ClimateOutOfRange(30.0, 50.0)
  {
    AfterHumid();
    hide Exec, ProcessSample, Raise, DedupKeyOf, Climate, NextId, Bump;
    ReportApplied(PLAN, HUMID, Climate(30.0, 50.0, 2), 2);
    var before := Exec(PLAN, HUMID);
    var st, id := before.(seqs := Bump(before.seqs, SAMPLE_IDS)), NextId(before.seqs, SAMPLE_IDS);
    SecondRaise(PLAN, st, TempHumidity, Critical, ClimateOutOfRange(30.0, 50.0), id, 2);
    ClimateReported(before, 30.0, 50.0, 2);
  }
}
