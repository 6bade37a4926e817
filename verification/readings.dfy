/** What one reported reading brings about, told from its own counts, climate and times. */
module Readings {
  import opened Types
  import opened Sequences
  import opened Config
  import opened Zones
  import opened Monitors
  import opened Interlocks
  import opened Samples
  import opened Alerts
  import opened State
  import opened Plants
  import opened InterlockTheorems
  import opened AlertTheorems
  import opened History
  import opened Accounting
  import opened Judgement
  import opened LogHistory
  import Iso
  import Text

  // When the reading was taken: the clock stands in for a missing report time.
  function TakenAt(req: IngestRequest, now: Time): Time {
    match req.timestamp
    case Some(at) => at
    case None => now
  }

  // The counter was in service and within its calibration.
  predicate Trusted(m: MonitorZone, at: Time) {
    && !m.equipment.inMaintenance
    && (m.equipment.calibrationDue.Some? ==> at <= m.equipment.calibrationDue.value)
  }

  // The monitor zone of the report and its clean zone are stored.
  ghost predicate Accepted(st: State, req: IngestRequest) {
    var m := FindMonitor(st.monitors, req.monitorId);
    m.Some? && FindZone(st.zones, m.value.zoneId).Some?
  }

  function PointOf(st: State, req: IngestRequest): MonitorZone
    requires FindMonitor(st.monitors, req.monitorId).Some?
  {
    FindMonitor(st.monitors, req.monitorId).value
  }

  function ZoneOf(st: State, req: IngestRequest): CleanZone
    requires Accepted(st, req)
  {
    FindZone(st.zones, PointOf(st, req).zoneId).value
  }

  lemma JudgedWhenAccepted(st: State, req: IngestRequest, now: Time)
    ensures var j := Judge(st, req, now);
            && (j.Judged? <==> Accepted(st, req))
            && (j.Judged? ==>
                  && j.monitor == PointOf(st, req) && j.zone == ZoneOf(st, req)
                  && (j.valid <==> Trusted(j.monitor, TakenAt(req, now)))
                  && j.ratio == RatioOf(j.zone, j.monitor, req.count03, req.count05))
  {
    hide RatioOf, MonitorIndex, ZoneIndex;
  }

  /** A report is accepted exactly when its monitor zone and that one's clean zone are stored; else nothing happens. */
  lemma AcceptedExactlyWhen(cfg: Config, st: State, req: IngestRequest, now: Time)
    ensures var (next, r) := ProcessSample(cfg, st, req, now);
            && (r.Ok? <==> Accepted(st, req)) && (r.Err? ==> r.error == NotFound && next == st)
            && (r.Ok? ==> var m := FindMonitor(next.monitors, req.monitorId); m.Some? ==> r.value.monitor == m.value)
  {
    hide Ingest, ZoneIndex;
  }

  // ---- The zone -----------------------------------------------------------------------------------

  /**
   The counts decide the status. A trusted reading interlocks its zone exactly when some count reaches the over-limit
   ratio times its limit, or the zone was interlocked before; otherwise it is elevated when some count reaches its
   limit, and normal when none does. The ratio kept is the worse of the two shares. A reading that is not trusted
   changes nothing.
   */
  lemma CountsDecideStatus(cfg: Config, st: State, req: IngestRequest, now: Time, t: real)
    requires cfg.Valid() && Accepted(st, req)
    ensures var z, m := ZoneOf(st, req), PointOf(st, req);
            var after := FindZone(ProcessSample(cfg, st, req, now).0.zones, z.id);
            var r := ProcessSample(cfg, st, req, now).1;
            && after.Some? && r.Ok? && r.value.zone == after.value
            && (r.value.stateChanged <==> after.value.status != z.status)
            && (Trusted(m, TakenAt(req, now)) ==>
                  && after.value.status ==
                     (if SomeReaches(z, m, req.count03, req.count05, cfg.overLimitRatio) || z.status == Interlocked then Interlocked
                      else if SomeReaches(z, m, req.count03, req.count05, 1.0) then Elevated else Normal)
                  && after.value.ratio == r.value.ratio
                  && (after.value.ratio >= t <==> SomeReaches(z, m, req.count03, req.count05, t)))
            && (!Trusted(m, TakenAt(req, now)) ==> after.value == z && r.value.ratio == 0.0)
  {
    JudgedWhenAccepted(st, req, now);
    var z, m := ZoneOf(st, req), PointOf(st, req);
    hide Judge, ProcessSample, RatioOf, SomeReaches, Accepted, FindZone, FindMonitor, Trusted;
    ReadingDecidesStatus(cfg, st, req, now);
    RatioReturned(cfg, st, req, now);
    RatioInCounts(z, m, req.count03, req.count05, cfg.overLimitRatio);
    RatioInCounts(z, m, req.count03, req.count05, 1.0);
    RatioInCounts(z, m, req.count03, req.count05, t);
  }

  // ---- The interlock ------------------------------------------------------------------------------

  // The log of an interlock that a reading caused.
  ghost predicate OverLimitLog(l: InterlockLog, st: State, z: CleanZone, m: MonitorZone, req: IngestRequest, now: Time, t: real) {
    && l.id == Text.IdOf("interlock", Issued(st.seqs, INTERLOCK_IDS) + 1)
    && l.zoneId == z.id && l.area == z.area && l.trigger == req.monitorId && l.reason == "particle_over_limit"
    && l.action == FFUSpeedUp && l.affected == AreaIds(st.zones, z.area)
    && (l.peakRatio >= t <==> SomeReaches(z, m, req.count03, req.count05, t)) && l.level == Min(3, Max(1, l.peakRatio.Floor))
    && l.issuedAt == now && l.restoredAt.None? && l.restoreBy == "" && l.restoreNote == ""
  }

  /**
   A report interlocks its area exactly when the reading is trusted, some count reaches the over-limit ratio times its
   limit, and the zone is not interlocked yet; the log is returned and is the one added.
   */
  lemma OverLimitInterlocks(cfg: Config, st: State, req: IngestRequest, now: Time, t: real)
    requires cfg.Valid() && Accepted(st, req)
    ensures var (next, r) := ProcessSample(cfg, st, req, now);
            var z, m := ZoneOf(st, req), PointOf(st, req);
            && r.Ok?
            && (r.value.interlock.Some? <==>
                  && Trusted(m, TakenAt(req, now)) && z.status != Interlocked
                  && SomeReaches(z, m, req.count03, req.count05, cfg.overLimitRatio))
            && next.logs == st.logs + (if r.value.interlock.Some? then [r.value.interlock.value] else [])
            && (r.value.interlock.Some? ==> OverLimitLog(r.value.interlock.value, st, z, m, req, now, t))
  {
    var z, m := ZoneOf(st, req), PointOf(st, req);
    hide Judge, ProcessSample, RatioOf, SomeReaches, Accepted, FindZone, FindMonitor, Trusted, LogFor, OverLimitLog;
    JudgedWhenAccepted(st, req, now);
    PointHasId(st, req);
    InterlockIsReported(cfg, st, req, now);
    RatioReturned(cfg, st, req, now);
    RatioInCounts(z, m, req.count03, req.count05, cfg.overLimitRatio);
    LogInNumbers(st, z, m, req, now, t);
  }

  lemma LogInNumbers(st: State, z: CleanZone, m: MonitorZone, req: IngestRequest, now: Time, t: real)
    requires m.id == req.monitorId
    ensures OverLimitLog(LogFor(st, z, m.id, OVER_LIMIT_REASON, RatioOf(z, m, req.count03, req.count05), now), st, z, m, req, now, t)
  {
    hide RatioOf, SomeReaches, InArea, ZoneIds, Text.IdOf;
    RatioInCounts(z, m, req.count03, req.count05, t);
  }

  lemma PointHasId(st: State, req: IngestRequest)
    requires Accepted(st, req)
    ensures PointOf(st, req).id == req.monitorId
  {
  }

  // ---- The sample ---------------------------------------------------------------------------------

  // The sample holds what was reported, and when.
  predicate HoldsReport(x: EnvSample, req: IngestRequest, now: Time) {
    && x.monitorId == req.monitorId && x.count03 == req.count03 && x.count05 == req.count05
    && x.temperature == req.temperature && x.humidity == req.humidity && x.pressure == req.pressure
    && x.timestamp == TakenAt(req, now) && x.receivedAt == now
  }

  // Class and flag of a trusted reading: the worse of the classes its two sizes have by themselves, and whether a
  // count exceeds the limit of the dirtiest class.
  ghost predicate GradedRight(x: EnvSample, count03: real, count05: real) {
    var table := Iso.StandardLimits();
    var i, j := Iso.Class03(table, count03), Iso.Class05(table, count05);
    && x.iso == Iso.CLASSES[if i >= j then i else j]
    && (x.overTable <==> count03 > Allowed03("iso8") || count05 > Allowed05("iso8"))
  }

  // Whether the reading is trusted and, for either case, what is noted with it.
  ghost predicate VerdictHeld(x: EnvSample, m: MonitorZone, req: IngestRequest, at: Time) {
    && (x.valid <==> Trusted(m, at))
    && (x.valid ==> x.invalidReason == "" && GradedRight(x, req.count03, req.count05))
    && (!x.valid ==> x.iso == "" && !x.overTable
                     && x.invalidReason == if m.equipment.inMaintenance then "counter_in_pm_maintenance" else "calibration_expired")
  }

  lemma ReadingHolds(st: State, m: MonitorZone, req: IngestRequest, now: Time)
    requires m.id == req.monitorId
    ensures var x := Judgeable(st, m, req, now);
            && HoldsReport(x, req, now) && x.id == Text.IdOf("sample", Issued(st.seqs, SAMPLE_IDS) + 1)
            && VerdictHeld(x, m, req, TakenAt(req, now))
  {
    GradingInNumbers(req.count03, req.count05);
    hide Iso.Classify, Iso.OverTable, Iso.Class03, Iso.Class05, Iso.StandardLimits, Allowed03, Allowed05, Text.IdOf;
  }

  lemma GradingInNumbers(count03: real, count05: real)
    ensures var table := Iso.StandardLimits();
            var i, j := Iso.Class03(table, count03), Iso.Class05(table, count05);
            && Iso.Classify(table, count03, count05) == Iso.CLASSES[if i >= j then i else j]
            && (Iso.OverTable(table, count03, count05) <==> count03 > Allowed03("iso8") || count05 > Allowed05("iso8"))
  {
    Iso.StandardTableIsGraded();
    Iso.WorseOfTwoSizes(Iso.StandardLimits(), count03, count05);
    LookupInNumbers("iso8");
    hide Iso.StandardLimits, Iso.Classify, Iso.Class03, Iso.Class05, Iso.Lookup, Iso.Complete, Iso.Graded, Allowed03, Allowed05;
  }

  /**
   What is stored for an accepted report is the newest sample: it holds what was reported; a trusted one carries the
   worse of the classes of its two counts and is flagged exactly when a count exceeds the limit of class 8, any other
   one carries no class, no flag and the reason.
   */
  lemma StoredSampleIsTheReading(cfg: Config, st: State, req: IngestRequest, now: Time)
    requires Accepted(st, req)
    ensures var next, m := ProcessSample(cfg, st, req, now).0, PointOf(st, req);
            && next.samples != []
            && var x := next.samples[|next.samples| - 1];
               && HoldsReport(x, req, now) && x.id == Text.IdOf("sample", Issued(st.seqs, SAMPLE_IDS) + 1)
               && VerdictHeld(x, m, req, TakenAt(req, now))
  {
    hide Judge, ProcessSample, AppendSample, Judgeable, VerdictHeld, HoldsReport, MonitorIndex, ZoneIndex, Text.IdOf;
    var m := PointOf(st, req);
    var x := Judgeable(st, m, req, now);
    assert ProcessSample(cfg, st, req, now).0.samples == AppendSample(st.samples, x, cfg.maxSamplesPerZone) by {
      JudgedWhenAccepted(st, req, now);
      ReportAppends(cfg, st, req, now);
    }
    NewestIsKept(st.samples, x, cfg.maxSamplesPerZone);
    ReadingHolds(st, m, req, now);
  }

  // ---- The conditions behind the alerts -----------------------------------------------------------

  // What an alert type stands for, in the numbers of the report.
  ghost predicate ShowsInNumbers(cfg: Config, st: State, z: CleanZone, m: MonitorZone, s: EnvSample, kind: AlertType) {
    match kind
    case Particle => s.valid && SomeReaches(z, m, s.count03, s.count05, 1.0)
    case TempHumidity => s.valid && (TooHotOrCold(z, m, s.temperature) || TooDryOrHumid(z, m, s.humidity))
    case Pressure => s.valid && PressureOff(z, m, s.pressure)
    case DataQuality =>
      var window := Window(cfg, st.samples, s);
      InvalidCount(window) as real > cfg.invalidRatioThreshold * |window| as real
  }

  /** A reading shows the condition of an alert type exactly when its numbers do. */
  lemma ConditionsInNumbers(cfg: Config, st: State, z: CleanZone, m: MonitorZone, s: EnvSample, kind: AlertType)
    ensures Shows(cfg, st, z, m, s, kind) <==> ShowsInNumbers(cfg, st, z, m, s, kind)
  {
    RatioInCounts(z, m, s.count03, s.count05, 1.0);
    ClimateInNumbers(z, m, s);
    hide RatioOf, SomeReaches, TooHotOrCold, TooDryOrHumid, PressureOff, MonitorZone.EffectiveEnvRange, Window;
  }
}
