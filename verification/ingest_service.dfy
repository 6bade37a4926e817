/** One reported sample end to end: validity, classification, state machine, interlock and alerts. */
module IngestService {
  import opened Types
  import opened Sequences
  import opened Config
  import opened Zones
  import opened Monitors
  import opened Interlocks
  import opened Samples
  import opened Alerts
  import opened State
  import opened WellFormedness
  import opened Store
  import Iso
  import Process
  import InterlockService
  import AlertService

  /** Handles one reported sample. */
  method ProcessReading(cfg: Config, st: Store, req: IngestRequest, now: Time) returns (r: Result<IngestResult>)
    requires cfg.Valid() && st.Valid() && WellFormed(st.Snapshot())
    modifies st, st.samples
    ensures st.Valid() && (st.samples == old(st.samples) || fresh(st.samples))
    ensures (st.Snapshot(), r) == ProcessSample(cfg, old(st.Snapshot()), req, now)
  {
    hide WellFormed, ZoneIndex, MonitorIndex, Ingest;
    var foundMonitor := st.GetMonitorZone(req.monitorId);
    if foundMonitor.Err? {
      return Err(foundMonitor.error);
    }
    var monitor := foundMonitor.value;
    var foundZone := st.GetCleanZone(monitor.zoneId);
    if foundZone.Err? {
      return Err(foundZone.error);
    }
    var res := IngestFound(cfg, st, foundZone.value, monitor, req, now);

    // Re-read the zone and monitor zone so the result reflects all updates.
    var z := st.GetCleanZone(foundZone.value.id);
    if z.Ok? {
      res := res.(zone := z.value);
    }
    var m := st.GetMonitorZone(monitor.id);
    if m.Ok? {
      res := res.(monitor := m.value);
    }
    r := Ok(res);
  }

  method IngestFound(cfg: Config, st: Store, zone: CleanZone, monitor: MonitorZone, req: IngestRequest, now: Time)
    returns (res: IngestResult)
    requires cfg.Valid() && st.Valid() && WellFormed(st.Snapshot())
    requires FindZone(st.zones, monitor.zoneId) == Some(zone)
    modifies st, st.samples
    ensures st.Valid() && (st.samples == old(st.samples) || fresh(st.samples))
    ensures Progress(st.Snapshot(), res) == Ingest(cfg, old(st.Snapshot()), zone, monitor, req, now)
  {
    hide PlantOk, AlertsOk, ActOn, SignalQuality, AppendSample;
    ghost var before := st.Snapshot();
    var sampleId := st.NewID(SAMPLE_IDS);
    var sample := NewSample(sampleId, monitor.id, req.count03, req.count05,
                            req.temperature, req.humidity, req.pressure, req.timestamp, now);
    var (valid, reason) := EvaluateValidity(monitor, sample.timestamp);
    if !valid {
      sample := sample.MarkInvalid(reason);
    }
    res := IngestResult(sample, zone, monitor, false, None, [], [], 0, 0.0, 0.0, false);
    SampleIdKeepsOk(before);

    if sample.valid {
      var iso, overTable := Iso.ClassifyISO(Iso.StandardLimits(), sample.count03, sample.count05);
      sample := sample.(iso := iso, overTable := overTable);
      res := Act(cfg, st, res, zone, monitor, sample, now);
    }
    res := JudgeCredibility(cfg, st, res, zone, monitor, sample, now);
    st.Append(sample, cfg.maxSamplesPerZone);
  }

  lemma SampleIdKeepsOk(st: State)
    requires WellFormed(st)
    ensures PlantOk(st.(seqs := Bump(st.seqs, SAMPLE_IDS))) && AlertsOk(st.(seqs := Bump(st.seqs, SAMPLE_IDS)))
  {
  }

  /** What a valid reading brings about: state machine, interlock, latest ratio and the condition alerts. */
  method Act(cfg: Config, st: Store, before: IngestResult, zone: CleanZone, monitor: MonitorZone, s: EnvSample, now: Time)
    returns (res: IngestResult)
    requires st.Valid() && PlantOk(st.Snapshot()) && AlertsOk(st.Snapshot())
    requires FindZone(st.zones, monitor.zoneId) == Some(zone)
    modifies st`zones, st`monitors, st`logs, st`alerts, st`seqs
    ensures AlertsOk(st.Snapshot())
    ensures Progress(st.Snapshot(), res) == ActOn(cfg, Progress(old(st.Snapshot()), before), zone, monitor, s, now)
  {
    hide PlantOk, MovePlant, MoveLog, MoveChanged, Signal;
    var limits := monitor.EffectiveLimits(zone.iso, Iso.StandardLimits(), Process.DefaultsFor(zone.process).multiplier);
    var range := monitor.EffectiveEnvRange(zone.process);
    var ratio := Iso.RatioAgainst(limits, s.count03, s.count05);
    assert ratio == RatioOf(zone, monitor, s.count03, s.count05);
    var changed, log := MoveAndRecord(cfg, st, zone, monitor, ratio, now);
    SameAlertIdsKeepOk(old(st.Snapshot()), st.Snapshot());
    hide AlertsOk;
    res := before.(ratio := ratio, stateChanged := changed, interlock := log);

    res := SignalCondition(cfg, st, res, ratio >= 1.0, zone.id, monitor.id, Particle,
                           if ratio >= cfg.overLimitRatio then Critical else Warning,
                           AboveLimit(ratio, s.count03, s.count05), s.id, now);
    res := SignalCondition(cfg, st, res, TempOut(s, range) || HumidityOut(s, range), zone.id, monitor.id, TempHumidity,
                           if TempOut(s, range) then Critical else Warning,
                           ClimateOutOfRange(s.temperature, s.humidity), s.id, now);
    res := SignalCondition(cfg, st, res, PressureOut(s, range), zone.id, monitor.id, Pressure, Warning,
                           PressureOutOfRange(s.pressure, range.pressureMin, range.pressureMax), s.id, now);
  }

  /** Raises the alert while its condition holds, resolves the acknowledged ones once it has cleared. */
  method SignalCondition(cfg: Config, st: Store, before: IngestResult, bad: bool, zoneId: string, monitorId: string,
                         kind: AlertType, level: AlertLevel, message: Message, sampleId: string, now: Time)
    returns (res: IngestResult)
    requires st.Valid() && AlertsOk(st.Snapshot())
    modifies st`alerts, st`seqs
    ensures AlertsOk(st.Snapshot())
    ensures Progress(st.Snapshot(), res) ==
            Signal(cfg, Progress(old(st.Snapshot()), before), bad, zoneId, monitorId, kind, level, message, sampleId, now)
  {
    hide Raise, Resolve, Select, UniqueAlerts, AlertIdsUsed;
    SignalKeepsAlertsOk(cfg, Progress(st.Snapshot(), before), bad, zoneId, monitorId, kind, level, message, sampleId, now);
    RaiseTouchesAlertsOnly(cfg, st.Snapshot(), zoneId, monitorId, kind, level, message, sampleId, now);
    res := before;
    if bad {
      var alert, isNew := AlertService.CreateWithDedup(cfg, st, zoneId, monitorId, kind, level, message, sampleId, now);
      res := RecordAlert(res, alert, isNew);
    } else {
      var n := AlertService.ResolveActive(st, monitorId, kind, now);
      res := res.(closed := res.closed + n);
    }
  }

  lemma RaiseTouchesAlertsOnly(cfg: Config, st: State, zoneId: string, monitorId: string, kind: AlertType,
                               level: AlertLevel, message: Message, sampleId: string, now: Time)
    ensures var next := Raise(cfg, st, zoneId, monitorId, kind, level, message, sampleId, now).st;
            next == st.(alerts := next.alerts, seqs := next.seqs)
  {
  }

  function RecordAlert(res: IngestResult, alert: CleanAlert, isNew: bool): IngestResult {
    if isNew then res.(created := res.created + [alert]) else res.(merged := res.merged + [alert])
  }

  /** The state machine and the area interlock, then the latest ratio on the stored zone. */
  method MoveAndRecord(cfg: Config, st: Store, zone: CleanZone, monitor: MonitorZone, ratio: real, now: Time)
    returns (changed: bool, log: Option<InterlockLog>)
    requires st.Valid() && PlantOk(st.Snapshot())
    requires FindZone(st.zones, monitor.zoneId) == Some(zone)
    modifies st`zones, st`monitors, st`logs, st`seqs
    ensures st.Snapshot() == MovePlant(cfg, old(st.Snapshot()), zone, monitor, ratio, now)
    ensures changed == MoveChanged(cfg, zone, ratio) && log == MoveLog(cfg, old(st.Snapshot()), zone, monitor, ratio, now)
    ensures Issued(st.seqs, ALERT_IDS) == old(Issued(st.seqs, ALERT_IDS))
  {
    hide PlantOk, MoveZone, MoveLog, MoveChanged, ZoneIndex;
    MoveZoneKeepsPlantOk(cfg, st.Snapshot(), zone, monitor, ratio, now);
    changed, log := ApplyStateAndInterlock(cfg, st, zone, monitor, ratio, now);
    // An area-wide interlock may have moved the zone, so it is read again.
    var latest := st.GetCleanZone(zone.id);
    RatioRecorded(st.Snapshot(), zone.id, ratio, now);
    if latest.value.ratio != ratio {
      var updated := st.UpdateCleanZone(latest.value.SetRatio(ratio, now));
    }
  }

  lemma RatioRecorded(st: State, zoneId: string, ratio: real, now: Time)
    requires PlantOk(st) && FindZone(st.zones, zoneId).Some?
    ensures var z := FindZone(st.zones, zoneId).value;
            && z.SetRatio(ratio, now).Valid()
            && RecordRatio(st.zones, zoneId, ratio, now) == PutZone(st.zones, z.SetRatio(ratio, now))
            && (z.ratio == ratio ==> RecordRatio(st.zones, zoneId, ratio, now) == st.zones)
  {
    var k := ZoneIndex(st.zones, zoneId);
    assert st.zones[k].Valid();
  }

  method ApplyStateAndInterlock(cfg: Config, st: Store, zone: CleanZone, monitor: MonitorZone, ratio: real, now: Time)
    returns (changed: bool, log: Option<InterlockLog>)
    requires st.Valid() && PlantOk(st.Snapshot())
    requires FindZone(st.zones, monitor.zoneId) == Some(zone)
    modifies st`zones, st`monitors, st`logs, st`seqs
    ensures st.Snapshot() == MoveZone(cfg, old(st.Snapshot()), zone, monitor, ratio, now)
    ensures changed == MoveChanged(cfg, zone, ratio) && log == MoveLog(cfg, old(st.Snapshot()), zone, monitor, ratio, now)
  {
    ZoneStaysValid(st.Snapshot(), zone, TargetStatusFromRatio(zone.status, ratio, cfg.overLimitRatio), now);
    hide PlantOk, IssueFor, LogFor, ZoneIndex, TargetStatusFromRatio, CleanZone.Valid;
    changed, log := false, None;
    if ratio >= cfg.overLimitRatio {
      if zone.status == Interlocked {
        return;
      }
      var r, areaZones := InterlockService.IssueForArea(st, zone.id, monitor.id, OVER_LIMIT_REASON, ratio, now);
      return true, Some(r.value);
    }
    if ratio < 1.0 && zone.status == Interlocked {
      return;
    }
    var target := TargetStatusFromRatio(zone.status, ratio, cfg.overLimitRatio);
    if target != zone.status {
      var updated := st.UpdateCleanZone(zone.SetStatus(target, now));
      changed := true;
    }
  }

  lemma ZoneStaysValid(st: State, zone: CleanZone, next: ZoneStatus, now: Time)
    requires PlantOk(st) && FindZone(st.zones, zone.id) == Some(zone)
    ensures zone.SetStatus(next, now).Valid()
  {
    assert st.zones[ZoneIndex(st.zones, zone.id)].Valid();
  }

  /** The data-credibility rule over this reading and the most recent stored ones. */
  method JudgeCredibility(cfg: Config, st: Store, before: IngestResult, zone: CleanZone, monitor: MonitorZone,
                          s: EnvSample, now: Time) returns (res: IngestResult)
    requires cfg.Valid() && st.Valid() && AlertsOk(st.Snapshot()) && s.monitorId == monitor.id
    modifies st`alerts, st`seqs
    ensures Progress(st.Snapshot(), res) ==
            SignalQuality(cfg, Progress(old(st.Snapshot()), before), zone, monitor, s, now)
  {
    hide AlertsOk, Signal, Recent;
    var recent := st.ListSamples(monitor.id, cfg.SampleWindow());
    var window := [s] + recent;
    if |window| > cfg.SampleWindow() {
      window := window[..cfg.SampleWindow()];
    }
    assert window == Window(cfg, st.Snapshot().samples, s);
    assert Take(window, cfg.SampleWindow()) == window;
    var ratio, low := EvaluateInvalidRatio(window, cfg.SampleWindow(), cfg.invalidRatioThreshold);
    res := before.(invalidRatio := ratio, credibilityLow := low);
    if low || ratio > 0.0 {
      res := SignalCondition(cfg, st, res, low, zone.id, monitor.id, DataQuality, Warning, CredibilityLow(ratio), s.id, now);
    }
  }
}
