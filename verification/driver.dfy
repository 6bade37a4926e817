/** Whole runs carried out on the mutable store: the object a sequence of service calls leaves behind is `Exec` of it. */
module Driver {
  import opened Types
  import opened Config
  import opened State
  import opened Store
  import opened Runs
  import opened InterlockInvariants
  import opened AlertInvariants
  import InterlockService
  import AlertService
  import IngestService
  import ZoneService

  /** Carries out one step on the store. */
  method Perform(cfg: Config, st: Store, step: Step)
    requires cfg.Valid() && st.Valid() && WellFormed(st.Snapshot())
    modifies st, st.samples
    ensures st.Valid() && (st.samples == old(st.samples) || fresh(st.samples))
    ensures st.Snapshot() == Apply(cfg, old(st.Snapshot()), step)
  {
    hide PlantOk, AlertsOk, ProcessSample, SweepFrom, CreateZone, CreateMonitor, Restore, Issue, Ack, Escalate,
         SetMaintenance, SetCalibration, EscalateSweep, Candidates, FirstMonitor, ZoneSweep;
    ghost var before := st.Snapshot();
    PlantParts(before);
    match step {
      case AddZone(now, id, name, area, iso, process) =>
        var r := ZoneService.AddCleanZone(st, id, name, area, iso, process, now);
      case AddMonitor(now, id, zoneId, name, counterId, thresholds, due) =>
        var r := ZoneService.AddMonitorZone(st, id, zoneId, name, counterId, thresholds, due, now);
      case Maintain(now, monitorId, on, note) =>
        var r := ZoneService.ToggleMaintenance(st, monitorId, on, note, now);
      case Calibrate(now, monitorId, due) =>
        var r := ZoneService.ChangeCalibration(st, monitorId, due, now);
      case Report(now, req) =>
        var r := IngestService.ProcessReading(cfg, st, req, now);
      case Interlock(now, zoneId, trigger, reason, ratio) =>
        RequestInterlock(st, zoneId, trigger, reason, ratio, now);
      case Confirm(now, zoneId, operator, note) =>
        if note != "" {
          var r := InterlockService.RestoreZone(st, zoneId, operator, note, now);
        }
      case Acknowledge(now, alertId, operator, note) =>
        var r := AlertService.AckAlert(st, alertId, operator, note, now);
      case Promote(now, alertId) =>
        var r := AlertService.EscalateAlert(st, alertId, now);
      case SweepZones(now, tick) =>
        var n := InterlockService.Sweep(cfg, st, tick, now);
      case SweepAlerts(now, tick) =>
        var n := AlertService.SweepOverdue(cfg, st, tick, now);
    }
  }

  lemma PlantParts(st: State)
    requires WellFormed(st)
    ensures PlantOk(st) && MonitorsValid(st.monitors) && UniqueAlerts(st.alerts)
  {
    hide ZonesValid, UniqueZones, UniqueMonitors, MonitorsPlaced, UniqueLogs, LogIdsUsed, AlertIdsUsed;
  }

  /** A manual interlock: what the request leaves open gets its default. */
  method RequestInterlock(st: Store, zoneId: string, trigger: string, reason: string, ratio: real, now: Time)
    requires st.Valid() && PlantOk(st.Snapshot())
    modifies st`zones, st`monitors, st`logs, st`seqs
    ensures st.Valid()
    ensures st.Snapshot() ==
            Issue(old(st.Snapshot()), zoneId, ManualTrigger(old(st.Snapshot()), zoneId, trigger), ManualReason(reason),
                  ManualRatio(ratio), now).0
  {
    hide PlantOk, Issue;
    var source := trigger;
    if source == "" {
      var monitors := st.ListByCleanZone(zoneId);
      if |monitors| > 0 {
        source := monitors[0].id;
      }
    }
    var why := if reason == "" then MANUAL_REASON else reason;
    var peak := if ratio < 1.0 then MANUAL_RATIO else ratio;
    var r, _ := InterlockService.IssueForArea(st, zoneId, source, why, peak, now);
  }

  /** Carries out a whole run on a new store. */
  method RunAll(cfg: Config, run: seq<Step>) returns (st: Store)
    requires cfg.Valid() && Clocked(run)
    ensures fresh(st) && st.Valid() && st.Snapshot() == Exec(cfg, run)
  {
    st := new Store();
    hide Apply;
    for i := 0 to |run|
      invariant fresh(st) && fresh(st.samples) && st.Valid()
      invariant st.Snapshot() == Exec(cfg, run[..i])
    {
      assert run[..i + 1][..i] == run[..i];
      ReachableWellFormed(cfg, run[..i], run[i].now);
      Perform(cfg, st, run[i]);
    }
    assert run[..|run|] == run;
  }

  /** Every call of a run meets a well-formed store. */
  lemma ReachableWellFormed(cfg: Config, run: seq<Step>, now: Time)
    requires cfg.Valid() && Clocked(run) && Until(run, now)
    ensures WellFormed(Exec(cfg, run))
  {
    ReachableSound(cfg, run, now);
    ReachableAlerts(cfg, run, now);
    hide Exec, PlantOk, AlertsOk, Clocked, Until;
  }
}
