/** What the operators' requests do, told from their own fields. */
module Requests {
  import opened Types
  import opened Sequences
  import opened Config
  import opened Zones
  import opened Monitors
  import opened Interlocks
  import opened State
  import opened Runs
  import opened Areas
  import opened LogHistory
  import opened Sweeps
  import opened AreaIndependence
  import opened InterlockInvariants
  import opened Alerts
  import opened AlertTheorems
  import opened Register
  import Text

  // ---- A manual interlock -------------------------------------------------------------------------

  // The log of a manual interlock: what the request leaves open has its default.
  ghost predicate ManualLog(l: InterlockLog, st: State, step: Step)
    requires step.Interlock?
  {
    && l.zoneId == step.zoneId && l.action == FFUSpeedUp && l.affected == AreaIds(st.zones, l.area)
    && (if step.trigger != "" then l.trigger == step.trigger else RefersToFirst(l.trigger, st.monitors, step.zoneId))
    && l.reason == (if step.reason != "" then step.reason else "manual_interlock")
    && l.peakRatio == (if step.ratio >= 1.0 then step.ratio else 1.5) && l.level == Min(3, Max(1, l.peakRatio.Floor))
    && l.issuedAt == step.now && l.restoredAt.None?
  }

  /**
   A manual interlock of a stored zone interlocks its whole area and adds one log that says what was asked for; a
   request for an unknown zone changes nothing.
   */
  lemma ManualInterlock(cfg: Config, st: State, step: Step)
    requires PlantOk(st) && step.Interlock?
    ensures var next, z := Apply(cfg, st, step), FindZone(st.zones, step.zoneId);
            && (z.None? ==> next == st)
            && (z.Some? ==>
                  && AllInterlocked(next.zones, z.value.area) && OutsideKept(st, next, z.value.area)
                  && |next.logs| == |st.logs| + 1 && st.logs <= next.logs
                  && next.logs[|st.logs|].area == z.value.area && ManualLog(next.logs[|st.logs|], st, step))
  {
    hide Apply, PlantOk, Issue, FirstMonitor, AllInterlocked, OutsideKept, IsSubsequenceOf, RefersToFirst, AreaIds, FindZone;
    var trigger, reason, ratio := ManualTrigger(st, step.zoneId, step.trigger), ManualReason(step.reason), ManualRatio(step.ratio);
    FirstOfZone(st.monitors, step.zoneId);
    IssueIsExact(st, step.zoneId, trigger, reason, ratio, step.now);
    IssueNames(st, step.zoneId, trigger, reason, ratio, step.now);
    RequestApplied(cfg, st, step);
  }

  lemma IssueNames(st: State, zoneId: string, trigger: string, reason: string, ratio: real, now: Time)
    ensures var r := Issue(st, zoneId, trigger, reason, ratio, now).1; r.Ok? ==> r.value.affected == AreaIds(st.zones, r.value.area)
  {
    hide InArea, ZoneIds, InterlockArea, Ventilate, NextId, ZoneIndex;
  }

  // ---- Orders -----------------------------------------------------------------------------------

  // The first monitor zone with this id, and no other, carries the new equipment and was touched now.
  ghost predicate Reequipped(a: seq<MonitorZone>, b: seq<MonitorZone>, id: string, e: Equipment, now: Time) {
    exists k ::
      && 0 <= k < |a| && a[k].id == id && (forall j :: 0 <= j < k ==> a[j].id != id)
      && b == a[k := a[k].(equipment := e, updatedAt := now)]
  }

  /** A maintenance toggle goes through exactly for a stored monitor zone; its start is kept only while it lasts. */
  lemma MaintenanceIsExact(st: State, id: string, on: bool, note: string, now: Time)
    ensures var (next, r) := SetMaintenance(st, id, on, note, now);
            var m := FindMonitor(st.monitors, id);
            && next == st.(monitors := next.monitors)
            && (m.None? ==> r == Err(NotFound) && next == st)
            && (m.Some? ==>
                  && r.Ok? && FindMonitor(next.monitors, id) == Some(r.value)
                  && Reequipped(st.monitors, next.monitors, id,
                                m.value.equipment.(inMaintenance := on, maintenanceNote := note,
                                                   maintenanceSince := if on then Some(now) else None), now))
  {
    var m, next := FindMonitor(st.monitors, id), SetMaintenance(st, id, on, note, now).0;
    if m.Some? {
      PutIsFound(st.monitors, m.value, m.value.SetMaintenance(on, note, now));
      var k := MonitorIndex(st.monitors, id);
      assert next.monitors == st.monitors[k := st.monitors[k].SetMaintenance(on, note, now)];
    }
  }

  /** A new calibration date goes through exactly for a stored monitor zone. */
  lemma CalibrationIsExact(st: State, id: string, due: Option<Time>, now: Time)
    ensures var (next, r) := SetCalibration(st, id, due, now);
            var m := FindMonitor(st.monitors, id);
            && next == st.(monitors := next.monitors)
            && (m.None? ==> r == Err(NotFound) && next == st)
            && (m.Some? ==>
                  && r.Ok? && FindMonitor(next.monitors, id) == Some(r.value)
                  && Reequipped(st.monitors, next.monitors, id, m.value.equipment.(calibrationDue := due), now))
  {
    var m, next := FindMonitor(st.monitors, id), SetCalibration(st, id, due, now).0;
    if m.Some? {
      PutIsFound(st.monitors, m.value, m.value.SetCalibration(due, now));
      var k := MonitorIndex(st.monitors, id);
      assert next.monitors == st.monitors[k := st.monitors[k].SetCalibration(due, now)];
    }
  }

  lemma PutIsFound(ms: seq<MonitorZone>, m: MonitorZone, updated: MonitorZone)
    requires FindMonitor(ms, m.id) == Some(m) && updated.id == m.id
    ensures FindMonitor(PutMonitor(ms, updated), m.id) == Some(updated)
  {
    var k, next := MonitorIndex(ms, m.id), PutMonitor(ms, updated);
    assert next[k].id == m.id;
    assert MonitorIndex(next, m.id) == k by {
      assert forall j :: 0 <= j < k ==> next[j] == ms[j];
    }
  }

  // ---- The requests as steps ----------------------------------------------------------------------

  /**
   A confirmed restore acts exactly when it carries a note and its zone is interlocked or restored: then the area's
   interlocked zones are restored and its open logs signed off. Otherwise nothing changes.
   */
  lemma ConfirmActs(cfg: Config, st: State, step: Step)
    requires AreasAgree(st) && step.Confirm?
    ensures var next, z := Apply(cfg, st, step), FindZone(st.zones, step.zoneId);
            if step.note != "" && z.Some? && z.value.status in {Interlocked, Restored} then
              && next == st.(zones := next.zones, logs := next.logs)
              && ZonesRestored(st.zones, next.zones, z.value.area, step.now)
              && SignedOff(st.logs, next.logs, z.value.area, step.operator, step.note, step.now)
            else next == st
  {
    RestoreIsExact(st, step.zoneId, step.operator, step.note, step.now);
    RestoreTouches(st, step.zoneId, step.operator, step.note, step.now);
    hide AreasAgree, Restore, ZonesRestored, SignedOff, OutsideKept, ListsRestored, InterlockedIn, OpenIn, FindZone;
  }

  lemma RestoreTouches(st: State, zoneId: string, operator: string, note: string, now: Time)
    ensures var next := Restore(st, zoneId, operator, note, now).0; next == st.(zones := next.zones, logs := next.logs)
  {
    hide ZoneIndex, RestoreArea, CloseArea, InArea, RestoredOnly;
  }

  /** An order changes the equipment of its monitor zone, if that is stored, and nothing else. */
  lemma OrderActs(cfg: Config, st: State, step: Step)
    requires step.Maintain? || step.Calibrate?
    ensures var next, m := Apply(cfg, st, step), FindMonitor(st.monitors, step.monitorId);
            && next == st.(monitors := next.monitors)
            && (m.None? ==> next == st)
            && (m.Some? && step.Maintain? ==>
                  Reequipped(st.monitors, next.monitors, step.monitorId,
                             m.value.equipment.(inMaintenance := step.on, maintenanceNote := step.note,
                                                maintenanceSince := if step.on then Some(step.now) else None), step.now))
            && (m.Some? && step.Calibrate? ==>
                  Reequipped(st.monitors, next.monitors, step.monitorId,
                             m.value.equipment.(calibrationDue := step.calibrationDue), step.now))
  {
    if step.Maintain? {
      MaintenanceIsExact(st, step.monitorId, step.on, step.note, step.now);
    } else {
      CalibrationIsExact(st, step.monitorId, step.calibrationDue, step.now);
    }
    hide SetMaintenance, SetCalibration, Reequipped, FindMonitor;
  }

  // One alert, the first with this id, has changed into another.
  ghost predicate AlertChanged(a: seq<CleanAlert>, b: seq<CleanAlert>, id: string, changed: CleanAlert) {
    exists k :: 0 <= k < |a| && a[k].id == id && (forall j :: 0 <= j < k ==> a[j].id != id) && b == a[k := changed]
  }

  /** An acknowledgement changes its alert exactly when that is stored, not closed, and the disposition is filled. */
  lemma AcknowledgeActs(cfg: Config, st: State, step: Step)
    requires AlertsOk(st) && step.Acknowledge?
    ensures var next, a := Apply(cfg, st, step), FindAlert(st.alerts, step.alertId);
            && next == st.(alerts := next.alerts)
            && if a.Some? && a.value.status != Closed && Filled(step.note) then
                 AlertChanged(st.alerts, next.alerts, step.alertId,
                              a.value.(status := Acknowledged, ackBy := step.operator, disposition := step.note,
                                       acknowledgedAt := Some(step.now)))
               else next == st
  {
    AckIsExact(st, step.alertId, step.operator, step.note, step.now);
    BlankOrFilled(step.note);
    var k := AlertIndex(st.alerts, step.alertId);
    hide AlertsOk, Filled, Text.Blank, AlertIndex;
  }

  /** A requested escalation changes its alert exactly when that is stored and not closed. */
  lemma PromoteActs(cfg: Config, st: State, step: Step)
    requires AlertsOk(st) && step.Promote?
    ensures var next, a := Apply(cfg, st, step), FindAlert(st.alerts, step.alertId);
            && next == st.(alerts := next.alerts)
            && if a.Some? && a.value.status != Closed then
                 AlertChanged(st.alerts, next.alerts, step.alertId, a.value.(status := Escalated, escalatedAt := Some(step.now)))
               else next == st
  {
    EscalateIsExact(st, step.alertId, step.now, step.now);
    hide AlertsOk;
  }

  /** The escalation sweep acts at its clock on what was overdue at its tick. */
  lemma SweepAlertsActs(cfg: Config, st: State, step: Step)
    requires step.SweepAlerts?
    ensures var next := Apply(cfg, st, step);
            && next == st.(alerts := next.alerts) && |next.alerts| == |st.alerts|
            && forall i :: 0 <= i < |st.alerts| ==>
                 next.alerts[i] == if st.alerts[i].status == Open && step.tick - st.alerts[i].createdAt >= cfg.alertEscalateAfter
                                   then st.alerts[i].(status := Escalated, escalatedAt := Some(step.now)) else st.alerts[i]
  {
    EscalationIsExact(cfg, st, step.tick, step.now);
    hide EscalateSweep, OverdueAlerts;
  }
}
