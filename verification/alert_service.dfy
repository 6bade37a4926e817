/** Alert raising with deduplication, acknowledgement, resolution and the escalation sweeper. */
module AlertService {
  import opened Types
  import opened Sequences
  import opened Config
  import opened Alerts
  import opened State
  import opened Store
  import opened Writeback

  /** Raises an alert, or merges it into the open one of the same key within the dedup window. */
  method CreateWithDedup(cfg: Config, st: Store, zoneId: string, monitorId: string, kind: AlertType, level: AlertLevel,
                         message: Message, sampleId: string, now: Time) returns (alert: CleanAlert, isNew: bool)
    requires st.Valid()
    modifies st`alerts, st`seqs
    ensures var r := Raise(cfg, old(st.Snapshot()), zoneId, monitorId, kind, level, message, sampleId, now);
            st.alerts == r.st.alerts && st.seqs == r.st.seqs && alert == r.alert && isNew == r.isNew
  {
    hide FindOpen, DedupKeyOf, PutAlert, NextId, Bump, NewAlert, CleanAlert.Merge;
    var existing := st.FindOpenByDedupKey(DedupKeyOf(monitorId, kind));
    if existing.Some? && now - existing.value.createdAt < cfg.alertDedupWindow {
      var id := st.NewID(ALERT_IDS);
      alert := existing.value.Merge(NewAlert(id, zoneId, monitorId, kind, level, message, sampleId, now));
      var updated := st.UpdateAlert(alert);
      isNew := false;
    } else {
      var id := st.NewID(ALERT_IDS);
      alert := NewAlert(id, zoneId, monitorId, kind, level, message, sampleId, now);
      st.CreateAlert(alert);
      isNew := true;
    }
  }

  method AckAlert(st: Store, id: string, operator: string, disposition: string, now: Time) returns (r: Result<CleanAlert>)
    requires st.Valid()
    modifies st`alerts
    ensures (st.Snapshot(), r) == Ack(old(st.Snapshot()), id, operator, disposition, now)
  {
    var found := st.GetAlert(id);
    if found.Err? {
      return found;
    }
    var acked := found.value.Ack(operator, disposition, now);
    if acked.Err? {
      return acked;
    }
    r := st.UpdateAlert(acked.value);
  }

  method EscalateAlert(st: Store, id: string, now: Time) returns (r: Result<CleanAlert>)
    requires st.Valid()
    modifies st`alerts
    ensures (st.Snapshot(), r) == Escalate(old(st.Snapshot()), id, now)
  {
    var found := st.GetAlert(id);
    if found.Err? {
      return found;
    }
    r := st.UpdateAlert(found.value.Escalate(now));
  }

  /** Closes the acknowledged alerts of the monitor zone and type; open and escalated ones stay. */
  method ResolveActive(st: Store, monitorId: string, kind: AlertType, now: Time) returns (closed: int)
    requires UniqueAlerts(st.alerts)
    modifies st`alerts
    ensures st.alerts == Resolve(old(st.alerts), ResolveFilter(monitorId, kind), now)
    ensures closed == Sum(Select(old(st.alerts), ResolveFilter(monitorId, kind)), AckUnit)
  {
    hide UniqueAlerts, Matches, SortBy, Select, AlertIndex, PutAlert, FindAlert, AlertsResolved, Resolve, Elements, Sum;
    ghost var before := st.alerts;
    ghost var filter := ResolveFilter(monitorId, kind);
    var all := st.ListAlerts(AlertFilter(None, Some(kind), monitorId, ""));
    SortKeepsMembers(Select(before, filter), Alerts.Newer);
    SumSort(Select(before, filter), Alerts.Newer, AckUnit);
    NoneResolved(before, now);
    ElementsEnds(all);
    SumEnds(all, AckUnit);
    closed := 0;
    for i := 0 to |all|
      invariant st.alerts == AlertsResolved(before, Elements(all[..i]), now)
      invariant closed == Sum(all[..i], AckUnit)
    {
      var a := all[i];
      SumExtend(all, i, AckUnit);
      ElementsExtend(all, i);
      ResolvedWritten(before, Elements(all[..i]), a, now);
      if a.status != Acknowledged {
        continue;
      }
      a := a.Close(now);
      var updated := st.UpdateAlert(a);
      assert updated.Ok?;
      closed := closed + 1;
    }
    AllResolved(before, Elements(all), filter, now);
  }

  lemma NoneResolved(s: seq<CleanAlert>, now: Time)
    ensures AlertsResolved(s, {}, now) == s
  {
  }

  lemma AllResolved(s: seq<CleanAlert>, done: set<CleanAlert>, f: AlertFilter, now: Time)
    requires forall a :: a in done <==> a in Select(s, f)
    ensures AlertsResolved(s, done, now) == Resolve(s, f, now)
  {
    hide Resolved;
    assert forall i :: 0 <= i < |s| ==> s[i] in s;
  }

  /** Escalates every alert overdue at the tick; returns how many there were. */
  method SweepOverdue(cfg: Config, st: Store, tick: Time, now: Time) returns (escalated: nat)
    requires st.Valid() && UniqueAlerts(st.alerts)
    modifies st`alerts
    ensures st.Snapshot() == EscalateSweep(cfg, old(st.Snapshot()), tick, now)
    ensures escalated == |OverdueAlerts(old(st.alerts), tick, cfg.alertEscalateAfter)|
  {
    hide UniqueAlerts, SortBy, OverdueAlerts, Elements;
    ghost var before := st.alerts;
    var overdue := st.ListOverdue(tick, cfg.alertEscalateAfter);
    SortKeepsMembers(before, Alerts.Newer);
    OverdueCountSorted(before, tick, cfg.alertEscalateAfter);
    ElementsEnds(overdue);
    escalated := 0;
    for i := 0 to |overdue|
      invariant escalated == i
      invariant st.alerts == AlertsEscalated(before, Elements(overdue[..i]), now)
    {
      var a := overdue[i];
      ElementsExtend(overdue, i);
      EscalatedWritten(before, Elements(overdue[..i]), a, now);
      var r := EscalateAlert(st, a.id, now);
      assert r.Ok?;
      escalated := escalated + 1;
    }
    assert st.alerts == EscalateAll(before, tick, cfg.alertEscalateAfter, now);
  }

  lemma {:induction false} OverdueCount(s: seq<CleanAlert>, tick: Time, window: Time, unit: CleanAlert -> int)
    requires forall a :: unit(a) == if a.NeedsEscalation(tick, window) then 1 else 0
    ensures |OverdueAlerts(s, tick, window)| == Sum(s, unit)
  {
    if s != [] {
      OverdueCount(s[..|s| - 1], tick, window, unit);
    }
  }

  lemma OverdueCountSorted(s: seq<CleanAlert>, tick: Time, window: Time)
    ensures |OverdueAlerts(SortBy(s, Alerts.Newer), tick, window)| == |OverdueAlerts(s, tick, window)|
  {
    var unit := (a: CleanAlert) => if a.NeedsEscalation(tick, window) then 1 else 0;
    OverdueCount(s, tick, window, unit);
    OverdueCount(SortBy(s, Alerts.Newer), tick, window, unit);
    SumSort(s, Alerts.Newer, unit);
  }
}
