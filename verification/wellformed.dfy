/** Structural well-formedness through each single write of the store. */
module WellFormedness {
  import opened Types
  import opened State
  import opened Zones
  import opened Monitors
  import opened Alerts
  import opened Config
  import Text

  /** A fresh id differs from every id stored so far, and stays out of reach of the later ones. */
  lemma NextIdIsFresh(seqs: map<string, nat>, prefix: string)
    ensures forall id :: Unused(seqs, prefix, id) ==> id != NextId(seqs, prefix)
    ensures forall id :: Unused(seqs, prefix, id) ==> Unused(Bump(seqs, prefix), prefix, id)
    ensures Unused(Bump(seqs, prefix), prefix, NextId(seqs, prefix))
  {
    Text.IdsAreUnique(prefix);
  }

  // ---- Zone lookups through changes that keep ids in place --------------------------------------

  // Zones keep their place, their id and their area; new ones may follow.
  ghost predicate ZonesExtend(a: seq<CleanZone>, b: seq<CleanZone>) {
    |a| <= |b| && forall i :: 0 <= i < |a| ==> a[i].id == b[i].id && a[i].area == b[i].area
  }

  // The same zones in the same places, whatever their status.
  ghost predicate SameLayout(a: seq<CleanZone>, b: seq<CleanZone>) {
    |a| == |b| && ZonesExtend(a, b)
  }

  /** With the ids in place a lookup lands on the same position. */
  lemma SameIndex(a: seq<CleanZone>, b: seq<CleanZone>)
    requires SameLayout(a, b)
    ensures forall id :: ZoneIndex(a, id) == ZoneIndex(b, id)
    ensures UniqueZones(a) ==> UniqueZones(b)
  {
    forall id
      ensures ZoneIndex(a, id) == ZoneIndex(b, id)
    {
      var i, j := ZoneIndex(a, id), ZoneIndex(b, id);
      assert i < |a| ==> b[i].id == a[i].id;
      assert j < |a| ==> a[j].id == b[j].id;
    }
  }

  // Zones that changed only in status, ratio and timestamps.
  ghost predicate SameZones(a: seq<CleanZone>, b: seq<CleanZone>) {
    |a| == |b| && forall i :: 0 <= i < |a| ==>
      b[i] == a[i].(status := b[i].status, since := b[i].since, ratio := b[i].ratio, updatedAt := b[i].updatedAt)
  }

  // Monitor zones that changed only in equipment and timestamps, with fans within bounds.
  ghost predicate SameMonitors(a: seq<MonitorZone>, b: seq<MonitorZone>) {
    |a| == |b| && forall i :: 0 <= i < |a| ==>
      && b[i] == a[i].(equipment := b[i].equipment, updatedAt := b[i].updatedAt)
      && 0 <= b[i].equipment.ffuLevel <= 100
  }

  lemma SameZonesStayValid(a: seq<CleanZone>, b: seq<CleanZone>)
    requires SameZones(a, b) && ZonesValid(a)
    ensures ZonesValid(b)
  {
    forall i | 0 <= i < |b|
      ensures b[i].Valid()
    {
      assert a[i].Valid();
      hide ZonesValid;
    }
  }

  lemma SameMonitorsStayValid(a: seq<MonitorZone>, b: seq<MonitorZone>)
    requires SameMonitors(a, b) && MonitorsValid(a)
    ensures MonitorsValid(b)
  {
    forall i | 0 <= i < |b|
      ensures b[i].Valid()
    {
      assert a[i].Valid();
      hide MonitorsValid;
    }
  }

  /** Changing statuses, ratios and equipment keeps the plant structurally sound. */
  lemma PlantKept(a: State, b: State)
    requires PlantOk(a)
    requires SameZones(a.zones, b.zones) && SameMonitors(a.monitors, b.monitors)
    requires UniqueLogs(b.logs) && LogIdsUsed(b.logs, b.seqs)
    ensures PlantOk(b)
  {
    SameZonesStayValid(a.zones, b.zones);
    SameMonitorsStayValid(a.monitors, b.monitors);
    hide ZonesValid, MonitorsValid, LogIdsUsed, UniqueLogs;
    SameIndex(a.zones, b.zones);
    forall i | 0 <= i < |b.monitors|
      ensures FindZone(b.zones, b.monitors[i].zoneId).Some?
    {
      assert FindZone(a.zones, a.monitors[i].zoneId).Some?;
    }
  }

  /** Issuing an interlock keeps the plant structurally sound and every zone findable. */
  lemma IssueKeepsPlantOk(st: State, zoneId: string, trigger: string, reason: string, ratio: real, now: Time)
    requires PlantOk(st)
    ensures var next := Issue(st, zoneId, trigger, reason, ratio, now).0;
            PlantOk(next) && forall id :: FindZone(st.zones, id).Some? ==> FindZone(next.zones, id).Some?
  {
    var z := FindZone(st.zones, zoneId);
    if z.Some? {
      IssueForKeepsPlantOk(st, z.value, trigger, reason, ratio, now);
      SameIndex(st.zones, InterlockArea(st.zones, z.value.area, now));
    }
  }

  lemma IssueForKeepsPlantOk(st: State, z: CleanZone, trigger: string, reason: string, ratio: real, now: Time)
    requires PlantOk(st)
    ensures PlantOk(IssueFor(st, z, trigger, reason, ratio, now))
  {
    var next := IssueFor(st, z, trigger, reason, ratio, now);
    NextIdIsFresh(st.seqs, INTERLOCK_IDS);
    assert MonitorsInBounds(st.monitors) by { FansInBounds(st.monitors); }
    hide ZonesValid, MonitorsValid, Serves, MonitorsPlaced;
    PlantKept(st, next);
  }

  ghost predicate MonitorsInBounds(ms: seq<MonitorZone>) {
    forall i :: 0 <= i < |ms| ==> 0 <= ms[i].equipment.ffuLevel <= 100
  }

  lemma FansInBounds(ms: seq<MonitorZone>)
    requires MonitorsValid(ms)
    ensures MonitorsInBounds(ms)
  {
    forall i | 0 <= i < |ms|
      ensures 0 <= ms[i].equipment.ffuLevel <= 100
    {
      assert ms[i].Valid();
    }
  }

  /** Moving one stored zone to another status keeps the plant structurally sound. */
  lemma SetStatusKeepsPlantOk(st: State, z: CleanZone, next: ZoneStatus, now: Time)
    requires PlantOk(st) && FindZone(st.zones, z.id) == Some(z)
    ensures PlantOk(st.(zones := PutZone(st.zones, z.SetStatus(next, now))))
    ensures SameLayout(st.zones, PutZone(st.zones, z.SetStatus(next, now)))
  {
    FansInBounds(st.monitors);
    hide ZonesValid, MonitorsValid, MonitorsPlaced, UniqueLogs, LogIdsUsed;
    PlantKept(st, st.(zones := PutZone(st.zones, z.SetStatus(next, now))));
  }

  /** Wherever a ratio takes a zone, the plant stays structurally sound and no alert id is handed out. */
  lemma MoveZoneKeepsPlantOk(cfg: Config, st: State, z: CleanZone, m: MonitorZone, ratio: real, now: Time)
    requires PlantOk(st) && FindZone(st.zones, z.id) == Some(z)
    ensures var next := MoveZone(cfg, st, z, m, ratio, now);
            && PlantOk(next) && SameLayout(st.zones, next.zones) && FindZone(next.zones, z.id).Some?
            && Issued(next.seqs, ALERT_IDS) == Issued(st.seqs, ALERT_IDS)
  {
    var target := TargetStatusFromRatio(z.status, ratio, cfg.overLimitRatio);
    hide PlantOk, Ventilate, LogFor, TargetStatusFromRatio;
    IssueForKeepsPlantOk(st, z, m.id, OVER_LIMIT_REASON, ratio, now);
    SetStatusKeepsPlantOk(st, z, target, now);
    var next := MoveZone(cfg, st, z, m, ratio, now);
    assert SameLayout(st.zones, next.zones);
    SameIndex(st.zones, next.zones);
  }

  // ---- Alerts -----------------------------------------------------------------------------------

  /** Raising an alert keeps alert ids unique: a merge reuses a stored id, a creation takes a fresh one. */
  lemma RaiseKeepsAlertsOk(cfg: Config, st: State, zoneId: string, monitorId: string, kind: AlertType, level: AlertLevel,
                           message: Message, sampleId: string, now: Time)
    requires AlertsOk(st)
    ensures AlertsOk(Raise(cfg, st, zoneId, monitorId, kind, level, message, sampleId, now).st)
  {
    NextIdIsFresh(st.seqs, ALERT_IDS);
    hide Unused, FindOpen;
    var next := Raise(cfg, st, zoneId, monitorId, kind, level, message, sampleId, now).st;
    assert |next.alerts| == |st.alerts| ==> forall i :: 0 <= i < |st.alerts| ==> next.alerts[i].id == st.alerts[i].id;
  }

  // The same alerts under the same ids.
  ghost predicate SameAlertIds(a: seq<CleanAlert>, b: seq<CleanAlert>) {
    |a| == |b| && forall i :: 0 <= i < |a| ==> a[i].id == b[i].id
  }

  lemma SameAlertIdsKeepOk(a: State, b: State)
    requires AlertsOk(a) && SameAlertIds(a.alerts, b.alerts)
    requires Issued(a.seqs, ALERT_IDS) == Issued(b.seqs, ALERT_IDS)
    ensures AlertsOk(b)
  {
  }

  /** Raising or resolving, alert ids stay unique. */
  lemma SignalKeepsAlertsOk(cfg: Config, p: Progress, bad: bool, zoneId: string, monitorId: string, kind: AlertType,
                            level: AlertLevel, message: Message, sampleId: string, now: Time)
    requires AlertsOk(p.st)
    ensures AlertsOk(Signal(cfg, p, bad, zoneId, monitorId, kind, level, message, sampleId, now).st)
  {
    if bad {
      RaiseKeepsAlertsOk(cfg, p.st, zoneId, monitorId, kind, level, message, sampleId, now);
    } else {
      SameAlertIdsKeepOk(p.st, Signal(cfg, p, bad, zoneId, monitorId, kind, level, message, sampleId, now).st);
    }
  }
}
