/** Zone and monitor zone maintenance. */
module ZoneService {
  import opened Types
  import opened Zones
  import opened Monitors
  import opened State
  import opened Store

  method AddCleanZone(st: Store, id: string, name: string, area: string, iso: string, process: string, now: Time)
    returns (r: Result<CleanZone>)
    requires st.Valid()
    modifies st`zones, st`seqs
    ensures var chosen := if id == "" then NextId(old(st.seqs), ZONE_IDS) else id;
            var seqs := if id == "" then Bump(old(st.seqs), ZONE_IDS) else old(st.seqs);
            (st.Snapshot(), r) == CreateZone(old(st.Snapshot()).(seqs := seqs), NewCleanZone(chosen, name, area, iso, process, now))
  {
    hide CleanZone.Valid;
    var zone := NewCleanZone(id, name, area, iso, process, now);
    if id == "" {
      var generated := st.NewID(ZONE_IDS);
      zone := zone.(id := generated);
    }
    r := st.CreateCleanZone(zone.Touch(now));
  }

  method AddMonitorZone(st: Store, id: string, zoneId: string, name: string, counterId: string,
                        thresholds: ZoneThresholds, due: Time, now: Time) returns (r: Result<MonitorZone>)
    requires st.Valid()
    modifies st`monitors, st`seqs
    ensures var chosen := if id == "" then NextId(old(st.seqs), MONITOR_IDS) else id;
            var seqs := if id == "" then Bump(old(st.seqs), MONITOR_IDS) else old(st.seqs);
            (st.Snapshot(), r) == CreateMonitor(old(st.Snapshot()).(seqs := seqs),
                                                NewMonitorZone(chosen, zoneId, name, counterId, thresholds, due, now))
  {
    hide MonitorZone.Valid;
    var m := NewMonitorZone(id, zoneId, name, counterId, thresholds, due, now);
    if id == "" {
      var generated := st.NewID(MONITOR_IDS);
      m := m.(id := generated);
    }
    r := st.CreateMonitorZone(m.Touch(now));
  }

  method ToggleMaintenance(st: Store, id: string, on: bool, note: string, now: Time) returns (r: Result<MonitorZone>)
    requires st.Valid() && MonitorsValid(st.monitors)
    modifies st`monitors
    ensures (st.Snapshot(), r) == SetMaintenance(old(st.Snapshot()), id, on, note, now)
  {
    var found := st.GetMonitorZone(id);
    if found.Err? {
      return found;
    }
    assert found.value.Valid();
    hide MonitorsValid;
    r := st.UpdateMonitorZone(found.value.SetMaintenance(on, note, now));
  }

  method ChangeCalibration(st: Store, id: string, due: Option<Time>, now: Time) returns (r: Result<MonitorZone>)
    requires st.Valid() && MonitorsValid(st.monitors)
    modifies st`monitors
    ensures (st.Snapshot(), r) == SetCalibration(old(st.Snapshot()), id, due, now)
  {
    var found := st.GetMonitorZone(id);
    if found.Err? {
      return found;
    }
    assert found.value.Valid();
    hide MonitorsValid;
    r := st.UpdateMonitorZone(found.value.SetCalibration(due, now));
  }
}
