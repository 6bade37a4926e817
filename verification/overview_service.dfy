/** Builds the dashboard aggregate from the repositories. */
module OverviewService {
  import opened Types
  import opened Sequences
  import opened Config
  import opened Zones
  import opened Monitors
  import opened Samples
  import opened State
  import opened Overviews
  import opened Store

  function Group(m: map<string, seq<MonitorZone>>, zoneId: string): seq<MonitorZone> {
    if zoneId in m then m[zoneId] else []
  }

  /** The monitor zones by clean zone, in store order. */
  method GroupByZone(monitors: seq<MonitorZone>) returns (byZone: map<string, seq<MonitorZone>>)
    ensures forall zoneId :: Group(byZone, zoneId) == OfZone(monitors, zoneId)
  {
    byZone := map[];
    for i := 0 to |monitors|
      invariant forall zoneId :: Group(byZone, zoneId) == OfZone(monitors[..i], zoneId)
    {
      assert monitors[..i + 1][..i] == monitors[..i];
      var m := monitors[i];
      byZone := byZone[m.zoneId := Group(byZone, m.zoneId) + [m]];
    }
    assert monitors[..|monitors|] == monitors;
  }

  /** Adds up the values in whatever order the keys come. */
  method SumMap(m: map<string, int>) returns (total: int)
    ensures total == MapTotal(m)
  {
    total := 0;
    var rest := m;
    while rest != map[]
      invariant total + MapTotal(rest) == MapTotal(m)
      decreases |rest|
    {
      var k :| k in rest;
      MapTotalWithout(rest, k);
      total := total + rest[k];
      rest := rest - {k};
    }
  }

  /** One clean zone with its monitor zones, their latest sample and invalid share. */
  method BuildZone(cfg: Config, st: Store, z: CleanZone, monitors: seq<MonitorZone>, active: int) returns (r: OverviewZone)
    requires cfg.Valid() && st.Valid()
    requires monitors == OfZone(st.monitors, z.id) && active == Lookup(ActiveByZone(st.alerts), z.id)
    ensures r == ViewZone(cfg, st.Snapshot(), z)
  {
    hide OfZone, Lookup, ActiveByZone, Recent, InvalidCount, InvalidRatio;
    var out := [];
    for i := 0 to |monitors|
      invariant |out| == i
      invariant forall k :: 0 <= k < i ==> out[k] == ViewMonitor(cfg, st.Snapshot().samples, monitors[k])
    {
      var m := monitors[i];
      var recent := st.ListSamples(m.id, 1);
      var latest := None;
      if |recent| > 0 {
        latest := Some(recent[0]);
      }
      var window := st.ListSamples(m.id, cfg.SampleWindow());
      RecentFits(st.Snapshot().samples, m.id, cfg.SampleWindow());
      var ratio, exceed := EvaluateInvalidRatio(window, cfg.SampleWindow(), cfg.invalidRatioThreshold);
      out := out + [OverviewMonitorZone(m, latest, ratio)];
    }
    assert out == ViewMonitors(cfg, st.Snapshot().samples, monitors);
    hide ViewMonitors;
    r := OverviewZone(z, SortBy(out, MonitorBefore), active, z.status == Interlocked, z.area);
  }

  lemma RecentFits(s: seq<EnvSample>, monitorId: string, limit: nat)
    requires limit > 0
    ensures Take(Recent(s, monitorId, limit), limit) == Recent(s, monitorId, limit)
  {
  }

  /** The overview of the store as it is. */
  method Build(cfg: Config, st: Store) returns (r: Overview)
    requires cfg.Valid() && st.Valid()
    ensures r == View(cfg, st.Snapshot())
  {
    hide ViewZone, OfZone, Lookup, ActiveByZone, MapTotal;
    var zones, monitors := st.zones, st.monitors;
    var activeByZone := st.CountByCleanZoneActive();
    var openInterlocks := st.OpenCount();
    var monitorsByZone := GroupByZone(monitors);
    var views := [];
    var interlocked := 0;
    for i := 0 to |zones|
      invariant |views| == i && interlocked == Sum(zones[..i], InterlockedUnit)
      invariant forall k :: 0 <= k < i ==> views[k] == ViewZone(cfg, st.Snapshot(), zones[k])
    {
      assert zones[..i + 1][..i] == zones[..i];
      var z := zones[i];
      if z.status == Interlocked {
        interlocked := interlocked + 1;
      }
      var view := BuildZone(cfg, st, z, Group(monitorsByZone, z.id), Lookup(activeByZone, z.id));
      views := views + [view];
    }
    assert zones[..|zones|] == zones;
    assert views == ViewZones(cfg, st.Snapshot(), zones);
    hide ViewZones;
    var active := SumMap(activeByZone);
    r := Overview(SortBy(views, ZoneBefore), |zones|, |monitors|, active, openInterlocks, interlocked);
  }
}
