/** The dashboard aggregate: what it shows of a state, and why its totals add up. */
module Overviews {
  import opened Types
  import opened Sequences
  import opened Config
  import opened Zones
  import opened Monitors
  import opened Interlocks
  import opened Samples
  import opened Alerts
  import opened State

  datatype OverviewMonitorZone = OverviewMonitorZone(monitor: MonitorZone, latest: Option<EnvSample>, invalidRatio: real)

  datatype OverviewZone = OverviewZone(
    zone: CleanZone,
    monitors: seq<OverviewMonitorZone>,
    activeAlerts: int,
    interlocked: bool,
    area: string)

  datatype Overview = Overview(
    zones: seq<OverviewZone>,
    totalZones: int,
    totalMonitors: int,
    activeAlerts: int,
    openInterlocks: int,
    interlockedZones: int)

  // ---- Counting ---------------------------------------------------------------------------------

  // The clean zones of the alerts that still need attention, one entry per alert.
  function ActiveOwners(s: seq<CleanAlert>): seq<string> {
    if s == [] then []
    else
      var front, last := s[..|s| - 1], s[|s| - 1];
      if last.IsActive() then ActiveOwners(front) + [last.zoneId] else ActiveOwners(front)
  }

  function CountOf(owners: seq<string>, id: string): nat {
    if owners == [] then 0
    else CountOf(owners[..|owners| - 1], id) + (if owners[|owners| - 1] == id then 1 else 0)
  }

  // A missing key reads as zero, like a Go map.
  function Lookup(m: map<string, int>, id: string): int {
    if id in m then m[id] else 0
  }

  function ActiveByZone(s: seq<CleanAlert>): map<string, int> {
    if s == [] then map[]
    else
      var m, last := ActiveByZone(s[..|s| - 1]), s[|s| - 1];
      if last.IsActive() then m[last.zoneId := Lookup(m, last.zoneId) + 1] else m
  }

  function OpenUnit(l: InterlockLog): int {
    if l.IsOpen() then 1 else 0
  }

  function InterlockedUnit(z: CleanZone): int {
    if z.status == Interlocked then 1 else 0
  }

  // The sum of a map's values.
  ghost function MapTotal(m: map<string, int>): int {
    if m == map[] then 0
    else
      var k :| k in m;
      m[k] + MapTotal(m - {k})
  }

  lemma {:induction false} MapTotalWithout(m: map<string, int>, k: string)
    requires k in m
    ensures MapTotal(m) == m[k] + MapTotal(m - {k})
    decreases |m|
  {
    var first :| first in m && MapTotal(m) == m[first] + MapTotal(m - {first});
    if first != k {
      MapTotalWithout(m - {first}, k);
      MapTotalWithout(m - {k}, first);
      assert (m - {first}) - {k} == (m - {k}) - {first};
    }
  }

  lemma MapTotalPut(m: map<string, int>, k: string, v: int)
    ensures MapTotal(m[k := v]) == MapTotal(m) - Lookup(m, k) + v
  {
    MapTotalWithout(m[k := v], k);
    if k in m {
      MapTotalWithout(m, k);
      assert m[k := v] - {k} == m - {k};
    } else {
      assert m[k := v] - {k} == m;
    }
  }

  /** The per-zone map counts every active alert exactly once. */
  lemma {:induction false} ActiveByZoneCounts(s: seq<CleanAlert>, id: string)
    ensures Lookup(ActiveByZone(s), id) == CountOf(ActiveOwners(s), id)
    ensures MapTotal(ActiveByZone(s)) == |ActiveOwners(s)|
  {
    if s != [] {
      var front, last := s[..|s| - 1], s[|s| - 1];
      var m := ActiveByZone(front);
      ActiveByZoneCounts(front, id);
      MapTotalPut(m, last.zoneId, Lookup(m, last.zoneId) + 1);
      CountOfAppend(ActiveOwners(front), last.zoneId, id);
    }
  }

  lemma CountOfAppend(owners: seq<string>, x: string, id: string)
    ensures CountOf(owners + [x], id) == CountOf(owners, id) + (if x == id then 1 else 0)
  {
    assert (owners + [x])[..|owners|] == owners;
  }

  // ---- The view ---------------------------------------------------------------------------------

  // Go's string order: by code points, a prefix first.
  predicate IdBefore(a: string, b: string) {
    b != "" && (a == "" || a[0] < b[0] || (a[0] == b[0] && IdBefore(a[1..], b[1..])))
  }

  predicate ZoneBefore(a: OverviewZone, b: OverviewZone) {
    IdBefore(a.zone.id, b.zone.id)
  }

  predicate MonitorBefore(a: OverviewMonitorZone, b: OverviewMonitorZone) {
    IdBefore(a.monitor.id, b.monitor.id)
  }

  function ViewMonitor(cfg: Config, samples: seq<EnvSample>, m: MonitorZone): OverviewMonitorZone {
    var recent := Recent(samples, m.id, 1);
    OverviewMonitorZone(m, if recent == [] then None else Some(recent[0]), InvalidRatio(Recent(samples, m.id, cfg.SampleWindow())))
  }

  function ViewMonitors(cfg: Config, samples: seq<EnvSample>, ms: seq<MonitorZone>): seq<OverviewMonitorZone> {
    seq(|ms|, i requires 0 <= i < |ms| => ViewMonitor(cfg, samples, ms[i]))
  }

  function ViewZone(cfg: Config, st: State, z: CleanZone): OverviewZone {
    OverviewZone(z, SortBy(ViewMonitors(cfg, st.samples, OfZone(st.monitors, z.id)), MonitorBefore),
                 Lookup(ActiveByZone(st.alerts), z.id), z.status == Interlocked, z.area)
  }

  function ViewZones(cfg: Config, st: State, zs: seq<CleanZone>): seq<OverviewZone> {
    seq(|zs|, i requires 0 <= i < |zs| => ViewZone(cfg, st, zs[i]))
  }

  ghost function View(cfg: Config, st: State): Overview {
    Overview(SortBy(ViewZones(cfg, st, st.zones), ZoneBefore), |st.zones|, |st.monitors|, MapTotal(ActiveByZone(st.alerts)),
             Sum(st.logs, OpenUnit), Sum(st.zones, InterlockedUnit))
  }
}
