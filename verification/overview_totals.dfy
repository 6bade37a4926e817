/** The totals of the overview add up in every reachable state. */
module OverviewTotals {
  import opened Types
  import opened Sequences
  import opened Config
  import opened Zones
  import opened Monitors
  import opened Interlocks
  import opened Alerts
  import opened State
  import opened Runs
  import opened InterlockInvariants
  import opened Evolution
  import opened AlertInvariants
  import opened Overviews
  import Fans

  // ---- Every alert belongs to a stored zone -------------------------------------------------------

  ghost predicate AlertsPlaced(s: seq<CleanAlert>, zs: seq<CleanZone>) {
    forall i :: 0 <= i < |s| ==> FindZone(zs, s[i].zoneId).Some?
  }

  lemma AlertsStayPlaced(a: State, b: State, now: Time, confirmed: bool, home: string)
    requires AlertsPlaced(a.alerts, a.zones) && Evolves(a, b, now, confirmed) && AlertsEvolve(a.alerts, b.alerts, now, home)
    requires |b.alerts| > |a.alerts| ==> FindZone(a.zones, home).Some?
    ensures AlertsPlaced(b.alerts, b.zones)
  {
    forall i | 0 <= i < |b.alerts|
      ensures FindZone(b.zones, b.alerts[i].zoneId).Some?
    {
      var id := b.alerts[i].zoneId;
      assert i < |a.alerts| ==> AlertGrows(a.alerts[i], b.alerts[i]);
      assert FindZone(a.zones, id).Some?;
      Fans.EvolvesExtends(a, b, now, confirmed);
      hide Evolves, AlertsEvolve, AlertsPlaced;
      Fans.AreaKept(a.zones, b.zones, id);
    }
  }

  lemma OnlyReportsRaise(cfg: Config, st: State, step: Step)
    requires PlantOk(st) && AlertInv(cfg, st, step.now)
    ensures |Apply(cfg, st, step).alerts| > |st.alerts| ==> FindZone(st.zones, StepHome(st, step)).Some?
  {
    hide PlantOk, AlertInv, ProcessSample;
    if step.Report? {
      UnknownReport(cfg, st, step.req, step.now);
    } else {
      hide Apply;
      if step.Acknowledge? || step.Promote? || step.SweepAlerts? {
        InvLives(cfg, st, step.now);
        CareTends(cfg, st, step);
      } else {
        PlantStepsLeaveAlerts(cfg, st, step);
      }
    }
  }

  lemma UnknownReport(cfg: Config, st: State, req: IngestRequest, now: Time)
    ensures ProcessSample(cfg, st, req, now).0 != st ==> FindZone(st.zones, HomeOf(st, req)).Some?
  {
    hide Ingest, ZoneIndex, MonitorIndex;
  }

  lemma {:induction false} ReachableAlertsPlaced(cfg: Config, run: seq<Step>)
    requires cfg.Valid() && Clocked(run)
    ensures AlertsPlaced(Exec(cfg, run).alerts, Exec(cfg, run).zones)
  {
    if run != [] {
      var front, last := run[..|run| - 1], run[|run| - 1];
      var st := Exec(cfg, front);
      ReachableAlertsPlaced(cfg, front);
      ReachableSound(cfg, front, last.now);
      ReachableAlerts(cfg, front, last.now);
      SoundIsPlantOk(cfg, st, last.now);
      hide Apply, AlertInv, Sound, Evolves, AlertsEvolve, AlertsPlaced, PlantOk;
      EveryStepEvolves(cfg, st, last);
      StepKeepsInv(cfg, st, last);
      OnlyReportsRaise(cfg, st, last);
      AlertsStayPlaced(st, Apply(cfg, st, last), last.now, last.Confirm?, StepHome(st, last));
    }
  }

  lemma SoundIsPlantOk(cfg: Config, st: State, now: Time)
    requires Sound(cfg, st, now)
    ensures PlantOk(st) && AreasAgree(st)
  {
  }

  // ---- Counting by owner --------------------------------------------------------------------------

  function OwnedBy(owners: seq<string>): CleanZone -> int {
    (z: CleanZone) => CountOf(owners, z.id)
  }

  function IsOwner(id: string): CleanZone -> int {
    (z: CleanZone) => if z.id == id then 1 else 0
  }

  lemma {:induction false} SumOfBoth(zs: seq<CleanZone>, owners: seq<string>, id: string)
    ensures Sum(zs, OwnedBy(owners + [id])) == Sum(zs, OwnedBy(owners)) + Sum(zs, IsOwner(id))
  {
    if zs != [] {
      SumOfBoth(zs[..|zs| - 1], owners, id);
      CountOfAppend(owners, id, zs[|zs| - 1].id);
    }
  }

  lemma {:induction false} NoOwner(zs: seq<CleanZone>, id: string)
    requires forall i :: 0 <= i < |zs| ==> zs[i].id != id
    ensures Sum(zs, IsOwner(id)) == 0
  {
    if zs != [] {
      NoOwner(zs[..|zs| - 1], id);
    }
  }

  lemma {:induction false} OneOwner(zs: seq<CleanZone>, id: string)
    requires UniqueZones(zs) && FindZone(zs, id).Some?
    ensures Sum(zs, IsOwner(id)) == 1
  {
    var front, last, k := zs[..|zs| - 1], zs[|zs| - 1], ZoneIndex(zs, id);
    if k == |zs| - 1 {
      NoOwner(front, id);
    } else {
      assert front[k].id == id;
      assert ZoneIndex(front, id) <= k;
      OneOwner(front, id);
    }
  }

  lemma {:induction false} NobodyOwns(zs: seq<CleanZone>)
    ensures Sum(zs, OwnedBy([])) == 0
  {
    if zs != [] {
      NobodyOwns(zs[..|zs| - 1]);
    }
  }

  ghost predicate OwnersKnown(owners: seq<string>, zs: seq<CleanZone>) {
    forall i :: 0 <= i < |owners| ==> FindZone(zs, owners[i]).Some?
  }

  /** What belongs to one stored zone each is counted once over all zones. */
  lemma {:induction false} EachCountedOnce(zs: seq<CleanZone>, owners: seq<string>)
    requires UniqueZones(zs) && OwnersKnown(owners, zs)
    ensures Sum(zs, OwnedBy(owners)) == |owners|
  {
    if owners == [] {
      NobodyOwns(zs);
    } else {
      var front, last := owners[..|owners| - 1], owners[|owners| - 1];
      assert FindZone(zs, last).Some?;
      hide UniqueZones, FindZone, Sum;
      EachCountedOnce(zs, front);
      SumOfBoth(zs, front, last);
      OneOwner(zs, last);
      assert front + [last] == owners;
    }
  }

  function MonitorOwners(ms: seq<MonitorZone>): seq<string> {
    seq(|ms|, i requires 0 <= i < |ms| => ms[i].zoneId)
  }

  lemma {:induction false} OfZoneCounts(ms: seq<MonitorZone>, zoneId: string)
    ensures |OfZone(ms, zoneId)| == CountOf(MonitorOwners(ms), zoneId)
  {
    if ms != [] {
      OfZoneCounts(ms[..|ms| - 1], zoneId);
      assert MonitorOwners(ms)[..|ms| - 1] == MonitorOwners(ms[..|ms| - 1]);
    }
  }

  lemma {:induction false} ActiveOwnersKnown(s: seq<CleanAlert>, zs: seq<CleanZone>)
    requires AlertsPlaced(s, zs)
    ensures OwnersKnown(ActiveOwners(s), zs)
  {
    if s != [] {
      hide FindZone;
      ActiveOwnersKnown(s[..|s| - 1], zs);
    }
  }

  // ---- The totals -------------------------------------------------------------------------------

  function ListedUnit(z: OverviewZone): int {
    |z.monitors|
  }

  function ActiveUnit(z: OverviewZone): int {
    z.activeAlerts
  }

  function ShownInterlocked(z: OverviewZone): int {
    if z.interlocked then 1 else 0
  }

  // The zone's share of a total is what its view shows.
  lemma {:induction false} SumOfViews(cfg: Config, st: State, zs: seq<CleanZone>, f: OverviewZone -> int, g: CleanZone -> int)
    requires forall z :: f(ViewZone(cfg, st, z)) == g(z)
    ensures Sum(ViewZones(cfg, st, zs), f) == Sum(zs, g)
  {
    if zs != [] {
      var views := ViewZones(cfg, st, zs);
      hide ViewZone;
      assert views[..|zs| - 1] == ViewZones(cfg, st, zs[..|zs| - 1]);
      SumOfViews(cfg, st, zs[..|zs| - 1], f, g);
    }
  }

  lemma ShownCounts(cfg: Config, st: State, z: CleanZone)
    ensures var v := ViewZone(cfg, st, z);
            && ListedUnit(v) == OwnedBy(MonitorOwners(st.monitors))(z)
            && ActiveUnit(v) == OwnedBy(ActiveOwners(st.alerts))(z)
            && ShownInterlocked(v) == InterlockedUnit(z)
  {
    OfZoneCounts(st.monitors, z.id);
    ActiveByZoneCounts(st.alerts, z.id);
    hide OfZone, CountOf, Lookup, MonitorOwners, ActiveOwners;
  }

  lemma {:induction false} AnyOpen(logs: seq<InterlockLog>)
    ensures Sum(logs, OpenUnit) >= 0
    ensures Sum(logs, OpenUnit) > 0 <==> exists i :: 0 <= i < |logs| && logs[i].IsOpen()
  {
    if logs != [] {
      AnyOpen(logs[..|logs| - 1]);
      assert logs[|logs| - 1].IsOpen() ==> exists i :: 0 <= i < |logs| && logs[i].IsOpen();
    }
  }

  lemma {:induction false} AnyInterlocked(zs: seq<CleanZone>)
    ensures Sum(zs, InterlockedUnit) >= 0
    ensures Sum(zs, InterlockedUnit) > 0 <==> exists i :: 0 <= i < |zs| && zs[i].status == Interlocked
  {
    if zs != [] {
      AnyInterlocked(zs[..|zs| - 1]);
      assert zs[|zs| - 1].status == Interlocked ==> exists i :: 0 <= i < |zs| && zs[i].status == Interlocked;
    }
  }

  lemma OpenMeansInterlocked(st: State)
    requires AreasAgree(st)
    ensures (exists i :: 0 <= i < |st.logs| && st.logs[i].IsOpen()) <==>
            (exists i :: 0 <= i < |st.zones| && st.zones[i].status == Interlocked)
  {
    if i :| 0 <= i < |st.logs| && st.logs[i].IsOpen() {
      assert OpenIn(st.logs, st.logs[i].area);
    }
    if i :| 0 <= i < |st.zones| && st.zones[i].status == Interlocked {
      assert InterlockedIn(st.zones, st.zones[i].area);
    }
  }

  /**
   In every reachable state the overview adds up: each monitor zone is listed under exactly one zone, the active
   alerts shown per zone sum to the number of active alerts, the interlocked zones shown are all that are counted,
   and there are open interlocks exactly when some zone is interlocked.
   */
  lemma TotalsAddUp(cfg: Config, run: seq<Step>, now: Time)
    requires cfg.Valid() && Clocked(run) && Until(run, now)
    ensures var st := Exec(cfg, run);
            var v := View(cfg, st);
            && |v.zones| == v.totalZones
            && Sum(v.zones, ListedUnit) == v.totalMonitors
            && Sum(v.zones, ActiveUnit) == v.activeAlerts == |ActiveOwners(st.alerts)|
            && Sum(v.zones, ShownInterlocked) == v.interlockedZones
            && (v.openInterlocks > 0 <==> v.interlockedZones > 0)
  {
    var st := Exec(cfg, run);
    ReachableSound(cfg, run, now);
    SoundIsPlantOk(cfg, st, now);
    ReachableAlertsPlaced(cfg, run);
    hide Exec, Sound, Until, Clocked, Sum;
    SumsAddUp(cfg, st);
    OpenMeansInterlocked(st);
    AnyOpen(st.logs);
    AnyInterlocked(st.zones);
  }

  lemma SumsAddUp(cfg: Config, st: State)
    requires PlantOk(st) && AlertsPlaced(st.alerts, st.zones)
    ensures var v := View(cfg, st);
            && Sum(v.zones, ListedUnit) == |st.monitors|
            && Sum(v.zones, ActiveUnit) == v.activeAlerts == |ActiveOwners(st.alerts)|
            && Sum(v.zones, ShownInterlocked) == Sum(st.zones, InterlockedUnit)
  {
    var views := ViewZones(cfg, st, st.zones);
    var monitors, active := MonitorOwners(st.monitors), ActiveOwners(st.alerts);
    PlantOwners(st);
    ActiveOwnersKnown(st.alerts, st.zones);
    hide PlantOk, Sum, SortBy, FindZone, UniqueZones, ViewZones, ViewZone, OwnedBy, OwnersKnown, MonitorOwners, ActiveOwners, MapTotal;
    hide ListedUnit, ActiveUnit, ShownInterlocked, InterlockedUnit;
    forall z
      ensures var v := ViewZone(cfg, st, z);
              && ListedUnit(v) == OwnedBy(monitors)(z) && ActiveUnit(v) == OwnedBy(active)(z)
              && ShownInterlocked(v) == InterlockedUnit(z)
    {
      ShownCounts(cfg, st, z);
    }
    SumSort(views, ZoneBefore, ListedUnit);
    SumSort(views, ZoneBefore, ActiveUnit);
    SumSort(views, ZoneBefore, ShownInterlocked);
    SumOfViews(cfg, st, st.zones, ListedUnit, OwnedBy(monitors));
    SumOfViews(cfg, st, st.zones, ActiveUnit, OwnedBy(active));
    SumOfViews(cfg, st, st.zones, ShownInterlocked, InterlockedUnit);
    EachCountedOnce(st.zones, monitors);
    EachCountedOnce(st.zones, active);
    ActiveByZoneCounts(st.alerts, "");
    OwnersLength(st.monitors);
  }

  lemma OwnersLength(ms: seq<MonitorZone>)
    ensures |MonitorOwners(ms)| == |ms|
  {
  }

  lemma PlantOwners(st: State)
    requires PlantOk(st)
    ensures UniqueZones(st.zones) && OwnersKnown(MonitorOwners(st.monitors), st.zones)
  {
    hide UniqueZones, ZonesValid, MonitorsValid, UniqueLogs, LogIdsUsed;
  }

  // ---- The order of the listing -------------------------------------------------------------------

  lemma {:induction false} IdOrderIsTotal(a: string, b: string)
    ensures !(IdBefore(a, b) && IdBefore(b, a))
    ensures IdBefore(a, b) || IdBefore(b, a) <==> a != b
  {
    if a != "" && b != "" && a[0] == b[0] {
      IdOrderIsTotal(a[1..], b[1..]);
      assert a == [a[0]] + a[1..] && b == [b[0]] + b[1..];
    }
  }

  lemma {:induction false} IdOrderIsTransitive(a: string, b: string, c: string)
    requires IdBefore(a, b) && IdBefore(b, c)
    ensures IdBefore(a, c)
  {
    if a != "" && a[0] == b[0] && b[0] == c[0] {
      IdOrderIsTransitive(a[1..], b[1..], c[1..]);
    }
  }

  lemma NotAfterIsTransitive(a: string, b: string, c: string)
    ensures !IdBefore(b, a) && !IdBefore(c, b) ==> !IdBefore(c, a)
  {
    IdOrderIsTotal(a, b);
    IdOrderIsTotal(b, c);
    IdOrderIsTotal(a, c);
    if IdBefore(a, b) && IdBefore(b, c) {
      IdOrderIsTransitive(a, b, c);
    }
  }

  lemma OrdersById()
    ensures Ordering(ZoneBefore) && Ordering(MonitorBefore)
  {
    hide IdBefore;
    forall a: string, b: string
      ensures IdBefore(a, b) ==> !IdBefore(b, a)
    {
      IdOrderIsTotal(a, b);
    }
    forall a: string, b: string, c: string
      ensures !IdBefore(b, a) && !IdBefore(c, b) ==> !IdBefore(c, a)
    {
      NotAfterIsTransitive(a, b, c);
    }
  }

  lemma Viewed(cfg: Config, st: State, zs: seq<CleanZone>, x: OverviewZone)
    ensures x in ViewZones(cfg, st, zs) <==> exists z :: z in zs && x == ViewZone(cfg, st, z)
  {
    hide ViewZone;
    var views := ViewZones(cfg, st, zs);
    if x in views {
      var k :| 0 <= k < |views| && views[k] == x;
      assert zs[k] in zs;
    }
    if z :| z in zs && x == ViewZone(cfg, st, z) {
      var k :| 0 <= k < |zs| && zs[k] == z;
      assert views[k] == x;
    }
  }

  /**
   The overview shows exactly the views of the stored zones, by ascending id, and the monitor zones of each by
   ascending id as well.
   */
  lemma ListedById(cfg: Config, st: State, x: OverviewZone)
    ensures var v := View(cfg, st);
            && SortedBy(v.zones, ZoneBefore)
            && (x in v.zones <==> exists z :: z in st.zones && x == ViewZone(cfg, st, z))
            && (x in v.zones ==> SortedBy(x.monitors, MonitorBefore))
  {
    var views := ViewZones(cfg, st, st.zones);
    OrdersById();
    SortSorts(views, ZoneBefore);
    SortKeepsMembers(views, ZoneBefore);
    Viewed(cfg, st, st.zones, x);
    hide Ordering, SortedBy, SortBy, ZoneBefore, MonitorBefore, ViewZones, ViewMonitors, Lookup, ActiveByZone, OfZone;
    if x in views {
      var z :| z in st.zones && x == ViewZone(cfg, st, z);
      SortSorts(ViewMonitors(cfg, st.samples, OfZone(st.monitors, z.id)), MonitorBefore);
    }
  }
}
