/** What the dashboard shows of a monitor zone's samples, and how that compares with what its last report returned. */
module Dashboard {
  import opened Types
  import opened Sequences
  import opened Config
  import opened Zones
  import opened Monitors
  import opened Interlocks
  import opened Samples
  import opened Alerts
  import opened State
  import opened WellFormedness
  import opened Runs
  import opened Plants
  import opened AlertTheorems
  import opened History
  import opened SlidingWindow
  import opened Overviews
  import opened OverviewTotals
  import Iso

  // ---- The latest sample --------------------------------------------------------------------------

  // The reading has the latest report time of all, and is the first recorded one of that time.
  ghost predicate IsLatest(x: EnvSample, own: seq<EnvSample>) {
    && x in own
    && (forall y :: y in own ==> y.timestamp <= x.timestamp)
    && Alike(own, x, Samples.Newer) != [] && Alike(own, x, Samples.Newer)[0] == x
  }

  lemma FirstIsLatest(own: seq<EnvSample>)
    requires own != []
    ensures IsLatest(SortBy(own, Samples.Newer)[0], own)
  {
    var sorted := SortBy(own, Samples.Newer);
    var x := sorted[0];
    NewerIsAnOrder();
    SortSorts(own, Samples.Newer);
    SortKeepsMembers(own, Samples.Newer);
    assert x in sorted;
    forall y | y in own
      ensures y.timestamp <= x.timestamp
    {
      var k :| 0 <= k < |sorted| && sorted[k] == y;
      assert k > 0 ==> !Samples.Newer(sorted[k], sorted[0]);
    }
    hide SortBy, Ordering, SortedBy;
    SortIsStable(own, x, Samples.Newer);
    AlikePrefix(sorted, 1, x);
    assert Alike(sorted[..1], x, Samples.Newer) == [x] by {
      assert sorted[..1] == [x];
      AlikeUnfolds([], x, x, Samples.Newer);
      assert [] + [x] == [x];
    }
  }

  /** The latest sample shown is the stored one with the latest report time, the first recorded one when several share it. */
  lemma LatestIsShown(cfg: Config, samples: seq<EnvSample>, m: MonitorZone)
    ensures var own, shown := OfMonitor(samples, m.id), ViewMonitor(cfg, samples, m).latest;
            (shown.None? <==> own == []) && (shown.Some? ==> IsLatest(shown.value, own))
  {
    hide OfMonitor, SortBy, IsLatest, InvalidRatio;
    var own := OfMonitor(samples, m.id);
    if own != [] {
      FirstIsLatest(own);
    }
  }

  // ---- The share shown after a report -------------------------------------------------------------

  // The new reading was taken after every one of these.
  ghost predicate LaterThanAll(s: EnvSample, own: seq<EnvSample>) {
    forall y :: y in own ==> Samples.Newer(s, y)
  }

  // Nothing has to be dropped for the new reading.
  lemma ShownWithoutDrop(own: seq<EnvSample>, s: EnvSample, w: nat)
    requires w > 0 && s !in own
    ensures Take(SortBy(own + [s], Samples.Newer), w) == [s] + Take(SortBy(own, Samples.Newer), w - 1) <==> LaterThanAll(s, own)
  {
    hide SortBy, InsertBy, Samples.Newer;
    var sorted := SortBy(own, Samples.Newer);
    SortUnfolds(own + [s], Samples.Newer);
    SortKeepsMembers(own, Samples.Newer);
    assert (own + [s])[..|own|] == own;
    if LaterThanAll(s, own) {
      InsertNewest(sorted, s);
      assert Take([s] + sorted, w) == [s] + Take(sorted, w - 1);
    } else {
      NotInFront(own, sorted, s, w);
    }
  }

  // The oldest reading is dropped, but the store keeps at least a window.
  lemma ShownAfterDrop(own: seq<EnvSample>, s: EnvSample, w: nat, max: nat)
    requires 0 < w <= max && Distinct(own + [s]) && RisesAtTheEnd(own + [s], w)
    ensures Take(SortBy(Last(own + [s], max), Samples.Newer), w) == [s] + Take(SortBy(own, Samples.Newer), w - 1)
  {
    hide SortBy, Reverse, Last, Take, RisesAtTheEnd, Distinct, Samples.Newer;
    var all, kept := own + [s], Last(own + [s], max);
    EndOfLast(all, max, w);
    RisesUnfolds(all, w);
    assert all[..|own|] == own;
    NewIsNotOld(own, s);
    FirstAreLast(kept, w);
    FirstAreLast(own, w - 1);
    TurnedUnfolds(all, [], w);
  }

  lemma EndOfLast(all: seq<EnvSample>, max: nat, w: nat)
    requires w <= max && Distinct(all) && RisesAtTheEnd(all, w)
    ensures Last(Last(all, max), w) == Last(all, w)
    ensures Distinct(Last(all, max)) && RisesAtTheEnd(Last(all, max), w)
  {
    var kept := Last(all, max);
    var dropped := |all| - |kept|;
    assert forall i :: 0 <= i < |kept| ==> kept[i] == all[dropped + i];
    forall i, j | 0 <= i < j < |kept|
      ensures kept[i] != kept[j]
      ensures |kept| - w <= j ==> kept[i].timestamp < kept[j].timestamp
    {
      assert all[dropped + i] != all[dropped + j];
      assert |all| - w <= dropped + j ==> all[dropped + i].timestamp < all[dropped + j].timestamp;
    }
  }

  /**
   The readings behind the share the dashboard shows after a report are those its result was judged on: as long as
   nothing is dropped, exactly when the new reading is strictly later than every stored one; and when the oldest one
   is dropped from a store that keeps at least a window, if the last readings rise. Then the two shares are equal.
   */
  lemma ShownIsReturned(cfg: Config, run: seq<Step>, req: IngestRequest, now: Time)
    requires cfg.Valid() && Judge(Exec(cfg, run), req, now).Judged?
    ensures var st, w, max := Exec(cfg, run), cfg.SampleWindow(), cfg.maxSamplesPerZone;
            var m := Judge(st, req, now).monitor;
            var own, s := OfMonitor(st.samples, m.id), Judgeable(st, m, req, now);
            var (next, r) := ProcessSample(cfg, st, req, now);
            var same := Recent(next.samples, m.id, w) == Window(cfg, st.samples, s);
            && r.Ok?
            && (max == 0 || |own| < max ==> (same <==> LaterThanAll(s, own)))
            && (max >= w && RisesAtTheEnd(own + [s], w) ==> same)
            && (same ==> ViewMonitor(cfg, next.samples, m).invalidRatio == r.value.invalidRatio)
  {
    var st := Exec(cfg, run);
    StoredAreDistinct(cfg, run, req, now);
    hide Exec, Reported;
    JudgedOnWindow(cfg, st, req, now);
    ShownAfter(cfg, st, req, now);
    hide ProcessSample, Judge, Judgeable, Window, Recent, InvalidRatio, LaterThanAll, RisesAtTheEnd, OfMonitor, Distinct;
  }

  lemma StoredAreDistinct(cfg: Config, run: seq<Step>, req: IngestRequest, now: Time)
    requires cfg.Valid() && Judge(Exec(cfg, run), req, now).Judged?
    ensures var st := Exec(cfg, run);
            var m := Judge(st, req, now).monitor;
            Distinct(OfMonitor(st.samples, m.id) + [Judgeable(st, m, req, now)])
  {
    var st := Exec(cfg, run);
    var m := Judge(st, req, now).monitor;
    var s := Judgeable(st, m, req, now);
    OfItsMonitor(st, req, now);
    StoredIsBounded(cfg, run, m.id);
    ReportedIdsSpent(cfg, run, m.id);
    NewIdIsFresh(st, m, req, now);
    hide Exec, Judge, Reported, Judgeable, OfMonitor;
    SpentAndNew(Reported(cfg, run, m.id), s, st.seqs, cfg.maxSamplesPerZone);
  }

  lemma NewIdIsFresh(st: State, m: MonitorZone, req: IngestRequest, now: Time)
    ensures Judgeable(st, m, req, now).id == NextId(st.seqs, SAMPLE_IDS)
  {
    hide NextId, Iso.Classify, Iso.OverTable;
  }

  lemma SpentAndNew(history: seq<EnvSample>, s: EnvSample, seqs: map<string, nat>, max: nat)
    requires IdsSpent(history, seqs) && s.id == NextId(seqs, SAMPLE_IDS)
    ensures Distinct(Bounded(history, max) + [s])
  {
    NextIdIsFresh(seqs, SAMPLE_IDS);
    hide Unused, NextId, Bump;
    var own, all := Bounded(history, max), Bounded(history, max) + [s];
    forall i, j | 0 <= i < j < |all|
      ensures all[i] != all[j]
    {
      var dropped := |history| - |own|;
      assert all[i] == history[dropped + i];
      assert j < |own| ==> all[j] == history[dropped + j];
    }
  }

  lemma ShownAfter(cfg: Config, st: State, req: IngestRequest, now: Time)
    requires cfg.Valid() && Judge(st, req, now).Judged?
    requires var m := Judge(st, req, now).monitor; Distinct(OfMonitor(st.samples, m.id) + [Judgeable(st, m, req, now)])
    ensures var w, max := cfg.SampleWindow(), cfg.maxSamplesPerZone;
            var m := Judge(st, req, now).monitor;
            var own, s := OfMonitor(st.samples, m.id), Judgeable(st, m, req, now);
            var next := ProcessSample(cfg, st, req, now).0;
            var same := Recent(next.samples, m.id, w) == Window(cfg, st.samples, s);
            && (max == 0 || |own| < max ==> (same <==> LaterThanAll(s, own)))
            && (max >= w && RisesAtTheEnd(own + [s], w) ==> same)
  {
    hide ProcessSample, Judge, Judgeable, AppendSample, LaterThanAll, RisesAtTheEnd, OfMonitor, Recent, Window, Distinct;
    ReportAppends(cfg, st, req, now);
    OfMonitorOf(st, req, now);
    ShownAppended(cfg, st.samples, Judgeable(st, Judge(st, req, now).monitor, req, now));
  }

  lemma ShownAppended(cfg: Config, stored: seq<EnvSample>, s: EnvSample)
    requires cfg.Valid() && Distinct(OfMonitor(stored, s.monitorId) + [s])
    ensures var w, max := cfg.SampleWindow(), cfg.maxSamplesPerZone;
            var own := OfMonitor(stored, s.monitorId);
            var same := Recent(AppendSample(stored, s, max), s.monitorId, w) == Window(cfg, stored, s);
            && (max == 0 || |own| < max ==> (same <==> LaterThanAll(s, own)))
            && (max >= w && RisesAtTheEnd(own + [s], w) ==> same)
  {
    hide AppendSample, SortBy, Take, Last, LaterThanAll, RisesAtTheEnd, OfMonitor, Recent, Window, Distinct;
    var w, max := cfg.SampleWindow(), cfg.maxSamplesPerZone;
    var own := OfMonitor(stored, s.monitorId);
    AppendIsQueued(stored, s, max, s.monitorId);
    RecentIsTaken(AppendSample(stored, s, max), s.monitorId, w);
    WindowIsTaken(cfg, stored, s);
    NewIsNotOld(own, s);
    ShownWithoutDrop(own, s, w);
    LastOfFew(own + [s], max);
    if max >= w && RisesAtTheEnd(own + [s], w) {
      ShownAfterDrop(own, s, w, max);
    }
  }

  lemma NewIsNotOld(own: seq<EnvSample>, s: EnvSample)
    requires Distinct(own + [s])
    ensures s !in own && Distinct(own)
  {
    var all := own + [s];
    assert all[|own|] == s && forall i :: 0 <= i < |own| ==> own[i] == all[i];
  }

  lemma LastOfFew<T>(s: seq<T>, max: nat)
    ensures |s| <= max ==> Last(s, max) == s
  {
  }

  lemma OfMonitorOf(st: State, req: IngestRequest, now: Time)
    requires Judge(st, req, now).Judged?
    ensures Judgeable(st, Judge(st, req, now).monitor, req, now).monitorId == Judge(st, req, now).monitor.id
  {
    hide RatioOf, Iso.Classify, Iso.OverTable;
  }

  lemma WindowIsTaken(cfg: Config, stored: seq<EnvSample>, s: EnvSample)
    requires cfg.Valid()
    ensures Window(cfg, stored, s) == [s] + Take(SortBy(OfMonitor(stored, s.monitorId), Samples.Newer), cfg.SampleWindow() - 1)
  {
    hide SortBy, OfMonitor;
    TakenBehind(s, SortBy(OfMonitor(stored, s.monitorId), Samples.Newer), cfg.SampleWindow());
  }

  // ---- What is shown of a zone --------------------------------------------------------------------

  // One for an alert of the zone that is open or escalated.
  function StillActive(zoneId: string): CleanAlert -> int {
    (a: CleanAlert) => if a.zoneId == zoneId && (a.status == Open || a.status == Escalated) then 1 else 0
  }

  // One for a log that was not restored.
  function NotRestored(l: InterlockLog): int {
    match l.restoredAt
    case None => 1
    case Some(_) => 0
  }

  lemma {:induction false} ActiveCounted(s: seq<CleanAlert>, zoneId: string)
    ensures CountOf(ActiveOwners(s), zoneId) == Sum(s, StillActive(zoneId))
  {
    if s != [] {
      var front, last := s[..|s| - 1], s[|s| - 1];
      ActiveCounted(front, zoneId);
      CountOfAppend(ActiveOwners(front), last.zoneId, zoneId);
    }
  }

  // The monitor zone is shown with its latest sample and the invalid share of its latest readings.
  ghost predicate PointShown(cfg: Config, samples: seq<EnvSample>, v: OverviewMonitorZone)
    requires cfg.Valid()
  {
    var own := OfMonitor(samples, v.monitor.id);
    && (v.latest.None? <==> own == []) && (v.latest.Some? ==> IsLatest(v.latest.value, own))
    && exists chosen :: LatestOf(chosen, own, cfg.SampleWindow()) && v.invalidRatio == InvalidRatio(chosen)
  }

  lemma PointIsShown(cfg: Config, samples: seq<EnvSample>, m: MonitorZone)
    requires cfg.Valid()
    ensures PointShown(cfg, samples, ViewMonitor(cfg, samples, m))
  {
    hide OfMonitor, SortBy, IsLatest, InvalidRatio, LatestOf;
    var own := OfMonitor(samples, m.id);
    LatestIsShown(cfg, samples, m);
    RecentIsTaken(samples, m.id, cfg.SampleWindow());
    TakenAreLatest(own, cfg.SampleWindow());
  }

  // The zone is shown as it is stored, with its active alerts and its monitor zones.
  ghost predicate ZoneShown(cfg: Config, st: State, x: OverviewZone, z: CleanZone)
    requires cfg.Valid()
  {
    && x.zone == z && x.area == z.area && (x.interlocked <==> z.status == Interlocked)
    && x.activeAlerts == Sum(st.alerts, StillActive(z.id))
    && (forall m :: m in st.monitors && m.zoneId == z.id <==> exists v :: v in x.monitors && v.monitor == m)
    && (forall v :: v in x.monitors ==> PointShown(cfg, st.samples, v))
  }

  /** Every stored zone is shown as it is, with the number of its active alerts and all of its monitor zones. */
  lemma ZoneIsShown(cfg: Config, st: State, z: CleanZone)
    requires cfg.Valid()
    ensures ZoneShown(cfg, st, ViewZone(cfg, st, z), z)
  {
    ActiveCounted(st.alerts, z.id);
    ActiveByZoneCounts(st.alerts, z.id);
    var own := OfZone(st.monitors, z.id);
    var views := ViewMonitors(cfg, st.samples, own);
    SortKeepsMembers(views, MonitorBefore);
    hide Sum, SortBy, PointShown, OfMonitor, Recent, InvalidRatio, CountOf, ActiveOwners, ActiveByZone, Lookup;
    var x := ViewZone(cfg, st, z);
    forall v | v in x.monitors
      ensures PointShown(cfg, st.samples, v) && v.monitor in own
    {
      assert v in views;
      var k :| 0 <= k < |views| && views[k] == v;
      PointIsShown(cfg, st.samples, own[k]);
      assert own[k] in own;
    }
    forall m | m in own
      ensures exists v :: v in x.monitors && v.monitor == m
    {
      var k :| 0 <= k < |own| && own[k] == m;
      assert views[k] in views && views[k].monitor == m;
    }
  }

  /**
   The overview shows every stored zone and nothing else, each as it is, and counts the zones, the monitor zones and
   the logs that were not restored.
   */
  lemma OverviewIsWhatIsStored(cfg: Config, st: State, x: OverviewZone)
    requires cfg.Valid()
    ensures var v := View(cfg, st);
            && v.totalZones == |st.zones| && v.totalMonitors == |st.monitors| && v.openInterlocks == Sum(st.logs, NotRestored)
            && (x in v.zones ==> exists z :: z in st.zones && ZoneShown(cfg, st, x, z))
            && (forall z :: z in st.zones ==> exists y :: y in v.zones && ZoneShown(cfg, st, y, z))
  {
    ListedById(cfg, st, x);
    OpenCounted(st.logs);
    var v := View(cfg, st);
    hide ViewZone, ZoneShown, SortedBy, View;
    if x in v.zones {
      var z :| z in st.zones && x == ViewZone(cfg, st, z);
      ZoneIsShown(cfg, st, z);
    }
    forall z | z in st.zones
      ensures exists y :: y in v.zones && ZoneShown(cfg, st, y, z)
    {
      var y := ViewZone(cfg, st, z);
      ListedById(cfg, st, y);
      ZoneIsShown(cfg, st, z);
    }
    ViewTotals(cfg, st);
  }

  lemma ViewTotals(cfg: Config, st: State)
    ensures var v := View(cfg, st);
            v.totalZones == |st.zones| && v.totalMonitors == |st.monitors| && v.openInterlocks == Sum(st.logs, OpenUnit)
  {
    hide ViewZones, SortBy, Sum, MapTotal;
  }

  lemma {:induction false} OpenCounted(logs: seq<InterlockLog>)
    ensures Sum(logs, OpenUnit) == Sum(logs, NotRestored)
  {
    if logs != [] {
      OpenCounted(logs[..|logs| - 1]);
    }
  }

  // ---- Listings ---------------------------------------------------------------------------------

  /** Alerts, logs and samples are listed newest first by creation, issue and report time. */
  lemma NewestFirst(alerts: seq<CleanAlert>, logs: seq<InterlockLog>, samples: seq<EnvSample>)
    ensures var s := SortBy(alerts, Alerts.Newer); forall i, j :: 0 <= i < j < |s| ==> s[i].createdAt >= s[j].createdAt
    ensures var s := SortBy(logs, Interlocks.Newer); forall i, j :: 0 <= i < j < |s| ==> s[i].issuedAt >= s[j].issuedAt
    ensures var s := SortBy(samples, Samples.Newer); forall i, j :: 0 <= i < j < |s| ==> s[i].timestamp >= s[j].timestamp
  {
    SortSorts(alerts, Alerts.Newer);
    SortSorts(logs, Interlocks.Newer);
    SortSorts(samples, Samples.Newer);
    hide SortBy;
  }
}
