/** The sliding window of the data-credibility rule, whatever the order of the report times. */
module SlidingWindow {
  import opened Types
  import opened Sequences
  import opened Config
  import opened Zones
  import opened Monitors
  import opened Samples
  import opened State
  import opened Runs
  import opened Plants
  import opened AlertTheorems
  import opened History
  import Iso

  // ---- Sorting the newest to the front ------------------------------------------------------------

  lemma InsertUnfolds(s: seq<EnvSample>, x: EnvSample)
    requires s != [] && Samples.Newer(x, s[|s| - 1])
    ensures InsertBy(s, x, Samples.Newer) == InsertBy(s[..|s| - 1], x, Samples.Newer) + [s[|s| - 1]]
  {
  }

  lemma InsertFirst(x: EnvSample)
    ensures InsertBy([], x, Samples.Newer) == [x]
  {
  }

  lemma {:induction false} InsertNewest(s: seq<EnvSample>, x: EnvSample)
    requires forall y :: y in s ==> Samples.Newer(x, y)
    ensures InsertBy(s, x, Samples.Newer) == [x] + s
  {
    hide InsertBy, Samples.Newer;
    if s == [] {
      InsertFirst(x);
    } else {
      var front, last := s[..|s| - 1], s[|s| - 1];
      assert last in s && forall y :: y in front ==> y in s;
      InsertNewest(front, x);
      InsertUnfolds(s, x);
      assert s == front + [last];
    }
  }

  lemma {:induction false} InsertedInFront(s: seq<EnvSample>, x: EnvSample)
    requires x !in s && InsertBy(s, x, Samples.Newer)[0] == x
    ensures forall y :: y in s ==> Samples.Newer(x, y)
  {
    if s != [] {
      var front, last := s[..|s| - 1], s[|s| - 1];
      assert s[0] in s && last in s;
      if Samples.Newer(x, last) {
        InsertUnfolds(s, x);
        assert x !in front;
        InsertedInFront(front, x);
        assert s == front + [last];
      }
    }
  }

  lemma ReverseUnfolds<T>(s: seq<T>)
    requires s != []
    ensures Reverse(s) == [s[|s| - 1]] + Reverse(s[..|s| - 1])
  {
  }

  // The last n readings are each strictly later than every reading recorded before them.
  ghost predicate RisesAtTheEnd(s: seq<EnvSample>, n: nat) {
    forall i, j :: 0 <= i < j < |s| && |s| - n <= j ==> s[i].timestamp < s[j].timestamp
  }

  ghost predicate Distinct(s: seq<EnvSample>) {
    forall i, j :: 0 <= i < j < |s| ==> s[i] != s[j]
  }

  lemma RisesUnfolds(s: seq<EnvSample>, n: nat)
    requires s != [] && n > 0
    ensures var front, last := s[..|s| - 1], s[|s| - 1];
            RisesAtTheEnd(s, n) <==> RisesAtTheEnd(front, n - 1) && forall y :: y in front ==> Samples.Newer(last, y)
  {
    var front, last := s[..|s| - 1], s[|s| - 1];
    if RisesAtTheEnd(s, n) {
      forall y | y in front
        ensures Samples.Newer(last, y)
      {
        var i :| 0 <= i < |front| && front[i] == y;
        assert s[i].timestamp < s[|s| - 1].timestamp;
      }
    }
    if RisesAtTheEnd(front, n - 1) && forall y :: y in front ==> Samples.Newer(last, y) {
      forall i, j | 0 <= i < j < |s| && |s| - n <= j
        ensures s[i].timestamp < s[j].timestamp
      {
        assert front[i] in front;
        assert j < |front| ==> front[i].timestamp < front[j].timestamp;
      }
    }
  }

  // Taking one more from the front of a turned sequence is keeping one more of its end.
  lemma TurnedUnfolds(s: seq<EnvSample>, t: seq<EnvSample>, n: nat)
    requires s != [] && n > 0
    ensures Reverse(Last(s, n)) == [s[|s| - 1]] + Reverse(Last(s[..|s| - 1], n - 1))
    ensures Take([s[|s| - 1]] + t, n) == [s[|s| - 1]] + Take(t, n - 1)
  {
    var own := Last(s, n);
    assert own[..|own| - 1] == Last(s[..|s| - 1], n - 1);
    ReverseUnfolds(own);
    hide Reverse;
  }

  lemma SameAfterHead<T>(x: T, a: seq<T>, b: seq<T>)
    ensures [x] + a == [x] + b <==> a == b
  {
    if [x] + a == [x] + b {
      assert a == ([x] + a)[1..] == ([x] + b)[1..] == b;
    }
  }

  lemma NothingTaken(s: seq<EnvSample>, t: seq<EnvSample>, n: nat)
    requires n == 0 || (s == [] && t == [])
    ensures Take(t, n) == [] && Reverse(Last(s, n)) == [] && RisesAtTheEnd(s, n)
  {
  }

  /**
   The first n of the sorted readings are the last n recorded, newest first, exactly when each of those is strictly
   later than every reading before it.
   */
  lemma {:induction false} FirstAreLast(s: seq<EnvSample>, n: nat)
    requires Distinct(s)
    ensures Take(SortBy(s, Samples.Newer), n) == Reverse(Last(s, n)) <==> RisesAtTheEnd(s, n)
  {
    hide SortBy, InsertBy, Reverse, Last, Take, RisesAtTheEnd, Samples.Newer;
    SortUnfolds(s, Samples.Newer);
    if n == 0 || s == [] {
      NothingTaken(s, SortBy(s, Samples.Newer), n);
    } else {
      var front, last := s[..|s| - 1], s[|s| - 1];
      var sorted := SortBy(front, Samples.Newer);
      FirstAreLast(front, n - 1);
      SortKeepsMembers(front, Samples.Newer);
      RisesUnfolds(s, n);
      TurnedUnfolds(s, sorted, n);
      if forall y :: y in front ==> Samples.Newer(last, y) {
        InsertNewest(sorted, last);
        SameAfterHead(last, Take(sorted, n - 1), Reverse(Last(front, n - 1)));
      } else {
        NotInFront(front, sorted, last, n);
      }
    }
  }

  lemma NotInFront(front: seq<EnvSample>, sorted: seq<EnvSample>, last: EnvSample, n: nat)
    requires n > 0 && last !in sorted && (forall y :: y in front ==> y in sorted)
    requires exists y :: y in front && !Samples.Newer(last, y)
    ensures forall rest :: Take(InsertBy(sorted, last, Samples.Newer), n) != [last] + rest
  {
    var inserted := InsertBy(sorted, last, Samples.Newer);
    assert Take(inserted, n)[0] == inserted[0];
    if inserted[0] == last {
      InsertedInFront(sorted, last);
    }
  }

  // ---- The window ---------------------------------------------------------------------------------

  // How many readings the credibility rule can see at most.
  function Reach(cfg: Config): nat
    requires cfg.Valid()
  {
    if cfg.maxSamplesPerZone > 0 then Min(cfg.SampleWindow(), cfg.maxSamplesPerZone + 1) else cfg.SampleWindow()
  }

  // The n latest of some readings by report time, newest first; equal times keep the order of recording.
  ghost predicate LatestOf(chosen: seq<EnvSample>, own: seq<EnvSample>, n: nat) {
    && |chosen| == Min(n, |own|)
    && SortedBy(chosen, Samples.Newer)
    && (forall x :: Alike(chosen, x, Samples.Newer) <= Alike(own, x, Samples.Newer))
    && exists rest :: LeftOut(rest, chosen, own)
  }

  // What was not chosen is not newer than anything that was.
  ghost predicate LeftOut(rest: seq<EnvSample>, chosen: seq<EnvSample>, own: seq<EnvSample>) {
    && multiset(chosen) + multiset(rest) == multiset(own)
    && forall i, j :: 0 <= i < |chosen| && 0 <= j < |rest| ==> !Samples.Newer(rest[j], chosen[i])
  }

  lemma {:induction false} AlikePrefix(s: seq<EnvSample>, k: nat, x: EnvSample)
    requires k <= |s|
    ensures Alike(s[..k], x, Samples.Newer) <= Alike(s, x, Samples.Newer)
    decreases |s|
  {
    if k == |s| {
      assert s[..k] == s;
    } else {
      var front, last := s[..|s| - 1], s[|s| - 1];
      assert front[..k] == s[..k];
      AlikePrefix(front, k, x);
      hide Alike;
      AlikeUnfolds(front, last, x, Samples.Newer);
      assert s == front + [last];
    }
  }

  lemma NewerIsAnOrder()
    ensures Ordering(Samples.Newer)
  {
  }

  lemma SplitSorted(sorted: seq<EnvSample>, k: nat)
    requires SortedBy(sorted, Samples.Newer) && k <= |sorted|
    ensures SortedBy(sorted[..k], Samples.Newer) && LeftOut(sorted[k..], sorted[..k], sorted)
  {
    hide Samples.Newer;
    assert sorted == sorted[..k] + sorted[k..];
    assert multiset(sorted) == multiset(sorted[..k]) + multiset(sorted[k..]);
  }

  lemma TakenInOrder(own: seq<EnvSample>, k: nat, x: EnvSample)
    requires k <= |own|
    ensures Alike(SortBy(own, Samples.Newer)[..k], x, Samples.Newer) <= Alike(own, x, Samples.Newer)
  {
    hide Ordering, Alike, SortBy, Samples.Newer;
    NewerIsAnOrder();
    SortIsStable(own, x, Samples.Newer);
    AlikePrefix(SortBy(own, Samples.Newer), k, x);
  }

  lemma TakenAreLatest(own: seq<EnvSample>, n: nat)
    ensures LatestOf(Take(SortBy(own, Samples.Newer), n), own, n)
  {
    hide Ordering, Alike, SortedBy, SortBy, LeftOut, Samples.Newer;
    var sorted := SortBy(own, Samples.Newer);
    var k := |Take(sorted, n)|;
    NewerIsAnOrder();
    SortSorts(own, Samples.Newer);
    SplitSorted(sorted, k);
    assert Take(sorted, n) == sorted[..k];
    forall x
      ensures Alike(sorted[..k], x, Samples.Newer) <= Alike(own, x, Samples.Newer)
    {
      TakenInOrder(own, k, x);
    }
    LeftOutOfSame(sorted[k..], sorted[..k], sorted, own);
  }

  lemma LeftOutOfSame(rest: seq<EnvSample>, chosen: seq<EnvSample>, a: seq<EnvSample>, b: seq<EnvSample>)
    requires LeftOut(rest, chosen, a) && multiset(a) == multiset(b)
    ensures LeftOut(rest, chosen, b)
  {
  }

  /**
   Whatever the report times: the credibility window is the new reading followed by the W - 1 latest of the stored
   readings of its monitor zone, W being the window size.
   */
  lemma WindowHoldsTheLatest(cfg: Config, stored: seq<EnvSample>, s: EnvSample)
    requires cfg.Valid()
    ensures var window := Window(cfg, stored, s);
            window != [] && window[0] == s && LatestOf(window[1..], OfMonitor(stored, s.monitorId), cfg.SampleWindow() - 1)
  {
    var own, w := OfMonitor(stored, s.monitorId), cfg.SampleWindow();
    TakenAreLatest(own, w - 1);
    TakenBehind(s, SortBy(own, Samples.Newer), w);
    hide LatestOf, SortBy, OfMonitor;
  }

  lemma TakenBehind(s: EnvSample, sorted: seq<EnvSample>, w: nat)
    requires w > 0
    ensures Take([s] + Take(sorted, w), w) == [s] + Take(sorted, w - 1)
  {
  }

  lemma SpentAreDistinct(history: seq<EnvSample>, seqs: map<string, nat>, max: nat)
    requires IdsSpent(history, seqs)
    ensures Distinct(Bounded(history, max))
  {
    hide Unused;
  }

  lemma LastLength<T>(s: seq<T>, n: nat)
    ensures |Last(s, n)| == Min(|s|, n) && (|s| <= n ==> Last(s, n) == s)
  {
  }

  lemma LastOfLast(history: seq<EnvSample>, s: EnvSample, max: nat, w: nat)
    ensures Last(Last(history, max) + [s], w) == Last(history + [s], Min(w, max + 1))
  {
    var all := history + [s];
    if |history| > max {
      var dropped := |history| - max;
      var kept := Last(history, max) + [s];
      assert kept == all[dropped..];
      if w <= max {
        assert kept[max + 1 - w..] == all[dropped..][max + 1 - w..] == all[|all| - w..];
      }
    } else {
      LastLength(history, max);
    }
  }

  lemma ReachOfBounded(cfg: Config, history: seq<EnvSample>, s: EnvSample)
    requires cfg.Valid()
    ensures Last(Bounded(history, cfg.maxSamplesPerZone) + [s], cfg.SampleWindow()) == Last(history + [s], Reach(cfg))
    ensures |Last(history + [s], Reach(cfg))| == |Last(history + [s], cfg.SampleWindow())| <==> Suffices(cfg, |history|)
    ensures Suffices(cfg, |history|) ==> Last(history + [s], Reach(cfg)) == Last(history + [s], cfg.SampleWindow())
  {
    hide Last;
    LastOfLast(history, s, cfg.maxSamplesPerZone, cfg.SampleWindow());
    LastLength(history + [s], Reach(cfg));
    LastLength(history + [s], cfg.SampleWindow());
  }

  // The store keeps everything, keeps at least W - 1 readings, or has not dropped any of these yet.
  predicate Suffices(cfg: Config, recorded: nat) {
    cfg.maxSamplesPerZone == 0 || cfg.maxSamplesPerZone >= cfg.SampleWindow() - 1 || recorded <= cfg.maxSamplesPerZone
  }

  lemma RecentIsTaken(stored: seq<EnvSample>, monitorId: string, limit: nat)
    requires limit > 0
    ensures Recent(stored, monitorId, limit) == Take(SortBy(OfMonitor(stored, monitorId), Samples.Newer), limit)
  {
  }

  lemma WindowTurns(cfg: Config, stored: seq<EnvSample>, s: EnvSample)
    requires cfg.Valid() && Distinct(OfMonitor(stored, s.monitorId))
    ensures var own, w := OfMonitor(stored, s.monitorId), cfg.SampleWindow();
            Window(cfg, stored, s) == Reverse(Last(own + [s], w)) <==> RisesAtTheEnd(own, w - 1)
  {
    var own, w := OfMonitor(stored, s.monitorId), cfg.SampleWindow();
    var sorted := SortBy(own, Samples.Newer);
    hide SortBy, Reverse, Last, Take, RisesAtTheEnd, OfMonitor, Distinct;
    FirstAreLast(own, w - 1);
    TakenBehind(s, sorted, w);
    RecentIsTaken(stored, s.monitorId, w);
    assert (own + [s])[..|own|] == own;
    TurnedUnfolds(own + [s], [], w);
    SameAfterHead(s, Take(sorted, w - 1), Reverse(Last(own, w - 1)));
  }

  /**
   When the window slides truly: the readings judged with a new one are the last ones recorded, newest first, exactly
   when each of the last W - 1 stored ones is strictly later than all stored before it, W being the window size. They
   are the last W exactly when, besides, the store keeps everything, keeps at least W - 1, or has dropped none yet.
   */
  lemma WindowSlides(cfg: Config, run: seq<Step>, s: EnvSample)
    requires cfg.Valid()
    ensures var history := Reported(cfg, run, s.monitorId) + [s];
            var stored, w := Exec(cfg, run).samples, cfg.SampleWindow();
            var rises := RisesAtTheEnd(OfMonitor(stored, s.monitorId), w - 1);
            && (Window(cfg, stored, s) == Reverse(Last(history, Reach(cfg))) <==> rises)
            && (Window(cfg, stored, s) == Reverse(Last(history, w)) <==> rises && Suffices(cfg, |history| - 1))
  {
    hide Exec, Reported, Window, Bounded, Distinct, IdsSpent, RisesAtTheEnd, Last, Reverse, OfMonitor, Suffices, Reach;
    var history, stored := Reported(cfg, run, s.monitorId), Exec(cfg, run).samples;
    StoredIsBounded(cfg, run, s.monitorId);
    ReportedIdsSpent(cfg, run, s.monitorId);
    SpentAreDistinct(history, Exec(cfg, run).seqs, cfg.maxSamplesPerZone);
    WindowTurns(cfg, stored, s);
    ReachOfBounded(cfg, history, s);
    WindowLength(cfg, stored, s);
    TurnedLength(Last(history + [s], cfg.SampleWindow()));
  }

  lemma WindowLength(cfg: Config, stored: seq<EnvSample>, s: EnvSample)
    requires cfg.Valid()
    ensures |Window(cfg, stored, s)| == |Last(OfMonitor(stored, s.monitorId) + [s], cfg.SampleWindow())|
  {
    hide SortBy, OfMonitor;
  }

  lemma TurnedLength(s: seq<EnvSample>)
    ensures |Reverse(s)| == |s|
  {
  }

  lemma {:induction false} InvalidReversed(s: seq<EnvSample>)
    ensures InvalidCount(Reverse(s)) == InvalidCount(s)
  {
    if s != [] {
      var last := s[|s| - 1];
      InvalidReversed(s[..|s| - 1]);
      SumAppend([last], Reverse(s[..|s| - 1]), InvalidUnit);
      assert Sum([last], InvalidUnit) == InvalidUnit(last) by { SumAdd([], last, InvalidUnit); assert [] + [last] == [last]; }
    }
  }

  /**
   The credibility flag of an accepted report is raised exactly when the invalid readings in its window exceed the
   threshold share, the window being the new reading and the W - 1 latest stored ones, whatever the report times.
   It is a verdict on the last readings recorded, the new one included, when the last W - 1 stored ones rise.
   */
  lemma CredibilityIsJudgedOnTheLast(cfg: Config, run: seq<Step>, req: IngestRequest, now: Time)
    requires cfg.Valid() && Judge(Exec(cfg, run), req, now).Judged?
    ensures var st := Exec(cfg, run);
            var r, s := ProcessSample(cfg, st, req, now).1, Judgeable(st, Judge(st, req, now).monitor, req, now);
            var own := OfMonitor(st.samples, req.monitorId);
            && r.Ok? && s.monitorId == req.monitorId
            && (exists chosen :: LatestOf(chosen, own, cfg.SampleWindow() - 1) && JudgedOn(cfg, r.value, [s] + chosen))
            && (RisesAtTheEnd(own, cfg.SampleWindow() - 1) ==>
                  JudgedOn(cfg, r.value, Last(Reported(cfg, run, req.monitorId) + [s], Reach(cfg))))
  {
    hide Exec, Reported, RisesAtTheEnd, ProcessSample, Window, Last, Reverse, Judge, LatestOf, OfMonitor, InvalidCount;
    var st := Exec(cfg, run);
    var s := Judgeable(st, Judge(st, req, now).monitor, req, now);
    OfItsMonitor(st, req, now);
    JudgedOnWindow(cfg, st, req, now);
    var window, seen := Window(cfg, st.samples, s), Last(Reported(cfg, run, req.monitorId) + [s], Reach(cfg));
    WindowHoldsTheLatest(cfg, st.samples, s);
    assert window == [s] + window[1..];
    WindowSlides(cfg, run, s);
    InvalidReversed(seen);
  }

  // Share and flag are those of these readings.
  predicate JudgedOn(cfg: Config, res: IngestResult, seen: seq<EnvSample>) {
    && res.invalidRatio == InvalidRatio(seen)
    && (res.credibilityLow <==> InvalidCount(seen) as real > cfg.invalidRatioThreshold * |seen| as real)
  }

  lemma OfItsMonitor(st: State, req: IngestRequest, now: Time)
    requires Judge(st, req, now).Judged?
    ensures Judgeable(st, Judge(st, req, now).monitor, req, now).monitorId == req.monitorId
  {
    hide RatioOf, Iso.StandardLimits;
  }

  lemma JudgedOnWindow(cfg: Config, st: State, req: IngestRequest, now: Time)
    requires Judge(st, req, now).Judged?
    ensures var r := ProcessSample(cfg, st, req, now).1;
            var window := Window(cfg, st.samples, Judgeable(st, Judge(st, req, now).monitor, req, now));
            r.Ok? && r.value.credibilityLow == CredibilityLost(cfg, window) && r.value.invalidRatio == InvalidRatio(window)
  {
    hide ActOn, Signal, AppendSample, ZoneIndex, MonitorIndex, RatioOf, Window, CredibilityLost, InvalidRatio, Reading, Classified;
    var j := Judge(st, req, now);
    var z, m := j.zone, j.monitor;
    var p := Started(st, z, m, req, now);
    var s := Classified(p.res.sample);
    ActLeavesSamples(cfg, p, z, m, s, now);
    var acted := if s.valid then ActOn(cfg, p, z, m, s, now) else p;
    QualityVerdict(cfg, acted, z, m, s, now);
    hide SignalQuality;
  }

  lemma QualityVerdict(cfg: Config, p: Progress, z: CleanZone, m: MonitorZone, s: EnvSample, now: Time)
    ensures var res, window := SignalQuality(cfg, p, z, m, s, now).res, Window(cfg, p.st.samples, s);
            res.credibilityLow == CredibilityLost(cfg, window) && res.invalidRatio == InvalidRatio(window)
  {
    hide Window, CredibilityLost, InvalidRatio, Raise, Resolve, Select, Sum;
  }
}
