/** The promises of the interlock protocol over whole runs. */
module InterlockTheorems {
  import opened Types
  import opened Sequences
  import opened Config
  import opened Zones
  import opened Monitors
  import opened Interlocks
  import opened Samples
  import opened Alerts
  import opened State
  import opened WellFormedness
  import opened Runs
  import opened Plants
  import opened InterlockInvariants
  import opened Evolution

  // ---- The latest ratio -------------------------------------------------------------------------

  // The ratio of the last valid reading any monitor zone of the zone reported in the run, 0 if none.
  ghost function LastRatio(cfg: Config, run: seq<Step>, zoneId: string): real {
    if run == [] then 0.0
    else
      var front, last := run[..|run| - 1], run[|run| - 1];
      var j := if last.Report? then Judge(Exec(cfg, front), last.req, last.now) else Unknown;
      if j.Judged? && j.valid && j.zone.id == zoneId then j.ratio else LastRatio(cfg, front, zoneId)
  }

  ghost function RatioAt(zs: seq<CleanZone>, zoneId: string): real {
    var z := FindZone(zs, zoneId);
    if z.Some? then z.value.ratio else 0.0
  }

  // Same ids and ratios, possibly with new zones of ratio zero behind.
  ghost predicate RatiosKept(a: seq<CleanZone>, b: seq<CleanZone>) {
    && |a| <= |b|
    && (forall i :: 0 <= i < |a| ==> a[i].id == b[i].id && a[i].ratio == b[i].ratio)
    && (forall i :: |a| <= i < |b| ==> b[i].ratio == 0.0)
  }

  lemma RatiosKeptMeans(a: seq<CleanZone>, b: seq<CleanZone>, zoneId: string)
    requires RatiosKept(a, b)
    ensures RatioAt(a, zoneId) == RatioAt(b, zoneId)
  {
    var i, j := ZoneIndex(a, zoneId), ZoneIndex(b, zoneId);
    assert i < |a| ==> b[i].id == zoneId;
    assert j < |a| ==> a[j].id == zoneId;
  }

  lemma MovePlantRatio(cfg: Config, st: State, z: CleanZone, m: MonitorZone, ratio: real, now: Time, zoneId: string)
    requires UniqueZones(st.zones) && FindZone(st.zones, z.id) == Some(z)
    ensures RatioAt(MovePlant(cfg, st, z, m, ratio, now).zones, zoneId) ==
            if zoneId == z.id then ratio else RatioAt(st.zones, zoneId)
  {
    hide MoveZone, UniqueZones, RatioAt, RatiosKept, RecordRatio, FindZone;
    var moved := MoveZone(cfg, st, z, m, ratio, now);
    MoveZoneKeepsRatios(cfg, st, z, m, ratio, now);
    RatiosKeptMeans(st.zones, moved.zones, zoneId);
    RecordedRatioAt(moved.zones, z.id, ratio, now, zoneId);
  }

  lemma MoveZoneKeepsRatios(cfg: Config, st: State, z: CleanZone, m: MonitorZone, ratio: real, now: Time)
    requires FindZone(st.zones, z.id) == Some(z)
    ensures var next := MoveZone(cfg, st, z, m, ratio, now);
            RatiosKept(st.zones, next.zones) && FindZone(next.zones, z.id).Some?
  {
    hide Ventilate, LogFor, TargetStatusFromRatio, InterlockArea, PutZone, FindZone, RatiosKept;
    var target := TargetStatusFromRatio(z.status, ratio, cfg.overLimitRatio);
    SameRatios(st.zones);
    InterlockRatios(st.zones, z.area, now);
    FoundInterlocked(st.zones, z, now);
    PutRatios(st.zones, z, target, now);
    FoundPut(st.zones, z, target, now);
  }

  lemma InterlockRatios(zs: seq<CleanZone>, area: string, now: Time)
    ensures RatiosKept(zs, InterlockArea(zs, area, now))
  {
  }

  lemma PutRatios(zs: seq<CleanZone>, z: CleanZone, next: ZoneStatus, now: Time)
    requires FindZone(zs, z.id) == Some(z)
    ensures RatiosKept(zs, PutZone(zs, z.SetStatus(next, now)))
  {
  }

  lemma RecordedRatioAt(zs: seq<CleanZone>, id: string, ratio: real, now: Time, zoneId: string)
    requires FindZone(zs, id).Some?
    ensures RatioAt(RecordRatio(zs, id, ratio, now), zoneId) == if zoneId == id then ratio else RatioAt(zs, zoneId)
  {
    SameIndex(zs, RecordRatio(zs, id, ratio, now));
  }

  lemma SweepRatios(st: State, candidates: seq<CleanZone>, now: Time)
    ensures RatiosKept(st.zones, SweepFrom(st, candidates, now).zones)
  {
    hide SweepFrom;
    SweepShape(st, candidates, now);
  }

  lemma OtherStepsKeepRatios(cfg: Config, st: State, step: Step)
    requires PlantOk(st) && !step.Report?
    ensures RatiosKept(st.zones, Apply(cfg, st, step).zones)
  {
    hide PlantOk, SweepFrom, Candidates, Issue, Restore, RatiosKept;
    match step
    case AddZone(_, _, _, _, _, _) => AddZoneRatios(cfg, st, step);
    case Interlock(_, zoneId, trigger, reason, ratio) =>
      IssueRatios(st, zoneId, ManualTrigger(st, zoneId, trigger), ManualReason(reason), ManualRatio(ratio), step.now);
    case Confirm(_, zoneId, operator, note) =>
      RestoreRatios(st, zoneId, operator, note, step.now);
      SameRatios(st.zones);
    case SweepZones(_, tick) => SweepRatios(st, Candidates(cfg, st.zones, tick), step.now);
    case _ =>
      QuietSteps(cfg, st, step);
      SameRatios(st.zones);
  }

  lemma SameRatios(zs: seq<CleanZone>)
    ensures RatiosKept(zs, zs)
  {
  }

  lemma AddZoneRatios(cfg: Config, st: State, step: Step)
    requires step.AddZone?
    ensures RatiosKept(st.zones, Apply(cfg, st, step).zones)
  {
    hide CleanZone.Valid, ZoneIndex;
  }

  lemma IssueRatios(st: State, zoneId: string, trigger: string, reason: string, ratio: real, now: Time)
    ensures RatiosKept(st.zones, Issue(st, zoneId, trigger, reason, ratio, now).0.zones)
  {
    hide Ventilate, LogFor, ZoneIndex;
  }

  lemma RestoreRatios(st: State, zoneId: string, operator: string, note: string, now: Time)
    ensures RatiosKept(st.zones, Restore(st, zoneId, operator, note, now).0.zones)
  {
    hide CloseArea, InArea, RestoredOnly, ZoneIndex;
  }

  // The steps that do not touch the zones at all.
  lemma QuietSteps(cfg: Config, st: State, step: Step)
    requires !step.AddZone? && !step.Report? && !step.Interlock? && !step.Confirm? && !step.SweepZones?
    ensures Apply(cfg, st, step).zones == st.zones
  {
    hide MonitorZone.Valid, CounterTaken, ZoneIndex, MonitorIndex, AlertIndex, EscalateAll;
  }

  /** Only a valid reading changes a latest ratio, and only that of its own zone. */
  lemma RatioStep(cfg: Config, st: State, step: Step, zoneId: string)
    requires PlantOk(st)
    ensures var j := if step.Report? then Judge(st, step.req, step.now) else Unknown;
            RatioAt(Apply(cfg, st, step).zones, zoneId) ==
            if j.Judged? && j.valid && j.zone.id == zoneId then j.ratio else RatioAt(st.zones, zoneId)
  {
    hide PlantOk, MonitorIndex, RatioAt, MovePlant, RatioOf, ProcessSample;
    if step.Report? {
      ReportOnPlant(cfg, st, step.req, step.now);
      var j := Judge(st, step.req, step.now);
      if j.Judged? && j.valid {
        PlantHasUniqueZones(st);
        MovePlantRatio(cfg, st, j.zone, j.monitor, j.ratio, step.now, zoneId);
      }
    } else {
      OtherStepsKeepRatios(cfg, st, step);
      hide Apply;
      RatiosKeptMeans(st.zones, Apply(cfg, st, step).zones, zoneId);
    }
  }

  lemma PlantHasUniqueZones(st: State)
    requires PlantOk(st)
    ensures UniqueZones(st.zones)
  {
  }

  /** The stored ratio of every zone is the ratio of the last valid reading on any of its monitor zones. */
  lemma {:induction false} StoredRatioIsLast(cfg: Config, run: seq<Step>, zoneId: string)
    requires cfg.Valid() && Clocked(run)
    ensures RatioAt(Exec(cfg, run).zones, zoneId) == LastRatio(cfg, run, zoneId)
  {
    hide Apply, Judge, RatioAt;
    if run != [] {
      var front, last := run[..|run| - 1], run[|run| - 1];
      StoredRatioIsLast(cfg, front, zoneId);
      ReachableSound(cfg, front, last.now);
      RatioStep(cfg, Exec(cfg, front), last, zoneId);
    } else {
      EmptyHasNoRatio(zoneId);
    }
  }

  lemma EmptyHasNoRatio(zoneId: string)
    ensures RatioAt([], zoneId) == 0.0
  {
  }

  // ---- What a reading does to its zone ------------------------------------------------------------

  lemma MovedZone(cfg: Config, st: State, z: CleanZone, m: MonitorZone, ratio: real, now: Time)
    requires cfg.Valid() && FindZone(st.zones, z.id) == Some(z)
    ensures var after := FindZone(MoveZone(cfg, st, z, m, ratio, now).zones, z.id);
            && after.Some?
            && after.value.status == (if ratio >= cfg.overLimitRatio || z.status == Interlocked then Interlocked
                                      else if ratio >= 1.0 then Elevated else Normal)
            && (after.value.status != z.status <==> MoveChanged(cfg, z, ratio))
  {
    hide FindZone, PutZone, InterlockArea, Ventilate, LogFor;
    FoundInterlocked(st.zones, z, now);
    FoundPut(st.zones, z, TargetStatusFromRatio(z.status, ratio, cfg.overLimitRatio), now);
  }

  lemma FoundInterlocked(zs: seq<CleanZone>, z: CleanZone, now: Time)
    requires FindZone(zs, z.id) == Some(z)
    ensures FindZone(InterlockArea(zs, z.area, now), z.id) == Some(z.SetStatus(Interlocked, now))
  {
    SameIndex(zs, InterlockArea(zs, z.area, now));
  }

  lemma FoundPut(zs: seq<CleanZone>, z: CleanZone, next: ZoneStatus, now: Time)
    requires FindZone(zs, z.id) == Some(z)
    ensures FindZone(PutZone(zs, z.SetStatus(next, now)), z.id) == Some(z.SetStatus(next, now))
  {
    var after := PutZone(zs, z.SetStatus(next, now));
    assert SameLayout(zs, after);
    SameIndex(zs, after);
  }

  /**
   A valid reading decides the status of its zone: interlocked from the over-limit ratio on, and while it was
   interlocked before; otherwise elevated from ratio 1 on and normal below, wherever it came from. The result
   reports a change exactly when there was one.
   */
  lemma ReadingDecidesStatus(cfg: Config, st: State, req: IngestRequest, now: Time)
    requires cfg.Valid() && Judge(st, req, now).Judged?
    ensures var (next, r) := ProcessSample(cfg, st, req, now);
            var j := Judge(st, req, now);
            var after := FindZone(next.zones, j.zone.id);
            && r.Ok? && after == Some(r.value.zone)
            && (j.valid ==>
                  && after.value.ratio == j.ratio == r.value.ratio
                  && after.value.status == (if j.ratio >= cfg.overLimitRatio || j.zone.status == Interlocked then Interlocked
                                            else if j.ratio >= 1.0 then Elevated else Normal))
            && (!j.valid ==> after.value == j.zone)
            && (r.value.stateChanged <==> after.value.status != j.zone.status)
  {
    var j := Judge(st, req, now);
    ReportOnPlant(cfg, st, req, now);
    RatioReturned(cfg, st, req, now);
    JudgedIsFound(st, req, now);
    hide ProcessSample, RatioOf, MoveZone, MoveChanged, Judge, FindZone, RecordRatio;
    MovedZone(cfg, st, j.zone, j.monitor, j.ratio, now);
    var moved := MoveZone(cfg, st, j.zone, j.monitor, j.ratio, now);
    RecordedRatio(moved.zones, j.zone.id, j.ratio, now);
  }

  lemma JudgedIsFound(st: State, req: IngestRequest, now: Time)
    requires Judge(st, req, now).Judged?
    ensures var z := Judge(st, req, now).zone; FindZone(st.zones, z.id) == Some(z)
  {
    hide RatioOf;
  }

  lemma RecordedRatio(zs: seq<CleanZone>, id: string, ratio: real, now: Time)
    requires FindZone(zs, id).Some?
    ensures var before, after := FindZone(zs, id).value, FindZone(RecordRatio(zs, id, ratio, now), id);
            after.Some? && after.value.status == before.status && after.value.ratio == ratio
  {
    SameIndex(zs, RecordRatio(zs, id, ratio, now));
  }

  lemma RatioReturned(cfg: Config, st: State, req: IngestRequest, now: Time)
    requires Judge(st, req, now).Judged?
    ensures var (next, r) := ProcessSample(cfg, st, req, now);
            var j := Judge(st, req, now);
            && r.Ok? && r.value.zone == (var z := FindZone(next.zones, j.zone.id); if z.Some? then z.value else j.zone)
            && r.value.ratio == (if j.valid then j.ratio else 0.0)
            && r.value.stateChanged == (j.valid && MoveChanged(cfg, j.zone, j.ratio))
            && r.value.interlock == (if j.valid then MoveLog(cfg, st, j.zone, j.monitor, j.ratio, now) else None)
  {
    hide ZoneIndex, MonitorIndex, ActOn, SignalQuality, AppendSample, RatioOf, MoveChanged, MoveLog;
    var j := Judge(st, req, now);
    var p := Started(st, j.zone, j.monitor, req, now);
    var s := Classified(p.res.sample);
    var acted := if s.valid then ActOn(cfg, p, j.zone, j.monitor, s, now) else p;
    ActReturned(cfg, p, j.zone, j.monitor, s, now);
    QualityReturned(cfg, acted, j.zone, j.monitor, s, now);
    LogLike(cfg, p.st, st, j.zone, j.monitor, j.ratio, now);
  }

  lemma LogLike(cfg: Config, a: State, b: State, z: CleanZone, m: MonitorZone, ratio: real, now: Time)
    requires a.zones == b.zones && Issued(a.seqs, INTERLOCK_IDS) == Issued(b.seqs, INTERLOCK_IDS)
    ensures MoveLog(cfg, a, z, m, ratio, now) == MoveLog(cfg, b, z, m, ratio, now)
  {
  }

  // The part of a result that alerts have no say in.
  ghost predicate SameVerdict(a: IngestResult, b: IngestResult) {
    a.zone == b.zone && a.ratio == b.ratio && a.stateChanged == b.stateChanged && a.interlock == b.interlock
  }

  lemma SignalReturned(cfg: Config, p: Progress, bad: bool, zoneId: string, monitorId: string, kind: AlertType,
                       level: AlertLevel, message: Message, sampleId: string, now: Time)
    ensures SameVerdict(Signal(cfg, p, bad, zoneId, monitorId, kind, level, message, sampleId, now).res, p.res)
  {
    hide Raise, Resolve, Select, Sum;
  }

  lemma ActReturned(cfg: Config, p: Progress, z: CleanZone, m: MonitorZone, s: EnvSample, now: Time)
    ensures var res, ratio := ActOn(cfg, p, z, m, s, now).res, RatioOf(z, m, s.count03, s.count05);
            && res.zone == p.res.zone && res.ratio == ratio && res.stateChanged == MoveChanged(cfg, z, ratio)
            && res.interlock == MoveLog(cfg, p.st, z, m, ratio, now)
  {
    hide MovePlant, MoveLog, MoveChanged, RatioOf, Signal;
    forall q: Progress, bad, zoneId, monitorId, kind, level, message, sampleId
      ensures SameVerdict(Signal(cfg, q, bad, zoneId, monitorId, kind, level, message, sampleId, now).res, q.res)
    {
      SignalReturned(cfg, q, bad, zoneId, monitorId, kind, level, message, sampleId, now);
    }
  }

  lemma QualityReturned(cfg: Config, p: Progress, z: CleanZone, m: MonitorZone, s: EnvSample, now: Time)
    ensures SameVerdict(SignalQuality(cfg, p, z, m, s, now).res, p.res)
  {
    hide Window, CredibilityLost, InvalidRatio, Signal;
    forall q: Progress, bad, zoneId, monitorId, kind, level, message, sampleId
      ensures SameVerdict(Signal(cfg, q, bad, zoneId, monitorId, kind, level, message, sampleId, now).res, q.res)
    {
      SignalReturned(cfg, q, bad, zoneId, monitorId, kind, level, message, sampleId, now);
    }
  }

  // ---- The sweep --------------------------------------------------------------------------------

  ghost predicate Hit(candidates: seq<CleanZone>, area: string) {
    exists i :: 0 <= i < |candidates| && candidates[i].area == area
  }

  ghost predicate Located(zs: seq<CleanZone>, candidates: seq<CleanZone>) {
    forall i :: 0 <= i < |candidates| ==>
      FindZone(zs, candidates[i].id).Some? && FindZone(zs, candidates[i].id).value.area == candidates[i].area
  }

  // Every zone in an area that held a candidate is interlocked, every other zone is as before.
  ghost predicate Struck(a: seq<CleanZone>, b: seq<CleanZone>, candidates: seq<CleanZone>, now: Time) {
    |a| == |b| && forall i :: 0 <= i < |a| ==>
      b[i] == if Hit(candidates, a[i].area) then a[i].SetStatus(Interlocked, now) else a[i]
  }

  // The log a candidate leaves behind.
  predicate LogOf(l: InterlockLog, z: CleanZone, now: Time) {
    l.zoneId == z.id && l.area == z.area && l.reason == AUTO_REASON && l.issuedAt == now && l.IsOpen()
    && l.peakRatio == SweepRatio(z) && l.level == LevelForRatio(SweepRatio(z))
  }

  // One log per candidate, in order, behind the logs there were.
  ghost predicate OneLogEach(a: seq<InterlockLog>, b: seq<InterlockLog>, candidates: seq<CleanZone>, now: Time) {
    && |b| == |a| + |candidates| && a <= b
    && forall i :: 0 <= i < |candidates| ==> LogOf(b[|a| + i], candidates[i], now)
  }

  // What a sweep does for one candidate.
  function Strike(st: State, z: CleanZone, now: Time): State {
    Issue(st, z.id, FirstMonitor(st.monitors, z.id), AUTO_REASON, SweepRatio(z), now).0
  }

  lemma SweepUnfolds(st: State, candidates: seq<CleanZone>, now: Time)
    requires candidates != []
    ensures SweepFrom(st, candidates, now) == SweepFrom(Strike(st, candidates[0], now), candidates[1..], now)
  {
    hide Issue, FirstMonitor, SweepRatio;
  }

  lemma StrikeIssues(st: State, z: CleanZone, now: Time)
    requires Located(st.zones, [z])
    ensures var next := Strike(st, z, now);
            && next.zones == InterlockArea(st.zones, z.area, now)
            && |next.logs| == |st.logs| + 1 && st.logs <= next.logs && LogOf(next.logs[|st.logs|], z, now)
  {
    assert [z][0] == z;
    hide Located, InterlockArea, Ventilate, FirstMonitor, InArea, ZoneIds, NextId, Bump, LevelForRatio, SweepRatio, ZoneIndex;
  }

  lemma StillLocated(zs: seq<CleanZone>, area: string, candidates: seq<CleanZone>, now: Time)
    requires Located(zs, candidates)
    ensures Located(InterlockArea(zs, area, now), candidates)
  {
    SameIndex(zs, InterlockArea(zs, area, now));
  }

  lemma StruckAgain(a: seq<CleanZone>, c: seq<CleanZone>, candidates: seq<CleanZone>, now: Time)
    requires candidates != [] && Struck(InterlockArea(a, candidates[0].area, now), c, candidates[1..], now)
    ensures Struck(a, c, candidates, now)
  {
    HitSplits(candidates);
    hide Hit;
  }

  lemma {:induction false} SweepStrikes(st: State, candidates: seq<CleanZone>, now: Time)
    requires Located(st.zones, candidates)
    ensures var next := SweepFrom(st, candidates, now);
            Struck(st.zones, next.zones, candidates, now) && OneLogEach(st.logs, next.logs, candidates, now)
    decreases |candidates|
  {
    if candidates == [] {
    } else {
      var z, rest := candidates[0], candidates[1..];
      assert Located(st.zones, [z]) && Located(st.zones, rest);
      hide Struck, OneLogEach, Located, Strike, LogOf, InterlockArea;
      var next := Strike(st, z, now);
      StrikeIssues(st, z, now);
      StillLocated(st.zones, z.area, rest, now);
      SweepStrikes(next, rest, now);
      SweepUnfolds(st, candidates, now);
      StruckAgain(st.zones, SweepFrom(next, rest, now).zones, candidates, now);
      LogsSplit(st.logs, next.logs, SweepFrom(next, rest, now).logs, candidates, now);
    }
  }

  lemma HitSplits(candidates: seq<CleanZone>)
    requires candidates != []
    ensures forall area :: Hit(candidates, area) <==> candidates[0].area == area || Hit(candidates[1..], area)
  {
    forall area
      ensures Hit(candidates, area) <==> candidates[0].area == area || Hit(candidates[1..], area)
    {
      if Hit(candidates, area) {
        var i :| 0 <= i < |candidates| && candidates[i].area == area;
        assert i > 0 ==> candidates[1..][i - 1] == candidates[i];
      }
      if Hit(candidates[1..], area) {
        var i :| 0 <= i < |candidates[1..]| && candidates[1..][i].area == area;
        assert candidates[i + 1].area == area;
      }
    }
  }

  lemma LogsSplit(a: seq<InterlockLog>, b: seq<InterlockLog>, c: seq<InterlockLog>, candidates: seq<CleanZone>, now: Time)
    requires candidates != [] && |b| == |a| + 1 && a <= b && LogOf(b[|a|], candidates[0], now)
    requires OneLogEach(b, c, candidates[1..], now)
    ensures OneLogEach(a, c, candidates, now)
  {
    hide LogOf;
    forall i | 0 <= i < |candidates|
      ensures LogOf(c[|a| + i], candidates[i], now)
    {
      if i == 0 {
        assert c[|a|] == b[|a|];
      } else {
        assert candidates[1..][i - 1] == candidates[i];
        assert LogOf(c[|b| + (i - 1)], candidates[1..][i - 1], now);
      }
    }
  }

  lemma CandidatesLocated(cfg: Config, zs: seq<CleanZone>, tick: Time)
    requires UniqueZones(zs)
    ensures Located(zs, Candidates(cfg, zs, tick))
  {
    var cs := Candidates(cfg, zs, tick);
    forall i | 0 <= i < |cs|
      ensures FindZone(zs, cs[i].id) == Some(cs[i])
    {
      assert cs[i] in cs;
      var k :| 0 <= k < |zs| && zs[k] == cs[i];
      UniqueAt(zs, k, ZoneIndex(zs, zs[k].id));
    }
  }

  lemma {:induction false} NoCandidates(cfg: Config, zs: seq<CleanZone>, tick: Time)
    requires forall i :: 0 <= i < |zs| ==> !Overdue(cfg, zs[i], tick)
    ensures Candidates(cfg, zs, tick) == []
  {
    if zs != [] {
      NoCandidates(cfg, zs[..|zs| - 1], tick);
    }
  }

  // In a reachable state every candidate is elevated, so its ratio needs no clamp.
  lemma CandidateRatios(cfg: Config, zs: seq<CleanZone>, cs: seq<CleanZone>, tick: Time, now: Time)
    requires ZonesCoupled(cfg, zs, now) && cs == Candidates(cfg, zs, tick)
    ensures forall i :: 0 <= i < |cs| ==> SweepRatio(cs[i]) == cs[i].ratio < cfg.overLimitRatio
  {
    forall i | 0 <= i < |cs|
      ensures 1.0 <= cs[i].ratio < cfg.overLimitRatio
    {
      assert cs[i] in cs;
      var k :| 0 <= k < |zs| && zs[k] == cs[i];
      CoupledAt(cfg, zs, now, k);
    }
  }

  lemma NothingLeftOverdue(cfg: Config, a: seq<CleanZone>, b: seq<CleanZone>, tick: Time, now: Time)
    requires Struck(a, b, Candidates(cfg, a, tick), now)
    ensures Candidates(cfg, b, tick) == []
  {
    var cs := Candidates(cfg, a, tick);
    forall i | 0 <= i < |b|
      ensures !Overdue(cfg, b[i], tick)
    {
      if Overdue(cfg, a[i], tick) {
        assert a[i] in cs;
        var k :| 0 <= k < |cs| && cs[k] == a[i];
        assert Hit(cs, a[i].area);
      }
    }
    NoCandidates(cfg, b, tick);
  }

  predicate LevelOneFrom(logs: seq<InterlockLog>, n: nat) {
    forall i :: n <= i < |logs| ==> logs[i].level == 1
  }

  /**
   A sweep is complete, exact and idempotent: every zone of an area that held a candidate is interlocked and no
   other zone changes, each candidate leaves exactly one log, and sweeping again at the same tick does nothing.
   In a reachable state the clamp to 1.0 never changes a ratio, and the logs have level 1 when the over-limit
   ratio is at most 2.
   */
  lemma SweepIsExact(cfg: Config, st: State, tick: Time, now: Time)
    requires Sound(cfg, st, now)
    ensures var cs, next := Candidates(cfg, st.zones, tick), ZoneSweep(cfg, st, tick, now);
            && Struck(st.zones, next.zones, cs, now)
            && OneLogEach(st.logs, next.logs, cs, now)
            && (forall i :: 0 <= i < |cs| ==> SweepRatio(cs[i]) == cs[i].ratio)
            && (cfg.overLimitRatio <= 2.0 ==> LevelOneFrom(next.logs, |st.logs|))
            && Candidates(cfg, next.zones, tick) == []
            && forall later :: ZoneSweep(cfg, next, tick, later) == next
  {
    hide PlantOk, AreasAgree, SweepFrom, ZonesCoupled, UniqueZones, Located, Struck, OneLogEach, SweepRatio, LevelOneFrom;
    var cs, next := Candidates(cfg, st.zones, tick), ZoneSweep(cfg, st, tick, now);
    PlantHasUniqueZones(st);
    CandidatesLocated(cfg, st.zones, tick);
    CandidateRatios(cfg, st.zones, cs, tick, now);
    SweepStrikes(st, cs, now);
    NothingLeftOverdue(cfg, st.zones, next.zones, tick, now);
    SweepOfNone(next);
    if cfg.overLimitRatio <= 2.0 {
      forall i | 0 <= i < |cs|
        ensures SweepRatio(cs[i]) == cs[i].ratio < 2.0
      {
      }
      LevelsAreOne(st.logs, next.logs, cs, now);
    }
  }

  lemma LevelsAreOne(a: seq<InterlockLog>, b: seq<InterlockLog>, candidates: seq<CleanZone>, now: Time)
    requires OneLogEach(a, b, candidates, now)
    requires forall i :: 0 <= i < |candidates| ==> SweepRatio(candidates[i]) == candidates[i].ratio < 2.0
    ensures LevelOneFrom(b, |a|)
  {
    forall i | |a| <= i < |b|
      ensures b[i].level == 1
    {
      assert LogOf(b[|a| + (i - |a|)], candidates[i - |a|], now);
    }
  }

  lemma SweepOfNone(st: State)
    ensures forall now :: SweepFrom(st, [], now) == st
  {
  }
}
