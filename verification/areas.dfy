/** Issuing and restoring at the level of a physical area. */
module Areas {
  import opened Types
  import opened Sequences
  import opened Config
  import opened Zones
  import opened Monitors
  import opened Interlocks
  import opened State
  import opened WellFormedness
  import opened Runs
  import opened Plants
  import opened InterlockInvariants
  import opened Evolution
  import opened InterlockTheorems

  // Zones, monitor zones and logs that do not belong to the area are the same in both states.
  ghost predicate OutsideKept(a: State, b: State, area: string) {
    && |a.zones| == |b.zones| && |a.monitors| == |b.monitors| && |a.logs| <= |b.logs|
    && (forall i :: 0 <= i < |a.zones| && a.zones[i].area != area ==> b.zones[i] == a.zones[i])
    && (forall i :: 0 <= i < |a.monitors| && !Serves(a.zones, a.monitors[i].zoneId, area) ==> b.monitors[i] == a.monitors[i])
    && (forall i :: 0 <= i < |a.logs| && a.logs[i].area != area ==> b.logs[i] == a.logs[i])
    && a.samples == b.samples && a.alerts == b.alerts
  }

  ghost predicate AllInterlocked(zs: seq<CleanZone>, area: string) {
    forall i :: 0 <= i < |zs| && zs[i].area == area ==> zs[i].status == Interlocked
  }

  /**
   An interlock request for a stored zone always goes through: the whole area ends interlocked, the log lists the
   ids of exactly the area's zones in store order, and nothing outside the area changes.
   */
  lemma IssueIsExact(st: State, zoneId: string, trigger: string, reason: string, ratio: real, now: Time)
    requires PlantOk(st)
    ensures var (next, r) := Issue(st, zoneId, trigger, reason, ratio, now);
            && (r.Ok? <==> FindZone(st.zones, zoneId).Some?)
            && (r.Err? ==> r.error == NotFound && next == st)
            && (r.Ok? ==>
                  var log := r.value;
                  && log.area == FindZone(st.zones, zoneId).value.area && log.zoneId == zoneId
                  && AllInterlocked(next.zones, log.area) && OutsideKept(st, next, log.area)
                  && IsSubsequenceOf(log.affected, st.zones, log.area)
                  && next.logs == st.logs + [log] && log.IsOpen()
                  && log.trigger == trigger && log.reason == reason && log.peakRatio == ratio && log.issuedAt == now
                  && log.level == Min(3, Max(1, ratio.Floor)) && log.action == FFUSpeedUp
                  && log.restoreBy == "" && log.restoreNote == ""
                  && forall i :: 0 <= i < |st.logs| ==> st.logs[i].id != log.id)
  {
    hide PlantOk, InArea, ZoneIds, Bump, NextId, InterlockArea, Ventilate, OutsideKept, AllInterlocked, IsSubsequenceOf,
         ZoneIndex;
    var z := FindZone(st.zones, zoneId);
    if z.Some? {
      AffectedInStoreOrder(st.zones, z.value.area);
      IssueStaysInside(st, z.value, trigger, reason, ratio, now);
      NewLogIsNew(st);
    }
  }

  lemma IssueStaysInside(st: State, z: CleanZone, trigger: string, reason: string, ratio: real, now: Time)
    ensures var next := IssueFor(st, z, trigger, reason, ratio, now);
            AllInterlocked(next.zones, z.area) && OutsideKept(st, next, z.area)
  {
    hide Serves, LogFor, NextId, Bump;
  }

  lemma NewLogIsNew(st: State)
    requires PlantOk(st)
    ensures forall i :: 0 <= i < |st.logs| ==> st.logs[i].id != NextId(st.seqs, INTERLOCK_IDS)
  {
    NextIdIsFresh(st.seqs, INTERLOCK_IDS);
    hide UniqueZones, ZonesValid, UniqueMonitors, MonitorsValid, MonitorsPlaced, UniqueLogs, Unused, NextId, Bump;
  }

  // The ids are those of the area's zones, each once and in the order the zones are stored.
  ghost predicate IsSubsequenceOf(ids: seq<string>, zs: seq<CleanZone>, area: string)
    decreases |zs|
  {
    if zs == [] then ids == []
    else
      var last := zs[|zs| - 1];
      if last.area == area then
        ids != [] && ids[|ids| - 1] == last.id && IsSubsequenceOf(ids[..|ids| - 1], zs[..|zs| - 1], area)
      else IsSubsequenceOf(ids, zs[..|zs| - 1], area)
  }

  lemma {:induction false} AffectedInStoreOrder(zs: seq<CleanZone>, area: string)
    ensures IsSubsequenceOf(ZoneIds(InArea(zs, area)), zs, area)
  {
    if zs != [] {
      var front := zs[..|zs| - 1];
      AffectedInStoreOrder(front, area);
      var ids := ZoneIds(InArea(zs, area));
      if zs[|zs| - 1].area == area {
        assert ids[..|ids| - 1] == ZoneIds(InArea(front, area));
      } else {
        assert InArea(zs, area) == InArea(front, area);
      }
    }
  }

  /**
   A restore goes through exactly for an interlocked or already restored zone. Afterwards no zone of the area is
   interlocked and none of its logs is open, the result lists exactly the restored zones of the area, and nothing
   outside the area changes.
   */
  lemma RestoreIsExact(st: State, zoneId: string, operator: string, note: string, now: Time)
    requires AreasAgree(st)
    ensures var (next, r) := Restore(st, zoneId, operator, note, now);
            var z := FindZone(st.zones, zoneId);
            && (r.Ok? <==> z.Some? && z.value.status in {Interlocked, Restored})
            && (r.Err? ==> next == st && r.error == if z.None? then NotFound else Conflict)
            && (r.Ok? ==>
                  && !InterlockedIn(next.zones, z.value.area) && !OpenIn(next.logs, z.value.area)
                  && OutsideKept(st, next, z.value.area) && next.monitors == st.monitors
                  && ZonesRestored(st.zones, next.zones, z.value.area, now)
                  && ListsRestored(r.value, next.zones, z.value.area)
                  && SignedOff(st.logs, next.logs, z.value.area, operator, note, now))
  {
    hide AreasAgree, ZoneIndex, InterlockedIn, OpenIn, RestoreArea, CloseArea, InArea, RestoredOnly, OutsideKept,
         ZonesRestored, ListsRestored, SignedOff;
    var next, z := Restore(st, zoneId, operator, note, now).0, FindZone(st.zones, zoneId);
    if z.Some? && CanTransition(z.value.status, Restored) {
      RestoreAgrees(st, next, z.value.area, operator, note, now);
      RestoredInStoreOrder(next.zones, z.value.area);
      RestoreStaysInside(st, next, z.value.area, operator, note, now);
    }
  }

  lemma RestoreStaysInside(st: State, next: State, area: string, operator: string, note: string, now: Time)
    requires next == st.(zones := RestoreArea(st.zones, area, now), logs := CloseArea(st.logs, area, operator, note, now))
    ensures ZonesRestored(st.zones, next.zones, area, now) && SignedOff(st.logs, next.logs, area, operator, note, now)
    ensures OutsideKept(st, next, area)
  {
    hide Serves;
  }

  // The interlocked zones of the area, and no others, became restored.
  ghost predicate ZonesRestored(a: seq<CleanZone>, b: seq<CleanZone>, area: string, now: Time) {
    |a| == |b| && forall i :: 0 <= i < |a| ==>
      if a[i].area == area && a[i].status == Interlocked
      then b[i] == a[i].(status := Restored, since := now, updatedAt := now)
      else b[i] == a[i]
  }

  // The list holds the restored zones of the area, each once and in the order the zones are stored.
  ghost predicate ListsRestored(xs: seq<CleanZone>, zs: seq<CleanZone>, area: string)
    decreases |zs|
  {
    if zs == [] then xs == []
    else
      var last := zs[|zs| - 1];
      if last.area == area && last.status == Restored then
        xs != [] && xs[|xs| - 1] == last && ListsRestored(xs[..|xs| - 1], zs[..|zs| - 1], area)
      else ListsRestored(xs, zs[..|zs| - 1], area)
  }

  lemma RestoredUnfolds(zs: seq<CleanZone>, area: string)
    requires zs != []
    ensures var front, last := zs[..|zs| - 1], zs[|zs| - 1];
            RestoredOnly(InArea(zs, area)) ==
            if last.area == area && last.status == Restored then RestoredOnly(InArea(front, area)) + [last]
            else RestoredOnly(InArea(front, area))
  {
    var front, last, own := zs[..|zs| - 1], zs[|zs| - 1], InArea(zs, area);
    if last.area == area {
      assert own[..|own| - 1] == InArea(front, area);
    } else {
      assert own == InArea(front, area);
    }
  }

  lemma {:induction false} RestoredInStoreOrder(zs: seq<CleanZone>, area: string)
    ensures ListsRestored(RestoredOnly(InArea(zs, area)), zs, area)
  {
    if zs != [] {
      var front := zs[..|zs| - 1];
      RestoredInStoreOrder(front, area);
      RestoredUnfolds(zs, area);
      hide RestoredOnly, InArea;
      var xs := RestoredOnly(InArea(zs, area));
      assert zs[|zs| - 1].area == area && zs[|zs| - 1].status == Restored ==> xs[..|xs| - 1] == RestoredOnly(InArea(front, area));
    }
  }

  // The open logs of the area, and no others, now carry who confirmed the recovery, when and with what note.
  ghost predicate SignedOff(a: seq<InterlockLog>, b: seq<InterlockLog>, area: string, operator: string, note: string, now: Time) {
    |a| == |b| && forall i :: 0 <= i < |a| ==>
      if a[i].area == area && a[i].restoredAt.None?
      then b[i] == a[i].(restoredAt := Some(now), restoreBy := operator, restoreNote := note)
      else b[i] == a[i]
  }

  // Same zones with possibly other statuses and times.
  ghost predicate AllRestored(zs: seq<CleanZone>, area: string) {
    forall i :: 0 <= i < |zs| && zs[i].area == area ==> zs[i].status == Restored
  }

  /** A restore undoes an issue: it goes through for any zone of the area and leaves the whole area restored with no open log. */
  lemma RestoreUndoesIssue(st: State, zoneId: string, trigger: string, reason: string, ratio: real, issuedAt: Time,
                           otherId: string, operator: string, note: string, now: Time)
    requires PlantOk(st) && AreasAgree(st)
    requires FindZone(st.zones, zoneId).Some? && FindZone(st.zones, otherId).Some?
    requires FindZone(st.zones, zoneId).value.area == FindZone(st.zones, otherId).value.area
    ensures var area := FindZone(st.zones, zoneId).value.area;
            var issued := Issue(st, zoneId, trigger, reason, ratio, issuedAt).0;
            var (next, r) := Restore(issued, otherId, operator, note, now);
            r.Ok? && AllRestored(next.zones, area) && !OpenIn(next.logs, area) && OutsideKept(st, next, area)
  {
    hide PlantOk, AreasAgree, InArea, RestoredOnly, Bump, InterlockArea, CloseArea, RestoreArea;
    var area := FindZone(st.zones, zoneId).value.area;
    var issued := Issue(st, zoneId, trigger, reason, ratio, issuedAt).0;
    assert issued.zones == InterlockArea(st.zones, area, issuedAt);
    IssueForAgrees(st, FindZone(st.zones, zoneId).value, trigger, reason, ratio, issuedAt);
    IssuedIsInterlocked(st.zones, area, issuedAt, otherId);
    RestoreIsExact(issued, otherId, operator, note, now);
    IssueIsExact(st, zoneId, trigger, reason, ratio, issuedAt);
    var next := Restore(issued, otherId, operator, note, now).0;
    assert next.zones == RestoreArea(issued.zones, area, now);
    RestoredAll(issued.zones, area, now);
    hide Issue, Restore;
    OutsideComposes(st, issued, next, area);
  }

  lemma IssuedIsInterlocked(zs: seq<CleanZone>, area: string, now: Time, id: string)
    requires FindZone(zs, id).Some? && FindZone(zs, id).value.area == area
    ensures var z := FindZone(InterlockArea(zs, area, now), id);
            z.Some? && z.value.area == area && z.value.status == Interlocked
    ensures AllInterlocked(InterlockArea(zs, area, now), area)
  {
    SameIndex(zs, InterlockArea(zs, area, now));
  }

  lemma RestoredAll(zs: seq<CleanZone>, area: string, now: Time)
    requires AllInterlocked(zs, area)
    ensures AllRestored(RestoreArea(zs, area, now), area)
  {
  }

  lemma OutsideComposes(a: State, b: State, c: State, area: string)
    requires OutsideKept(a, b, area) && OutsideKept(b, c, area) && c.monitors == b.monitors
    requires exists now :: b.zones == InterlockArea(a.zones, area, now)
    ensures OutsideKept(a, c, area)
  {
    hide Serves;
  }

  // ---- All or none ------------------------------------------------------------------------------

  // Zones that share an area are interlocked together.
  ghost predicate Uniform(zs: seq<CleanZone>) {
    forall i, j :: 0 <= i < j < |zs| && zs[i].area == zs[j].area ==>
      (zs[i].status == Interlocked <==> zs[j].status == Interlocked)
  }

  // No zone changes sides, or the zones of one area all end up on the same side.
  ghost predicate SidesKept(a: seq<CleanZone>, b: seq<CleanZone>) {
    |a| == |b| && forall i :: 0 <= i < |a| ==>
      b[i].area == a[i].area && (a[i].status == Interlocked <==> b[i].status == Interlocked)
  }

  ghost predicate AreaMoved(a: seq<CleanZone>, b: seq<CleanZone>, area: string, interlocked: bool) {
    |a| == |b| && forall i :: 0 <= i < |a| ==>
      && b[i].area == a[i].area
      && (b[i].status == Interlocked <==> if a[i].area == area then interlocked else a[i].status == Interlocked)
  }

  lemma StaysUniform(a: seq<CleanZone>, b: seq<CleanZone>, area: string, interlocked: bool)
    requires Uniform(a) && (SidesKept(a, b) || AreaMoved(a, b, area, interlocked))
    ensures Uniform(b)
  {
  }

  lemma MovePlantSides(cfg: Config, st: State, z: CleanZone, m: MonitorZone, ratio: real, now: Time)
    requires UniqueZones(st.zones) && FindZone(st.zones, z.id) == Some(z)
    ensures var next := MovePlant(cfg, st, z, m, ratio, now);
            SidesKept(st.zones, next.zones) || AreaMoved(st.zones, next.zones, z.area, true)
  {
    hide MoveZone, UniqueZones, ZoneIndex, RecordRatio, SidesKept, AreaMoved;
    var moved := MoveZone(cfg, st, z, m, ratio, now);
    MoveZoneSides(cfg, st, z, m, ratio, now);
    RecordSides(st.zones, moved.zones, z.id, ratio, now, z.area);
  }

  lemma RecordSides(a: seq<CleanZone>, b: seq<CleanZone>, zoneId: string, ratio: real, now: Time, area: string)
    ensures SidesKept(a, b) ==> SidesKept(a, RecordRatio(b, zoneId, ratio, now))
    ensures AreaMoved(a, b, area, true) ==> AreaMoved(a, RecordRatio(b, zoneId, ratio, now), area, true)
  {
  }

  lemma MoveZoneSides(cfg: Config, st: State, z: CleanZone, m: MonitorZone, ratio: real, now: Time)
    requires UniqueZones(st.zones) && FindZone(st.zones, z.id) == Some(z)
    ensures var next := MoveZone(cfg, st, z, m, ratio, now);
            SidesKept(st.zones, next.zones) || AreaMoved(st.zones, next.zones, z.area, true)
  {
    hide Ventilate, LogFor, UniqueZones;
  }

  lemma StruckStaysUniform(a: seq<CleanZone>, b: seq<CleanZone>, candidates: seq<CleanZone>, now: Time)
    requires Uniform(a) && Struck(a, b, candidates, now)
    ensures Uniform(b)
  {
    hide Hit;
  }

  // The zone an AddZone step asks for.
  function Requested(st: State, step: Step): CleanZone
    requires step.AddZone?
  {
    NewCleanZone(ChosenId(st.seqs, ZONE_IDS, step.id), step.name, step.area, step.iso, step.process, step.now)
  }

  // The step asks for a valid zone under an id not taken, in an area that has an interlocked zone at the time.
  ghost predicate Late(st: State, step: Step) {
    && step.AddZone?
    && Requested(st, step).Valid() && FindZone(st.zones, Requested(st, step).id).None?
    && InterlockedIn(st.zones, step.area)
  }

  lemma ReportStaysUniform(cfg: Config, st: State, req: IngestRequest, now: Time)
    requires Uniform(st.zones) && PlantOk(st)
    ensures Uniform(ProcessSample(cfg, st, req, now).0.zones)
  {
    PlantHasUniqueZones(st);
    hide PlantOk, Uniform, ProcessSample, MovePlant, RatioOf;
    ReportOnPlant(cfg, st, req, now);
    var j := Judge(st, req, now);
    if j.Judged? && j.valid {
      var moved := MovePlant(cfg, st, j.zone, j.monitor, j.ratio, now);
      MovePlantSides(cfg, st, j.zone, j.monitor, j.ratio, now);
      StaysUniform(st.zones, moved.zones, j.zone.area, true);
    }
  }

  lemma SweepStaysUniform(cfg: Config, st: State, tick: Time, now: Time)
    requires Uniform(st.zones) && PlantOk(st)
    ensures Uniform(ZoneSweep(cfg, st, tick, now).zones)
  {
    PlantHasUniqueZones(st);
    CandidatesLocated(cfg, st.zones, tick);
    hide PlantOk, Uniform, SweepFrom, Candidates, Struck, Located;
    SweepStrikes(st, Candidates(cfg, st.zones, tick), now);
    StruckStaysUniform(st.zones, ZoneSweep(cfg, st, tick, now).zones, Candidates(cfg, st.zones, tick), now);
  }

  lemma AddZoneUniformity(st: State, z: CleanZone)
    requires Uniform(st.zones) && z.status == Normal
    ensures Uniform(st.zones + [z]) <==> !InterlockedIn(st.zones, z.area)
  {
    if InterlockedIn(st.zones, z.area) {
      var i :| 0 <= i < |st.zones| && st.zones[i].area == z.area && st.zones[i].status == Interlocked;
      assert (st.zones + [z])[i] == st.zones[i] && (st.zones + [z])[|st.zones|] == z;
    }
  }

  lemma IssueStaysUniform(st: State, zoneId: string, trigger: string, reason: string, ratio: real, now: Time)
    requires Uniform(st.zones)
    ensures Uniform(Issue(st, zoneId, trigger, reason, ratio, now).0.zones)
  {
    hide Uniform, Ventilate, LogFor;
    var z := FindZone(st.zones, zoneId);
    if z.Some? {
      StaysUniform(st.zones, InterlockArea(st.zones, z.value.area, now), z.value.area, true);
    }
  }

  lemma RestoreStaysUniform(st: State, zoneId: string, operator: string, note: string, now: Time)
    requires Uniform(st.zones)
    ensures Uniform(Restore(st, zoneId, operator, note, now).0.zones)
  {
    hide Uniform, CloseArea, InArea, RestoredOnly;
    var z := FindZone(st.zones, zoneId);
    if z.Some? {
      StaysUniform(st.zones, RestoreArea(st.zones, z.value.area, now), z.value.area, false);
    }
  }

  lemma AddZoneStep(cfg: Config, st: State, step: Step)
    requires Uniform(st.zones) && step.AddZone?
    ensures Uniform(Apply(cfg, st, step).zones) <==> !Late(st, step)
  {
    hide CleanZone.Valid, ZoneIndex, Uniform;
    AddZoneUniformity(st, Requested(st, step));
  }

  /** One step keeps areas uniform exactly when it does not ask for a new zone in an interlocked area. */
  lemma UniformStep(cfg: Config, st: State, step: Step)
    requires Uniform(st.zones) && PlantOk(st)
    ensures Uniform(Apply(cfg, st, step).zones) <==> !Late(st, step)
  {
    hide PlantOk, Uniform, ProcessSample, ZoneSweep, Issue, Restore;
    match step
    case AddZone(_, _, _, _, _, _) => AddZoneStep(cfg, st, step);
    case Report(_, req) => ReportStaysUniform(cfg, st, req, step.now);
    case Interlock(_, zoneId, trigger, reason, ratio) =>
      IssueStaysUniform(st, zoneId, ManualTrigger(st, zoneId, trigger), ManualReason(reason), ManualRatio(ratio), step.now);
    case Confirm(_, zoneId, operator, note) => RestoreStaysUniform(st, zoneId, operator, note, step.now);
    case SweepZones(_, tick) => SweepStaysUniform(cfg, st, tick, step.now);
    case _ => QuietSteps(cfg, st, step);
  }

  /**
   Along a run the zones of every area are interlocked all together or not at all, at every moment, exactly when no
   step of the run creates a zone in an area that is interlocked at the time.
   */
  lemma AllOrNone(cfg: Config, run: seq<Step>)
    requires cfg.Valid() && Clocked(run)
    ensures (forall n :: 0 <= n <= |run| ==> Uniform(At(cfg, run, n).zones)) <==>
            (forall n :: 0 <= n < |run| ==> !Late(At(cfg, run, n), run[n]))
  {
    hide Apply, Exec, Uniform, Late;
    if forall n :: 0 <= n < |run| ==> !Late(At(cfg, run, n), run[n]) {
      forall n | 0 <= n <= |run|
        ensures Uniform(At(cfg, run, n).zones)
      {
        UniformUpTo(cfg, run, n);
      }
    }
    if forall n :: 0 <= n <= |run| ==> Uniform(At(cfg, run, n).zones) {
      forall n | 0 <= n < |run|
        ensures !Late(At(cfg, run, n), run[n])
      {
        assert Uniform(At(cfg, run, n).zones) && Uniform(At(cfg, run, n + 1).zones);
        UniformNext(cfg, run, n);
      }
    }
  }

  lemma UniformNext(cfg: Config, run: seq<Step>, n: nat)
    requires cfg.Valid() && Clocked(run) && n < |run| && Uniform(At(cfg, run, n).zones)
    ensures Uniform(At(cfg, run, n + 1).zones) <==> !Late(At(cfg, run, n), run[n])
  {
    hide Apply, Exec, Uniform, Late;
    SoundAt(cfg, run, n);
    AtNext(cfg, run, n);
    UniformStep(cfg, At(cfg, run, n), run[n]);
  }

  lemma {:induction false} UniformUpTo(cfg: Config, run: seq<Step>, n: nat)
    requires cfg.Valid() && Clocked(run) && n <= |run|
    requires forall i :: 0 <= i < n ==> !Late(At(cfg, run, i), run[i])
    ensures Uniform(At(cfg, run, n).zones)
  {
    hide Apply, Late;
    if n > 0 {
      hide Exec, Uniform;
      UniformUpTo(cfg, run, n - 1);
      UniformNext(cfg, run, n - 1);
    }
  }
}
