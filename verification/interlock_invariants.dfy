/** What every reachable state of the interlock protocol satisfies. */
module InterlockInvariants {
  import opened Types
  import opened Config
  import opened Zones
  import opened Monitors
  import opened Interlocks
  import opened State
  import opened WellFormedness
  import opened Runs
  import opened Plants

  // The status of a zone and its latest ratio belong together, and no zone rests in over_limit.
  ghost predicate Coupled(cfg: Config, z: CleanZone, now: Time) {
    && z.since <= now
    && z.status != OverLimit
    && (z.status == Normal ==> z.ratio < 1.0)
    && (z.status == Elevated ==> 1.0 <= z.ratio < cfg.overLimitRatio)
  }

  ghost predicate ZonesCoupled(cfg: Config, zs: seq<CleanZone>, now: Time) {
    forall i :: 0 <= i < |zs| ==> Coupled(cfg, zs[i], now)
  }

  ghost predicate OpenIn(logs: seq<InterlockLog>, area: string) {
    exists i :: 0 <= i < |logs| && logs[i].area == area && logs[i].IsOpen()
  }

  ghost predicate InterlockedIn(zs: seq<CleanZone>, area: string) {
    exists i :: 0 <= i < |zs| && zs[i].area == area && zs[i].status == Interlocked
  }

  // An area has an open log exactly when one of its zones is interlocked.
  ghost predicate AreasAgree(st: State) {
    forall area :: OpenIn(st.logs, area) <==> InterlockedIn(st.zones, area)
  }

  ghost predicate Sound(cfg: Config, st: State, now: Time) {
    PlantOk(st) && ZonesCoupled(cfg, st.zones, now) && AreasAgree(st)
  }

  lemma SoundLike(cfg: Config, a: State, b: State, now: Time)
    requires PlantOf(a) == PlantOf(b) && Sound(cfg, a, now)
    ensures Sound(cfg, b, now)
  {
    hide ZonesValid, MonitorsValid, UniqueZones, UniqueMonitors, MonitorsPlaced, ZonesCoupled;
  }

  lemma SoundLater(cfg: Config, st: State, now: Time, later: Time)
    requires Sound(cfg, st, now) && now <= later
    ensures Sound(cfg, st, later)
  {
    hide PlantOk, AreasAgree;
  }

  // ---- The primitive changes --------------------------------------------------------------------

  lemma IssueForAgrees(st: State, z: CleanZone, trigger: string, reason: string, ratio: real, now: Time)
    requires AreasAgree(st) && z in st.zones
    ensures AreasAgree(IssueFor(st, z, trigger, reason, ratio, now))
  {
    hide Ventilate, LevelForRatio, NextId, Bump, ZoneIds, InArea, AreasAgree;
    var next := IssueFor(st, z, trigger, reason, ratio, now);
    var k :| 0 <= k < |st.zones| && st.zones[k] == z;
    forall area
      ensures OpenIn(next.logs, area) <==> InterlockedIn(next.zones, area)
    {
      if area == z.area {
        assert next.logs[|st.logs|].area == area && next.logs[|st.logs|].IsOpen();
        assert next.zones[k].area == area && next.zones[k].status == Interlocked;
      } else {
        AgreeAt(st, area);
        ElsewhereKept(st, next, area);
      }
    }
    AgreeEverywhere(next);
  }

  lemma AgreeAt(st: State, area: string)
    requires AreasAgree(st)
    ensures OpenIn(st.logs, area) <==> InterlockedIn(st.zones, area)
  {
  }

  lemma AgreeEverywhere(st: State)
    requires forall area :: OpenIn(st.logs, area) <==> InterlockedIn(st.zones, area)
    ensures AreasAgree(st)
  {
  }

  // Interlocked zones and open logs of the area are the same in both states.
  ghost predicate AreaLike(a: State, b: State, area: string) {
    && |a.zones| == |b.zones| && |a.logs| <= |b.logs|
    && (forall i :: 0 <= i < |a.zones| ==>
          (a.zones[i].area == area && a.zones[i].status == Interlocked <==> b.zones[i].area == area && b.zones[i].status == Interlocked))
    && (forall i :: 0 <= i < |a.logs| ==>
          (a.logs[i].area == area && a.logs[i].IsOpen() <==> b.logs[i].area == area && b.logs[i].IsOpen()))
    && (forall i :: |a.logs| <= i < |b.logs| ==> b.logs[i].area != area)
  }

  lemma ElsewhereKept(a: State, b: State, area: string)
    requires AreaLike(a, b, area)
    ensures OpenIn(a.logs, area) <==> OpenIn(b.logs, area)
    ensures InterlockedIn(a.zones, area) <==> InterlockedIn(b.zones, area)
  {
  }

  lemma IssueForSound(cfg: Config, st: State, z: CleanZone, trigger: string, reason: string, ratio: real, now: Time)
    requires Sound(cfg, st, now) && z in st.zones
    ensures Sound(cfg, IssueFor(st, z, trigger, reason, ratio, now), now)
  {
    IssueForAgrees(st, z, trigger, reason, ratio, now);
    IssueForKeepsPlantOk(st, z, trigger, reason, ratio, now);
    hide PlantOk, AreasAgree, Ventilate, LogFor;
  }

  // A zone that stays on its side of interlocked leaves areas and logs in agreement.
  lemma StatusMovesAgree(a: State, b: State)
    requires AreasAgree(a) && b.logs == a.logs && |a.zones| == |b.zones|
    requires forall i :: 0 <= i < |a.zones| ==>
               a.zones[i].area == b.zones[i].area && (a.zones[i].status == Interlocked <==> b.zones[i].status == Interlocked)
    ensures AreasAgree(b)
  {
    hide AreasAgree;
    forall area
      ensures OpenIn(b.logs, area) <==> InterlockedIn(b.zones, area)
    {
      AgreeAt(a, area);
      assert AreaLike(a, b, area);
      ElsewhereKept(a, b, area);
    }
    AgreeEverywhere(b);
  }

  /** Wherever a ratio takes a zone, status and latest ratio end up coupled again. */
  lemma MovePlantSound(cfg: Config, st: State, z: CleanZone, m: MonitorZone, ratio: real, now: Time)
    requires cfg.Valid() && Sound(cfg, st, now) && FindZone(st.zones, z.id) == Some(z)
    ensures Sound(cfg, MovePlant(cfg, st, z, m, ratio, now), now)
  {
    var moved, next := MoveZone(cfg, st, z, m, ratio, now), MovePlant(cfg, st, z, m, ratio, now);
    MoveZoneKeepsPlantOk(cfg, st, z, m, ratio, now);
    MoveZoneAgrees(cfg, st, z, m, ratio, now);
    RecordKeepsPlantOk(moved, z.id, ratio, now);
    StatusMovesAgree(moved, next);
    assert ZonesCoupled(cfg, next.zones, now) by { MoveCouples(cfg, st, z, m, ratio, now); }
  }

  lemma RecordKeepsPlantOk(st: State, zoneId: string, ratio: real, now: Time)
    requires PlantOk(st)
    ensures PlantOk(st.(zones := RecordRatio(st.zones, zoneId, ratio, now)))
  {
    FansInBounds(st.monitors);
    hide ZonesValid, MonitorsValid, MonitorsPlaced, UniqueLogs, LogIdsUsed, UniqueZones;
    PlantKept(st, st.(zones := RecordRatio(st.zones, zoneId, ratio, now)));
  }

  lemma MoveZoneAgrees(cfg: Config, st: State, z: CleanZone, m: MonitorZone, ratio: real, now: Time)
    requires AreasAgree(st) && FindZone(st.zones, z.id) == Some(z)
    ensures AreasAgree(MoveZone(cfg, st, z, m, ratio, now))
  {
    hide AreasAgree, IssueFor;
    assert z in st.zones;
    IssueForAgrees(st, z, m.id, OVER_LIMIT_REASON, ratio, now);
    var next := MoveZone(cfg, st, z, m, ratio, now);
    if ratio < cfg.overLimitRatio {
      StatusMovesAgree(st, next);
    }
  }

  lemma MoveCouples(cfg: Config, st: State, z: CleanZone, m: MonitorZone, ratio: real, now: Time)
    requires cfg.Valid() && ZonesCoupled(cfg, st.zones, now) && UniqueZones(st.zones) && FindZone(st.zones, z.id) == Some(z)
    ensures ZonesCoupled(cfg, MovePlant(cfg, st, z, m, ratio, now).zones, now)
  {
    hide Ventilate, LogFor, ZonesCoupled, UniqueZones, RecordRatio;
    var k := ZoneIndex(st.zones, z.id);
    var moved := MoveZone(cfg, st, z, m, ratio, now);
    forall i | 0 <= i < |st.zones|
      ensures moved.zones[i].id == st.zones[i].id
      ensures Coupled(cfg, moved.zones[i].SetRatio(if i == k then ratio else moved.zones[i].ratio, now), now)
    {
      CoupledAt(cfg, st.zones, now, i);
    }
    RecordedCoupled(cfg, st.zones, moved.zones, k, ratio, now);
  }

  lemma RecordedCoupled(cfg: Config, zs: seq<CleanZone>, moved: seq<CleanZone>, k: nat, ratio: real, now: Time)
    requires UniqueZones(zs) && k < |zs| == |moved|
    requires forall i :: 0 <= i < |zs| ==> moved[i].id == zs[i].id
    requires forall i :: 0 <= i < |zs| ==> Coupled(cfg, moved[i].SetRatio(if i == k then ratio else moved[i].ratio, now), now)
    ensures ZonesCoupled(cfg, RecordRatio(moved, zs[k].id, ratio, now), now)
  {
    hide UniqueZones, Coupled;
    forall i | 0 <= i < |zs|
      ensures Coupled(cfg, RecordRatio(moved, zs[k].id, ratio, now)[i], now)
    {
      UniqueAt(zs, i, k);
    }
  }

  lemma CoupledAt(cfg: Config, zs: seq<CleanZone>, now: Time, i: nat)
    requires ZonesCoupled(cfg, zs, now) && i < |zs|
    ensures Coupled(cfg, zs[i], now)
  {
  }

  lemma UniqueAt(zs: seq<CleanZone>, i: nat, j: nat)
    requires UniqueZones(zs) && i < |zs| && j < |zs|
    ensures zs[i].id == zs[j].id <==> i == j
  {
  }

  // ---- Restore, sweep and maintenance -------------------------------------------------------------

  lemma RestoreKeepsPlantOk(st: State, area: string, operator: string, note: string, now: Time)
    requires PlantOk(st)
    ensures PlantOk(st.(zones := RestoreArea(st.zones, area, now), logs := CloseArea(st.logs, area, operator, note, now)))
  {
    FansInBounds(st.monitors);
    var next := st.(zones := RestoreArea(st.zones, area, now), logs := CloseArea(st.logs, area, operator, note, now));
    assert forall i :: 0 <= i < |st.logs| ==> next.logs[i].id == st.logs[i].id;
    hide ZonesValid, MonitorsValid, MonitorsPlaced, UniqueZones, CloseArea, Unused;
    PlantKept(st, next);
  }

  lemma RestoreCouples(cfg: Config, zs: seq<CleanZone>, area: string, now: Time)
    requires ZonesCoupled(cfg, zs, now)
    ensures ZonesCoupled(cfg, RestoreArea(zs, area, now), now)
  {
  }

  lemma RestoreSound(cfg: Config, st: State, zoneId: string, operator: string, note: string, now: Time)
    requires Sound(cfg, st, now)
    ensures Sound(cfg, Restore(st, zoneId, operator, note, now).0, now)
  {
    hide PlantOk, AreasAgree, ZonesCoupled, RestoreArea, CloseArea, InArea, RestoredOnly;
    var z, next := FindZone(st.zones, zoneId), Restore(st, zoneId, operator, note, now).0;
    if z.Some? && CanTransition(z.value.status, Restored) {
      RestoreKeepsPlantOk(st, z.value.area, operator, note, now);
      RestoreCouples(cfg, st.zones, z.value.area, now);
      RestoreAgrees(st, next, z.value.area, operator, note, now);
    }
  }

  lemma RestoreAgrees(st: State, next: State, area: string, operator: string, note: string, now: Time)
    requires AreasAgree(st)
    requires next.zones == RestoreArea(st.zones, area, now) && next.logs == CloseArea(st.logs, area, operator, note, now)
    ensures AreasAgree(next)
    ensures !OpenIn(next.logs, area) && !InterlockedIn(next.zones, area)
  {
    hide AreasAgree;
    forall other
      ensures OpenIn(next.logs, other) <==> InterlockedIn(next.zones, other)
    {
      AgreeAt(st, other);
      if other != area {
        assert AreaLike(st, next, other);
        ElsewhereKept(st, next, other);
      }
    }
    AgreeEverywhere(next);
  }

  /** The first monitor zone of every candidate included, a whole sweep keeps the invariant. */
  lemma {:induction false} SweepSound(cfg: Config, st: State, candidates: seq<CleanZone>, now: Time)
    requires Sound(cfg, st, now)
    ensures Sound(cfg, SweepFrom(st, candidates, now), now)
    decreases |candidates|
  {
    if candidates != [] {
      var z := candidates[0];
      var found := FindZone(st.zones, z.id);
      var trigger := FirstMonitor(st.monitors, z.id);
      if found.Some? {
        IssueForSound(cfg, st, found.value, trigger, AUTO_REASON, SweepRatio(z), now);
      }
      hide Sound, IssueFor, LogFor;
      SweepSound(cfg, Issue(st, z.id, trigger, AUTO_REASON, SweepRatio(z), now).0, candidates[1..], now);
    }
  }

  lemma AddZoneSound(cfg: Config, st: State, seqs: map<string, nat>, z: CleanZone, now: Time)
    requires Sound(cfg, st, now)
    requires Issued(seqs, INTERLOCK_IDS) == Issued(st.seqs, INTERLOCK_IDS)
    requires z.status == Normal && z.ratio < 1.0 && z.since <= now
    ensures Sound(cfg, CreateZone(st.(seqs := seqs), z).0, now)
  {
    var next := CreateZone(st.(seqs := seqs), z).0;
    if next.zones != st.zones {
      assert ZonesValid(next.zones) && UniqueZones(next.zones) && ZonesCoupled(cfg, next.zones, now);
      hide ZonesValid, CleanZone.Valid, MonitorsValid, UniqueZones, UniqueMonitors, UniqueLogs, ZonesCoupled, AreasAgree;
      AddedZonePlaces(st.monitors, st.zones, z);
      forall area
        ensures OpenIn(next.logs, area) <==> InterlockedIn(next.zones, area)
      {
        AgreeAt(st, area);
        AddedZoneNotInterlocked(st.zones, z, area);
      }
      AgreeEverywhere(next);
    }
  }

  lemma AddedZoneNotInterlocked(zs: seq<CleanZone>, z: CleanZone, area: string)
    requires z.status != Interlocked
    ensures InterlockedIn(zs + [z], area) <==> InterlockedIn(zs, area)
  {
    if InterlockedIn(zs, area) {
      var i :| 0 <= i < |zs| && zs[i].area == area && zs[i].status == Interlocked;
      assert (zs + [z])[i] == zs[i];
    }
  }

  lemma AddedZonePlaces(ms: seq<MonitorZone>, zs: seq<CleanZone>, z: CleanZone)
    requires MonitorsPlaced(ms, zs)
    ensures MonitorsPlaced(ms, zs + [z])
  {
    forall i | 0 <= i < |ms|
      ensures FindZone(zs + [z], ms[i].zoneId).Some?
    {
      var k := ZoneIndex(zs, ms[i].zoneId);
      assert FindZone(zs, ms[i].zoneId).Some?;
      assert (zs + [z])[k].id == ms[i].zoneId;
    }
  }

  lemma AddMonitorSound(cfg: Config, st: State, seqs: map<string, nat>, m: MonitorZone, now: Time)
    requires Sound(cfg, st, now)
    requires Issued(seqs, INTERLOCK_IDS) == Issued(st.seqs, INTERLOCK_IDS)
    ensures Sound(cfg, CreateMonitor(st.(seqs := seqs), m).0, now)
  {
    hide ZonesValid, UniqueZones, UniqueLogs, ZonesCoupled, AreasAgree, CounterTaken;
    var next := CreateMonitor(st.(seqs := seqs), m).0;
    assert AreasAgree(next) by { AgreeLike(st, next); }
    if next.monitors != st.monitors {
      assert MonitorsValid(next.monitors) by { hide UniqueMonitors, LogIdsUsed, MonitorsPlaced; }
      hide MonitorsValid, MonitorZone.Valid, LogIdsUsed;
    }
  }

  lemma AgreeLike(a: State, b: State)
    requires AreasAgree(a) && a.zones == b.zones && a.logs == b.logs
    ensures AreasAgree(b)
  {
  }

  // Equipment changes below the fans leave everything the invariant talks about alone.
  lemma EquipmentSound(cfg: Config, st: State, m: MonitorZone, e: Equipment, now: Time)
    requires Sound(cfg, st, now) && FindMonitor(st.monitors, m.id) == Some(m)
    requires e.ffuLevel == m.equipment.ffuLevel
    ensures Sound(cfg, st.(monitors := PutMonitor(st.monitors, m.(equipment := e, updatedAt := now))), now)
  {
    var next := st.(monitors := PutMonitor(st.monitors, m.(equipment := e, updatedAt := now)));
    FansInBounds(st.monitors);
    AgreeLike(st, next);
    hide ZonesValid, MonitorsValid, MonitorsPlaced, UniqueZones, UniqueLogs, LogIdsUsed, AreasAgree, ZonesCoupled;
    PlantKept(st, next);
  }

  lemma ReportSound(cfg: Config, st: State, req: IngestRequest, now: Time)
    requires cfg.Valid() && Sound(cfg, st, now)
    ensures Sound(cfg, ProcessSample(cfg, st, req, now).0, now)
  {
    hide Sound, ProcessSample, MovePlant, PlantOf, RatioOf;
    ReportOnPlant(cfg, st, req, now);
    var next, j := ProcessSample(cfg, st, req, now).0, Judge(st, req, now);
    if j.Judged? && j.valid {
      MovePlantSound(cfg, st, j.zone, j.monitor, j.ratio, now);
      SoundLike(cfg, MovePlant(cfg, st, j.zone, j.monitor, j.ratio, now), next, now);
    } else if j.Judged? {
      SoundLike(cfg, st, next, now);
    }
  }

  lemma AlertStepsKeepPlant(cfg: Config, st: State, step: Step)
    requires step.Acknowledge? || step.Promote? || step.SweepAlerts?
    ensures PlantOf(Apply(cfg, st, step)) == PlantOf(st)
  {
    hide AlertIndex, EscalateAll;
  }

  /** Every step of the service keeps the invariant. */
  lemma ApplySound(cfg: Config, st: State, step: Step)
    requires cfg.Valid() && Sound(cfg, st, step.now)
    ensures Sound(cfg, Apply(cfg, st, step), step.now)
  {
    var now := step.now;
    match step
    case AddZone(_, id, name, area, iso, process) =>
      AddZoneSound(cfg, st, SeqsAfterChoice(st.seqs, ZONE_IDS, id),
                   NewCleanZone(ChosenId(st.seqs, ZONE_IDS, id), name, area, iso, process, now), now);
    case AddMonitor(_, id, zoneId, name, counterId, thresholds, due) =>
      AddMonitorSound(cfg, st, SeqsAfterChoice(st.seqs, MONITOR_IDS, id),
                      NewMonitorZone(ChosenId(st.seqs, MONITOR_IDS, id), zoneId, name, counterId, thresholds, due, now), now);
    case Maintain(_, monitorId, on, note) =>
      var m := FindMonitor(st.monitors, monitorId);
      if m.Some? {
        EquipmentSound(cfg, st, m.value, m.value.SetMaintenance(on, note, now).equipment, now);
      }
    case Calibrate(_, monitorId, due) =>
      var m := FindMonitor(st.monitors, monitorId);
      if m.Some? {
        EquipmentSound(cfg, st, m.value, m.value.SetCalibration(due, now).equipment, now);
      }
    case Report(_, req) => ReportSound(cfg, st, req, now);
    case Interlock(_, zoneId, trigger, reason, ratio) =>
      var z := FindZone(st.zones, zoneId);
      if z.Some? {
        IssueForSound(cfg, st, z.value, ManualTrigger(st, zoneId, trigger), ManualReason(reason), ManualRatio(ratio), now);
      }
    case Confirm(_, zoneId, operator, note) => RestoreSound(cfg, st, zoneId, operator, note, now);
    case SweepZones(_, tick) => SweepSound(cfg, st, Candidates(cfg, st.zones, tick), now);
    case _ =>
      AlertStepsKeepPlant(cfg, st, step);
      SoundLike(cfg, st, Apply(cfg, st, step), now);
  }

  /**
   In every reachable state ids are unique, every monitor zone is placed, status and latest ratio are coupled,
   no zone rests in over_limit, and areas agree with their open logs.
   */
  lemma {:induction false} ReachableSound(cfg: Config, run: seq<Step>, now: Time)
    requires cfg.Valid() && Clocked(run) && Until(run, now)
    ensures Sound(cfg, Exec(cfg, run), now)
  {
    if run != [] {
      var front, last := run[..|run| - 1], run[|run| - 1];
      ReachableSound(cfg, front, last.now);
      hide Sound, Apply;
      ApplySound(cfg, Exec(cfg, front), last);
      SoundLater(cfg, Exec(cfg, run), last.now, now);
    }
  }
}
