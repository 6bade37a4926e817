/** Which zones and monitor zones exist is told by the creation requests alone, whatever else happens. */
module Register {
  import opened Types
  import opened Config
  import opened Zones
  import opened Monitors
  import opened State
  import opened Runs
  import opened Plants
  import opened InterlockInvariants
  import opened InterlockTheorems
  import Text
  import Iso
  import Process

  // What is kept of a clean zone, and of a monitor zone, from its creation on.
  datatype ZoneEntry = ZoneEntry(id: string, name: string, area: string, iso: string, process: string, createdAt: Time)

  datatype PointEntry = PointEntry(id: string, zoneId: string, name: string, counterId: string,
                                   thresholds: ZoneThresholds, createdAt: Time)

  // The zones and monitor zones in the order of their creation, and how many ids were generated for them.
  datatype Register = Register(zones: seq<ZoneEntry>, monitors: seq<PointEntry>, zoneIds: nat, monitorIds: nat)

  function GivenId(prefix: string, id: string, issued: nat): string {
    if id == "" then Text.IdOf(prefix, issued + 1) else id
  }

  function CountId(id: string, issued: nat): nat {
    if id == "" then issued + 1 else issued
  }

  // The text has something besides white space.
  ghost predicate Filled(s: string) {
    exists i :: 0 <= i < |s| && !Text.IsSpace(s[i])
  }

  // A clean zone may be asked for with filled texts, one of the four classes and one of the three processes.
  ghost predicate ZoneInOrder(id: string, name: string, area: string, iso: string, process: string) {
    && Filled(id) && Filled(name) && Filled(area)
    && (Text.Spells(iso, "iso5") || Text.Spells(iso, "iso6") || Text.Spells(iso, "iso7") || Text.Spells(iso, "iso8"))
    && (Text.Spells(process, "lithography") || Text.Spells(process, "etching") || Text.Spells(process, "diffusion"))
  }

  ghost predicate PointInOrder(id: string, zoneId: string, name: string, counterId: string) {
    Filled(id) && Filled(zoneId) && Filled(name) && Filled(counterId)
  }

  ghost predicate ZoneKnown(zones: seq<ZoneEntry>, id: string) {
    exists i :: 0 <= i < |zones| && zones[i].id == id
  }

  ghost predicate Free(points: seq<PointEntry>, id: string, counterId: string) {
    forall i :: 0 <= i < |points| ==> points[i].id != id && points[i].counterId != counterId
  }

  // A request is entered as it was made when it is in order and takes nothing that is taken.
  ghost function Entered(r: Register, step: Step): Register {
    match step
    case AddZone(now, id, name, area, iso, process) =>
      var given, counted := GivenId("zone", id, r.zoneIds), r.(zoneIds := CountId(id, r.zoneIds));
      if ZoneInOrder(given, name, area, iso, process) && !ZoneKnown(r.zones, given)
      then counted.(zones := r.zones + [ZoneEntry(given, name, area, iso, process, now)]) else counted
    case AddMonitor(now, id, zoneId, name, counterId, thresholds, due) =>
      var given, counted := GivenId("monitor", id, r.monitorIds), r.(monitorIds := CountId(id, r.monitorIds));
      if PointInOrder(given, zoneId, name, counterId) && ZoneKnown(r.zones, zoneId) && Free(r.monitors, given, counterId)
      then counted.(monitors := r.monitors + [PointEntry(given, zoneId, name, counterId, thresholds, now)]) else counted
    case _ => r
  }

  ghost function Registered(run: seq<Step>): Register {
    if run == [] then Register([], [], 0, 0) else Entered(Registered(run[..|run| - 1]), run[|run| - 1])
  }

  function ZoneEntryOf(z: CleanZone): ZoneEntry {
    ZoneEntry(z.id, z.name, z.area, z.iso, z.process, z.createdAt)
  }

  function PointEntryOf(m: MonitorZone): PointEntry {
    PointEntry(m.id, m.zoneId, m.name, m.counterId, m.thresholds, m.createdAt)
  }

  function ZoneEntries(zs: seq<CleanZone>): seq<ZoneEntry> {
    seq(|zs|, i requires 0 <= i < |zs| => ZoneEntryOf(zs[i]))
  }

  function PointEntries(ms: seq<MonitorZone>): seq<PointEntry> {
    seq(|ms|, i requires 0 <= i < |ms| => PointEntryOf(ms[i]))
  }

  function RegisterOf(st: State): Register {
    Register(ZoneEntries(st.zones), PointEntries(st.monitors), Issued(st.seqs, ZONE_IDS), Issued(st.seqs, MONITOR_IDS))
  }

  lemma FoundIsListed(zs: seq<CleanZone>, id: string)
    ensures FindZone(zs, id).Some? <==> ZoneKnown(ZoneEntries(zs), id)
  {
    var k, entries := ZoneIndex(zs, id), ZoneEntries(zs);
    assert forall i :: 0 <= i < |zs| ==> entries[i].id == zs[i].id;
    assert k < |zs| ==> entries[k].id == id;
  }

  lemma FreeIsFree(ms: seq<MonitorZone>, id: string, counterId: string)
    ensures Free(PointEntries(ms), id, counterId) <==> FindMonitor(ms, id).None? && !CounterTaken(ms, counterId)
  {
    var k, entries := MonitorIndex(ms, id), PointEntries(ms);
    assert forall i :: 0 <= i < |ms| ==> entries[i].id == ms[i].id && entries[i].counterId == ms[i].counterId;
    assert k < |ms| ==> entries[k].id == id;
  }

  // ---- What is in order ---------------------------------------------------------------------------

  lemma BlankOrFilled(s: string)
    ensures !Text.Blank(s) <==> Filled(s)
  {
  }

  lemma ClassSpelled(iso: string)
    ensures Iso.Parses(iso) <==>
            Text.Spells(iso, "iso5") || Text.Spells(iso, "iso6") || Text.Spells(iso, "iso7") || Text.Spells(iso, "iso8")
  {
    hide Text.Normalise, Text.Spells;
    Text.NormaliseSpells(iso, "iso5");
    Text.NormaliseSpells(iso, "iso6");
    Text.NormaliseSpells(iso, "iso7");
    Text.NormaliseSpells(iso, "iso8");
    assert Iso.CLASSES[0] == "iso5" && Iso.CLASSES[1] == "iso6" && Iso.CLASSES[2] == "iso7" && Iso.CLASSES[3] == "iso8";
  }

  lemma ProcessSpelled(process: string)
    ensures Process.Parses(process) <==>
            Text.Spells(process, "lithography") || Text.Spells(process, "etching") || Text.Spells(process, "diffusion")
  {
    hide Text.Normalise, Text.Spells;
    Text.NormaliseSpells(process, "lithography");
    Text.NormaliseSpells(process, "etching");
    Text.NormaliseSpells(process, "diffusion");
    var names := [Process.LITHOGRAPHY, Process.ETCHING, Process.DIFFUSION];
    assert names[0] == "lithography" && names[1] == "etching" && names[2] == "diffusion";
  }

  lemma ZoneValidity(z: CleanZone)
    ensures z.Valid() <==> ZoneInOrder(z.id, z.name, z.area, z.iso, z.process)
  {
    hide Text.Blank, Filled, Text.Spells, Iso.Parses, Process.Parses;
    BlankOrFilled(z.id);
    BlankOrFilled(z.name);
    BlankOrFilled(z.area);
    ClassSpelled(z.iso);
    ProcessSpelled(z.process);
  }

  lemma PointValidity(m: MonitorZone)
    ensures m.Valid() <==> PointInOrder(m.id, m.zoneId, m.name, m.counterId) && 0 <= m.equipment.ffuLevel <= 100
  {
    hide Text.Blank, Filled;
    BlankOrFilled(m.id);
    BlankOrFilled(m.zoneId);
    BlankOrFilled(m.name);
    BlankOrFilled(m.counterId);
  }

  // ---- Creation -----------------------------------------------------------------------------------

  lemma GivenIsChosen(seqs: map<string, nat>, prefix: string, id: string)
    ensures GivenId(prefix, id, Issued(seqs, prefix)) == ChosenId(seqs, prefix, id)
    ensures CountId(id, Issued(seqs, prefix)) == Issued(SeqsAfterChoice(seqs, prefix, id), prefix)
    ensures forall other :: other != prefix ==> Issued(SeqsAfterChoice(seqs, prefix, id), other) == Issued(seqs, other)
  {
  }

  /** A clean zone is refused as invalid, then as taken, and is stored otherwise. */
  lemma ZoneEntered(st: State, z: CleanZone)
    ensures var (next, r) := CreateZone(st, z);
            var entries := ZoneEntries(st.zones);
            && next == st.(zones := next.zones)
            && r == (if !ZoneInOrder(z.id, z.name, z.area, z.iso, z.process) then Err(InvalidInput)
                     else if ZoneKnown(entries, z.id) then Err(Conflict) else Ok(z))
            && ZoneEntries(next.zones) == if r.Ok? then entries + [ZoneEntryOf(z)] else entries
  {
    FoundIsListed(st.zones, z.id);
    ZoneValidity(z);
    hide CleanZone.Valid, FindZone, ZoneInOrder, ZoneKnown;
  }

  /** A monitor zone is refused as invalid, then for its unknown clean zone, then as taken, and is stored otherwise. */
  lemma MonitorEntered(st: State, m: MonitorZone)
    requires 0 <= m.equipment.ffuLevel <= 100
    ensures var (next, r) := CreateMonitor(st, m);
            var entries := PointEntries(st.monitors);
            && next == st.(monitors := next.monitors)
            && r == (if !PointInOrder(m.id, m.zoneId, m.name, m.counterId) then Err(InvalidInput)
                     else if !ZoneKnown(ZoneEntries(st.zones), m.zoneId) then Err(NotFound)
                     else if !Free(entries, m.id, m.counterId) then Err(Conflict) else Ok(m))
            && PointEntries(next.monitors) == if r.Ok? then entries + [PointEntryOf(m)] else entries
  {
    FoundIsListed(st.zones, m.zoneId);
    FreeIsFree(st.monitors, m.id, m.counterId);
    PointValidity(m);
    hide MonitorZone.Valid, FindZone, FindMonitor, CounterTaken, Free, ZoneEntries, PointInOrder, ZoneKnown;
  }

  lemma CreationEntered(cfg: Config, st: State, step: Step)
    requires step.AddZone? || step.AddMonitor?
    ensures RegisterOf(Apply(cfg, st, step)) == Entered(RegisterOf(st), step)
  {
    hide CreateZone, CreateMonitor, ChosenId, SeqsAfterChoice, GivenId, CountId, ZoneEntries, PointEntries, Free, ZoneKnown,
         ZoneInOrder, PointInOrder, Issued;
    match step
    case AddZone(now, id, name, area, iso, process) =>
      GivenIsChosen(st.seqs, ZONE_IDS, id);
      ZoneEntered(st.(seqs := SeqsAfterChoice(st.seqs, ZONE_IDS, id)),
                  NewCleanZone(ChosenId(st.seqs, ZONE_IDS, id), name, area, iso, process, now));
    case AddMonitor(now, id, zoneId, name, counterId, thresholds, due) =>
      GivenIsChosen(st.seqs, MONITOR_IDS, id);
      MonitorEntered(st.(seqs := SeqsAfterChoice(st.seqs, MONITOR_IDS, id)),
                     NewMonitorZone(ChosenId(st.seqs, MONITOR_IDS, id), zoneId, name, counterId, thresholds, due, now));
  }

  // ---- Everything else ----------------------------------------------------------------------------

  lemma IssueKeepsRegister(st: State, zoneId: string, trigger: string, reason: string, ratio: real, now: Time)
    ensures RegisterOf(Issue(st, zoneId, trigger, reason, ratio, now).0) == RegisterOf(st)
  {
    hide LogFor, Serves, ZoneIndex;
  }

  lemma {:induction false} SweepKeepsRegister(st: State, candidates: seq<CleanZone>, now: Time)
    ensures RegisterOf(SweepFrom(st, candidates, now)) == RegisterOf(st)
    decreases |candidates|
  {
    if candidates != [] {
      var z := candidates[0];
      IssueKeepsRegister(st, z.id, FirstMonitor(st.monitors, z.id), AUTO_REASON, SweepRatio(z), now);
      SweepUnfolds(st, candidates, now);
      hide Issue, FirstMonitor, SweepRatio, SweepFrom, RegisterOf;
      SweepKeepsRegister(Strike(st, z, now), candidates[1..], now);
    }
  }

  lemma MoveKeepsRegister(cfg: Config, st: State, z: CleanZone, m: MonitorZone, ratio: real, now: Time)
    requires FindZone(st.zones, z.id) == Some(z)
    ensures RegisterOf(MovePlant(cfg, st, z, m, ratio, now)) == RegisterOf(st)
  {
    hide LogFor, Serves, TargetStatusFromRatio, ZoneIndex;
  }

  lemma PlantRegister(a: State, b: State)
    requires PlantOf(a) == PlantOf(b)
    ensures RegisterOf(a) == RegisterOf(b)
  {
  }

  lemma ReportKeepsRegister(cfg: Config, st: State, req: IngestRequest, now: Time)
    ensures RegisterOf(ProcessSample(cfg, st, req, now).0) == RegisterOf(st)
  {
    var j := Judge(st, req, now);
    hide RegisterOf, ProcessSample, MovePlant, PlantOf, RatioOf;
    ReportOnPlant(cfg, st, req, now);
    var next := ProcessSample(cfg, st, req, now).0;
    if j.Judged? && j.valid {
      MoveKeepsRegister(cfg, st, j.zone, j.monitor, j.ratio, now);
      PlantRegister(next, MovePlant(cfg, st, j.zone, j.monitor, j.ratio, now));
    } else if j.Judged? {
      PlantRegister(next, st);
    }
  }

  lemma RestoreKeepsRegister(st: State, zoneId: string, operator: string, note: string, now: Time)
    ensures RegisterOf(Restore(st, zoneId, operator, note, now).0) == RegisterOf(st)
  {
    hide CloseArea, InArea, RestoredOnly, ZoneIndex;
  }

  lemma OrderKeepsRegister(cfg: Config, st: State, step: Step)
    requires step.Maintain? || step.Calibrate?
    ensures RegisterOf(Apply(cfg, st, step)) == RegisterOf(st)
  {
    hide MonitorIndex, ZoneEntries;
  }

  lemma StepRegister(cfg: Config, st: State, step: Step)
    ensures RegisterOf(Apply(cfg, st, step)) == Entered(RegisterOf(st), step)
  {
    hide RegisterOf, ProcessSample, SweepFrom, Candidates, Issue, Restore, PlantOf;
    match step
    case AddZone(_, _, _, _, _, _) => CreationEntered(cfg, st, step);
    case AddMonitor(_, _, _, _, _, _, _) => CreationEntered(cfg, st, step);
    case Report(now, req) => ReportKeepsRegister(cfg, st, req, now);
    case Interlock(now, zoneId, trigger, reason, ratio) =>
      IssueKeepsRegister(st, zoneId, ManualTrigger(st, zoneId, trigger), ManualReason(reason), ManualRatio(ratio), now);
    case Confirm(now, zoneId, operator, note) => RestoreKeepsRegister(st, zoneId, operator, note, now);
    case SweepZones(now, tick) => SweepKeepsRegister(st, Candidates(cfg, st.zones, tick), now);
    case Maintain(_, _, _, _) => OrderKeepsRegister(cfg, st, step);
    case Calibrate(_, _, _) => OrderKeepsRegister(cfg, st, step);
    case _ =>
      AlertStepsKeepPlant(cfg, st, step);
      PlantRegister(Apply(cfg, st, step), st);
  }

  /**
   After any run the zones and monitor zones stored, in order, with everything their creation requests asked for, are
   those the creation requests of the run alone tell of, and so are the ids generated for them.
   */
  lemma {:induction false} CreationIsToldByRequests(cfg: Config, run: seq<Step>)
    ensures RegisterOf(Exec(cfg, run)) == Registered(run)
  {
    hide Apply, RegisterOf, Entered;
    if run == [] {
      EmptyRegister();
    } else {
      CreationIsToldByRequests(cfg, run[..|run| - 1]);
      StepRegister(cfg, Exec(cfg, run[..|run| - 1]), run[|run| - 1]);
    }
  }

  lemma EmptyRegister()
    ensures RegisterOf(EMPTY) == Register([], [], 0, 0)
  {
  }

  // A monitor zone with this id was created.
  ghost predicate Known(run: seq<Step>, id: string) {
    exists i :: 0 <= i < |Registered(run).monitors| && Registered(run).monitors[i].id == id
  }

  lemma KnownIsStored(cfg: Config, run: seq<Step>, id: string)
    ensures Known(run, id) <==> FindMonitor(Exec(cfg, run).monitors, id).Some?
  {
    CreationIsToldByRequests(cfg, run);
    hide Exec, Registered;
    var ms, entries := Exec(cfg, run).monitors, Registered(run).monitors;
    assert |entries| == |ms| && forall i :: 0 <= i < |ms| ==> entries[i] == PointEntryOf(ms[i]);
    var k := MonitorIndex(ms, id);
    assert k < |ms| ==> entries[k].id == id;
  }
}
