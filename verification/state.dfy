/**
 The whole shared state of the service as one value, and what each service call does to it.
 The methods of the store and of the services are proved against these functions.
 */
module State {
  import opened Types
  import opened Sequences
  import opened Config
  import opened Zones
  import opened Monitors
  import opened Interlocks
  import opened Samples
  import opened Alerts
  import Text
  import Iso
  import Process

  datatype State = State(
    zones: seq<CleanZone>,
    monitors: seq<MonitorZone>,
    samples: seq<EnvSample>,
    logs: seq<InterlockLog>,
    alerts: seq<CleanAlert>,
    seqs: map<string, nat>)

  const EMPTY := State([], [], [], [], [], map[])

  // ---- Id counters ----------------------------------------------------------------------------

  const ZONE_IDS := "zone"
  const MONITOR_IDS := "monitor"
  const SAMPLE_IDS := "sample"
  const INTERLOCK_IDS := "interlock"
  const ALERT_IDS := "alert"

  function Issued(seqs: map<string, nat>, prefix: string): nat {
    if prefix in seqs then seqs[prefix] else 0
  }

  function Bump(seqs: map<string, nat>, prefix: string): map<string, nat> {
    seqs[prefix := Issued(seqs, prefix) + 1]
  }

  function NextId(seqs: map<string, nat>, prefix: string): string {
    Text.IdOf(prefix, Issued(seqs, prefix) + 1)
  }

  // ---- Lookups and replacement by id ----------------------------------------------------------

  // The repositories scan for the first entry with the id.

  function ZoneIndex(zs: seq<CleanZone>, id: string): (k: nat)
    ensures k <= |zs|
    ensures k < |zs| ==> zs[k].id == id
    ensures forall i :: 0 <= i < k ==> zs[i].id != id
  {
    if zs == [] || zs[0].id == id then 0 else 1 + ZoneIndex(zs[1..], id)
  }

  function FindZone(zs: seq<CleanZone>, id: string): Option<CleanZone> {
    var k := ZoneIndex(zs, id);
    if k < |zs| then Some(zs[k]) else None
  }

  function PutZone(zs: seq<CleanZone>, z: CleanZone): seq<CleanZone> {
    var k := ZoneIndex(zs, z.id);
    if k < |zs| then zs[k := z] else zs
  }

  function MonitorIndex(ms: seq<MonitorZone>, id: string): (k: nat)
    ensures k <= |ms|
    ensures k < |ms| ==> ms[k].id == id
    ensures forall i :: 0 <= i < k ==> ms[i].id != id
  {
    if ms == [] || ms[0].id == id then 0 else 1 + MonitorIndex(ms[1..], id)
  }

  function FindMonitor(ms: seq<MonitorZone>, id: string): Option<MonitorZone> {
    var k := MonitorIndex(ms, id);
    if k < |ms| then Some(ms[k]) else None
  }

  function PutMonitor(ms: seq<MonitorZone>, m: MonitorZone): seq<MonitorZone> {
    var k := MonitorIndex(ms, m.id);
    if k < |ms| then ms[k := m] else ms
  }

  function LogIndex(logs: seq<InterlockLog>, id: string): (k: nat)
    ensures k <= |logs|
    ensures k < |logs| ==> logs[k].id == id
    ensures forall i :: 0 <= i < k ==> logs[i].id != id
  {
    if logs == [] || logs[0].id == id then 0 else 1 + LogIndex(logs[1..], id)
  }

  function FindLog(logs: seq<InterlockLog>, id: string): Option<InterlockLog> {
    var k := LogIndex(logs, id);
    if k < |logs| then Some(logs[k]) else None
  }

  function PutLog(logs: seq<InterlockLog>, l: InterlockLog): seq<InterlockLog> {
    var k := LogIndex(logs, l.id);
    if k < |logs| then logs[k := l] else logs
  }

  function AlertIndex(s: seq<CleanAlert>, id: string): (k: nat)
    ensures k <= |s|
    ensures k < |s| ==> s[k].id == id
    ensures forall i :: 0 <= i < k ==> s[i].id != id
  {
    if s == [] || s[0].id == id then 0 else 1 + AlertIndex(s[1..], id)
  }

  function FindAlert(s: seq<CleanAlert>, id: string): Option<CleanAlert> {
    var k := AlertIndex(s, id);
    if k < |s| then Some(s[k]) else None
  }

  function PutAlert(s: seq<CleanAlert>, a: CleanAlert): seq<CleanAlert> {
    var k := AlertIndex(s, a.id);
    if k < |s| then s[k := a] else s
  }

  // ---- Zones and monitors ---------------------------------------------------------------------

  function CreateZone(st: State, z: CleanZone): (State, Result<CleanZone>) {
    if !z.Valid() then (st, Err(InvalidInput))
    else if FindZone(st.zones, z.id).Some? then (st, Err(Conflict))
    else (st.(zones := st.zones + [z]), Ok(z))
  }

  predicate CounterTaken(ms: seq<MonitorZone>, counterId: string) {
    exists i :: 0 <= i < |ms| && ms[i].counterId == counterId
  }

  function CreateMonitor(st: State, m: MonitorZone): (State, Result<MonitorZone>) {
    if !m.Valid() then (st, Err(InvalidInput))
    else if FindZone(st.zones, m.zoneId).None? then (st, Err(NotFound))
    else if FindMonitor(st.monitors, m.id).Some? || CounterTaken(st.monitors, m.counterId) then (st, Err(Conflict))
    else (st.(monitors := st.monitors + [m]), Ok(m))
  }

  function SetMaintenance(st: State, id: string, on: bool, note: string, now: Time): (State, Result<MonitorZone>) {
    match FindMonitor(st.monitors, id)
    case None => (st, Err(NotFound))
    case Some(m) =>
      var updated := m.SetMaintenance(on, note, now);
      (st.(monitors := PutMonitor(st.monitors, updated)), Ok(updated))
  }

  function SetCalibration(st: State, id: string, due: Option<Time>, now: Time): (State, Result<MonitorZone>) {
    match FindMonitor(st.monitors, id)
    case None => (st, Err(NotFound))
    case Some(m) =>
      var updated := m.SetCalibration(due, now);
      (st.(monitors := PutMonitor(st.monitors, updated)), Ok(updated))
  }

  function OfZone(ms: seq<MonitorZone>, zoneId: string): (r: seq<MonitorZone>)
    ensures forall m :: m in r <==> m in ms && m.zoneId == zoneId
  {
    if ms == [] then []
    else
      var front, last := ms[..|ms| - 1], ms[|ms| - 1];
      OfZone(front, zoneId) + (if last.zoneId == zoneId then [last] else [])
  }

  // The reference point of a zone: its first monitor zone, or nothing.
  function FirstMonitor(ms: seq<MonitorZone>, zoneId: string): string {
    var own := OfZone(ms, zoneId);
    if own == [] then "" else own[0].id
  }

  // ---- Interlock of a physical area -----------------------------------------------------------

  function InArea(zs: seq<CleanZone>, area: string): (r: seq<CleanZone>)
    ensures forall z :: z in r <==> z in zs && z.area == area
  {
    if zs == [] then []
    else
      var front, last := zs[..|zs| - 1], zs[|zs| - 1];
      InArea(front, area) + (if last.area == area then [last] else [])
  }

  function ZoneIds(zs: seq<CleanZone>): seq<string> {
    seq(|zs|, i requires 0 <= i < |zs| => zs[i].id)
  }

  // Whether the zone with this id lies in the area.
  predicate Serves(zs: seq<CleanZone>, zoneId: string, area: string) {
    var z := FindZone(zs, zoneId);
    z.Some? && z.value.area == area
  }

  function InterlockOne(z: CleanZone, area: string, now: Time): CleanZone {
    if z.area == area then z.SetStatus(Interlocked, now) else z
  }

  function InterlockArea(zs: seq<CleanZone>, area: string, now: Time): seq<CleanZone> {
    seq(|zs|, i requires 0 <= i < |zs| => InterlockOne(zs[i], area, now))
  }

  function Ventilate(ms: seq<MonitorZone>, zs: seq<CleanZone>, area: string, level: int, now: Time): seq<MonitorZone> {
    seq(|ms|, i requires 0 <= i < |ms| => if Serves(zs, ms[i].zoneId, area) then Ventilated(ms[i], level, now) else ms[i])
  }

  function LogFor(st: State, z: CleanZone, trigger: string, reason: string, ratio: real, now: Time): InterlockLog {
    NewInterlockLog(NextId(st.seqs, INTERLOCK_IDS), z.id, z.area, trigger, ZoneIds(InArea(st.zones, z.area)),
                    FFUSpeedUp, LevelForRatio(ratio), reason, ratio, now)
  }

  function IssueFor(st: State, z: CleanZone, trigger: string, reason: string, ratio: real, now: Time): State {
    st.(zones := InterlockArea(st.zones, z.area, now),
        monitors := Ventilate(st.monitors, st.zones, z.area, LevelForRatio(ratio), now),
        logs := st.logs + [LogFor(st, z, trigger, reason, ratio, now)],
        seqs := Bump(st.seqs, INTERLOCK_IDS))
  }

  function Issue(st: State, zoneId: string, trigger: string, reason: string, ratio: real, now: Time): (State, Result<InterlockLog>) {
    match FindZone(st.zones, zoneId)
    case None => (st, Err(NotFound))
    case Some(z) => (IssueFor(st, z, trigger, reason, ratio, now), Ok(LogFor(st, z, trigger, reason, ratio, now)))
  }

  function RestoreOne(z: CleanZone, area: string, now: Time): CleanZone {
    if z.area == area && z.status == Interlocked then z.SetStatus(Restored, now) else z
  }

  function RestoreArea(zs: seq<CleanZone>, area: string, now: Time): seq<CleanZone> {
    seq(|zs|, i requires 0 <= i < |zs| => RestoreOne(zs[i], area, now))
  }

  function CloseOne(l: InterlockLog, area: string, operator: string, note: string, now: Time): InterlockLog {
    if l.IsOpen() && l.area == area then l.Close(operator, note, now) else l
  }

  function CloseArea(logs: seq<InterlockLog>, area: string, operator: string, note: string, now: Time): seq<InterlockLog> {
    seq(|logs|, i requires 0 <= i < |logs| => CloseOne(logs[i], area, operator, note, now))
  }

  function RestoredOnly(zs: seq<CleanZone>): (r: seq<CleanZone>)
    ensures forall z :: z in r <==> z in zs && z.status == Restored
  {
    if zs == [] then []
    else
      var front, last := zs[..|zs| - 1], zs[|zs| - 1];
      RestoredOnly(front) + (if last.status == Restored then [last] else [])
  }

  function Restore(st: State, zoneId: string, operator: string, note: string, now: Time): (State, Result<seq<CleanZone>>) {
    match FindZone(st.zones, zoneId)
    case None => (st, Err(NotFound))
    case Some(z) =>
      if !CanTransition(z.status, Restored) then (st, Err(Conflict))
      else
        var zones := RestoreArea(st.zones, z.area, now);
        (st.(zones := zones, logs := CloseArea(st.logs, z.area, operator, note, now)),
         Ok(RestoredOnly(InArea(zones, z.area))))
  }

  // ---- Auto-interlock sweep -------------------------------------------------------------------

  predicate Overdue(cfg: Config, z: CleanZone, tick: Time) {
    Alarming(z.status) && tick - z.since >= cfg.autoInterlockAfter
  }

  function Candidates(cfg: Config, zs: seq<CleanZone>, tick: Time): (r: seq<CleanZone>)
    ensures forall z :: z in r <==> z in zs && z.status in {Elevated, OverLimit} && tick - z.since >= cfg.autoInterlockAfter
  {
    if zs == [] then []
    else
      var front, last := zs[..|zs| - 1], zs[|zs| - 1];
      Candidates(cfg, front, tick) + (if Overdue(cfg, last, tick) then [last] else [])
  }

  const AUTO_REASON := "auto_interlock_timeout"

  function SweepRatio(z: CleanZone): real {
    if z.ratio < 1.0 then 1.0 else z.ratio
  }

  // Interlocks candidate after candidate; the list was drawn up before the first one.
  function SweepFrom(st: State, candidates: seq<CleanZone>, now: Time): State
    decreases |candidates|
  {
    if candidates == [] then st
    else
      var z := candidates[0];
      SweepFrom(Issue(st, z.id, FirstMonitor(st.monitors, z.id), AUTO_REASON, SweepRatio(z), now).0, candidates[1..], now)
  }

  function ZoneSweep(cfg: Config, st: State, tick: Time, now: Time): State {
    SweepFrom(st, Candidates(cfg, st.zones, tick), now)
  }

  // ---- Alerts ---------------------------------------------------------------------------------

  // The latest non-closed alert of a key by creation time, the earliest stored one on a tie.
  function FindOpen(s: seq<CleanAlert>, key: string): (r: Option<CleanAlert>)
    ensures r.Some? ==> r.value in s && r.value.dedupKey == key && r.value.status != Closed
    ensures forall a :: a in s && a.dedupKey == key && a.status != Closed ==> r.Some? && a.createdAt <= r.value.createdAt
  {
    if s == [] then None
    else
      var best, last := FindOpen(s[..|s| - 1], key), s[|s| - 1];
      if last.dedupKey == key && last.status != Closed && (best.None? || last.createdAt > best.value.createdAt)
      then Some(last) else best
  }

  datatype Raised = Raised(st: State, alert: CleanAlert, isNew: bool)

  function Raise(cfg: Config, st: State, zoneId: string, monitorId: string, kind: AlertType, level: AlertLevel,
                 message: Message, sampleId: string, now: Time): Raised {
    var existing := FindOpen(st.alerts, DedupKeyOf(monitorId, kind));
    var incoming := NewAlert(NextId(st.seqs, ALERT_IDS), zoneId, monitorId, kind, level, message, sampleId, now);
    var seqs := Bump(st.seqs, ALERT_IDS);
    if existing.Some? && now - existing.value.createdAt < cfg.alertDedupWindow then
      var merged := existing.value.Merge(incoming);
      Raised(st.(alerts := PutAlert(st.alerts, merged), seqs := seqs), merged, false)
    else
      Raised(st.(alerts := st.alerts + [incoming], seqs := seqs), incoming, true)
  }

  // Empty strings and absent values filter nothing.
  datatype AlertFilter = AlertFilter(status: Option<AlertStatus>, kind: Option<AlertType>, monitorId: string, zoneId: string)

  const NO_FILTER := AlertFilter(None, None, "", "")

  predicate Matches(f: AlertFilter, a: CleanAlert) {
    && (f.status.Some? ==> a.status == f.status.value)
    && (f.kind.Some? ==> a.kind == f.kind.value)
    && (f.monitorId != "" ==> a.monitorId == f.monitorId)
    && (f.zoneId != "" ==> a.zoneId == f.zoneId)
  }

  function Select(s: seq<CleanAlert>, f: AlertFilter): (r: seq<CleanAlert>)
    ensures forall a :: a in r <==>
              && a in s
              && (f.status == None || f.status == Some(a.status)) && (f.kind == None || f.kind == Some(a.kind))
              && f.monitorId in {"", a.monitorId} && f.zoneId in {"", a.zoneId}
  {
    if s == [] then []
    else
      var front, last := s[..|s| - 1], s[|s| - 1];
      Select(front, f) + (if Matches(f, last) then [last] else [])
  }

  function ResolveFilter(monitorId: string, kind: AlertType): AlertFilter {
    AlertFilter(None, Some(kind), monitorId, "")
  }

  function Resolved(a: CleanAlert, now: Time): CleanAlert {
    if a.status == Acknowledged then a.Close(now) else a
  }

  function Resolve(s: seq<CleanAlert>, f: AlertFilter, now: Time): seq<CleanAlert> {
    seq(|s|, i requires 0 <= i < |s| => if Matches(f, s[i]) then Resolved(s[i], now) else s[i])
  }

  function AckUnit(a: CleanAlert): int {
    if a.status == Acknowledged then 1 else 0
  }

  function Ack(st: State, id: string, operator: string, note: string, now: Time): (State, Result<CleanAlert>) {
    match FindAlert(st.alerts, id)
    case None => (st, Err(NotFound))
    case Some(a) =>
      match a.Ack(operator, note, now)
      case Err(e) => (st, Err(e))
      case Ok(acked) => (st.(alerts := PutAlert(st.alerts, acked)), Ok(acked))
  }

  function Escalate(st: State, id: string, now: Time): (State, Result<CleanAlert>) {
    match FindAlert(st.alerts, id)
    case None => (st, Err(NotFound))
    case Some(a) =>
      var escalated := a.Escalate(now);
      (st.(alerts := PutAlert(st.alerts, escalated)), Ok(escalated))
  }

  // One sweep: every alert overdue at the tick is escalated at the clock.
  function EscalateAll(s: seq<CleanAlert>, tick: Time, window: Time, now: Time): seq<CleanAlert> {
    seq(|s|, i requires 0 <= i < |s| => if s[i].NeedsEscalation(tick, window) then s[i].Escalate(now) else s[i])
  }

  function OverdueAlerts(s: seq<CleanAlert>, tick: Time, window: Time): (r: seq<CleanAlert>)
    ensures forall a :: a in r <==> a in s && a.status == Open && tick - a.createdAt >= window
    ensures |r| <= |s|
  {
    if s == [] then []
    else
      var front, last := s[..|s| - 1], s[|s| - 1];
      OverdueAlerts(front, tick, window) + (if last.NeedsEscalation(tick, window) then [last] else [])
  }

  function EscalateSweep(cfg: Config, st: State, tick: Time, now: Time): State {
    st.(alerts := EscalateAll(st.alerts, tick, cfg.alertEscalateAfter, now))
  }

  // ---- Sample history -------------------------------------------------------------------------

  // Everything except the samples of the monitor zone older than its newest `budget` ones.
  function Keep(s: seq<EnvSample>, monitorId: string, budget: nat): seq<EnvSample> {
    if s == [] then []
    else
      var front, last := s[..|s| - 1], s[|s| - 1];
      if last.monitorId != monitorId then Keep(front, monitorId, budget) + [last]
      else if budget > 0 then Keep(front, monitorId, budget - 1) + [last]
      else Keep(front, monitorId, 0)
  }

  function AppendSample(s: seq<EnvSample>, sample: EnvSample, max: int): seq<EnvSample> {
    if max > 0 then Keep(s + [sample], sample.monitorId, max) else s + [sample]
  }

  // The samples of a monitor zone newest first, at most `limit` of them (0 means all).
  function Recent(s: seq<EnvSample>, monitorId: string, limit: nat): seq<EnvSample> {
    var all := SortBy(OfMonitor(s, monitorId), Samples.Newer);
    if limit > 0 then Take(all, limit) else all
  }

  // ---- Ingesting one reading ------------------------------------------------------------------

  datatype IngestRequest = IngestRequest(
    monitorId: string, count03: real, count05: real,
    temperature: real, humidity: real, pressure: real, timestamp: Option<Time>)

  datatype IngestResult = IngestResult(
    sample: EnvSample,
    zone: CleanZone,
    monitor: MonitorZone,
    stateChanged: bool,
    interlock: Option<InterlockLog>,
    created: seq<CleanAlert>,
    merged: seq<CleanAlert>,
    closed: int,
    ratio: real,
    invalidRatio: real,
    credibilityLow: bool)

  // The reading as it is first recorded: judged valid or not, not yet classified.
  function Reading(st: State, m: MonitorZone, req: IngestRequest, now: Time): EnvSample {
    var s := NewSample(NextId(st.seqs, SAMPLE_IDS), m.id, req.count03, req.count05,
                       req.temperature, req.humidity, req.pressure, req.timestamp, now);
    var (valid, reason) := EvaluateValidity(m, s.timestamp);
    if valid then s else s.MarkInvalid(reason)
  }

  function Classified(s: EnvSample): EnvSample {
    if s.valid then
      s.(iso := Iso.Classify(Iso.StandardLimits(), s.count03, s.count05),
         overTable := Iso.OverTable(Iso.StandardLimits(), s.count03, s.count05))
    else s
  }

  function LimitsOf(z: CleanZone, m: MonitorZone): Iso.IsoLimit {
    m.EffectiveLimits(z.iso, Iso.StandardLimits(), Process.DefaultsFor(z.process).multiplier)
  }

  function RatioOf(z: CleanZone, m: MonitorZone, count03: real, count05: real): real {
    Iso.RatioAgainst(LimitsOf(z, m), count03, count05)
  }

  const OVER_LIMIT_REASON := "particle_over_limit"

  // applyStateAndInterlock: where a ratio takes the plant.
  function MoveZone(cfg: Config, st: State, z: CleanZone, m: MonitorZone, ratio: real, now: Time): State {
    if ratio >= cfg.overLimitRatio then
      if z.status == Interlocked then st else IssueFor(st, z, m.id, OVER_LIMIT_REASON, ratio, now)
    else if ratio < 1.0 && z.status == Interlocked then st
    else
      var target := TargetStatusFromRatio(z.status, ratio, cfg.overLimitRatio);
      if target == z.status then st else st.(zones := PutZone(st.zones, z.SetStatus(target, now)))
  }

  function MoveLog(cfg: Config, st: State, z: CleanZone, m: MonitorZone, ratio: real, now: Time): Option<InterlockLog> {
    if ratio >= cfg.overLimitRatio && z.status != Interlocked
    then Some(LogFor(st, z, m.id, OVER_LIMIT_REASON, ratio, now)) else None
  }

  function MoveChanged(cfg: Config, z: CleanZone, ratio: real): bool {
    if ratio >= cfg.overLimitRatio then z.status != Interlocked
    else TargetStatusFromRatio(z.status, ratio, cfg.overLimitRatio) != z.status
  }

  // The latest ratio is kept on the zone as it is stored by then, not on the copy read at the start.
  function RecordRatio(zs: seq<CleanZone>, zoneId: string, ratio: real, now: Time): seq<CleanZone> {
    seq(|zs|, i requires 0 <= i < |zs| => if zs[i].id == zoneId then zs[i].SetRatio(ratio, now) else zs[i])
  }

  function MovePlant(cfg: Config, st: State, z: CleanZone, m: MonitorZone, ratio: real, now: Time): State {
    var moved := MoveZone(cfg, st, z, m, ratio, now);
    moved.(zones := RecordRatio(moved.zones, z.id, ratio, now))
  }

  // A service call under way: the state reached and the result filled in so far.
  datatype Progress = Progress(st: State, res: IngestResult)

  function Record(p: Progress, r: Raised): Progress {
    Progress(r.st, if r.isNew then p.res.(created := p.res.created + [r.alert]) else p.res.(merged := p.res.merged + [r.alert]))
  }

  // Raises an alert type while its condition holds, resolves it otherwise.
  function Signal(cfg: Config, p: Progress, bad: bool, zoneId: string, monitorId: string, kind: AlertType,
                  level: AlertLevel, message: Message, sampleId: string, now: Time): Progress {
    if bad then Record(p, Raise(cfg, p.st, zoneId, monitorId, kind, level, message, sampleId, now))
    else
      var f := ResolveFilter(monitorId, kind);
      Progress(p.st.(alerts := Resolve(p.st.alerts, f, now)),
               p.res.(closed := p.res.closed + Sum(Select(p.st.alerts, f), AckUnit)))
  }

  function SignalParticle(cfg: Config, p: Progress, z: CleanZone, m: MonitorZone, s: EnvSample, ratio: real, now: Time): Progress {
    Signal(cfg, p, ratio >= 1.0, z.id, m.id, Particle, if ratio >= cfg.overLimitRatio then Critical else Warning,
           AboveLimit(ratio, s.count03, s.count05), s.id, now)
  }

  function SignalClimate(cfg: Config, p: Progress, z: CleanZone, m: MonitorZone, s: EnvSample, now: Time): Progress {
    var range := m.EffectiveEnvRange(z.process);
    Signal(cfg, p, TempOut(s, range) || HumidityOut(s, range), z.id, m.id, TempHumidity,
           if TempOut(s, range) then Critical else Warning, ClimateOutOfRange(s.temperature, s.humidity), s.id, now)
  }

  function SignalPressure(cfg: Config, p: Progress, z: CleanZone, m: MonitorZone, s: EnvSample, now: Time): Progress {
    var range := m.EffectiveEnvRange(z.process);
    Signal(cfg, p, PressureOut(s, range), z.id, m.id, Pressure, Warning,
           PressureOutOfRange(s.pressure, range.pressureMin, range.pressureMax), s.id, now)
  }

  // The readings the credibility rule looks at: this one and the most recent stored ones.
  function Window(cfg: Config, stored: seq<EnvSample>, s: EnvSample): seq<EnvSample> {
    Take([s] + Recent(stored, s.monitorId, cfg.SampleWindow()), cfg.SampleWindow())
  }

  function CredibilityLost(cfg: Config, window: seq<EnvSample>): bool {
    InvalidCount(window) as real > cfg.invalidRatioThreshold * |window| as real
  }

  // Nothing is resolved while the window holds no invalid reading at all.
  function SignalQuality(cfg: Config, p: Progress, z: CleanZone, m: MonitorZone, s: EnvSample, now: Time): Progress {
    var window := Window(cfg, p.st.samples, s);
    var ratio, low := InvalidRatio(window), CredibilityLost(cfg, window);
    var noted := p.(res := p.res.(invalidRatio := ratio, credibilityLow := low));
    if low || ratio > 0.0 then
      Signal(cfg, noted, low, z.id, m.id, DataQuality, Warning, CredibilityLow(ratio), s.id, now)
    else noted
  }

  // Everything a valid reading brings about before the credibility rule.
  function ActOn(cfg: Config, p: Progress, z: CleanZone, m: MonitorZone, s: EnvSample, now: Time): Progress {
    var ratio := RatioOf(z, m, s.count03, s.count05);
    var moved := Progress(
      MovePlant(cfg, p.st, z, m, ratio, now),
      p.res.(ratio := ratio, stateChanged := MoveChanged(cfg, z, ratio), interlock := MoveLog(cfg, p.st, z, m, ratio, now)));
    SignalPressure(cfg, SignalClimate(cfg, SignalParticle(cfg, moved, z, m, s, ratio, now), z, m, s, now), z, m, s, now)
  }

  function Started(st: State, z: CleanZone, m: MonitorZone, req: IngestRequest, now: Time): Progress {
    Progress(st.(seqs := Bump(st.seqs, SAMPLE_IDS)),
             IngestResult(Reading(st, m, req, now), z, m, false, None, [], [], 0, 0.0, 0.0, false))
  }

  function Ingest(cfg: Config, st: State, z: CleanZone, m: MonitorZone, req: IngestRequest, now: Time): Progress {
    var p := Started(st, z, m, req, now);
    var s := Classified(p.res.sample);
    var acted := if s.valid then ActOn(cfg, p, z, m, s, now) else p;
    var judged := SignalQuality(cfg, acted, z, m, s, now);
    judged.(st := judged.st.(samples := AppendSample(judged.st.samples, s, cfg.maxSamplesPerZone)))
  }

  function ProcessSample(cfg: Config, st: State, req: IngestRequest, now: Time): (State, Result<IngestResult>) {
    match FindMonitor(st.monitors, req.monitorId)
    case None => (st, Err(NotFound))
    case Some(m) =>
      match FindZone(st.zones, m.zoneId)
      case None => (st, Err(NotFound))
      case Some(z) =>
        var p := Ingest(cfg, st, z, m, req, now);
        var zone, monitor := FindZone(p.st.zones, z.id), FindMonitor(p.st.monitors, m.id);
        (p.st, Ok(p.res.(zone := if zone.Some? then zone.value else p.res.zone,
                         monitor := if monitor.Some? then monitor.value else p.res.monitor)))
  }

  // ---- What every reachable state satisfies structurally ---------------------------------------

  ghost predicate Unused(seqs: map<string, nat>, prefix: string, id: string) {
    forall n :: n > Issued(seqs, prefix) ==> id != Text.IdOf(prefix, n)
  }

  ghost predicate UniqueZones(zs: seq<CleanZone>) {
    forall i, j :: 0 <= i < j < |zs| ==> zs[i].id != zs[j].id
  }

  ghost predicate UniqueMonitors(ms: seq<MonitorZone>) {
    forall i, j :: 0 <= i < j < |ms| ==> ms[i].id != ms[j].id
  }

  ghost predicate UniqueLogs(logs: seq<InterlockLog>) {
    forall i, j :: 0 <= i < j < |logs| ==> logs[i].id != logs[j].id
  }

  ghost predicate UniqueAlerts(s: seq<CleanAlert>) {
    forall i, j :: 0 <= i < j < |s| ==> s[i].id != s[j].id
  }

  ghost predicate ZonesValid(zs: seq<CleanZone>) {
    forall i :: 0 <= i < |zs| ==> zs[i].Valid()
  }

  ghost predicate MonitorsValid(ms: seq<MonitorZone>) {
    forall i :: 0 <= i < |ms| ==> ms[i].Valid()
  }

  // Every monitor zone belongs to a stored clean zone.
  ghost predicate MonitorsPlaced(ms: seq<MonitorZone>, zs: seq<CleanZone>) {
    forall i :: 0 <= i < |ms| ==> FindZone(zs, ms[i].zoneId).Some?
  }

  // No stored id will be handed out again.
  ghost predicate LogIdsUsed(logs: seq<InterlockLog>, seqs: map<string, nat>) {
    forall i :: 0 <= i < |logs| ==> Unused(seqs, INTERLOCK_IDS, logs[i].id)
  }

  ghost predicate AlertIdsUsed(s: seq<CleanAlert>, seqs: map<string, nat>) {
    forall i :: 0 <= i < |s| ==> Unused(seqs, ALERT_IDS, s[i].id)
  }

  ghost predicate PlantOk(st: State) {
    && UniqueZones(st.zones) && ZonesValid(st.zones)
    && UniqueMonitors(st.monitors) && MonitorsValid(st.monitors) && MonitorsPlaced(st.monitors, st.zones)
    && UniqueLogs(st.logs) && LogIdsUsed(st.logs, st.seqs)
  }

  ghost predicate AlertsOk(st: State) {
    UniqueAlerts(st.alerts) && AlertIdsUsed(st.alerts, st.seqs)
  }

  ghost predicate WellFormed(st: State) {
    PlantOk(st) && AlertsOk(st)
  }
}
