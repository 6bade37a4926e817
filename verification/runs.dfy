/** Runs of the service: every call is one step, the clock never goes backwards. */
module Runs {
  import opened Types
  import opened Config
  import opened Zones
  import opened Monitors
  import opened State

  // One service call at clock time `now`. A sweep also carries the tick that started it.
  datatype Step =
    | AddZone(now: Time, id: string, name: string, area: string, iso: string, process: string)
    | AddMonitor(now: Time, id: string, zoneId: string, name: string, counterId: string, thresholds: ZoneThresholds, due: Time)
    | Maintain(now: Time, monitorId: string, on: bool, note: string)
    | Calibrate(now: Time, monitorId: string, calibrationDue: Option<Time>)
    | Report(now: Time, req: IngestRequest)
    | Interlock(now: Time, zoneId: string, trigger: string, reason: string, ratio: real)
    | Confirm(now: Time, zoneId: string, operator: string, note: string)
    | Acknowledge(now: Time, alertId: string, operator: string, note: string)
    | Promote(now: Time, alertId: string)
    | SweepZones(now: Time, tick: Time)
    | SweepAlerts(now: Time, tick: Time)

  // An empty id asks for a generated one.
  function ChosenId(seqs: map<string, nat>, prefix: string, id: string): string {
    if id == "" then NextId(seqs, prefix) else id
  }

  function SeqsAfterChoice(seqs: map<string, nat>, prefix: string, id: string): map<string, nat> {
    if id == "" then Bump(seqs, prefix) else seqs
  }

  const MANUAL_REASON := "manual_interlock"
  const MANUAL_RATIO := 1.5

  // The defaults of the manual interlock request.
  function ManualTrigger(st: State, zoneId: string, trigger: string): string {
    if trigger == "" then FirstMonitor(st.monitors, zoneId) else trigger
  }

  function ManualReason(reason: string): string {
    if reason == "" then MANUAL_REASON else reason
  }

  function ManualRatio(ratio: real): real {
    if ratio < 1.0 then MANUAL_RATIO else ratio
  }

  function Apply(cfg: Config, st: State, step: Step): State {
    match step
    case AddZone(now, id, name, area, iso, process) =>
      CreateZone(st.(seqs := SeqsAfterChoice(st.seqs, ZONE_IDS, id)),
                 NewCleanZone(ChosenId(st.seqs, ZONE_IDS, id), name, area, iso, process, now)).0
    case AddMonitor(now, id, zoneId, name, counterId, thresholds, due) =>
      CreateMonitor(st.(seqs := SeqsAfterChoice(st.seqs, MONITOR_IDS, id)),
                    NewMonitorZone(ChosenId(st.seqs, MONITOR_IDS, id), zoneId, name, counterId, thresholds, due, now)).0
    case Maintain(now, monitorId, on, note) => SetMaintenance(st, monitorId, on, note, now).0
    case Calibrate(now, monitorId, due) => SetCalibration(st, monitorId, due, now).0
    case Report(now, req) => ProcessSample(cfg, st, req, now).0
    case Interlock(now, zoneId, trigger, reason, ratio) =>
      Issue(st, zoneId, ManualTrigger(st, zoneId, trigger), ManualReason(reason), ManualRatio(ratio), now).0
    case Confirm(now, zoneId, operator, note) => if note == "" then st else Restore(st, zoneId, operator, note, now).0
    case Acknowledge(now, alertId, operator, note) => Ack(st, alertId, operator, note, now).0
    case Promote(now, alertId) => Escalate(st, alertId, now).0
    case SweepZones(now, tick) => ZoneSweep(cfg, st, tick, now)
    case SweepAlerts(now, tick) => EscalateSweep(cfg, st, tick, now)
  }

  // The state a run reaches from the empty store.
  function Exec(cfg: Config, run: seq<Step>): State {
    if run == [] then EMPTY else Apply(cfg, Exec(cfg, run[..|run| - 1]), run[|run| - 1])
  }

  // The sweep was started by a tick that is not in the future.
  predicate TickPassed(step: Step) {
    (step.SweepZones? || step.SweepAlerts?) ==> step.tick <= step.now
  }

  ghost predicate Clocked(run: seq<Step>) {
    && (forall i :: 0 <= i < |run| ==> TickPassed(run[i]))
    && (forall i, j :: 0 <= i < j < |run| ==> run[i].now <= run[j].now)
  }

  // Every step up to now happened no later than this.
  ghost predicate Until(run: seq<Step>, now: Time) {
    forall i :: 0 <= i < |run| ==> run[i].now <= now
  }
}
