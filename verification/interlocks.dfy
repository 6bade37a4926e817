/** Interlock logs and the strength of the ventilation command. */
module Interlocks {
  import opened Types

  datatype Action = FFUSpeedUp | FreshAirIncrease | ExhaustIncrease

  datatype InterlockLog = InterlockLog(
    id: string,
    zoneId: string,
    area: string,
    trigger: string,
    affected: seq<string>,
    action: Action,
    level: int,
    reason: string,
    peakRatio: real,
    issuedAt: Time,
    restoredAt: Option<Time>,
    restoreBy: string,
    restoreNote: string)
  {
    predicate IsOpen() {
      restoredAt.None?
    }

    function Close(operator: string, note: string, at: Time): InterlockLog {
      this.(restoreBy := operator, restoreNote := note, restoredAt := Some(at))
    }
  }

  function NewInterlockLog(id: string, zoneId: string, area: string, trigger: string, affected: seq<string>,
                           action: Action, level: int, reason: string, peakRatio: real, now: Time): InterlockLog {
    InterlockLog(id, zoneId, area, trigger, affected, action, level, reason, peakRatio, now, None, "", "")
  }

  function LevelForRatio(ratio: real): (level: int)
    ensures 1 <= level <= 3
  {
    if ratio >= 3.0 then 3 else if ratio >= 2.0 then 2 else 1
  }

  function ActionsForLevel(level: int): seq<Action> {
    [FFUSpeedUp, FreshAirIncrease] + (if level >= 2 then [ExhaustIncrease] else [])
  }

  // The order interlock logs are listed in.
  predicate Newer(a: InterlockLog, b: InterlockLog) {
    a.issuedAt > b.issuedAt
  }
}
