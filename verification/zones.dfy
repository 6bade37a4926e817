/** Clean zones and the state machine they move in. */
module Zones {
  import opened Types
  import Text
  import Iso
  import Process

  datatype ZoneStatus = Normal | Elevated | OverLimit | Interlocked | Restored

  // The transition table.
  function Successors(from: ZoneStatus): set<ZoneStatus> {
    match from
    case Normal => {Elevated, OverLimit, Interlocked}
    case Elevated => {Normal, OverLimit, Interlocked}
    case OverLimit => {Interlocked, Elevated, Normal}
    case Interlocked => {Restored, Interlocked}
    case Restored => {Normal, Elevated, OverLimit, Interlocked}
  }

  predicate CanTransition(from: ZoneStatus, to: ZoneStatus) {
    from == to || to in Successors(from)
  }

  function TargetStatusFromRatio(current: ZoneStatus, ratio: real, overLimitRatio: real): (next: ZoneStatus)
    ensures CanTransition(current, next)
  {
    if ratio >= overLimitRatio then
      if CanTransition(current, OverLimit) then OverLimit else current
    else if ratio >= 1.0 then
      if CanTransition(current, Elevated) then Elevated else current
    else
      if CanTransition(current, Normal) then Normal else current
  }

  datatype CleanZone = CleanZone(
    id: string,
    name: string,
    area: string,
    iso: string,
    process: string,
    status: ZoneStatus,
    since: Time,
    ratio: real,
    createdAt: Time,
    updatedAt: Time)
  {
    // Validate: the class and process only have to parse, they are stored as they were spelled.
    predicate Valid() {
      && !Text.Blank(id) && !Text.Blank(name) && !Text.Blank(area)
      && Iso.Parses(iso) && Process.Parses(process)
    }

    function SetStatus(next: ZoneStatus, now: Time): CleanZone {
      if status == next then this else this.(status := next, since := now, updatedAt := now)
    }

    function Touch(now: Time): CleanZone {
      this.(updatedAt := now)
    }

    function SetRatio(latest: real, now: Time): CleanZone {
      if ratio == latest then this else this.(ratio := latest).Touch(now)
    }
  }

  function NewCleanZone(id: string, name: string, area: string, iso: string, process: string, now: Time): CleanZone {
    CleanZone(id, name, area, iso, process, Normal, now, 0.0, now, now)
  }

  // Elevated or over limit: what the auto-interlock sweeper looks for.
  predicate Alarming(status: ZoneStatus) {
    status == Elevated || status == OverLimit
  }
}
