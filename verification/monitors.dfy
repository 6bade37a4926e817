/** Monitor zones: sampling points with their particle counter, fan filter unit and thresholds. */
module Monitors {
  import opened Types
  import opened Sequences
  import Text
  import Iso
  import Process
  import Interlocks

  // Zero means "derive it from the class and the process".
  datatype ZoneThresholds = ZoneThresholds(limit03: real, limit05: real, range: Process.EnvRange)

  datatype Equipment = Equipment(
    calibrationDue: Option<Time>,
    inMaintenance: bool,
    maintenanceNote: string,
    maintenanceSince: Option<Time>,
    ffuLevel: int,
    freshAirRatio: int)

  datatype MonitorZone = MonitorZone(
    id: string,
    zoneId: string,
    name: string,
    counterId: string,
    thresholds: ZoneThresholds,
    equipment: Equipment,
    createdAt: Time,
    updatedAt: Time)
  {
    predicate Valid() {
      && !Text.Blank(id) && !Text.Blank(zoneId) && !Text.Blank(name) && !Text.Blank(counterId)
      && 0 <= equipment.ffuLevel <= 100
    }

    predicate CalibrationExpired(at: Time) {
      equipment.calibrationDue.Some? && at > equipment.calibrationDue.value
    }

    function SetMaintenance(on: bool, note: string, now: Time): MonitorZone {
      var e := equipment.(
        inMaintenance := on,
        maintenanceNote := note,
        maintenanceSince := if on then Some(now) else None);
      this.(equipment := e, updatedAt := now)
    }

    function SetCalibration(due: Option<Time>, now: Time): MonitorZone {
      this.(equipment := equipment.(calibrationDue := due)).Touch(now)
    }

    function Touch(now: Time): MonitorZone {
      this.(updatedAt := now)
    }

    // The effect of one interlock command of the given level on this point's equipment.
    function Command(action: Interlocks.Action, level: int): MonitorZone {
      match action
      case FFUSpeedUp => this.(equipment := equipment.(ffuLevel := Min(100, equipment.ffuLevel + 10 * level)))
      case FreshAirIncrease => this.(equipment := equipment.(freshAirRatio := Min(100, equipment.freshAirRatio + 5 * level)))
      case ExhaustIncrease => this
    }

    // Explicit overrides win over the class limit scaled by the process multiplier.
    function EffectiveLimits(iso: string, table: map<string, Iso.IsoLimit>, multiplier: real): Iso.IsoLimit {
      var base := Iso.Lookup(table, iso);
      Iso.IsoLimit(
        if thresholds.limit03 > 0.0 then thresholds.limit03 else base.count03 * multiplier,
        if thresholds.limit05 > 0.0 then thresholds.limit05 else base.count05 * multiplier)
    }

    function EffectiveEnvRange(process: string): Process.EnvRange {
      var base, own := Process.DefaultsFor(process).range, thresholds.range;
      Process.EnvRange(
        Override(own.tempMin, base.tempMin), Override(own.tempMax, base.tempMax),
        Override(own.humidityMin, base.humidityMin), Override(own.humidityMax, base.humidityMax),
        Override(own.pressureMin, base.pressureMin), Override(own.pressureMax, base.pressureMax))
    }

    static function Override(own: real, base: real): real {
      if own != 0.0 then own else base
    }
  }

  // The calibration date, one calendar year after now, is worked out by the caller.
  function NewMonitorZone(id: string, zoneId: string, name: string, counterId: string,
                          thresholds: ZoneThresholds, due: Time, now: Time): MonitorZone {
    MonitorZone(id, zoneId, name, counterId, thresholds,
                Equipment(Some(due), false, "", None, 60, 30), now, now)
  }

  // What a whole command set of a level does to one monitor zone.
  function Ventilated(m: MonitorZone, level: int, now: Time): MonitorZone {
    m.(equipment := m.equipment.(
         ffuLevel := Min(100, m.equipment.ffuLevel + 10 * level),
         freshAirRatio := Min(100, m.equipment.freshAirRatio + 5 * level)),
       updatedAt := now)
  }

  /** Carries out the commands in order, as the interlock service does for each monitor zone. */
  method Obey(m: MonitorZone, actions: seq<Interlocks.Action>, level: int, now: Time) returns (r: MonitorZone)
    requires level >= 1
    requires actions == Interlocks.ActionsForLevel(level)
    ensures r == Ventilated(m, level, now)
  {
    r := m;
    for i := 0 to |actions|
      invariant r == (if i == 0 then m
                      else if i == 1 then m.Command(Interlocks.FFUSpeedUp, level)
                      else m.Command(Interlocks.FFUSpeedUp, level).Command(Interlocks.FreshAirIncrease, level))
    {
      r := r.Command(actions[i], level);
    }
    r := r.Touch(now);
  }
}
