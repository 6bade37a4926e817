/** The tunable knobs of the service that the modelled rules read. */
module Config {
  import opened Types

  datatype Config = Config(
    autoInterlockAfter: Time,
    alertEscalateAfter: Time,
    alertDedupWindow: Time,
    invalidRatioThreshold: real,
    invalidRatioWindow: int,
    overLimitRatio: real,
    maxSamplesPerZone: int)
  {
    // Config.Validate, for the fields above.
    predicate Valid() {
      && autoInterlockAfter > 0 && alertEscalateAfter > 0 && alertDedupWindow > 0
      && 0.0 < invalidRatioThreshold <= 1.0
      && invalidRatioWindow >= 1
      && overLimitRatio >= 1.0
      && maxSamplesPerZone >= 0
    }

    function SampleWindow(): nat {
      if invalidRatioWindow < 1 then 50 else invalidRatioWindow
    }
  }
}
