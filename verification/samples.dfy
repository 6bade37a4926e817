/** Environment samples, their validity and the data-credibility rule. */
module Samples {
  import opened Types
  import opened Sequences
  import Process
  import Monitors

  datatype EnvSample = EnvSample(
    id: string,
    monitorId: string,
    count03: real,
    count05: real,
    temperature: real,
    humidity: real,
    pressure: real,
    valid: bool,
    invalidReason: string,
    iso: string,
    overTable: bool,
    timestamp: Time,
    receivedAt: Time)
  {
    function MarkInvalid(reason: string): EnvSample {
      this.(valid := false, invalidReason := reason, iso := "")
    }
  }

  // A reading without a report time is stamped with the clock.
  function NewSample(id: string, monitorId: string, count03: real, count05: real, temperature: real, humidity: real,
                     pressure: real, timestamp: Option<Time>, now: Time): EnvSample {
    EnvSample(id, monitorId, count03, count05, temperature, humidity, pressure, true, "", "", false,
              if timestamp.Some? then timestamp.value else now, now)
  }

  predicate TempOut(s: EnvSample, r: Process.EnvRange) {
    s.temperature < r.tempMin || s.temperature > r.tempMax
  }

  predicate HumidityOut(s: EnvSample, r: Process.EnvRange) {
    s.humidity < r.humidityMin || s.humidity > r.humidityMax
  }

  predicate PressureOut(s: EnvSample, r: Process.EnvRange) {
    s.pressure < r.pressureMin || s.pressure > r.pressureMax
  }

  // Counters in maintenance or past calibration give readings that must not be judged.
  // The reading's own report time decides, not the clock.
  function EvaluateValidity(m: Monitors.MonitorZone, at: Time): (bool, string) {
    if m.equipment.inMaintenance then (false, "counter_in_pm_maintenance")
    else if m.CalibrationExpired(at) then (false, "calibration_expired")
    else (true, "")
  }

  // The order samples are listed in.
  predicate Newer(a: EnvSample, b: EnvSample) {
    a.timestamp > b.timestamp
  }

  function OfMonitor(s: seq<EnvSample>, monitorId: string): (r: seq<EnvSample>)
    ensures forall x :: x in r ==> x in s && x.monitorId == monitorId
    ensures |r| <= |s|
  {
    if s == [] then []
    else
      var front, last := s[..|s| - 1], s[|s| - 1];
      OfMonitor(front, monitorId) + (if last.monitorId == monitorId then [last] else [])
  }

  function InvalidUnit(s: EnvSample): int {
    if s.valid then 0 else 1
  }

  function InvalidCount(s: seq<EnvSample>): int {
    Sum(s, InvalidUnit)
  }

  function InvalidRatio(s: seq<EnvSample>): real {
    if s == [] then 0.0 else InvalidCount(s) as real / |s| as real
  }

  /** The invalid share of the newest samples, and whether it exceeds the threshold; no window means 50. */
  method EvaluateInvalidRatio(samples: seq<EnvSample>, window: int, threshold: real) returns (ratio: real, exceed: bool)
    ensures var recent := Take(samples, if window <= 0 then 50 else window);
            && ratio == InvalidRatio(recent)
            && (exceed <==> recent != [] && InvalidCount(recent) as real > threshold * |recent| as real)
  {
    var size := window;
    if size <= 0 {
      size := 50;
    }
    if |samples| == 0 {
      return 0.0, false;
    }
    var recent := Take(samples, size);
    var invalid := 0;
    for i := 0 to |recent|
      invariant invalid == InvalidCount(recent[..i])
    {
      assert recent[..i + 1][..i] == recent[..i];
      if !recent[i].valid {
        invalid := invalid + 1;
      }
    }
    assert recent[..|recent|] == recent;
    ratio := invalid as real / |recent| as real;
    exceed := ratio > threshold;
    ShareExceeds(invalid as real, |recent| as real, threshold);
  }

  lemma ShareExceeds(part: real, whole: real, threshold: real)
    requires whole > 0.0
    ensures part / whole > threshold <==> part > threshold * whole
  {
    assert part == (part / whole) * whole;
    if part / whole > threshold {
      assert (part / whole) * whole > threshold * whole;
    } else {
      assert (part / whole) * whole <= threshold * whole;
    }
  }
}
