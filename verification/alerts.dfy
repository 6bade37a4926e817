/** Cleanroom alerts: deduplication key, merging and the life of one alert. */
module Alerts {
  import opened Types
  import Text

  datatype AlertType = Particle | TempHumidity | Pressure | DataQuality

  datatype AlertLevel = Info | Warning | Critical

  datatype AlertStatus = Open | Acknowledged | Escalated | Closed

  // What the alert text says; the formatting itself is not modelled.
  datatype Message =
    | AboveLimit(ratio: real, count03: real, count05: real)
    | ClimateOutOfRange(temperature: real, humidity: real)
    | PressureOutOfRange(pressure: real, low: real, high: real)
    | CredibilityLow(invalidRatio: real)

  datatype CleanAlert = CleanAlert(
    id: string,
    zoneId: string,
    monitorId: string,
    kind: AlertType,
    level: AlertLevel,
    status: AlertStatus,
    message: Message,
    sampleId: string,
    count: int,
    dedupKey: string,
    firstSeenAt: Time,
    createdAt: Time,
    acknowledgedAt: Option<Time>,
    ackBy: string,
    disposition: string,
    escalatedAt: Option<Time>,
    closedAt: Option<Time>)
  {
    function Merge(other: CleanAlert): CleanAlert {
      this.(count := count + 1, createdAt := other.createdAt, message := other.message, sampleId := other.sampleId)
    }

    function Ack(operator: string, note: string, at: Time): Result<CleanAlert> {
      if Text.Blank(note) then Err(InvalidInput)
      else if status == Closed then Err(Conflict)
      else Ok(this.(status := Acknowledged, ackBy := operator, disposition := note, acknowledgedAt := Some(at)))
    }

    function Escalate(at: Time): CleanAlert {
      if status == Closed then this else this.(status := Escalated, escalatedAt := Some(at))
    }

    function Close(at: Time): CleanAlert {
      this.(status := Closed, closedAt := Some(at))
    }

    predicate IsActive() {
      status == Open || status == Escalated
    }

    // Counted from the last merge, not from the first sighting.
    predicate NeedsEscalation(now: Time, window: Time) {
      status == Open && now - createdAt >= window
    }
  }

  function TypeName(t: AlertType): string {
    match t
    case Particle => "particle"
    case TempHumidity => "temp_humidity"
    case Pressure => "pressure"
    case DataQuality => "data_quality"
  }

  function DedupKeyOf(monitorId: string, t: AlertType): string {
    monitorId + ":" + TypeName(t)
  }

  function NewAlert(id: string, zoneId: string, monitorId: string, t: AlertType, level: AlertLevel, message: Message,
                    sampleId: string, at: Time): CleanAlert {
    CleanAlert(id, zoneId, monitorId, t, level, Open, message, sampleId, 1, DedupKeyOf(monitorId, t),
               at, at, None, "", "", None, None)
  }

  // The order alerts are listed in.
  predicate Newer(a: CleanAlert, b: CleanAlert) {
    a.createdAt > b.createdAt
  }

  lemma ColonInside(a: string, x: string, b: string, y: string)
    requires a + ":" + x == b + ":" + y && |a| < |b|
    ensures ':' in x
  {
    var l, r := a + ":" + x, b + ":" + y;
    assert r[|b|] == ':' && l[|b|] == x[|b| - |a| - 1];
  }

  lemma SplitAtLastColon(a: string, x: string, b: string, y: string)
    requires ':' !in x && ':' !in y
    requires a + ":" + x == b + ":" + y
    ensures a == b && x == y
  {
    var l, r := a + ":" + x, b + ":" + y;
    if |a| < |b| {
      ColonInside(a, x, b, y);
    } else if |b| < |a| {
      ColonInside(b, y, a, x);
    } else {
      assert a == l[..|a|] && b == r[..|a|];
      assert x == l[|a| + 1..] && y == r[|a| + 1..];
    }
  }

  /** Two different monitor zone and type pairs never share a key, colons in monitor ids included. */
  lemma DedupKeyInjective(m1: string, t1: AlertType, m2: string, t2: AlertType)
    ensures DedupKeyOf(m1, t1) == DedupKeyOf(m2, t2) <==> m1 == m2 && t1 == t2
  {
    if DedupKeyOf(m1, t1) == DedupKeyOf(m2, t2) {
      SplitAtLastColon(m1, TypeName(t1), m2, TypeName(t2));
      assert TypeName(t1)[0] == TypeName(t2)[0] && |TypeName(t1)| == |TypeName(t2)|;
    }
  }
}
