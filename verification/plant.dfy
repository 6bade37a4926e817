/**
 The plant is the part of the state that interlocks act on: zones, monitor zones, interlock logs and the
 counters behind their ids. No step reads alerts or samples to decide what happens to it.
 */
module Plants {
  import opened Types
  import opened Config
  import opened Zones
  import opened Monitors
  import opened Interlocks
  import opened Samples
  import opened Alerts
  import opened State

  datatype Plant = Plant(zones: seq<CleanZone>, monitors: seq<MonitorZone>, logs: seq<InterlockLog>,
                         zoneIds: nat, monitorIds: nat, interlockIds: nat)

  function PlantOf(st: State): Plant {
    Plant(st.zones, st.monitors, st.logs,
          Issued(st.seqs, ZONE_IDS), Issued(st.seqs, MONITOR_IDS), Issued(st.seqs, INTERLOCK_IDS))
  }

  // The monitor zone, its clean zone and the judged reading of a report, when both are known.
  datatype Judged = Unknown | Judged(zone: CleanZone, monitor: MonitorZone, valid: bool, ratio: real)

  function Judge(st: State, req: IngestRequest, now: Time): Judged {
    match FindMonitor(st.monitors, req.monitorId)
    case None => Unknown
    case Some(m) =>
      match FindZone(st.zones, m.zoneId)
      case None => Unknown
      case Some(z) =>
        Judged(z, m, EvaluateValidity(m, if req.timestamp.Some? then req.timestamp.value else now).0,
               RatioOf(z, m, req.count03, req.count05))
  }

  // The samples and the counter behind their ids are the same.
  predicate HistoryKept(a: State, b: State) {
    a.samples == b.samples && Issued(a.seqs, SAMPLE_IDS) == Issued(b.seqs, SAMPLE_IDS)
  }

  lemma SignalFrame(cfg: Config, p: Progress, bad: bool, zoneId: string, monitorId: string, kind: AlertType,
                    level: AlertLevel, message: Message, sampleId: string, now: Time)
    ensures var next := Signal(cfg, p, bad, zoneId, monitorId, kind, level, message, sampleId, now).st;
            PlantOf(next) == PlantOf(p.st) && HistoryKept(p.st, next)
  {
    hide FindOpen, PutAlert, Resolve, Select, NewAlert;
  }

  /** Alerts have no effect on the plant or the sample history. */
  lemma ActFrame(cfg: Config, p: Progress, z: CleanZone, m: MonitorZone, s: EnvSample, now: Time)
    ensures var next := ActOn(cfg, p, z, m, s, now).st;
            var moved := MovePlant(cfg, p.st, z, m, RatioOf(z, m, s.count03, s.count05), now);
            PlantOf(next) == PlantOf(moved) && HistoryKept(moved, next)
  {
    hide Signal, MovePlant, MoveLog, MoveChanged, RatioOf, PlantOf;
    forall q, bad, zoneId, monitorId, kind, level, message, sampleId
      ensures var next := Signal(cfg, q, bad, zoneId, monitorId, kind, level, message, sampleId, now).st;
              PlantOf(next) == PlantOf(q.st) && HistoryKept(q.st, next)
    {
      SignalFrame(cfg, q, bad, zoneId, monitorId, kind, level, message, sampleId, now);
    }
  }

  lemma QualityFrame(cfg: Config, p: Progress, z: CleanZone, m: MonitorZone, s: EnvSample, now: Time)
    ensures var next := SignalQuality(cfg, p, z, m, s, now).st;
            PlantOf(next) == PlantOf(p.st) && HistoryKept(p.st, next)
  {
    hide Signal, Window, PlantOf;
    forall q, bad, zoneId, monitorId, kind, level, message, sampleId
      ensures var next := Signal(cfg, q, bad, zoneId, monitorId, kind, level, message, sampleId, now).st;
              PlantOf(next) == PlantOf(q.st) && HistoryKept(q.st, next)
    {
      SignalFrame(cfg, q, bad, zoneId, monitorId, kind, level, message, sampleId, now);
    }
  }

  // Where two states with one plant take a ratio.
  lemma MovePlantLike(cfg: Config, a: State, b: State, z: CleanZone, m: MonitorZone, ratio: real, now: Time)
    requires PlantOf(a) == PlantOf(b)
    ensures PlantOf(MovePlant(cfg, a, z, m, ratio, now)) == PlantOf(MovePlant(cfg, b, z, m, ratio, now))
  {
    hide InterlockArea, Ventilate, RecordRatio, PutZone, InArea, ZoneIds;
  }

  /** A report moves the plant as its ratio demands when it is judged valid, and not at all otherwise. */
  lemma ReportOnPlant(cfg: Config, st: State, req: IngestRequest, now: Time)
    ensures var next, j := ProcessSample(cfg, st, req, now).0, Judge(st, req, now);
            && (j.Judged? && j.valid ==> PlantOf(next) == PlantOf(MovePlant(cfg, st, j.zone, j.monitor, j.ratio, now)))
            && (j.Judged? && !j.valid ==> PlantOf(next) == PlantOf(st))
            && (j.Unknown? ==> next == st)
  {
    var j := Judge(st, req, now);
    hide ActOn, SignalQuality, MovePlant, RatioOf, AppendSample, ZoneIndex, MonitorIndex;
    if j.Judged? {
      var p := Started(st, j.zone, j.monitor, req, now);
      var s := Classified(p.res.sample);
      assert PlantOf(p.st) == PlantOf(st);
      hide PlantOf;
      ActFrame(cfg, p, j.zone, j.monitor, s, now);
      MovePlantLike(cfg, p.st, st, j.zone, j.monitor, j.ratio, now);
      var acted := if s.valid then ActOn(cfg, p, j.zone, j.monitor, s, now) else p;
      QualityFrame(cfg, acted, j.zone, j.monitor, s, now);
      IngestEnds(cfg, st, j.zone, j.monitor, req, now);
    }
  }

  lemma IngestEnds(cfg: Config, st: State, z: CleanZone, m: MonitorZone, req: IngestRequest, now: Time)
    ensures var p := Started(st, z, m, req, now);
            var s := Classified(p.res.sample);
            var judged := SignalQuality(cfg, if s.valid then ActOn(cfg, p, z, m, s, now) else p, z, m, s, now);
            PlantOf(Ingest(cfg, st, z, m, req, now).st) == PlantOf(judged.st)
  {
    hide ActOn, SignalQuality, AppendSample;
  }
}
