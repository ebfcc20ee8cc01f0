/** The streaming consumer: each polled record is decoded and stamped with
    its Kafka coordinates, buffered per topic and written to storage in
    batches of 100, with whatever is left written when consumption ends.
    The analytics variant also runs every sensor record through a threshold
    analyzer that counts messages, anomalies and alerts. Polls are an input
    sequence (its end stands for the interrupt that stops the loop), and
    storage is a log of the batches handed to it. */
module KafkaConsumer {
  import opened Values
  import opened KafkaProducer

  /** A decoded record: the JSON object of a message. */
  type Row = map<string, Value>

  /** One `consumer.poll(timeout=1.0)`: nothing, an error event, or a
      record whose value either decodes to a JSON value or does not. */
  datatype Poll =
    | NoMessage
    | PollError(partitionEof: bool)
    | Record(topic: Topic, partition: int, offset: int, decoded: Option<Value>, consumedAt: string)

  /** `ManufacturingDataConsumer.process_message(msg)`: the decoded object
      with the topic, partition, offset and consumption time added. A value
      that does not decode, or decodes to something other than an object
      (whose item assignment raises), gives None. */
  function ProcessedRecord(p: Poll): (r: Option<Row>)
    requires p.Record?
    ensures r.Some? <==> p.decoded.Some? && p.decoded.value.Dict?
    ensures r.Some? ==>
      && (forall k :: k in r.value <==> k in p.decoded.value.entries || k in MetadataKeys)
      && r.value["kafka_topic"] == Str(TopicName(p.topic))
      && r.value["kafka_partition"] == Int(p.partition)
      && r.value["kafka_offset"] == Int(p.offset)
      && r.value["consumed_at"] == Str(p.consumedAt)
      && (forall k :: k in p.decoded.value.entries && k !in MetadataKeys ==> r.value[k] == p.decoded.value.entries[k])
  {
    match p.decoded
    case Some(Dict(data)) =>
      MetadataKeysDistinct();
      Some(data["kafka_topic" := Str(TopicName(p.topic))]
               ["kafka_partition" := Int(p.partition)]
               ["kafka_offset" := Int(p.offset)]
               ["consumed_at" := Str(p.consumedAt)])
    case _ => None
  }

  const MetadataKeys: set<string> := {"kafka_topic", "kafka_partition", "kafka_offset", "consumed_at"}

  lemma MetadataKeysDistinct()
    ensures "kafka_topic" != "kafka_partition" && "kafka_topic" != "kafka_offset"
    ensures "kafka_partition" != "kafka_offset"
    ensures "consumed_at" != "kafka_topic" && "consumed_at" != "kafka_partition" && "consumed_at" != "kafka_offset"
  {
    assert "kafka_topic"[6] != "kafka_partition"[6] && "kafka_topic"[6] != "kafka_offset"[6];
    assert "kafka_partition"[6] != "kafka_offset"[6];
    assert "consumed_at"[0] != "kafka_topic"[0];
  }

  // ---------------------------------------------------------------------------
  // Real-time analysis
  // ---------------------------------------------------------------------------

  datatype AlertKind = HighTemperature | HighVibration | LowPressure

  function AlertType(k: AlertKind): string {
    match k
    case HighTemperature => "HIGH_TEMPERATURE"
    case HighVibration => "HIGH_VIBRATION"
    case LowPressure => "LOW_PRESSURE"
  }

  function KindRank(k: AlertKind): nat {
    match k
    case HighTemperature => 0
    case HighVibration => 1
    case LowPressure => 2
  }

  /** One alert record. */
  datatype Alert = Alert(kind: AlertKind, equipmentId: Value, value: Value, threshold: real, timestamp: Value)

  /** One threshold rule: the reading it looks at, the threshold used when
      the analyzer has none for it, and whether a reading above (or below)
      the threshold raises the alert. */
  datatype Rule = Rule(kind: AlertKind, key: string, default: real, above: bool)

  const TemperatureRule := Rule(HighTemperature, "temperature", 100.0, true)
  const VibrationRule := Rule(AlertKind.HighVibration, "vibration", 10.0, true)
  const PressureRule := Rule(LowPressure, "pressure", 20.0, false)

  /** The threshold a rule compares against: `alert_threshold.get(key,
      default)`. */
  function Limit(thresholds: map<string, real>, rule: Rule): real {
    if rule.key in thresholds then thresholds[rule.key] else rule.default
  }

  /** A strict comparison of a decoded reading with a threshold; a reading
      that is not a number raises TypeError. */
  function Crosses(v: Value, limit: real, above: bool): (r: Result<bool, PyError>)
    ensures r.Err? <==> AsNumber(v).None?
    ensures r.Ok? ==> (r.value <==> if above then AsNumber(v).value > limit else AsNumber(v).value < limit)
  {
    match AsNumber(v)
    case None => Err(TypeError)
    case Some(x) => Ok(if above then x > limit else x < limit)
  }

  /** One `if key in data and data[key] > threshold: alerts.append({...})`
      block. The alert record reads the equipment id, then the threshold,
      then the timestamp; as written the threshold is read with
      `alert_threshold[key]`, which raises when the analyzer has no entry
      for the key even though the comparison used the default. */
  function CheckRule(data: Row, thresholds: map<string, real>, rule: Rule, asWritten: bool): Result<Option<Alert>, PyError> {
    if rule.key !in data then Ok(None)
    else
      match Crosses(data[rule.key], Limit(thresholds, rule), rule.above)
      case Err(e) => Err(e)
      case Ok(crossed) =>
        if !crossed then Ok(None)
        else if "equipment_id" !in data then Err(KeyError("equipment_id"))
        else if asWritten && rule.key !in thresholds then Err(KeyError(rule.key))
        else if "timestamp" !in data then Err(KeyError("timestamp"))
        else Ok(Some(Alert(rule.kind, data["equipment_id"], data[rule.key], Limit(thresholds, rule), data["timestamp"])))
  }

  function Listed(a: Option<Alert>): seq<Alert> {
    if a.Some? then [a.value] else []
  }

  /** The three rule blocks in order: temperature, vibration, pressure. */
  function CollectAlerts(data: Row, thresholds: map<string, real>, asWritten: bool): Result<seq<Alert>, PyError> {
    match CheckRule(data, thresholds, TemperatureRule, asWritten)
    case Err(e) => Err(e)
    case Ok(t) =>
      match CheckRule(data, thresholds, VibrationRule, asWritten)
      case Err(e) => Err(e)
      case Ok(v) =>
        match CheckRule(data, thresholds, PressureRule, asWritten)
        case Err(e) => Err(e)
        case Ok(p) => Ok(Listed(t) + Listed(v) + Listed(p))
  }

  /** The alerts as the source computes them. */
  function WrittenAlerts(data: Row, thresholds: map<string, real>): Result<seq<Alert>, PyError> {
    CollectAlerts(data, thresholds, true)
  }

  /** The alerts with each record holding the threshold its comparison
      used. */
  function Alerts(data: Row, thresholds: map<string, real>): Result<seq<Alert>, PyError> {
    CollectAlerts(data, thresholds, false)
  }

  /** A reading crosses its rule's threshold. */
  predicate Fires(data: Row, thresholds: map<string, real>, rule: Rule) {
    rule.key in data && AsNumber(data[rule.key]).Some?
    && (if rule.above then AsNumber(data[rule.key]).value > Limit(thresholds, rule)
        else AsNumber(data[rule.key]).value < Limit(thresholds, rule))
  }

  lemma CheckRuleFires(data: Row, thresholds: map<string, real>, rule: Rule)
    requires CheckRule(data, thresholds, rule, false).Ok?
    ensures var a := CheckRule(data, thresholds, rule, false).value;
      && (a.Some? <==> Fires(data, thresholds, rule))
      && (a.Some? ==> a.value.kind == rule.kind && a.value.threshold == Limit(thresholds, rule)
                      && a.value.value == data[rule.key])
  {
  }

  /** At most three alerts, in the order temperature, vibration, pressure;
      each kind present exactly when its reading strictly crosses its
      threshold, and recorded with that threshold. */
  lemma AlertsShape(data: Row, thresholds: map<string, real>)
    requires Alerts(data, thresholds).Ok?
    ensures var alerts := Alerts(data, thresholds).value;
      && |alerts| <= 3
      && (forall i, j :: 0 <= i < j < |alerts| ==> KindRank(alerts[i].kind) < KindRank(alerts[j].kind))
      && (forall a :: a in alerts ==> a.threshold == Limit(thresholds, RuleOf(a.kind)))
      && ((exists a :: a in alerts && a.kind == HighTemperature) <==> Fires(data, thresholds, TemperatureRule))
      && ((exists a :: a in alerts && a.kind == AlertKind.HighVibration) <==> Fires(data, thresholds, VibrationRule))
      && ((exists a :: a in alerts && a.kind == LowPressure) <==> Fires(data, thresholds, PressureRule))
  {
    var t := CheckRule(data, thresholds, TemperatureRule, false).value;
    var v := CheckRule(data, thresholds, VibrationRule, false).value;
    var p := CheckRule(data, thresholds, PressureRule, false).value;
    CheckRuleFires(data, thresholds, TemperatureRule);
    CheckRuleFires(data, thresholds, VibrationRule);
    CheckRuleFires(data, thresholds, PressureRule);
    var alerts := Listed(t) + Listed(v) + Listed(p);
    assert Alerts(data, thresholds).value == alerts;
    forall a | a in alerts ensures a in Listed(t) || a in Listed(v) || a in Listed(p) {
    }
    if t.Some? {
      assert alerts[0] == t.value;
    }
    if v.Some? {
      assert alerts[|Listed(t)|] == v.value;
    }
    if p.Some? {
      assert alerts[|alerts| - 1] == p.value;
    }
  }

  function RuleOf(k: AlertKind): Rule {
    match k
    case HighTemperature => TemperatureRule
    case HighVibration => VibrationRule
    case LowPressure => PressureRule
  }

  /** Readings that are numbers (or absent), and a record that names its
      equipment and time, never make the analysis raise. */
  lemma AlertsDefined(data: Row, thresholds: map<string, real>)
    requires forall k :: k in {"temperature", "vibration", "pressure"} && k in data ==> AsNumber(data[k]).Some?
    requires "equipment_id" in data && "timestamp" in data
    ensures Alerts(data, thresholds).Ok?
  {
    assert "temperature" in {"temperature", "vibration", "pressure"};
    assert "vibration" in {"temperature", "vibration", "pressure"};
    assert "pressure" in {"temperature", "vibration", "pressure"};
  }

  /** Whenever the source's alert computation succeeds it agrees with the
      corrected one, and with a threshold for every reading the two are the
      same. */
  lemma WrittenAlertsAgree(data: Row, thresholds: map<string, real>)
    ensures WrittenAlerts(data, thresholds).Ok? ==> WrittenAlerts(data, thresholds) == Alerts(data, thresholds)
    ensures "temperature" in thresholds && "vibration" in thresholds && "pressure" in thresholds ==>
      WrittenAlerts(data, thresholds) == Alerts(data, thresholds)
  {
  }

  /** An analyzer configured without a temperature threshold compares a
      reading of 120 with the default 100, then fails with KeyError while
      recording the alert; the corrected computation reports the alert
      with the threshold 100. */
  lemma WrittenAlertsMissingThreshold()
    ensures var data := map["equipment_id" := Str("CNC-A-101"), "timestamp" := Str("t0"), "temperature" := Num(120.0)];
      var thresholds := map["vibration" := 5.0, "pressure" := 30.0];
      && WrittenAlerts(data, thresholds) == Err(KeyError("temperature"))
      && Alerts(data, thresholds) == Ok([Alert(HighTemperature, Str("CNC-A-101"), Num(120.0), 100.0, Str("t0"))])
  {
    var data := map["equipment_id" := Str("CNC-A-101"), "timestamp" := Str("t0"), "temperature" := Num(120.0)];
    var thresholds := map["vibration" := 5.0, "pressure" := 30.0];
    assert "temperature"[0] != "vibration"[0] && "temperature"[0] != "pressure"[0];
    assert "equipment_id"[0] != "temperature"[0] && "timestamp"[1] != "temperature"[1];
    assert "vibration" !in data && "pressure" !in data by {
      assert "vibration"[0] != "equipment_id"[0] && "vibration"[0] != "timestamp"[0];
      assert "pressure"[0] != "equipment_id"[0] && "pressure"[0] != "timestamp"[0];
    }
    assert "temperature" !in thresholds;
    assert Limit(thresholds, TemperatureRule) == 100.0;
    assert Crosses(data["temperature"], 100.0, true) == Ok(true);
    assert CheckRule(data, thresholds, TemperatureRule, true) == Err(KeyError("temperature"));
    var alert := Alert(HighTemperature, Str("CNC-A-101"), Num(120.0), 100.0, Str("t0"));
    assert CheckRule(data, thresholds, TemperatureRule, false) == Ok(Some(alert));
    assert CheckRule(data, thresholds, VibrationRule, false) == Ok(None);
    assert CheckRule(data, thresholds, PressureRule, false) == Ok(None);
    assert Listed(Some(alert)) + Listed(None) + Listed(None) == [alert];
  }

  /** The analyzer's counters. */
  datatype Stats = Stats(totalMessages: nat, anomaliesDetected: nat, alertsTriggered: nat)

  /** The value `analyze` returns. */
  datatype Analysis = Analysis(hasAlerts: bool, alerts: seq<Alert>, stats: Stats)

  function Indicator(b: bool): nat {
    if b then 1 else 0
  }

  /** `RealTimeAnalyzer.analyze(data)` on the counters `stats`: the result
      (or the exception it raises) and the counters afterwards. The message
      and anomaly counters are updated before the alerts are computed, so
      they change even when the computation raises. */
  function AnalyzeStep(thresholds: map<string, real>, stats: Stats, data: Row): (r: (Result<Analysis, PyError>, Stats))
    ensures r.1.totalMessages == stats.totalMessages + 1
    ensures r.1.anomaliesDetected == stats.anomaliesDetected + Indicator(Truthy(Get(data, "is_anomaly", Null)))
    ensures r.0.Err? <==> Alerts(data, thresholds).Err?
    ensures r.0.Err? ==> r.1.alertsTriggered == stats.alertsTriggered
    ensures r.0.Ok? ==>
      && r.0.value.alerts == Alerts(data, thresholds).value
      && r.1.alertsTriggered == stats.alertsTriggered + |r.0.value.alerts|
      && (r.0.value.hasAlerts <==> r.0.value.alerts != [])
      && r.0.value.stats == r.1
  {
    var counted := Stats(stats.totalMessages + 1,
                         stats.anomaliesDetected + Indicator(Truthy(Get(data, "is_anomaly", Null))),
                         stats.alertsTriggered);
    match Alerts(data, thresholds)
    case Err(e) => (Err(e), counted)
    case Ok(alerts) =>
      var after := counted.(alertsTriggered := counted.alertsTriggered + |alerts|);
      (Ok(Analysis(|alerts| > 0, alerts, after)), after)
  }

  /** Counters that never claim more anomalies than messages, nor more than
      three alerts per message. */
  predicate StatsConsistent(s: Stats) {
    s.anomaliesDetected <= s.totalMessages && s.alertsTriggered <= 3 * s.totalMessages
  }

  /** Every analysis, raising or not, keeps the counters consistent. */
  lemma AnalyzeStepConsistent(thresholds: map<string, real>, stats: Stats, data: Row)
    requires StatsConsistent(stats)
    ensures StatsConsistent(AnalyzeStep(thresholds, stats, data).1)
  {
    if Alerts(data, thresholds).Ok? {
      AlertsShape(data, thresholds);
    }
  }

  /** `RealTimeAnalyzer`: a fixed table of thresholds and running
      counters. */
  class RealTimeAnalyzer {
    const alertThreshold: map<string, real>
    var stats: Stats

    constructor (alertThreshold: map<string, real>)
      ensures this.alertThreshold == alertThreshold
      ensures stats == Stats(0, 0, 0)
    {
      this.alertThreshold := alertThreshold;
      stats := Stats(0, 0, 0);
    }

    /** `analyze(data)` */
    method Analyze(data: Row) returns (r: Result<Analysis, PyError>)
      modifies this
      ensures (r, stats) == AnalyzeStep(alertThreshold, old(stats), data)
    {
      stats := stats.(totalMessages := stats.totalMessages + 1);
      if Truthy(Get(data, "is_anomaly", Null)) {
        stats := stats.(anomaliesDetected := stats.anomaliesDetected + 1);
      }
      var alerts: seq<Alert> := [];
      var t := CheckRule(data, alertThreshold, TemperatureRule, false);
      if t.Err? {
        assert Alerts(data, alertThreshold) == Err(t.error);
        return Err(t.error);
      }
      alerts := alerts + Listed(t.value);
      var v := CheckRule(data, alertThreshold, VibrationRule, false);
      if v.Err? {
        assert Alerts(data, alertThreshold) == Err(v.error);
        return Err(v.error);
      }
      alerts := alerts + Listed(v.value);
      var p := CheckRule(data, alertThreshold, PressureRule, false);
      if p.Err? {
        assert Alerts(data, alertThreshold) == Err(p.error);
        return Err(p.error);
      }
      alerts := alerts + Listed(p.value);
      assert alerts == Alerts(data, alertThreshold).value;
      if alerts != [] {
        stats := stats.(alertsTriggered := stats.alertsTriggered + |alerts|);
      }
      r := Ok(Analysis(|alerts| > 0, alerts, stats));
    }
  }

  /** The analysis result as the dictionary stored under
      `analysis_result`. */
  function AnalysisValue(a: Analysis): Value {
    Dict(map["has_alerts" := Bool(a.hasAlerts),
             "alerts" := List(seq(|a.alerts|, i requires 0 <= i < |a.alerts| => AlertValue(a.alerts[i]))),
             "stats" := Dict(map["total_messages" := Int(a.stats.totalMessages),
                                 "anomalies_detected" := Int(a.stats.anomaliesDetected),
                                 "alerts_triggered" := Int(a.stats.alertsTriggered)])])
  }

  function AlertValue(a: Alert): Value {
    Dict(map["type" := Str(AlertType(a.kind)), "equipment_id" := a.equipmentId, "value" := a.value,
             "threshold" := Num(a.threshold), "timestamp" := a.timestamp])
  }

  // ---------------------------------------------------------------------------
  // Consumption
  // ---------------------------------------------------------------------------

  /** `self.batch_size` */
  const BatchSize: nat := 100

  /** The subscribed topics, in the order of the buffer dictionary. */
  const Topics: seq<Topic> := [EquipmentSensors, EquipmentStatus, QualityMetrics]

  /** One `write_to_storage(topic, data_list)` call that writes a file. */
  datatype Batch = Batch(topic: Topic, records: seq<Row>)

  /** The records written for topic `t`, batch after batch. */
  function Flatten(batches: seq<Batch>, t: Topic): seq<Row>
    decreases |batches|
  {
    if batches == [] then []
    else
      var n := |batches| - 1;
      Flatten(batches[..n], t) + (if batches[n].topic == t then batches[n].records else [])
  }

  lemma {:induction false} FlattenConcat(a: seq<Batch>, b: seq<Batch>, t: Topic)
    ensures Flatten(a + b, t) == Flatten(a, t) + Flatten(b, t)
    decreases |b|
  {
    if b == [] {
      assert a + b == a;
    } else {
      var n := |b| - 1;
      assert (a + b)[..|a + b| - 1] == a + b[..n];
      FlattenConcat(a, b[..n], t);
    }
  }

  /** The records of topic `t` among tagged records, in order. */
  function RowsFor(rows: seq<(Topic, Row)>, t: Topic): seq<Row>
    decreases |rows|
  {
    if rows == [] then []
    else
      var n := |rows| - 1;
      RowsFor(rows[..n], t) + (if rows[n].0 == t then [rows[n].1] else [])
  }

  /** The records `process_message` of the plain consumer accepts from the
      polls, tagged with their topics: nothing for empty polls, error events
      and undecodable values. */
  function Accepted(polls: seq<Poll>): (r: seq<(Topic, Row)>)
    ensures |r| <= |polls|
    decreases |polls|
  {
    if polls == [] then []
    else
      var n := |polls| - 1;
      var p := polls[n];
      Accepted(polls[..n])
      + (if p.Record? && ProcessedRecord(p).Some? then [(p.topic, ProcessedRecord(p).value)] else [])
  }

  /** What the consumer buffers for an accepted record: the record itself,
      or, for a sensor record of the analytics consumer, the record with
      its `analysis_result` added. */
  predicate Annotated(base: (Topic, Row), row: (Topic, Row), withAnalytics: bool) {
    row.0 == base.0
    && if withAnalytics && base.0 == EquipmentSensors then
         "analysis_result" in row.1 && row.1 == base.1["analysis_result" := row.1["analysis_result"]]
       else row.1 == base.1
  }

  /** The batches the final flush writes for the topics `ts`, in order. */
  function FlushedOver(buffers: map<Topic, seq<Row>>, ts: seq<Topic>): seq<Batch>
    requires forall t :: t in buffers
    decreases |ts|
  {
    if ts == [] then []
    else
      var u := ts[|ts| - 1];
      FlushedOver(buffers, ts[..|ts| - 1]) + (if buffers[u] != [] then [Batch(u, buffers[u])] else [])
  }

  /** The final flush: one batch per non-empty buffer, in topic order. */
  function Flushed(buffers: map<Topic, seq<Row>>): seq<Batch>
    requires forall t :: t in buffers
  {
    FlushedOver(buffers, Topics)
  }

  /** Flushing one more topic adds that topic's buffer, and only for that
      topic. */
  lemma FlushedOverSnoc(buffers: map<Topic, seq<Row>>, ts: seq<Topic>, u: Topic, t: Topic)
    requires forall t :: t in buffers
    ensures Flatten(FlushedOver(buffers, ts + [u]), t) == Flatten(FlushedOver(buffers, ts), t) + (if u == t then buffers[u] else [])
  {
    var last := if buffers[u] != [] then [Batch(u, buffers[u])] else [];
    assert (ts + [u])[..|ts|] == ts;
    assert FlushedOver(buffers, ts + [u]) == FlushedOver(buffers, ts) + last;
    FlattenConcat(FlushedOver(buffers, ts), last, t);
    FlattenSingle(last, t);
  }

  /** Flushing three distinct topics writes exactly their buffers. */
  lemma FlattenFlushedThree(buffers: map<Topic, seq<Row>>, x: Topic, y: Topic, z: Topic, t: Topic)
    requires forall t :: t in buffers
    requires x != y && x != z && y != z
    requires t == x || t == y || t == z
    ensures Flatten(FlushedOver(buffers, [x, y, z]), t) == buffers[t]
  {
    SnocThree(x, y, z);
    FlushedOverSnoc(buffers, [], x, t);
    FlushedOverSnoc(buffers, [x], y, t);
    FlushedOverSnoc(buffers, [x, y], z, t);
  }

  lemma SnocThree(x: Topic, y: Topic, z: Topic)
    ensures [] + [x] == [x] && [x] + [y] == [x, y] && [x, y] + [z] == [x, y, z]
  {
  }

  /** The final flush writes each topic's buffer, and nothing else. */
  lemma FlattenFlushed(buffers: map<Topic, seq<Row>>, t: Topic)
    requires forall t :: t in buffers
    ensures Flatten(Flushed(buffers), t) == buffers[t]
  {
    FlattenFlushedThree(buffers, EquipmentSensors, EquipmentStatus, QualityMetrics, t);
  }

  lemma FlattenSingle(b: seq<Batch>, t: Topic)
    requires |b| <= 1
    ensures Flatten(b, t) == if b != [] && b[0].topic == t then b[0].records else []
  {
    if b != [] {
      assert b[..0] == [];
    }
  }

  lemma RowsForSnoc(rows: seq<(Topic, Row)>, topic: Topic, data: Row, t: Topic)
    ensures RowsFor(rows + [(topic, data)], t) == RowsFor(rows, t) + (if t == topic then [data] else [])
  {
    assert (rows + [(topic, data)])[..|rows|] == rows;
  }

  /** Accepting one more poll. */
  lemma AcceptedStep(polls: seq<Poll>, i: nat)
    requires i < |polls|
    ensures Accepted(polls[..i + 1]) == Accepted(polls[..i])
      + (if polls[i].Record? && ProcessedRecord(polls[i]).Some?
         then [(polls[i].topic, ProcessedRecord(polls[i]).value)] else [])
  {
    assert polls[..i + 1][..i] == polls[..i];
  }

  /** The records buffered so far are the accepted ones, annotated. */
  predicate AnnotatedAll(accepted: seq<(Topic, Row)>, rows: seq<(Topic, Row)>, withAnalytics: bool) {
    |rows| == |accepted| && forall j :: 0 <= j < |rows| ==> Annotated(accepted[j], rows[j], withAnalytics)
  }

  /** One more poll keeps the buffered records in step with the accepted
      ones. */
  lemma AnnotatedStep(polls: seq<Poll>, i: nat, rows: seq<(Topic, Row)>, added: seq<(Topic, Row)>, withAnalytics: bool)
    requires i < |polls|
    requires AnnotatedAll(Accepted(polls[..i]), rows, withAnalytics)
    requires polls[i].Record? && ProcessedRecord(polls[i]).Some? ==>
      |added| == 1 && Annotated((polls[i].topic, ProcessedRecord(polls[i]).value), added[0], withAnalytics)
    requires !(polls[i].Record? && ProcessedRecord(polls[i]).Some?) ==> added == []
    ensures AnnotatedAll(Accepted(polls[..i + 1]), rows + added, withAnalytics)
  {
    AcceptedStep(polls, i);
  }

  /** Sequence concatenation regrouped. */
  lemma Regroup(a: seq<Row>, b: seq<Row>, c: seq<Row>, d: seq<Row>, e: seq<Row>)
    requires b + c == d + e
    ensures a + b + c == a + d + e
  {
    assert a + b + c == a + (b + c);
    assert a + d + e == a + (d + e);
  }

  /** One topic's records after buffering one more record. */
  lemma FlattenTopicStep(loopBatches: seq<Batch>, flushed: seq<Batch>, before: seq<Row>, after: seq<Row>,
                         start: seq<Row>, rows: seq<(Topic, Row)>, topic: Topic, data: Row, t: Topic)
    requires Flatten(loopBatches, t) + before == start + RowsFor(rows, t)
    requires Flatten(flushed, t) + after == before + (if t == topic then [data] else [])
    ensures Flatten(loopBatches + flushed, t) + after == start + RowsFor(rows + [(topic, data)], t)
  {
    var extra := if t == topic then [data] else [];
    FlattenConcat(loopBatches, flushed, t);
    Regroup(Flatten(loopBatches, t), Flatten(flushed, t), after, before, extra);
    RowsForSnoc(rows, topic, data, t);
    assert start + RowsFor(rows, t) + extra == start + (RowsFor(rows, t) + extra);
  }

  /** Buffering one record and writing out the batches `flushed` keeps
      every record either written or buffered, once. */
  lemma FlattenStep(loopBatches: seq<Batch>, flushed: seq<Batch>, before: map<Topic, seq<Row>>,
                    after: map<Topic, seq<Row>>, start: map<Topic, seq<Row>>,
                    rows: seq<(Topic, Row)>, topic: Topic, data: Row)
    requires forall t :: t in before && t in after && t in start
    requires forall t :: Flatten(loopBatches, t) + before[t] == start[t] + RowsFor(rows, t)
    requires forall t :: Flatten(flushed, t) + after[t] == before[t] + (if t == topic then [data] else [])
    ensures forall t :: Flatten(loopBatches + flushed, t) + after[t] == start[t] + RowsFor(rows + [(topic, data)], t)
  {
    forall t ensures Flatten(loopBatches + flushed, t) + after[t] == start[t] + RowsFor(rows + [(topic, data)], t) {
      FlattenTopicStep(loopBatches, flushed, before[t], after[t], start[t], rows, topic, data, t);
    }
  }

  /** After the final flush every record is written exactly once. */
  lemma FinalFlush(loopBatches: seq<Batch>, buffers: map<Topic, seq<Row>>, start: map<Topic, seq<Row>>,
                   rows: seq<(Topic, Row)>)
    requires forall t :: t in buffers && t in start
    requires forall t :: Flatten(loopBatches, t) + buffers[t] == start[t] + RowsFor(rows, t)
    ensures forall t :: Flatten(loopBatches + Flushed(buffers), t) == start[t] + RowsFor(rows, t)
  {
    forall t ensures Flatten(loopBatches + Flushed(buffers), t) == start[t] + RowsFor(rows, t) {
      FlattenConcat(loopBatches, Flushed(buffers), t);
      FlattenFlushed(buffers, t);
    }
  }

  /** `if max_messages and message_count >= max_messages` */
  predicate MaxReached(maxMessages: Option<int>, count: nat) {
    maxMessages.Some? && maxMessages.value != 0 && count >= maxMessages.value
  }

  /** No record poll among the first `n - 1` reached the limit: the
      consumption loop tests the limit after every record poll, with the
      count of records accepted so far, and would have stopped there. */
  predicate NotStoppedBefore(polls: seq<Poll>, maxMessages: Option<int>, n: nat)
    requires n <= |polls| + 1
  {
    forall j :: 0 < j < n && polls[j - 1].Record? ==> !MaxReached(maxMessages, |Accepted(polls[..j])|)
  }

  /** A poll that does not stop the loop extends the run by one. */
  lemma NotStoppedStep(polls: seq<Poll>, maxMessages: Option<int>, n: nat)
    requires 0 < n <= |polls|
    requires NotStoppedBefore(polls, maxMessages, n)
    requires !(polls[n - 1].Record? && MaxReached(maxMessages, |Accepted(polls[..n])|))
    ensures NotStoppedBefore(polls, maxMessages, n + 1)
  {
  }

  /** With a negative limit the count reaches it at once, so a run that
      was not stopped before poll `n` saw no record before it. */
  lemma NegativeMaxFirstRecord(polls: seq<Poll>, m: int, n: nat)
    requires m < 0 && n <= |polls| + 1
    requires NotStoppedBefore(polls, Some(m), n)
    ensures forall j :: 0 <= j < n - 1 ==> !polls[j].Record?
  {
    forall j | 0 <= j < n - 1
      ensures !polls[j].Record?
    {
      if polls[j].Record? {
        assert MaxReached(Some(m), |Accepted(polls[..j + 1])|);
      }
    }
  }

  /** `ManufacturingDataConsumer`, and `ManufacturingConsumerWithAnalytics`
      when `analyzer` is present: the per-topic buffers, the batches written
      to storage so far, and the analyzer. */
  class ManufacturingDataConsumer {
    var buffers: map<Topic, seq<Row>>
    var written: seq<Batch>
    const analyzer: RealTimeAnalyzer?

    /** One buffer per topic, each holding fewer records than a batch. */
    ghost predicate Valid()
      reads this
    {
      (forall t :: t in buffers) && (forall t :: t in buffers ==> |buffers[t]| < BatchSize)
    }

    /** The plain consumer, or with `withAnalytics` the analytics consumer
        and its thresholds of 80 (temperature), 4 (vibration) and 25
        (pressure). */
    constructor (withAnalytics: bool)
      ensures Valid()
      ensures forall t :: buffers[t] == []
      ensures written == []
      ensures withAnalytics <==> analyzer != null
      ensures analyzer != null ==>
        && fresh(analyzer) && analyzer.stats == Stats(0, 0, 0)
        && analyzer.alertThreshold == map["temperature" := 80.0, "vibration" := 4.0, "pressure" := 25.0]
    {
      buffers := map[EquipmentSensors := [], EquipmentStatus := [], QualityMetrics := []];
      written := [];
      if withAnalytics {
        analyzer := new RealTimeAnalyzer(map["temperature" := 80.0, "vibration" := 4.0, "pressure" := 25.0]);
      } else {
        analyzer := null;
      }
      new;
      forall t ensures t in buffers && buffers[t] == [] {
        match t
        case EquipmentSensors =>
        case EquipmentStatus =>
        case QualityMetrics =>
      }
    }

    /** `write_to_storage(topic, data_list)`: an empty list writes
        nothing. */
    method WriteToStorage(topic: Topic, dataList: seq<Row>)
      modifies this
      ensures buffers == old(buffers)
      ensures written == old(written) + (if dataList == [] then [] else [Batch(topic, dataList)])
    {
      if dataList == [] {
        return;
      }
      written := written + [Batch(topic, dataList)];
    }

    /** `process_message(msg)`: the plain decoding, followed for a sensor
        record of the analytics consumer by the analysis, whose exception
        is not caught. */
    method ProcessMessage(poll: Poll) returns (r: Result<Option<Row>, PyError>)
      requires poll.Record?
      modifies analyzer
      ensures analyzer == null ==> r == Ok(ProcessedRecord(poll))
      ensures analyzer != null && (poll.topic != EquipmentSensors || ProcessedRecord(poll).None?) ==>
        r == Ok(ProcessedRecord(poll)) && analyzer.stats == old(analyzer.stats)
      ensures analyzer != null && poll.topic == EquipmentSensors && ProcessedRecord(poll).Some? ==>
        var (result, stats) := AnalyzeStep(analyzer.alertThreshold, old(analyzer.stats), ProcessedRecord(poll).value);
        && analyzer.stats == stats
        && (result.Err? ==> r == Err(result.error))
        && (result.Ok? ==> r == Ok(Some(ProcessedRecord(poll).value["analysis_result" := AnalysisValue(result.value)])))
    {
      var data := ProcessedRecord(poll);
      if analyzer != null && data.Some? && poll.topic == EquipmentSensors {
        var analysis := analyzer.Analyze(data.value);
        if analysis.Err? {
          return Err(analysis.error);
        }
        return Ok(Some(data.value["analysis_result" := AnalysisValue(analysis.value)]));
      }
      r := Ok(data);
    }

    /** Appends a record to its topic's buffer and writes the buffer out,
        then empties it, once it holds a full batch. */
    method Buffer(topic: Topic, data: Row) returns (ghost flushed: seq<Batch>)
      requires Valid()
      modifies this
      ensures Valid()
      ensures written == old(written) + flushed
      ensures forall b :: b in flushed ==> |b.records| == BatchSize
      ensures forall t :: Flatten(flushed, t) + buffers[t] == old(buffers)[t] + (if t == topic then [data] else [])
    {
      buffers := buffers[topic := buffers[topic] + [data]];
      flushed := [];
      if |buffers[topic]| >= BatchSize {
        flushed := [Batch(topic, buffers[topic])];
        WriteToStorage(topic, buffers[topic]);
        buffers := buffers[topic := []];
      }
      forall t ensures Flatten(flushed, t) + buffers[t] == old(buffers)[t] + (if t == topic then [data] else []) {
        FlattenSingle(flushed, t);
      }
    }

    /** The `finally` block: every non-empty buffer is written, in topic
        order. The buffers are left as they are. */
    method FlushAll()
      requires Valid()
      modifies this
      ensures buffers == old(buffers)
      ensures written == old(written) + Flushed(buffers)
    {
      var i := 0;
      while i < |Topics|
        invariant 0 <= i <= |Topics|
        invariant buffers == old(buffers)
        invariant written == old(written) + FlushedOver(buffers, Topics[..i])
      {
        assert Topics[..i + 1][..i] == Topics[..i];
        WriteToStorage(Topics[i], buffers[Topics[i]]);
        i := i + 1;
      }
      assert Topics[..|Topics|] == Topics;
    }

    /** The body of the consumption loop for a record: process it and, when
        it is accepted, buffer it. */
    method HandleRecord(poll: Poll) returns (r: Result<Option<Row>, PyError>, ghost flushed: seq<Batch>)
      requires Valid() && poll.Record?
      modifies this, analyzer
      ensures Valid()
      ensures written == old(written) + flushed
      ensures forall b :: b in flushed ==> |b.records| == BatchSize
      ensures r.Err? ==> analyzer != null && buffers == old(buffers) && flushed == []
      ensures r.Ok? ==> (r.value.Some? <==> ProcessedRecord(poll).Some?)
      ensures r.Ok? && r.value.Some? ==>
        && Annotated((poll.topic, ProcessedRecord(poll).value), (poll.topic, r.value.value), analyzer != null)
        && forall t :: Flatten(flushed, t) + buffers[t] == old(buffers)[t] + (if t == poll.topic then [r.value.value] else [])
      ensures r.Ok? && r.value.None? ==> buffers == old(buffers) && flushed == []
    {
      r := ProcessMessage(poll);
      flushed := [];
      if r.Ok? && r.value.Some? {
        flushed := Buffer(poll.topic, r.value.value);
      }
    }

    /** `consume(max_messages)` over the polls, with no limit unless one
        is given: it stops when the polls run out, after a record that
        brings the count to a truthy `max_messages`, or when processing raises; in every case the
        buffers are then flushed. It reports the number of records
        buffered, the number of polls used (a poll that raised is not
        counted) and the exception. The records buffered (`rows`) and the
        full batches written inside the loop (`loopBatches`) describe the
        run. */
    method Consume(polls: seq<Poll>, maxMessages: Option<int> := None)
      returns (messageCount: nat, taken: nat, error: Option<PyError>,
               ghost rows: seq<(Topic, Row)>, ghost loopBatches: seq<Batch>)
      requires Valid()
      modifies this, analyzer
      ensures Valid()
      ensures taken <= |polls|
      ensures messageCount == |rows|
      ensures written == old(written) + loopBatches + Flushed(buffers)
      ensures forall b :: b in loopBatches ==> |b.records| == BatchSize
      ensures forall t :: Flatten(loopBatches + Flushed(buffers), t) == old(buffers)[t] + RowsFor(rows, t)
      ensures AnnotatedAll(Accepted(polls[..taken]), rows, analyzer != null)
      ensures error.Some? ==> analyzer != null && taken < |polls| && polls[taken].Record?
      ensures error.None? && taken < |polls| ==>
        0 < taken && polls[taken - 1].Record? && MaxReached(maxMessages, messageCount)
      ensures NotStoppedBefore(polls, maxMessages, taken)
      ensures error.None? && !(maxMessages.Some? && maxMessages.value != 0) ==> taken == |polls|
      ensures maxMessages.Some? && maxMessages.value > 0 ==> messageCount <= maxMessages.value
    {
      ghost var start := buffers;
      messageCount, taken, error, rows, loopBatches := ConsumeLoop(polls, maxMessages);
      FlushAll();
      FinalFlush(loopBatches, buffers, start, rows);
    }

    /** The state of the consumption loop after the first `i` polls: the
        records buffered so far (`rows`) are the accepted ones, and each is
        either in one of the full batches written so far (`loopBatches`) or
        still in its topic's buffer. */
    ghost predicate Progress(polls: seq<Poll>, i: nat, start: map<Topic, seq<Row>>, written0: seq<Batch>,
                             rows: seq<(Topic, Row)>, loopBatches: seq<Batch>)
      reads this
    {
      && Valid()
      && i <= |polls|
      && (forall t :: t in start)
      && written == written0 + loopBatches
      && (forall b :: b in loopBatches ==> |b.records| == BatchSize)
      && (forall t :: Flatten(loopBatches, t) + buffers[t] == start[t] + RowsFor(rows, t))
      && AnnotatedAll(Accepted(polls[..i]), rows, analyzer != null)
    }

    /** One turn of the consumption loop on the poll `polls[i]`: it either
        raises, leaving everything but the analyzer as it was, or moves the
        loop on by one poll, buffering at most one record. */
    method ConsumeStep(polls: seq<Poll>, i: nat, ghost start: map<Topic, seq<Row>>, ghost written0: seq<Batch>,
                       ghost rows: seq<(Topic, Row)>, ghost loopBatches: seq<Batch>)
      returns (buffered: bool, error: Option<PyError>, ghost rows': seq<(Topic, Row)>, ghost loopBatches': seq<Batch>)
      requires i < |polls| && Progress(polls, i, start, written0, rows, loopBatches)
      modifies this, analyzer
      ensures error.Some? ==>
        && Progress(polls, i, start, written0, rows, loopBatches)
        && rows' == rows && loopBatches' == loopBatches
        && analyzer != null && polls[i].Record?
      ensures error.None? ==>
        && Progress(polls, i + 1, start, written0, rows', loopBatches')
        && |rows'| == |rows| + (if buffered then 1 else 0)
        && (buffered ==> polls[i].Record?)
    {
      if polls[i].NoMessage? || polls[i].PollError? {
        AnnotatedStep(polls, i, rows, [], analyzer != null);
        buffered, error, rows', loopBatches' := false, None, rows, loopBatches;
      } else {
        buffered, error, rows', loopBatches' := RecordStep(polls, i, start, written0, rows, loopBatches);
      }
    }

    /** `ConsumeStep` on a record. */
    method RecordStep(polls: seq<Poll>, i: nat, ghost start: map<Topic, seq<Row>>, ghost written0: seq<Batch>,
                      ghost rows: seq<(Topic, Row)>, ghost loopBatches: seq<Batch>)
      returns (buffered: bool, error: Option<PyError>, ghost rows': seq<(Topic, Row)>, ghost loopBatches': seq<Batch>)
      requires i < |polls| && polls[i].Record? && Progress(polls, i, start, written0, rows, loopBatches)
      modifies this, analyzer
      ensures error.Some? ==>
        && Progress(polls, i, start, written0, rows, loopBatches)
        && rows' == rows && loopBatches' == loopBatches
        && analyzer != null
      ensures error.None? ==>
        && Progress(polls, i + 1, start, written0, rows', loopBatches')
        && |rows'| == |rows| + (if buffered then 1 else 0)
    {
      var poll := polls[i];
      ghost var before := buffers;
      var data, flushed := HandleRecord(poll);
      buffered, rows', loopBatches' := false, rows, loopBatches;
      if data.Err? {
        error := Some(data.error);
      } else if data.value.Some? {
        error := None;
        FlattenStep(loopBatches, flushed, before, buffers, start, rows, poll.topic, data.value.value);
        AnnotatedStep(polls, i, rows, [(poll.topic, data.value.value)], analyzer != null);
        rows' := rows + [(poll.topic, data.value.value)];
        loopBatches' := loopBatches + flushed;
        buffered := true;
      } else {
        error := None;
        AnnotatedStep(polls, i, rows, [], analyzer != null);
      }
    }

    /** The `while True` loop of `consume`, up to the final flush. */
    method ConsumeLoop(polls: seq<Poll>, maxMessages: Option<int>)
      returns (messageCount: nat, taken: nat, error: Option<PyError>,
               ghost rows: seq<(Topic, Row)>, ghost loopBatches: seq<Batch>)
      requires Valid()
      modifies this, analyzer
      ensures Progress(polls, taken, old(buffers), old(written), rows, loopBatches)
      ensures messageCount == |rows|
      ensures error.Some? ==> analyzer != null && taken < |polls| && polls[taken].Record?
      ensures error.None? && taken < |polls| ==>
        0 < taken && polls[taken - 1].Record? && MaxReached(maxMessages, messageCount)
      ensures NotStoppedBefore(polls, maxMessages, taken)
      ensures error.None? && !(maxMessages.Some? && maxMessages.value != 0) ==> taken == |polls|
      ensures maxMessages.Some? && maxMessages.value > 0 ==> messageCount <= maxMessages.value
    {
      messageCount := 0;
      rows := [];
      loopBatches := [];
      error := None;
      taken := 0;
      while taken < |polls|
        invariant Progress(polls, taken, old(buffers), old(written), rows, loopBatches)
        invariant messageCount == |rows|
        invariant error.None?
        invariant maxMessages.Some? && maxMessages.value > 0 ==> messageCount < maxMessages.value
        invariant NotStoppedBefore(polls, maxMessages, taken + 1)
      {
        var buffered;
        buffered, error, rows, loopBatches := ConsumeStep(polls, taken, old(buffers), old(written), rows, loopBatches);
        if error.Some? {
          break;
        }
        if buffered {
          messageCount := messageCount + 1;
        }
        taken := taken + 1;
        assert messageCount == |Accepted(polls[..taken])|;
        if polls[taken - 1].Record? && MaxReached(maxMessages, messageCount) {
          break;
        }
        NotStoppedStep(polls, maxMessages, taken);
      }
    }
  }
}
