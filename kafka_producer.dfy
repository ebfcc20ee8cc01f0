/** The simulated plant-floor producer: a fixed fleet of five machines, and
    for each machine per round one sensor reading, sometimes a status event
    and sometimes a quality inspection, each sent to its own topic keyed by
    the machine's id. Every random draw is a parameter: a `Unit` stands for
    one `random.random()`, a `nat` for the random bits behind one
    `randint`/`choice`. The Kafka client is replaced by a log of the
    messages handed to it. */
module KafkaProducer {
  import opened Values
  import opened Strings

  /** One draw of `random.random()`. */
  type Unit = u: real | 0.0 <= u < 1.0

  /** `random.uniform(lo, hi)`, which computes `lo + (hi - lo) * random()`. */
  function Uniform(lo: real, hi: real, u: Unit): real {
    lo + (hi - lo) * u
  }

  /** `random._randbelow(n)`: one of the `n` values below `n`, chosen by the
      random bits `bits`. */
  function RandBelow(n: nat, bits: nat): (r: nat)
    requires n > 0
    ensures r < n
  {
    bits % n
  }

  /** `random.randint(lo, hi)`, both ends included. */
  function RandInt(lo: int, hi: int, bits: nat): (r: int)
    requires lo <= hi
    ensures lo <= r <= hi
  {
    lo + RandBelow(hi - lo + 1, bits)
  }

  // ---------------------------------------------------------------------------
  // The fleet
  // ---------------------------------------------------------------------------

  /** One simulated machine and its normal operating point. */
  datatype Equipment = Equipment(
    equipmentId: string, equipmentType: string, plantId: string,
    normalTemp: real, normalVibration: real, normalPressure: real)

  /** `_initialize_equipment()`: five machines in two plants, with distinct
      ids. */
  function InitializeEquipment(): (fleet: seq<Equipment>)
    ensures |fleet| == 5
    ensures forall i, j :: 0 <= i < j < |fleet| ==> fleet[i].equipmentId != fleet[j].equipmentId
  {
    var a := "CNC-A-101";
    var b := "CNC-A-102";
    var c := "WELD-B-201";
    var d := "ASM-C-301";
    var e := "COAT-D-401";
    assert a[8] != b[8];
    assert a[0] != c[0] && a[0] != d[0] && a[1] != e[1];
    assert b[0] != c[0] && b[0] != d[0] && b[1] != e[1];
    assert c[0] != d[0] && c[0] != e[0] && d[0] != e[0];
    [ Equipment(a, "CNC", "PUNE-IN", 65.0, 2.5, 45.0),
      Equipment(b, "CNC", "PUNE-IN", 67.0, 2.8, 47.0),
      Equipment(c, "WELDING", "PUNE-IN", 85.0, 1.5, 55.0),
      Equipment(d, "ASSEMBLY", "DELHI-IN", 35.0, 0.8, 30.0),
      Equipment(e, "COATING", "DELHI-IN", 45.0, 1.2, 40.0) ]
  }

  // ---------------------------------------------------------------------------
  // Sensor readings
  // ---------------------------------------------------------------------------

  /** The anomaly patterns `random.choice` picks from, in list order. */
  datatype AnomalyKind = HighTemp | HighVibration | PressureDrop

  const AnomalyKinds: seq<AnomalyKind> := [HighTemp, HighVibration, PressureDrop]

  /** The factors applied to the normal temperature, vibration and
      pressure. */
  datatype Multipliers = Multipliers(temperature: real, vibration: real, pressure: real)

  /** The factors for a normal reading (each within 5 %) or for an anomaly
      of the given kind, from three uniform draws. */
  function MultipliersOf(isAnomaly: bool, kind: AnomalyKind, t: Unit, v: Unit, p: Unit): Multipliers {
    if !isAnomaly then
      Multipliers(Uniform(0.95, 1.05, t), Uniform(0.95, 1.05, v), Uniform(0.95, 1.05, p))
    else
      match kind
      case HighTemp => Multipliers(Uniform(1.15, 1.30, t), Uniform(1.05, 1.15, v), Uniform(0.95, 1.05, p))
      case HighVibration => Multipliers(Uniform(1.05, 1.15, t), Uniform(1.30, 1.50, v), Uniform(0.95, 1.05, p))
      case PressureDrop => Multipliers(Uniform(1.05, 1.15, t), Uniform(1.05, 1.15, v), Uniform(0.70, 0.85, p))
  }

  /** Normal readings vary by at most 5 % either way; an anomaly raises
      its own quantity by 15-30 % (temperature), 30-50 % (vibration) or
      lowers it by 15-30 % (pressure), and moves the other two by less. */
  lemma MultiplierRanges(isAnomaly: bool, kind: AnomalyKind, t: Unit, v: Unit, p: Unit)
    ensures var m := MultipliersOf(isAnomaly, kind, t, v, p);
      && (!isAnomaly ==>
            && 0.95 <= m.temperature <= 1.05 && 0.95 <= m.vibration <= 1.05
            && 0.95 <= m.pressure <= 1.05)
      && (isAnomaly && kind == HighTemp ==>
            && 1.15 <= m.temperature <= 1.30 && 1.05 <= m.vibration <= 1.15
            && 0.95 <= m.pressure <= 1.05)
      && (isAnomaly && kind == HighVibration ==>
            && 1.05 <= m.temperature <= 1.15 && 1.30 <= m.vibration <= 1.50
            && 0.95 <= m.pressure <= 1.05)
      && (isAnomaly && kind == PressureDrop ==>
            && 1.05 <= m.temperature <= 1.15 && 1.05 <= m.vibration <= 1.15
            && 0.70 <= m.pressure <= 0.85)
  {
  }

  /** The draws behind one sensor reading, in the order the source makes
      them. */
  datatype SensorDraws = SensorDraws(
    anomaly: Unit, kind: nat, temperature: Unit, vibration: Unit, pressure: Unit,
    humidity: Unit, power: Unit)

  datatype SensorReading = SensorReading(
    equipmentId: string, equipmentType: string, plantId: string, timestamp: string,
    temperature: real, vibration: real, pressure: real,
    humidity: real, powerConsumption: real, isAnomaly: bool)

  /** `generate_sensor_data(equipment)`: an anomaly with probability 5 %;
      the readings are the machine's normal values times the multipliers. */
  function GenerateSensorData(e: Equipment, d: SensorDraws, now: string): (r: SensorReading)
    ensures r.equipmentId == e.equipmentId && r.equipmentType == e.equipmentType && r.plantId == e.plantId
    ensures r.timestamp == now
    ensures r.isAnomaly <==> d.anomaly < 0.05
    ensures var m := MultipliersOf(r.isAnomaly, AnomalyKinds[RandBelow(3, d.kind)], d.temperature, d.vibration, d.pressure);
      && r.temperature == e.normalTemp * m.temperature
      && r.vibration == e.normalVibration * m.vibration
      && r.pressure == e.normalPressure * m.pressure
    ensures 40.0 <= r.humidity <= 60.0 && 10.0 <= r.powerConsumption <= 50.0
  {
    var isAnomaly := d.anomaly < 0.05;
    var kind := AnomalyKinds[RandBelow(|AnomalyKinds|, d.kind)];
    var m := MultipliersOf(isAnomaly, kind, d.temperature, d.vibration, d.pressure);
    SensorReading(e.equipmentId, e.equipmentType, e.plantId, now,
                  e.normalTemp * m.temperature, e.normalVibration * m.vibration,
                  e.normalPressure * m.pressure,
                  Uniform(40.0, 60.0, d.humidity), Uniform(10.0, 50.0, d.power), isAnomaly)
  }

  // ---------------------------------------------------------------------------
  // Status events
  // ---------------------------------------------------------------------------

  datatype Status = Running | Idle | Error

  function StatusText(s: Status): string {
    match s
    case Running => "RUNNING"
    case Idle => "IDLE"
    case Error => "ERROR"
  }

  datatype ErrorCode = E001 | E002 | E003 | E004

  const ErrorCodes: seq<ErrorCode> := [E001, E002, E003, E004]

  /** Status by draw: running 85 %, idle 10 %, error 5 %. */
  function StatusOf(draw: Unit): (s: Status)
    ensures s == Running <==> draw < 0.85
    ensures s == Idle <==> 0.85 <= draw < 0.95
    ensures s == Error <==> draw >= 0.95
  {
    if draw < 0.85 then Running
    else if draw < 0.95 then Idle
    else Error
  }

  /** Running, idle, error in that order of severity. */
  function Severity(s: Status): nat {
    match s
    case Running => 0
    case Idle => 1
    case Error => 2
  }

  /** A larger draw never gives a healthier status. */
  lemma StatusMonotone(a: Unit, b: Unit)
    requires a <= b
    ensures Severity(StatusOf(a)) <= Severity(StatusOf(b))
  {
  }

  datatype StatusDraws = StatusDraws(status: Unit, errorPick: nat, uptime: Unit, cycles: nat)

  datatype StatusEvent = StatusEvent(
    equipmentId: string, equipmentType: string, plantId: string, timestamp: string,
    status: Status, errorCode: Option<ErrorCode>, uptimeHours: real, cyclesCompleted: int)

  /** `generate_status_event(equipment)`: an error code is drawn only for
      the error status. */
  function GenerateStatusEvent(e: Equipment, d: StatusDraws, now: string): (r: StatusEvent)
    ensures r.equipmentId == e.equipmentId && r.equipmentType == e.equipmentType && r.plantId == e.plantId
    ensures r.timestamp == now
    ensures r.status == StatusOf(d.status)
    ensures r.errorCode.Some? <==> r.status == Error
    ensures r.errorCode.Some? ==> r.errorCode.value == ErrorCodes[RandBelow(4, d.errorPick)]
    ensures 0.0 <= r.uptimeHours <= 168.0 && 0 <= r.cyclesCompleted <= 1000
  {
    var status := StatusOf(d.status);
    var errorCode := if status == Error then Some(ErrorCodes[RandBelow(|ErrorCodes|, d.errorPick)]) else None;
    StatusEvent(e.equipmentId, e.equipmentType, e.plantId, now, status, errorCode,
                Uniform(0.0, 168.0, d.uptime), RandInt(0, 1000, d.cycles))
  }

  // ---------------------------------------------------------------------------
  // Quality inspections
  // ---------------------------------------------------------------------------

  datatype QualityStatus = Good | MinorDefect | MajorDefect

  function QualityText(q: QualityStatus): string {
    match q
    case Good => "GOOD"
    case MinorDefect => "MINOR_DEFECT"
    case MajorDefect => "MAJOR_DEFECT"
  }

  function QualityRank(q: QualityStatus): nat {
    match q
    case Good => 0
    case MinorDefect => 1
    case MajorDefect => 2
  }

  datatype QualityDraws = QualityDraws(quality: Unit, defects: nat, throughput: nat, batch: nat)

  datatype QualityMetric = QualityMetric(
    equipmentId: string, equipmentType: string, plantId: string, timestamp: string,
    qualityStatus: QualityStatus, defectCount: int, inspectionPassed: bool,
    throughput: int, batchId: string)

  /** `generate_quality_metric(equipment)`: good 80 %, minor defect 15 %,
      major defect 5 %, with a defect count drawn in the status's range. */
  function GenerateQualityMetric(e: Equipment, d: QualityDraws, now: string): (r: QualityMetric)
    ensures r.equipmentId == e.equipmentId && r.equipmentType == e.equipmentType && r.plantId == e.plantId
    ensures r.timestamp == now
    ensures r.qualityStatus == Good <==> d.quality < 0.80
    ensures r.qualityStatus == MinorDefect <==> 0.80 <= d.quality < 0.95
    ensures r.qualityStatus == MajorDefect <==> d.quality >= 0.95
    ensures r.defectCount == 0 <==> r.qualityStatus == Good
    ensures r.qualityStatus == MinorDefect ==> 1 <= r.defectCount <= 3
    ensures r.qualityStatus == MajorDefect ==> 4 <= r.defectCount <= 10
    ensures r.inspectionPassed <==> r.qualityStatus == Good
    ensures 50 <= r.throughput <= 200
    ensures r.batchId == "BATCH-" + NatToString(RandInt(1000, 9999, d.batch))
  {
    var (status, count) :=
      if d.quality < 0.80 then (Good, 0)
      else if d.quality < 0.95 then (MinorDefect, RandInt(1, 3, d.defects))
      else (MajorDefect, RandInt(4, 10, d.defects));
    QualityMetric(e.equipmentId, e.equipmentType, e.plantId, now, status, count, status == Good,
                  RandInt(50, 200, d.throughput), "BATCH-" + NatToString(RandInt(1000, 9999, d.batch)))
  }

  /** A larger quality draw never gives a better status, and a strictly
      worse status always carries strictly more defects. */
  lemma QualityMonotone(e: Equipment, a: QualityDraws, b: QualityDraws, now: string)
    requires a.quality <= b.quality
    ensures var ra, rb := GenerateQualityMetric(e, a, now), GenerateQualityMetric(e, b, now);
      && QualityRank(ra.qualityStatus) <= QualityRank(rb.qualityStatus)
      && (QualityRank(ra.qualityStatus) < QualityRank(rb.qualityStatus) ==> ra.defectCount < rb.defectCount)
  {
  }

  // ---------------------------------------------------------------------------
  // One production round
  // ---------------------------------------------------------------------------

  datatype Topic = EquipmentSensors | EquipmentStatus | QualityMetrics

  function TopicName(t: Topic): string {
    match t
    case EquipmentSensors => "equipment-sensors"
    case EquipmentStatus => "equipment-status"
    case QualityMetrics => "quality-metrics"
  }

  /** The event a message carries, before JSON encoding. */
  datatype Payload =
    | SensorPayload(reading: SensorReading)
    | StatusPayload(event: StatusEvent)
    | QualityPayload(metric: QualityMetric)

  /** One `producer.produce(topic, key=..., value=...)` call. */
  datatype Message = Message(topic: Topic, key: string, value: Payload)

  /** The draws and the clock readings behind one machine's turn in a
      round; each payload reads the clock when it is built. */
  datatype UnitDraws = UnitDraws(
    sensorNow: string, sensor: SensorDraws,
    statusChance: Unit, statusNow: string, status: StatusDraws,
    qualityChance: Unit, qualityNow: string, quality: QualityDraws)

  /** One machine's messages: its sensor reading, then a status event with
      probability 30 %, then a quality inspection with probability 10 %. */
  function UnitMessages(e: Equipment, d: UnitDraws): (msgs: seq<Message>)
    ensures 1 <= |msgs| <= 3
  {
    var id := e.equipmentId;
    [Message(EquipmentSensors, id, SensorPayload(GenerateSensorData(e, d.sensor, d.sensorNow)))]
    + (if d.statusChance < 0.3 then [Message(EquipmentStatus, id, StatusPayload(GenerateStatusEvent(e, d.status, d.statusNow)))] else [])
    + (if d.qualityChance < 0.1 then [Message(QualityMetrics, id, QualityPayload(GenerateQualityMetric(e, d.quality, d.qualityNow)))] else [])
  }

  /** A machine's messages are all keyed by its id. */
  lemma UnitMessageKeys(e: Equipment, d: UnitDraws)
    ensures forall m :: m in UnitMessages(e, d) ==> m.key == e.equipmentId
  {
  }

  /** A machine's turn starts with its sensor reading, sends nothing else to
      the sensor topic, sends a status event exactly when the 30 % draw
      succeeds and an inspection exactly when the 10 % draw does, and keys
      every message by the machine's id. */
  lemma UnitMessagesShape(e: Equipment, d: UnitDraws)
    ensures var msgs := UnitMessages(e, d);
      && msgs[0] == Message(EquipmentSensors, e.equipmentId, SensorPayload(GenerateSensorData(e, d.sensor, d.sensorNow)))
      && (forall m :: m in msgs ==> m.key == e.equipmentId)
      && (forall m :: m in msgs[1..] ==> m.topic != EquipmentSensors)
      && ((exists m :: m in msgs && m.topic == EquipmentStatus) <==> d.statusChance < 0.3)
      && ((exists m :: m in msgs && m.topic == QualityMetrics) <==> d.qualityChance < 0.1)
  {
    var msgs := UnitMessages(e, d);
    if d.statusChance < 0.3 {
      assert msgs[1].topic == EquipmentStatus;
    }
    if d.qualityChance < 0.1 {
      assert msgs[|msgs| - 1].topic == QualityMetrics;
    }
  }

  /** The messages of one pass over the fleet, machine by machine. */
  function RoundMessages(fleet: seq<Equipment>, draws: seq<UnitDraws>): seq<Message>
    requires |draws| == |fleet|
    decreases |fleet|
  {
    if fleet == [] then []
    else
      var n := |fleet| - 1;
      RoundMessages(fleet[..n], draws[..n]) + UnitMessages(fleet[n], draws[n])
  }

  /** The messages sent to the sensor topic, in order. */
  function SensorMessages(msgs: seq<Message>): (r: seq<Message>)
    ensures |r| <= |msgs|
    decreases |msgs|
  {
    if msgs == [] then []
    else
      var n := |msgs| - 1;
      SensorMessages(msgs[..n]) + (if msgs[n].topic == EquipmentSensors then [msgs[n]] else [])
  }

  lemma {:induction false} SensorMessagesConcat(a: seq<Message>, b: seq<Message>)
    ensures SensorMessages(a + b) == SensorMessages(a) + SensorMessages(b)
    decreases |b|
  {
    if b != [] {
      var n := |b| - 1;
      assert (a + b)[..|a + b| - 1] == a + b[..n];
      SensorMessagesConcat(a, b[..n]);
    } else {
      assert a + b == a;
    }
  }

  /** A machine's turn sends exactly one message to the sensor topic. */
  lemma UnitSensorMessages(e: Equipment, d: UnitDraws)
    ensures SensorMessages(UnitMessages(e, d)) == [UnitMessages(e, d)[0]]
  {
    var msgs := UnitMessages(e, d);
    var tail := msgs[1..];
    UnitMessagesShape(e, d);
    assert msgs == [msgs[0]] + tail;
    SensorMessagesConcat([msgs[0]], tail);
    assert [msgs[0]][..0] == [];
    SensorTopicAbsent(tail);
  }

  lemma {:induction false} SensorTopicAbsent(msgs: seq<Message>)
    requires forall m :: m in msgs ==> m.topic != EquipmentSensors
    ensures SensorMessages(msgs) == []
    decreases |msgs|
  {
    if msgs != [] {
      var n := |msgs| - 1;
      assert forall m :: m in msgs[..n] ==> m in msgs;
      SensorTopicAbsent(msgs[..n]);
      assert msgs[n] in msgs;
    }
  }

  /** Each round sends exactly one sensor reading per machine, in fleet
      order, keyed by the machine's id. */
  lemma {:induction false} RoundSensorMessages(fleet: seq<Equipment>, draws: seq<UnitDraws>)
    requires |draws| == |fleet|
    ensures var s := SensorMessages(RoundMessages(fleet, draws));
      && |s| == |fleet|
      && forall i :: 0 <= i < |fleet| ==>
           s[i] == Message(EquipmentSensors, fleet[i].equipmentId,
                           SensorPayload(GenerateSensorData(fleet[i], draws[i].sensor, draws[i].sensorNow)))
    decreases |fleet|
  {
    if fleet != [] {
      var n := |fleet| - 1;
      RoundSensorMessages(fleet[..n], draws[..n]);
      SensorMessagesConcat(RoundMessages(fleet[..n], draws[..n]), UnitMessages(fleet[n], draws[n]));
      UnitSensorMessages(fleet[n], draws[n]);
      UnitMessagesShape(fleet[n], draws[n]);
    }
  }

  /** The machines' ids, in fleet order. */
  function Ids(fleet: seq<Equipment>): (ids: seq<string>)
    ensures |ids| == |fleet|
    ensures forall i :: 0 <= i < |fleet| ==> ids[i] == fleet[i].equipmentId
  {
    seq(|fleet|, i requires 0 <= i < |fleet| => fleet[i].equipmentId)
  }

  /** Every message of a round is keyed by the id of some machine. */
  lemma {:induction false} RoundMessageKeys(fleet: seq<Equipment>, draws: seq<UnitDraws>)
    requires |draws| == |fleet|
    ensures forall m :: m in RoundMessages(fleet, draws) ==> m.key in Ids(fleet)
    decreases |fleet|
  {
    if fleet != [] {
      var n := |fleet| - 1;
      var init := RoundMessages(fleet[..n], draws[..n]);
      var last := UnitMessages(fleet[n], draws[n]);
      RoundMessageKeys(fleet[..n], draws[..n]);
      UnitMessageKeys(fleet[n], draws[n]);
      var ids := Ids(fleet);
      assert ids == Ids(fleet[..n]) + [fleet[n].equipmentId];
      forall m: Message | m in init + last ensures m.key in ids {
        if m in init {
          assert m.key in Ids(fleet[..n]);
        } else {
          assert m.key == ids[n];
        }
      }
    }
  }

  /** `ManufacturingDataProducer`: the simulated fleet, and the messages
      handed to the Kafka producer so far. */
  class ManufacturingDataProducer {
    var equipmentList: seq<Equipment>
    var sent: seq<Message>

    constructor ()
      ensures equipmentList == InitializeEquipment() && sent == []
    {
      equipmentList := InitializeEquipment();
      sent := [];
    }

    /** The body of the inner `for` loop: the sensor reading, then the
        status event and the inspection when their draws succeed. */
    method SendUnit(equipment: Equipment, d: UnitDraws)
      modifies this
      ensures equipmentList == old(equipmentList)
      ensures sent == old(sent) + UnitMessages(equipment, d)
    {
      var id := equipment.equipmentId;
      sent := sent + [Message(EquipmentSensors, id, SensorPayload(GenerateSensorData(equipment, d.sensor, d.sensorNow)))];
      if d.statusChance < 0.3 {
        sent := sent + [Message(EquipmentStatus, id, StatusPayload(GenerateStatusEvent(equipment, d.status, d.statusNow)))];
      }
      if d.qualityChance < 0.1 {
        sent := sent + [Message(QualityMetrics, id, QualityPayload(GenerateQualityMetric(equipment, d.quality, d.qualityNow)))];
      }
    }

    /** One pass of the `while True` loop of `produce_sensor_data`: every
        machine's messages, machine by machine. */
    method ProduceRound(draws: seq<UnitDraws>)
      requires |draws| == |equipmentList|
      modifies this
      ensures equipmentList == old(equipmentList)
      ensures sent == old(sent) + RoundMessages(equipmentList, draws)
    {
      var fleet := equipmentList;
      var i := 0;
      while i < |fleet|
        invariant 0 <= i <= |fleet|
        invariant equipmentList == fleet
        invariant sent == old(sent) + RoundMessages(fleet[..i], draws[..i])
      {
        assert fleet[..i + 1][..i] == fleet[..i] && draws[..i + 1][..i] == draws[..i];
        assert RoundMessages(fleet[..i + 1], draws[..i + 1])
          == RoundMessages(fleet[..i], draws[..i]) + UnitMessages(fleet[i], draws[i]);
        SendUnit(fleet[i], draws[i]);
        i := i + 1;
      }
      assert fleet[..i] == fleet && draws[..i] == draws;
    }
  }
}
