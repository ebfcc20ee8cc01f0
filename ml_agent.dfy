/** The machine-learning agent: failure prediction (by the trained model
    when one is loaded, otherwise by a rule-based score), the contributing
    factors and maintenance recommendations that accompany a prediction,
    threshold anomaly detection, and the graph node that runs a prediction
    on the shared state. Sensor readings are reals; messages carrying
    formatted numbers are tags holding the numbers instead. */
module MlAgent {
  import opened Values
  import opened TrainModel
  import opened Conditional

  /** Sensor readings and equipment metadata by name. */
  type SensorData = map<string, real>

  /** `sensor_data.get(key, default)` */
  function Reading(d: SensorData, key: string, default: real): (v: real)
    ensures key in d ==> v == d[key]
    ensures key !in d ==> v == default
  {
    if key in d then d[key] else default
  }

  // ---------------------------------------------------------------------------
  // Model input
  // ---------------------------------------------------------------------------

  /** The seventeen model inputs: the synthetic training columns without
      the target. */
  const InputNames: seq<string> := SyntheticColumns[..17]

  /** The value each input takes when the sensor data lacks it, by position
      in `InputNames`. */
  const InputDefaults: seq<real> := [
    65.0, 2.0, 70.0,
    2.5, 0.3, 3.0,
    45.0, 1.5, 42.0,
    168.0, 24.0, 1000.0,
    12.0, 3.0,
    0.8, 25.0, 50.0]

  /** The value paired with the first occurrence of `k` in `names`. */
  function DefaultOf(names: seq<string>, values: seq<real>, k: string): real
    requires |names| == |values|
  {
    if names == [] then 0.0
    else if names[0] == k then values[0]
    else DefaultOf(names[1..], values[1..], k)
  }

  /** The seventeen inputs read from the sensor data, defaults filled in. */
  function BaseFeatures(d: SensorData): (f: map<string, real>)
    ensures forall k :: k in f <==> k in InputNames
    ensures forall k :: k in InputNames ==> f[k] == Reading(d, k, DefaultOf(InputNames, InputDefaults, k))
  {
    map k | k in InputNames :: Reading(d, k, DefaultOf(InputNames, InputDefaults, k))
  }

  /** The first defaults, as the agent lists them. */
  lemma InputDefaultsExamples()
    ensures DefaultOf(InputNames, InputDefaults, "temperature_avg") == 65.0
    ensures DefaultOf(InputNames, InputDefaults, "temperature_std") == 2.0
  {
  }

  /** The features the agent hands to the model. The agent repeats the
      training formulas for the five derived features word for word, so
      its row is the engineered row of the default-filled inputs. */
  function PrepareFeatures(d: SensorData): (f: map<string, real>)
    ensures forall k :: k in f <==> k in InputNames || k in DerivedColumns
  {
    assert InputNames[0] == "temperature_avg" && InputNames[3] == "vibration_avg";
    assert InputNames[6] == "pressure_avg" && InputNames[9] == "hours_since_maintenance";
    EngineerRow(BaseFeatures(d))
  }

  /** The columns of the one-row frame handed to the model, in the order
      the features are inserted. */
  const FeatureOrder: seq<string> := InputNames + DerivedColumns

  /** An element other than the last lies in the part before it. */
  lemma InInitial(s: seq<string>, n: string)
    requires n in s && n != s[|s| - 1]
    ensures n in s[..|s| - 1]
  {
    var i :| 0 <= i < |s| && s[i] == n;
    assert s[..|s| - 1][i] == n;
  }

  /** Every feature a model trained on the synthetic columns asks for is a
      column of the agent's frame. */
  lemma TrainedNamesInFrame(n: string)
    requires n in FeatureColumns(WithDerived(SyntheticColumns))
    ensures n in FeatureOrder
  {
    assert n in WithDerived(SyntheticColumns) && n != TargetColumn;
    if n in SyntheticColumns {
      assert |SyntheticColumns| == 18 && SyntheticColumns[17] == TargetColumn;
      InInitial(SyntheticColumns, n);
    }
  }

  // ---------------------------------------------------------------------------
  // Contributing factors
  // ---------------------------------------------------------------------------

  /** One explanation line; the numbers stand for the formatted text. */
  datatype Factor =
    | ElevatedTemperature(celsius: real, percentAboveNormal: real)
    | HighVibration(mmPerSecond: real, percentAboveNormal: real)
    | LowPressure(psi: real, percentBelowNormal: real)
    | MaintenanceOverdue(days: real)
    | EquipmentAge(years: real)
    | TrendingTowardFailure
    | AllNormal

  /** The position of each kind of factor in the explanation. */
  function Order(f: Factor): nat {
    match f
    case ElevatedTemperature(_, _) => 0
    case HighVibration(_, _) => 1
    case LowPressure(_, _) => 2
    case MaintenanceOverdue(_) => 3
    case EquipmentAge(_) => 4
    case TrendingTowardFailure => 5
    case AllNormal => 6
  }

  /** The five readings the explanation looks at, with their defaults. */
  datatype Readings = Readings(temperature: real, vibration: real, pressure: real, hours: real, ageMonths: real)

  function ExplanationReadings(d: SensorData): Readings {
    Readings(Reading(d, "temperature_avg", 65.0), Reading(d, "vibration_avg", 2.5),
             Reading(d, "pressure_avg", 45.0), Reading(d, "hours_since_maintenance", 168.0),
             Reading(d, "equipment_age_months", 24.0))
  }

  function TemperatureFactor(t: real): Factor {
    ElevatedTemperature(t, (t - 65.0) / 65.0 * 100.0)
  }

  function VibrationFactor(v: real): Factor {
    HighVibration(v, (v - 2.5) / 2.5 * 100.0)
  }

  function PressureFactor(p: real): Factor {
    LowPressure(p, (45.0 - p) / 45.0 * 100.0)
  }

  /** The threshold checks, in the order they are made. */
  function FactorChecks(r: Readings): seq<Check<Factor>> {
    [Check(r.temperature > 75.0, TemperatureFactor(r.temperature)),
     Check(r.vibration > 3.5, VibrationFactor(r.vibration)),
     Check(r.pressure < 35.0, PressureFactor(r.pressure)),
     Check(r.hours > 360.0, MaintenanceOverdue(r.hours / 24.0)),
     Check(r.ageMonths > 60.0, EquipmentAge(r.ageMonths / 12.0))]
  }

  /** The factors whose threshold is crossed. */
  function SpecificFactors(r: Readings): seq<Factor> {
    Fired(FactorChecks(r))
  }

  /** The explanation of a failure probability: the threshold factors, or
      when none applies the generic warning (probability above one half)
      or the all-normal line. */
  function Explanation(r: Readings, failureProb: real): seq<Factor> {
    var s := SpecificFactors(r);
    if s != [] then s
    else if failureProb > 0.5 then [TrendingTowardFailure]
    else [AllNormal]
  }

  /** `_generate_failure_explanation(sensor_data, failure_prob)` */
  method GenerateFailureExplanation(d: SensorData, failureProb: real) returns (factors: seq<Factor>)
    ensures factors == Explanation(ExplanationReadings(d), failureProb)
  {
    var r := ExplanationReadings(d);
    factors := [];
    if r.temperature > 75.0 {
      factors := factors + [TemperatureFactor(r.temperature)];
    }
    ghost var s1 := Append([], r.temperature > 75.0, TemperatureFactor(r.temperature));
    assert factors == s1;
    if r.vibration > 3.5 {
      factors := factors + [VibrationFactor(r.vibration)];
    }
    ghost var s2 := Append(s1, r.vibration > 3.5, VibrationFactor(r.vibration));
    assert factors == s2;
    if r.pressure < 35.0 {
      factors := factors + [PressureFactor(r.pressure)];
    }
    ghost var s3 := Append(s2, r.pressure < 35.0, PressureFactor(r.pressure));
    assert factors == s3;
    if r.hours > 360.0 {
      factors := factors + [MaintenanceOverdue(r.hours / 24.0)];
    }
    ghost var s4 := Append(s3, r.hours > 360.0, MaintenanceOverdue(r.hours / 24.0));
    assert factors == s4;
    if r.ageMonths > 60.0 {
      factors := factors + [EquipmentAge(r.ageMonths / 12.0)];
    }
    assert factors == Append(s4, r.ageMonths > 60.0, EquipmentAge(r.ageMonths / 12.0));
    FiredFive(FactorChecks(r));
    if factors == [] && failureProb > 0.5 {
      factors := factors + [TrendingTowardFailure];
    }
    if factors == [] {
      factors := factors + [AllNormal];
    }
  }

  /** The i-th check is for the factor of kind i. */
  lemma FactorCheckKinds(r: Readings)
    ensures |FactorChecks(r)| == 5
    ensures forall i :: 0 <= i < 5 ==> Order(FactorChecks(r)[i].item) == i
  {
    var c := FactorChecks(r);
    forall i | 0 <= i < 5 ensures Order(c[i].item) == i {
      if i == 0 {} else if i == 1 {} else if i == 2 {} else if i == 3 {} else {}
    }
  }

  /** The threshold factors: at most one of each kind, in the order
      temperature, vibration, pressure, maintenance, age; each, with its
      numbers, is listed exactly when its threshold is crossed, and nothing
      else is listed. */
  lemma SpecificFactorsShape(r: Readings)
    ensures var s := SpecificFactors(r);
      && |s| <= 5 && Increasing(s, Order)
      && (TemperatureFactor(r.temperature) in s <==> r.temperature > 75.0)
      && (VibrationFactor(r.vibration) in s <==> r.vibration > 3.5)
      && (PressureFactor(r.pressure) in s <==> r.pressure < 35.0)
      && (MaintenanceOverdue(r.hours / 24.0) in s <==> r.hours > 360.0)
      && (EquipmentAge(r.ageMonths / 12.0) in s <==> r.ageMonths > 60.0)
      && (forall f :: f in s ==> Order(f) < 5)
  {
    var c := FactorChecks(r);
    FactorCheckKinds(r);
    FiredIncreasing(c, Order);
    FiredMembers(c);
    forall f | FiresFor(c, f) ensures Order(f) < 5 {
      var i :| 0 <= i < |c| && c[i] == Check(true, f);
    }
    KeyedFires(c, TemperatureFactor(r.temperature), 0, Order);
    KeyedFires(c, VibrationFactor(r.vibration), 1, Order);
    KeyedFires(c, PressureFactor(r.pressure), 2, Order);
    KeyedFires(c, MaintenanceOverdue(r.hours / 24.0), 3, Order);
    KeyedFires(c, EquipmentAge(r.ageMonths / 12.0), 4, Order);
  }

  /** The explanation is never empty, keeps the kind order (so at most one
      factor of each kind), names each threshold factor exactly when its
      threshold is crossed, and falls back on the generic warning only when
      no threshold factor applies and the probability is above one half,
      otherwise on the all-normal line. */
  lemma ExplanationShape(r: Readings, failureProb: real)
    ensures var e := Explanation(r, failureProb);
      && 1 <= |e| <= 5 && Increasing(e, Order)
      && (TemperatureFactor(r.temperature) in e <==> r.temperature > 75.0)
      && (VibrationFactor(r.vibration) in e <==> r.vibration > 3.5)
      && (PressureFactor(r.pressure) in e <==> r.pressure < 35.0)
      && (MaintenanceOverdue(r.hours / 24.0) in e <==> r.hours > 360.0)
      && (EquipmentAge(r.ageMonths / 12.0) in e <==> r.ageMonths > 60.0)
      && (TrendingTowardFailure in e <==> SpecificFactors(r) == [] && failureProb > 0.5)
      && (AllNormal in e <==> SpecificFactors(r) == [] && failureProb <= 0.5)
  {
    SpecificFactorsShape(r);
    var s := SpecificFactors(r);
    assert TrendingTowardFailure !in s && AllNormal !in s;
  }

  // ---------------------------------------------------------------------------
  // Recommendations
  // ---------------------------------------------------------------------------

  /** One recommendation line. */
  datatype Advice =
    | UrgentInspection | ConsiderStopping | PrepareParts
    | MaintainWithin3Days | IncreaseMonitoring | ReviewLogs
    | PlanPreventive | StandardMonitoring | DocumentReadings
    | OperatingNormally | RoutineMaintenance | MonitorPerProcedure
    | CheckCooling | InspectBearings | CheckLines

  /** The text of each line. */
  function Text(a: Advice): string {
    match a
    case UrgentInspection => "🔴 URGENT: Schedule immediate inspection within 24 hours"
    case ConsiderStopping => "Consider stopping equipment if safety is at risk"
    case PrepareParts => "Prepare replacement parts and backup equipment"
    case MaintainWithin3Days => "🟠 Schedule maintenance within 3 days"
    case IncreaseMonitoring => "Increase monitoring frequency (hourly checks)"
    case ReviewLogs => "Review recent operational logs for anomalies"
    case PlanPreventive => "🟡 Plan preventive maintenance within 7 days"
    case StandardMonitoring => "Continue standard monitoring"
    case DocumentReadings => "Document current readings for trend analysis"
    case OperatingNormally => "🟢 Equipment operating normally"
    case RoutineMaintenance => "Continue routine maintenance schedule"
    case MonitorPerProcedure => "Monitor as per standard operating procedures"
    case CheckCooling => "Check cooling system: inspect coolant levels and filters"
    case InspectBearings => "Inspect bearings and mounting bolts for wear/looseness"
    case CheckLines => "Check hydraulic/pneumatic lines for leaks or blockages"
  }

  /** The three lines for a risk tier; every tier other than Critical, High
      and Medium gets the lines for Low. */
  function TierLines(risk: RiskLevel): (lines: seq<Advice>)
    ensures |lines| == 3
  {
    match risk
    case Critical => [UrgentInspection, ConsiderStopping, PrepareParts]
    case High => [MaintainWithin3Days, IncreaseMonitoring, ReviewLogs]
    case Medium => [PlanPreventive, StandardMonitoring, DocumentReadings]
    case _ => [OperatingNormally, RoutineMaintenance, MonitorPerProcedure]
  }

  /** The position of each sensor-specific addition. */
  function AddOnRank(a: Advice): nat {
    match a
    case CheckCooling => 0
    case InspectBearings => 1
    case CheckLines => 2
    case _ => 3
  }

  /** The sensor checks, in the order they are made. */
  function AddOnChecks(temp: real, vibration: real, pressure: real): seq<Check<Advice>> {
    [Check(temp > 75.0, CheckCooling), Check(vibration > 3.5, InspectBearings), Check(pressure < 35.0, CheckLines)]
  }

  /** The sensor-specific additions whose threshold is crossed. */
  function SensorAddOns(temp: real, vibration: real, pressure: real): seq<Advice> {
    Fired(AddOnChecks(temp, vibration, pressure))
  }

  function Recommendations(risk: RiskLevel, d: SensorData): seq<Advice> {
    TierLines(risk)
    + SensorAddOns(Reading(d, "temperature_avg", 65.0), Reading(d, "vibration_avg", 2.5),
                   Reading(d, "pressure_avg", 45.0))
  }

  /** The risk-tier block of `_generate_maintenance_recommendations`. */
  method TierRecommendations(risk: RiskLevel) returns (recommendations: seq<Advice>)
    ensures recommendations == TierLines(risk)
  {
    recommendations := [];
    if risk == Critical {
      recommendations := recommendations + [UrgentInspection];
      recommendations := recommendations + [ConsiderStopping];
      recommendations := recommendations + [PrepareParts];
    } else if risk == High {
      recommendations := recommendations + [MaintainWithin3Days];
      recommendations := recommendations + [IncreaseMonitoring];
      recommendations := recommendations + [ReviewLogs];
    } else if risk == Medium {
      recommendations := recommendations + [PlanPreventive];
      recommendations := recommendations + [StandardMonitoring];
      recommendations := recommendations + [DocumentReadings];
    } else {
      recommendations := recommendations + [OperatingNormally];
      recommendations := recommendations + [RoutineMaintenance];
      recommendations := recommendations + [MonitorPerProcedure];
    }
  }

  /** `_generate_maintenance_recommendations(risk_level, sensor_data)` */
  method GenerateMaintenanceRecommendations(risk: RiskLevel, d: SensorData) returns (recommendations: seq<Advice>)
    ensures recommendations == Recommendations(risk, d)
  {
    recommendations := TierRecommendations(risk);
    ghost var tier := recommendations;
    assert tier == TierLines(risk) && tier == tier + [];
    var temp := Reading(d, "temperature_avg", 65.0);
    AppendAfter(tier, [], temp > 75.0, CheckCooling);
    if temp > 75.0 {
      recommendations := recommendations + [CheckCooling];
    }
    ghost var cooling := Append([], temp > 75.0, CheckCooling);
    var vibration := Reading(d, "vibration_avg", 2.5);
    AppendAfter(tier, cooling, vibration > 3.5, InspectBearings);
    if vibration > 3.5 {
      recommendations := recommendations + [InspectBearings];
    }
    ghost var bearings := Append(cooling, vibration > 3.5, InspectBearings);
    var pressure := Reading(d, "pressure_avg", 45.0);
    AppendAfter(tier, bearings, pressure < 35.0, CheckLines);
    if pressure < 35.0 {
      recommendations := recommendations + [CheckLines];
    }
    FiredThree(AddOnChecks(temp, vibration, pressure));
  }

  /** Three tier lines, then at most three additions in the order cooling,
      bearings, lines, each present exactly when its reading crosses its
      threshold. An unknown tier is advised like a low one. */
  lemma RecommendationsShape(temp: real, vibration: real, pressure: real)
    ensures var a := SensorAddOns(temp, vibration, pressure);
      && |a| <= 3 && Increasing(a, AddOnRank)
      && (CheckCooling in a <==> temp > 75.0)
      && (InspectBearings in a <==> vibration > 3.5)
      && (CheckLines in a <==> pressure < 35.0)
    ensures TierLines(Unknown) == TierLines(Low)
  {
    var c := AddOnChecks(temp, vibration, pressure);
    assert forall i :: 0 <= i < |c| ==> AddOnRank(c[i].item) == i;
    FiredIncreasing(c, AddOnRank);
    KeyedFires(c, CheckCooling, 0, AddOnRank);
    KeyedFires(c, InspectBearings, 1, AddOnRank);
    KeyedFires(c, CheckLines, 2, AddOnRank);
  }

  // ---------------------------------------------------------------------------
  // Rule-based prediction
  // ---------------------------------------------------------------------------

  /** `max(0, min(1, x))` */
  function Clip(x: real): (y: real)
    ensures 0.0 <= y <= 1.0
    ensures 0.0 <= x <= 1.0 ==> y == x
    ensures x < 0.0 ==> y == 0.0
    ensures x > 1.0 ==> y == 1.0
  {
    if x < 0.0 then 0.0 else if x > 1.0 then 1.0 else x
  }

  /** The rule-based failure score: a weighted sum of the temperature,
      vibration and pressure deviations, clipped to [0, 1]. */
  function MockScore(temp: real, vibration: real, pressure: real): (score: real)
    ensures 0.0 <= score <= 1.0
  {
    Clip((temp - 65.0) / 20.0 * 0.4 + (vibration - 2.5) / 2.0 * 0.4 + (45.0 - pressure) / 15.0 * 0.2)
  }

  /** Risk bucketing of the rule-based score, with exclusive lower bounds. */
  function MockTier(score: real): (t: RiskLevel)
    ensures t == Critical <==> score > 0.7
    ensures t == High <==> 0.4 < score <= 0.7
    ensures t == Medium <==> 0.2 < score <= 0.4
    ensures t == Low <==> score <= 0.2
  {
    if score > 0.7 then Critical
    else if score > 0.4 then High
    else if score > 0.2 then Medium
    else Low
  }

  /** The two bucketings agree everywhere except on the three boundaries,
      which the rule-based one puts a tier lower. */
  lemma TierBoundaries(p: real)
    ensures MockTier(p) != ModelTier(p) <==> p == 0.7 || p == 0.4 || p == 0.2
    ensures MockTier(0.7) == High && MockTier(0.4) == Medium && MockTier(0.2) == Low
    ensures MockTier(p) != ModelTier(p) ==> Rank(MockTier(p)) + 1 == Rank(ModelTier(p))
  {
  }

  /** Nominal readings score zero. */
  lemma NominalScoresZero()
    ensures MockScore(65.0, 2.5, 45.0) == 0.0
    ensures MockTier(MockScore(65.0, 2.5, 45.0)) == Low
  {
  }

  /** What `predict_failure` answers. A failed prediction carries
      probability 0.0 and the tier Unknown. */
  datatype FailurePrediction =
    | Predicted(equipmentId: string, failureProbability: real, riskLevel: RiskLevel,
                contributingFactors: seq<Factor>, recommendations: seq<Advice>,
                confidence: real, modelUsed: string, note: Option<string>)
    | Failed(equipmentId: string, error: string, failureProbability: real, riskLevel: RiskLevel)

  const MockModelName := "Mock Model (Rule-based)"
  const MockNote := "Using simplified rule-based prediction. Train ML model for better accuracy."
  const TrainedModelName := "Random Forest (Predictive Maintenance)"

  /** `_mock_failure_prediction(equipment_id, sensor_data)` */
  method MockFailurePrediction(equipmentId: string, d: SensorData) returns (r: FailurePrediction)
    ensures var score := MockScore(Reading(d, "temperature_avg", 65.0), Reading(d, "vibration_avg", 2.5),
                                   Reading(d, "pressure_avg", 45.0));
      r == Predicted(equipmentId, score, MockTier(score),
                     Explanation(ExplanationReadings(d), score), Recommendations(MockTier(score), d),
                     0.60, MockModelName, Some(MockNote))
  {
    var temp := Reading(d, "temperature_avg", 65.0);
    var vibration := Reading(d, "vibration_avg", 2.5);
    var pressure := Reading(d, "pressure_avg", 45.0);
    var score := MockScore(temp, vibration, pressure);
    var tier := MockTier(score);
    var factors := GenerateFailureExplanation(d, score);
    var recommendations := GenerateMaintenanceRecommendations(tier, d);
    return Predicted(equipmentId, score, tier, factors, recommendations, 0.60, MockModelName, Some(MockNote));
  }

  /** `predict_failure(equipment_id, sensor_data)`: the rule-based result
      when no model is loaded; otherwise the model's probability and tier
      for the one-row frame of prepared features, or the failed shape when
      the model refuses the frame. */
  method PredictFailure(model: Option<PredictiveMaintenanceModel>, probability: seq<real> -> real,
                        equipmentId: string, d: SensorData) returns (r: FailurePrediction)
    ensures r.equipmentId == equipmentId
    ensures model.None? ==>
      && r.Predicted? && r.confidence == 0.60 && r.modelUsed == MockModelName
      && r.failureProbability == MockScore(Reading(d, "temperature_avg", 65.0),
                                           Reading(d, "vibration_avg", 2.5), Reading(d, "pressure_avg", 45.0))
      && r.riskLevel == MockTier(r.failureProbability)
    ensures r.Failed? <==>
      model.Some? && (model.value.featureNames.None?
                      || exists n :: n in model.value.featureNames.value && n !in FeatureOrder)
    ensures r.Failed? ==> r.failureProbability == 0.0 && r.riskLevel == Unknown
    ensures r.Failed? ==> r.error == (if model.value.featureNames.None? then "'NoneType' object is not iterable"
                                      else "Missing features: " + SetText(MissingNames(model.value.featureNames.value, FeatureOrder)))
    ensures model.Some? && r.Predicted? ==>
      && r.confidence == 0.85 && r.modelUsed == TrainedModelName && r.note.None?
      && (forall n :: n in model.value.featureNames.value ==> n in PrepareFeatures(d))
      && r.failureProbability == probability(SelectFeatures(PrepareFeatures(d), model.value.featureNames.value))
      && r.riskLevel == ModelTier(r.failureProbability)
      && r.contributingFactors == Explanation(ExplanationReadings(d), r.failureProbability)
      && r.recommendations == Recommendations(r.riskLevel, d)
  {
    if model.None? {
      r := MockFailurePrediction(equipmentId, d);
      return;
    }
    var features := PrepareFeatures(d);
    var frame := new Frame(FeatureOrder, [features]);
    var prediction := model.value.Predict(frame, probability);
    if prediction.Err? {
      return Failed(equipmentId, prediction.error, 0.0, Unknown);
    }
    var failureProb := prediction.value.probabilities[0];
    var risk := prediction.value.riskLevels[0];
    var explanation := GenerateFailureExplanation(d, failureProb);
    var recommendations := GenerateMaintenanceRecommendations(risk, d);
    return Predicted(equipmentId, failureProb, risk, explanation, recommendations, 0.85, TrainedModelName, None);
  }

  // ---------------------------------------------------------------------------
  // Anomaly detection
  // ---------------------------------------------------------------------------

  datatype Sensor = Temperature | Vibration | Pressure

  datatype Severity = SeverityMedium | SeverityHigh

  datatype Anomaly = Anomaly(sensor: Sensor, value: real, threshold: string, severity: Severity)

  datatype AnomalyReport = AnomalyReport(
    equipmentId: string, anomalyDetected: bool, anomalyScore: real,
    anomalies: seq<Anomaly>, timestamp: Option<string>, modelUsed: string)

  /** The position of each sensor's check. */
  function SensorOrder(a: Anomaly): nat {
    match a.sensor
    case Temperature => 0
    case Vibration => 1
    case Pressure => 2
  }

  function TemperatureAnomaly(t: real): Anomaly {
    Anomaly(Temperature, t, "40-80°C", if t > 85.0 then SeverityHigh else SeverityMedium)
  }

  function VibrationAnomaly(v: real): Anomaly {
    Anomaly(Vibration, v, "<4.5 mm/s", SeverityHigh)
  }

  function PressureAnomaly(p: real): Anomaly {
    Anomaly(Pressure, p, "25-65 PSI", SeverityMedium)
  }

  /** The band checks of one reading, in the order they are made. */
  function AnomalyChecks(temp: real, vibration: real, pressure: real): seq<Check<Anomaly>> {
    [Check(temp > 80.0 || temp < 40.0, TemperatureAnomaly(temp)),
     Check(vibration > 4.5, VibrationAnomaly(vibration)),
     Check(pressure < 25.0 || pressure > 65.0, PressureAnomaly(pressure))]
  }

  /** The anomalies of one reading. */
  function Anomalies(temp: real, vibration: real, pressure: real): seq<Anomaly> {
    Fired(AnomalyChecks(temp, vibration, pressure))
  }

  /** `detect_anomaly(equipment_id, sensor_reading)`; `timestamp` is the
      reading's timestamp entry, if any. */
  method DetectAnomaly(equipmentId: string, reading: SensorData, timestamp: Option<string>) returns (r: AnomalyReport)
    ensures r.anomalies == Anomalies(Reading(reading, "temperature", 65.0), Reading(reading, "vibration", 2.5),
                                     Reading(reading, "pressure", 45.0))
    ensures r.anomalyDetected <==> |r.anomalies| > 0
    ensures r.anomalyScore == |r.anomalies| as real / 3.0
    ensures r.equipmentId == equipmentId && r.timestamp == timestamp
  {
    var temp := Reading(reading, "temperature", 65.0);
    var vibration := Reading(reading, "vibration", 2.5);
    var pressure := Reading(reading, "pressure", 45.0);
    var anomalies: seq<Anomaly> := [];
    if temp > 80.0 || temp < 40.0 {
      anomalies := anomalies + [TemperatureAnomaly(temp)];
    }
    if vibration > 4.5 {
      anomalies := anomalies + [VibrationAnomaly(vibration)];
    }
    if pressure < 25.0 || pressure > 65.0 {
      anomalies := anomalies + [PressureAnomaly(pressure)];
    }
    FiredThree(AnomalyChecks(temp, vibration, pressure));
    return AnomalyReport(equipmentId, |anomalies| > 0, |anomalies| as real / 3.0, anomalies, timestamp,
                         "Threshold-based (Placeholder)");
  }

  /** At most one anomaly per sensor, in sensor order, so the score lies
      in [0, 1]; each sensor is flagged exactly when its reading leaves its
      band: temperature outside 40 to 80 (severity high only above 85),
      vibration above 4.5 (high), pressure outside 25 to 65 (medium). */
  lemma AnomaliesShape(temp: real, vibration: real, pressure: real)
    ensures var a := Anomalies(temp, vibration, pressure);
      && |a| <= 3 && 0.0 <= |a| as real / 3.0 <= 1.0
      && Increasing(a, SensorOrder)
      && (TemperatureAnomaly(temp) in a <==> temp > 80.0 || temp < 40.0)
      && (VibrationAnomaly(vibration) in a <==> vibration > 4.5)
      && (PressureAnomaly(pressure) in a <==> pressure < 25.0 || pressure > 65.0)
    ensures TemperatureAnomaly(temp).severity == SeverityHigh <==> temp > 85.0
    ensures VibrationAnomaly(vibration).severity == SeverityHigh
    ensures PressureAnomaly(pressure).severity == SeverityMedium
  {
    var c := AnomalyChecks(temp, vibration, pressure);
    assert forall i :: 0 <= i < |c| ==> SensorOrder(c[i].item) == i;
    FiredIncreasing(c, SensorOrder);
    KeyedFires(c, TemperatureAnomaly(temp), 0, SensorOrder);
    KeyedFires(c, VibrationAnomaly(vibration), 1, SensorOrder);
    KeyedFires(c, PressureAnomaly(pressure), 2, SensorOrder);
  }

  // ---------------------------------------------------------------------------
  // Graph node
  // ---------------------------------------------------------------------------

  /** What the node stores under `ml_prediction`. */
  datatype NodeResult = Outcome(prediction: FailurePrediction) | NodeError(error: string)

  /** The parts of the shared graph state the node reads and writes. */
  class AgentState {
    /** `state['equipment_id']`, None when the key is absent. */
    var equipmentId: Option<string>
    /** The numeric entries of the state. */
    var readings: SensorData
    /** `state['errors']`, None when the key is absent. */
    var errors: Option<seq<string>>
    var mlPrediction: Option<NodeResult>

    constructor (equipmentId: Option<string>, readings: SensorData, errors: Option<seq<string>>)
      ensures this.equipmentId == equipmentId && this.readings == readings
      ensures this.errors == errors && mlPrediction.None?
    {
      this.equipmentId := equipmentId;
      this.readings := readings;
      this.errors := errors;
      mlPrediction := None;
    }
  }

  /** The sensor data the node hands to the agent, with the node's own
      defaults. */
  function NodeSensorData(s: SensorData): (d: SensorData)
    ensures d.Keys == {"temperature_avg", "vibration_avg", "pressure_avg",
                       "hours_since_maintenance", "equipment_age_months"}
  {
    map["temperature_avg" := Reading(s, "temperature_avg", 67.0),
        "vibration_avg" := Reading(s, "vibration_avg", 2.8),
        "pressure_avg" := Reading(s, "pressure_avg", 45.0),
        "hours_since_maintenance" := Reading(s, "hours_since_maintenance", 240.0),
        "equipment_age_months" := Reading(s, "equipment_age_months", 36.0)]
  }

  /** The message Python gives for the missing-key error. */
  const MissingIdMessage := "'equipment_id'"

  /** `ml_agent_node(state)`: a state without an equipment id gets exactly
      one "ML Agent: ..." entry appended to its errors (earlier entries
      kept, the list created when absent) and an error result; otherwise the
      prediction is stored and the errors are left alone. */
  method MlAgentNode(state: AgentState, model: Option<PredictiveMaintenanceModel>, probability: seq<real> -> real)
    modifies state
    ensures state.equipmentId == old(state.equipmentId) && state.readings == old(state.readings)
    ensures old(state.equipmentId).None? ==>
      state.errors == Some((if old(state.errors).Some? then old(state.errors).value else []) + ["ML Agent: " + MissingIdMessage])
      && state.mlPrediction == Some(NodeError(MissingIdMessage))
    ensures old(state.equipmentId).Some? ==>
      state.errors == old(state.errors)
      && state.mlPrediction.Some? && state.mlPrediction.value.Outcome?
      && state.mlPrediction.value.prediction.equipmentId == old(state.equipmentId).value
    ensures old(state.equipmentId).Some? && model.None? ==>
      var d := NodeSensorData(old(state.readings));
      state.mlPrediction.value.prediction.failureProbability
        == MockScore(d["temperature_avg"], d["vibration_avg"], d["pressure_avg"])
  {
    var d := NodeSensorData(state.readings);
    if state.equipmentId.None? {
      var errors := if state.errors.Some? then state.errors.value else [];
      state.errors := Some(errors + ["ML Agent: " + MissingIdMessage]);
      state.mlPrediction := Some(NodeError(MissingIdMessage));
      return;
    }
    var result := PredictFailure(model, probability, state.equipmentId.value, d);
    state.mlPrediction := Some(Outcome(result));
  }
}
