/** The predictive-maintenance model: its classifier choice, the engineered
    feature columns it adds to a data frame, the feature bookkeeping of
    training, and prediction with risk bucketing. Fitting, scaling and the
    classifier's internals are outside the model: the trained classifier is
    a function from a feature vector to the probability of failure. */
module TrainModel {
  import opened Values
  import Strings

  /** The failure-risk tiers. `Unknown` is never produced by bucketing; it
      is the tier the prediction service reports after an error. */
  datatype RiskLevel = Low | Medium | High | Critical | Unknown

  /** The two supported classifiers with their fixed hyper-parameters. */
  datatype Classifier =
    | RandomForest(nEstimators: nat, maxDepth: nat, minSamplesSplit: nat, minSamplesLeaf: nat, randomState: nat)
    | GradientBoosting(nEstimators: nat, learningRate: real, maxDepth: nat, randomState: nat)

  /** The classifier built for a model type name, if the name is known. */
  function ClassifierFor(modelType: string): (c: Option<Classifier>)
    ensures c.Some? <==> modelType == "random_forest" || modelType == "gradient_boosting"
    ensures modelType == "random_forest" ==> c == Some(RandomForest(100, 10, 5, 2, 42))
    ensures modelType == "gradient_boosting" ==> c == Some(GradientBoosting(100, 0.1, 5, 42))
  {
    if modelType == "random_forest" then Some(RandomForest(100, 10, 5, 2, 42))
    else if modelType == "gradient_boosting" then Some(GradientBoosting(100, 0.1, 5, 42))
    else None
  }

  // ---------------------------------------------------------------------------
  // Columns
  // ---------------------------------------------------------------------------

  const TargetColumn := "failure_within_7_days"

  /** The columns of the synthetic training data, target last. */
  const SyntheticColumns: seq<string> := [
    "temperature_avg", "temperature_std", "temperature_max",
    "vibration_avg", "vibration_std", "vibration_max",
    "pressure_avg", "pressure_std", "pressure_min",
    "hours_since_maintenance", "equipment_age_months", "cycles_completed",
    "hour_of_day", "day_of_week",
    "load_factor", "ambient_temperature", "humidity",
    TargetColumn]

  /** The columns feature engineering adds, in the order it adds them. */
  const DerivedColumns: seq<string> := [
    "temp_vibration_interaction", "high_temp_low_pressure",
    "maintenance_overdue", "high_temperature_flag", "high_vibration_flag"]

  /** The columns feature engineering reads are all among `columns`. */
  predicate HasEngineeringInputs(columns: seq<string>) {
    "temperature_avg" in columns && "vibration_avg" in columns
    && "pressure_avg" in columns && "hours_since_maintenance" in columns
  }

  /** The same for the keys of one row. */
  predicate RowHasEngineeringInputs(row: map<string, real>) {
    "temperature_avg" in row && "vibration_avg" in row
    && "pressure_avg" in row && "hours_since_maintenance" in row
  }

  /** Assigning a column of a data frame: an existing column keeps its
      place, a new one goes last. */
  function AddColumn(columns: seq<string>, name: string): (r: seq<string>)
    ensures forall c :: c in r <==> c in columns || c == name
    ensures |columns| <= |r| && r[..|columns|] == columns
  {
    if name in columns then columns else columns + [name]
  }

  /** The columns after assigning each of `names` in turn. */
  function WithColumns(columns: seq<string>, names: seq<string>): (r: seq<string>)
    ensures forall c :: c in r <==> c in columns || c in names
    ensures |columns| <= |r| && r[..|columns|] == columns
    decreases |names|
  {
    if names == [] then columns
    else
      var next := AddColumn(columns, names[0]);
      var r := WithColumns(next, names[1..]);
      assert forall c :: c in names <==> c == names[0] || c in names[1..];
      assert r[..|columns|] == r[..|next|][..|columns|];
      r
  }

  /** The columns after the five assignments of feature engineering. */
  function WithDerived(columns: seq<string>): (r: seq<string>)
    ensures forall c :: c in r <==> c in columns || c in DerivedColumns
    ensures |columns| <= |r| && r[..|columns|] == columns
  {
    WithColumns(columns, DerivedColumns)
  }

  /** Feature engineering's columns are its five assignments in order. */
  lemma WithDerivedSteps(columns: seq<string>)
    ensures WithDerived(columns) ==
      AddColumn(AddColumn(AddColumn(AddColumn(AddColumn(columns,
        "temp_vibration_interaction"), "high_temp_low_pressure"), "maintenance_overdue"),
        "high_temperature_flag"), "high_vibration_flag")
  {
    var d := DerivedColumns;
    assert d[1..][1..][1..][1..][1..] == [];
  }

  /** Feature engineering neither adds nor removes the target column. */
  lemma TargetSurvivesEngineering(columns: seq<string>)
    ensures TargetColumn in WithDerived(columns) <==> TargetColumn in columns
  {
    assert TargetColumn !in DerivedColumns;
  }

  /** The feature columns of training: every column but the target, in
      frame order. */
  function FeatureColumns(columns: seq<string>): (r: seq<string>)
    ensures TargetColumn !in r
    ensures forall c :: c in r <==> c in columns && c != TargetColumn
    ensures |r| <= |columns|
    decreases |columns|
  {
    if columns == [] then []
    else
      var rest := FeatureColumns(columns[1..]);
      assert forall c :: c in columns <==> c == columns[0] || c in columns[1..];
      if columns[0] == TargetColumn then rest else [columns[0]] + rest
  }

  // ---------------------------------------------------------------------------
  // Feature engineering
  // ---------------------------------------------------------------------------

  /** A boolean feature as the number the classifier sees. */
  function Flag(b: bool): real {
    if b then 1.0 else 0.0
  }

  /** One row after feature engineering: the five derived values are set
      and every other column is kept. */
  function EngineerRow(row: map<string, real>): (r: map<string, real>)
    requires RowHasEngineeringInputs(row)
    ensures forall k :: k in r <==> k in row || k in DerivedColumns
    ensures forall k :: k in row && k !in DerivedColumns ==> r[k] == row[k]
  {
    DerivedNamesDistinct();
    row["temp_vibration_interaction" := row["temperature_avg"] * row["vibration_avg"]]
       ["high_temp_low_pressure" := Flag(row["temperature_avg"] > 70.0 && row["pressure_avg"] < 40.0)]
       ["maintenance_overdue" := Flag(row["hours_since_maintenance"] > 360.0)]
       ["high_temperature_flag" := Flag(row["temperature_avg"] > 75.0)]
       ["high_vibration_flag" := Flag(row["vibration_avg"] > 4.0)]
  }

  /** The interaction is the product of temperature and vibration, and the
      combined flag is set exactly when the temperature is above 70 while
      the pressure is below 40. */
  lemma EngineeredInteraction(row: map<string, real>)
    requires RowHasEngineeringInputs(row)
    ensures var r := EngineerRow(row);
      && r["temp_vibration_interaction"] == row["temperature_avg"] * row["vibration_avg"]
      && (r["high_temp_low_pressure"] == 1.0 <==> row["temperature_avg"] > 70.0 && row["pressure_avg"] < 40.0)
  {
    DerivedNamesDistinct();
  }

  /** The three single-threshold flags, each set exactly when its threshold
      is crossed. */
  lemma EngineeredFlags(row: map<string, real>)
    requires RowHasEngineeringInputs(row)
    ensures var r := EngineerRow(row);
      && (r["maintenance_overdue"] == 1.0 <==> row["hours_since_maintenance"] > 360.0)
      && (r["high_temperature_flag"] == 1.0 <==> row["temperature_avg"] > 75.0)
      && (r["high_vibration_flag"] == 1.0 <==> row["vibration_avg"] > 4.0)
  {
    DerivedNamesDistinct();
  }

  /** Every derived column but the interaction holds 0 or 1. */
  lemma EngineeredFlagsBinary(row: map<string, real>)
    requires RowHasEngineeringInputs(row)
    ensures var r := EngineerRow(row);
      forall k :: k in DerivedColumns[1..] ==> r[k] == 0.0 || r[k] == 1.0
  {
    DerivedNamesDistinct();
  }

  /** Rows whose keys are exactly `columns`. */
  ghost predicate RowsMatch(rows: seq<map<string, real>>, columns: seq<string>) {
    forall i, c :: 0 <= i < |rows| ==> (c in rows[i] <==> c in columns)
  }

  /** Every row after feature engineering; the rows keep their order. */
  function EngineerRows(rows: seq<map<string, real>>, columns: seq<string>): (r: seq<map<string, real>>)
    requires RowsMatch(rows, columns) && HasEngineeringInputs(columns)
    ensures |r| == |rows|
    ensures forall i :: 0 <= i < |rows| ==> r[i] == EngineerRow(rows[i])
    ensures RowsMatch(r, WithDerived(columns))
  {
    seq(|rows|, i requires 0 <= i < |rows| => EngineerRow(rows[i]))
  }

  /** How many of the five assignments of feature engineering complete
      before a missing input column raises KeyError. The first assignment
      reads temperature and vibration, the second pressure, the third the
      hours since maintenance; the last two read nothing new. */
  function Completed(columns: seq<string>): (k: nat)
    ensures k == 0 || k == 1 || k == 2 || k == 5
    ensures k == 5 <==> HasEngineeringInputs(columns)
    ensures k == 0 <==> "temperature_avg" !in columns || "vibration_avg" !in columns
    ensures k == 1 <==> "temperature_avg" in columns && "vibration_avg" in columns && "pressure_avg" !in columns
    ensures k == 2 <==> "temperature_avg" in columns && "vibration_avg" in columns && "pressure_avg" in columns
                          && "hours_since_maintenance" !in columns
  {
    if "temperature_avg" !in columns || "vibration_avg" !in columns then 0
    else if "pressure_avg" !in columns then 1
    else if "hours_since_maintenance" !in columns then 2
    else 5
  }

  /** The input columns in the order feature engineering first reads them. */
  const ReadOrder: seq<string> := ["temperature_avg", "vibration_avg", "pressure_avg", "hours_since_maintenance"]

  /** The column whose lookup raises KeyError: the first input, in read
      order, that the frame lacks. */
  function MissingInput(columns: seq<string>): (c: string)
    requires !HasEngineeringInputs(columns)
    ensures c !in columns
    ensures exists i :: 0 <= i < |ReadOrder| && ReadOrder[i] == c && forall j :: 0 <= j < i ==> ReadOrder[j] in columns
  {
    if "temperature_avg" !in columns then (assert ReadOrder[0] == "temperature_avg"; "temperature_avg")
    else if "vibration_avg" !in columns then (assert ReadOrder[1] == "vibration_avg"; "vibration_avg")
    else if "pressure_avg" !in columns then (assert ReadOrder[2] == "pressure_avg"; "pressure_avg")
    else (assert ReadOrder[3] == "hours_since_maintenance"; "hours_since_maintenance")
  }

  /** `str(KeyError(key))`: the key in quotes. */
  function KeyErrorText(key: string): string {
    "'" + key + "'"
  }

  /** The feature names a frame lacks, in feature-name order. */
  function MissingNames(names: seq<string>, columns: seq<string>): (r: seq<string>)
    ensures forall n :: n in r <==> n in names && n !in columns
    decreases |names|
  {
    if names == [] then []
    else (if names[0] !in columns then [names[0]] else []) + MissingNames(names[1..], columns)
  }

  /** A set of strings as Python prints it, with the elements in the given
      order. */
  function SetText(items: seq<string>): string {
    "{" + Strings.Join(seq(|items|, i requires 0 <= i < |items| => "'" + items[i] + "'"), ", ") + "}"
  }

  /** One row after the first `k` assignments, for a `k` at which a
      missing column stops feature engineering. */
  function PartialRow(row: map<string, real>, k: nat): (r: map<string, real>)
    requires k <= 2
    requires k >= 1 ==> "temperature_avg" in row && "vibration_avg" in row
    requires k == 2 ==> "pressure_avg" in row
    ensures forall c :: c in r <==> c in row || c in DerivedColumns[..k]
    ensures forall c :: c in row && c !in DerivedColumns[..k] ==> r[c] == row[c]
  {
    DerivedNamesDistinct();
    assert DerivedColumns[..1] == ["temp_vibration_interaction"];
    assert DerivedColumns[..2] == ["temp_vibration_interaction", "high_temp_low_pressure"];
    if k == 0 then row
    else
      var first := row["temp_vibration_interaction" := row["temperature_avg"] * row["vibration_avg"]];
      if k == 1 then first
      else first["high_temp_low_pressure" := Flag(row["temperature_avg"] > 70.0 && row["pressure_avg"] < 40.0)]
  }

  /** The columns assigned before the KeyError hold the values complete
      feature engineering gives them. */
  lemma PartialRowAgrees(row: map<string, real>, k: nat)
    requires RowHasEngineeringInputs(row) && k <= 2
    ensures forall c :: c in DerivedColumns[..k] ==> PartialRow(row, k)[c] == EngineerRow(row)[c]
  {
    DerivedNamesDistinct();
  }

  /** Every row after the assignments that complete before the KeyError. */
  function PartialRows(rows: seq<map<string, real>>, columns: seq<string>): (r: seq<map<string, real>>)
    requires RowsMatch(rows, columns) && !HasEngineeringInputs(columns)
    ensures |r| == |rows|
    ensures forall i :: 0 <= i < |rows| ==> r[i] == PartialRow(rows[i], Completed(columns))
    ensures RowsMatch(r, WithColumns(columns, DerivedColumns[..Completed(columns)]))
  {
    var k := Completed(columns);
    seq(|rows|, i requires 0 <= i < |rows| => PartialRow(rows[i], k))
  }

  /** A frame with temperature and vibration but no pressure column keeps
      the interaction column, and only that, when the second assignment
      raises. */
  lemma MissingPressureKeepsInteraction(columns: seq<string>)
    requires "temperature_avg" in columns && "vibration_avg" in columns && "pressure_avg" !in columns
    ensures Completed(columns) == 1
    ensures WithColumns(columns, DerivedColumns[..Completed(columns)]) == AddColumn(columns, "temp_vibration_interaction")
  {
    var names := DerivedColumns[..1];
    assert names == ["temp_vibration_interaction"] && names[1..] == [];
  }

  /** The frame `engineer_features` leaves behind, given the frame it was
      handed: every row engineered when all inputs are present; otherwise
      the assignments made before the first missing input raised KeyError
      stay in place. */
  ghost predicate EngineeredFrame(columns: seq<string>, rows: seq<map<string, real>>,
                                  columns': seq<string>, rows': seq<map<string, real>>)
    requires RowsMatch(rows, columns)
  {
    && |rows'| == |rows|
    && if HasEngineeringInputs(columns) then
         && columns' == WithDerived(columns)
         && forall i :: 0 <= i < |rows| ==> rows'[i] == EngineerRow(rows[i])
       else
         var k := Completed(columns);
         && columns' == WithColumns(columns, DerivedColumns[..k])
         && forall i :: 0 <= i < |rows| ==> rows'[i] == PartialRow(rows[i], k)
  }

  /** The derived column names differ from each other and from the
      columns they are computed from. */
  lemma DerivedNamesDistinct()
    ensures "temp_vibration_interaction" != "high_temp_low_pressure"
    ensures "temp_vibration_interaction" != "maintenance_overdue"
    ensures "temp_vibration_interaction" != "high_temperature_flag"
    ensures "temp_vibration_interaction" != "high_vibration_flag"
    ensures "high_temp_low_pressure" != "maintenance_overdue"
    ensures "high_temp_low_pressure" != "high_temperature_flag"
    ensures "high_temp_low_pressure" != "high_vibration_flag"
    ensures "maintenance_overdue" != "high_temperature_flag"
    ensures "maintenance_overdue" != "high_vibration_flag"
    ensures "high_temperature_flag" != "high_vibration_flag"
    ensures forall k :: k in DerivedColumns ==>
      k != "temperature_avg" && k != "vibration_avg" && k != "pressure_avg" && k != "hours_since_maintenance"
    ensures forall k :: k in DerivedColumns <==>
      k == "temp_vibration_interaction" || k == "high_temp_low_pressure" || k == "maintenance_overdue"
      || k == "high_temperature_flag" || k == "high_vibration_flag"
  {
  }

  /** A data frame: its column labels in order and one map per row. */
  class Frame {
    var columns: seq<string>
    var rows: seq<map<string, real>>

    /** Every row has exactly the frame's columns. */
    ghost predicate Valid()
      reads this
    {
      RowsMatch(rows, columns)
    }

    constructor (columns: seq<string>, rows: seq<map<string, real>>)
      requires RowsMatch(rows, columns)
      ensures Valid()
      ensures this.columns == columns && this.rows == rows
    {
      this.columns := columns;
      this.rows := rows;
    }

    /** Replaces the frame's labels and rows in place. */
    method Assign(columns: seq<string>, rows: seq<map<string, real>>)
      requires RowsMatch(rows, columns)
      modifies this
      ensures Valid() && this.columns == columns && this.rows == rows
    {
      this.columns, this.rows := columns, rows;
    }
  }

  /** The result of `predict`: one entry per input row in each list. */
  datatype Prediction = Prediction(predictions: seq<int>, probabilities: seq<real>, riskLevels: seq<RiskLevel>)

  /** Risk bucketing on the model path, with inclusive lower bounds. */
  function ModelTier(p: real): (t: RiskLevel)
    ensures t == Critical <==> p >= 0.7
    ensures t == High <==> 0.4 <= p < 0.7
    ensures t == Medium <==> 0.2 <= p < 0.4
    ensures t == Low <==> p < 0.2
  {
    if p >= 0.7 then Critical
    else if p >= 0.4 then High
    else if p >= 0.2 then Medium
    else Low
  }

  /** The order of the tiers. */
  function Rank(t: RiskLevel): nat {
    match t
    case Unknown => 0
    case Low => 1
    case Medium => 2
    case High => 3
    case Critical => 4
  }

  /** A higher probability never gets a lower tier. */
  lemma ModelTierMonotone(p: real, q: real)
    requires p <= q
    ensures Rank(ModelTier(p)) <= Rank(ModelTier(q))
  {
  }

  /** The boundary values fall into the higher tier. */
  lemma ModelTierBoundaries()
    ensures ModelTier(0.7) == Critical && ModelTier(0.4) == High && ModelTier(0.2) == Medium
    ensures ModelTier(0.0) == Low && ModelTier(1.0) == Critical
  {
  }

  /** A row's values for the given feature names, in that order. */
  function SelectFeatures(row: map<string, real>, names: seq<string>): (x: seq<real>)
    requires forall n :: n in names ==> n in row
    ensures |x| == |names|
    ensures forall i :: 0 <= i < |names| ==> x[i] == row[names[i]]
  {
    seq(|names|, i requires 0 <= i < |names| => row[names[i]])
  }

  /** Columns that are not feature names do not affect the selection. */
  lemma {:induction false} SelectIgnoresExtraColumns(a: map<string, real>, b: map<string, real>, names: seq<string>)
    requires forall n :: n in names ==> n in a && n in b && a[n] == b[n]
    ensures SelectFeatures(a, names) == SelectFeatures(b, names)
  {
    var x, y := SelectFeatures(a, names), SelectFeatures(b, names);
    forall i | 0 <= i < |names| ensures x[i] == y[i] {
      assert names[i] in names;
    }
  }

  class PredictiveMaintenanceModel {
    const modelType: string
    const classifier: Classifier
    /** None until the model is trained. */
    var featureNames: Option<seq<string>>

    constructor Init(modelType: string, classifier: Classifier)
      ensures this.modelType == modelType && this.classifier == classifier
      ensures featureNames.None?
    {
      this.modelType := modelType;
      this.classifier := classifier;
      featureNames := None;
    }

    /** `PredictiveMaintenanceModel(model_type)`, the type defaulting to
        a random forest: an unknown model type is refused with a ValueError. */
    static method New(modelType: string := "random_forest") returns (r: Result<PredictiveMaintenanceModel, string>)
      ensures r.Err? <==> ClassifierFor(modelType).None?
      ensures r.Err? ==> r.error == "Unknown model type: " + modelType
      ensures r.Ok? ==> fresh(r.value) && r.value.modelType == modelType
                        && Some(r.value.classifier) == ClassifierFor(modelType)
                        && r.value.featureNames.None?
    {
      var c := ClassifierFor(modelType);
      if c.None? {
        return Err("Unknown model type: " + modelType);
      }
      var m := new PredictiveMaintenanceModel.Init(modelType, c.value);
      return Ok(m);
    }

    /** `engineer_features(df)`: the five derived columns are assigned on
        the frame itself. A frame without one of the columns it reads is
        refused with KeyError, keeping the columns assigned before the
        missing one was read. */
    method EngineerFeatures(df: Frame) returns (ok: bool)
      requires df.Valid()
      modifies df
      ensures df.Valid()
      ensures ok <==> HasEngineeringInputs(old(df.columns))
      ensures EngineeredFrame(old(df.columns), old(df.rows), df.columns, df.rows)
    {
      var columns, rows := df.columns, df.rows;
      if !(HasEngineeringInputs(columns)) {
        var k := Completed(columns);
        df.Assign(WithColumns(columns, DerivedColumns[..k]), PartialRows(rows, columns));
        return false;
      }
      var newRows := EngineerRows(rows, columns);
      var newColumns := WithDerived(columns);
      df.Assign(newColumns, newRows);
      return true;
    }

    /** The column bookkeeping of `train(df)`: features are engineered on
        the frame, a frame without the target column is refused, and the
        feature names become every column but the target. Fitting and
        evaluation are not modelled. The frame stays engineered whether or
        not training goes on. */
    method Train(df: Frame) returns (r: Result<seq<string>, string>)
      requires df.Valid()
      modifies this, df
      ensures df.Valid()
      ensures EngineeredFrame(old(df.columns), old(df.rows), df.columns, df.rows)
      ensures r.Err? ==> featureNames == old(featureNames)
      ensures r.Ok? <==> HasEngineeringInputs(old(df.columns)) && TargetColumn in old(df.columns)
      ensures r.Ok? ==> featureNames == Some(r.value) && r.value == FeatureColumns(df.columns)
      ensures !HasEngineeringInputs(old(df.columns)) ==> r == Err(KeyErrorText(MissingInput(old(df.columns))))
      ensures HasEngineeringInputs(old(df.columns)) && TargetColumn !in old(df.columns) ==> r == Err(KeyErrorText(TargetColumn))
    {
      var columns := df.columns;
      var ok := EngineerFeatures(df);
      if !ok {
        return Err(KeyErrorText(MissingInput(columns)));
      }
      TargetSurvivesEngineering(columns);
      if TargetColumn !in df.columns {
        return Err(KeyErrorText(TargetColumn));
      }
      var names := FeatureColumns(df.columns);
      featureNames := Some(names);
      return Ok(names);
    }

    /** `predict(features)` with the trained classifier's probability of
        failure given as `probability`. An untrained model or a frame that
        lacks a feature name is refused; extra columns are ignored and
        features are taken in `feature_names` order. The predicted class is
        1 exactly when the probability exceeds one half. */
    method Predict(features: Frame, probability: seq<real> -> real) returns (r: Result<Prediction, string>)
      requires features.Valid()
      ensures r.Err? <==> featureNames.None? || exists n :: n in featureNames.value && n !in features.columns
      ensures featureNames.None? ==> r == Err("'NoneType' object is not iterable")
      ensures featureNames.Some? && r.Err? ==>
        r.error == "Missing features: " + SetText(MissingNames(featureNames.value, features.columns))
      ensures r.Ok? ==>
        var names := featureNames.value;
        var p := r.value;
        |p.predictions| == |p.probabilities| == |p.riskLevels| == |features.rows|
        && forall i :: 0 <= i < |features.rows| ==>
             (forall n :: n in names ==> n in features.rows[i])
             && p.probabilities[i] == probability(SelectFeatures(features.rows[i], names))
             && p.riskLevels[i] == ModelTier(p.probabilities[i])
             && p.predictions[i] == (if p.probabilities[i] > 0.5 then 1 else 0)
    {
      if featureNames.None? {
        return Err("'NoneType' object is not iterable");
      }
      var names := featureNames.value;
      if exists n :: n in names && n !in features.columns {
        return Err("Missing features: " + SetText(MissingNames(names, features.columns)));
      }
      var rows := features.rows;
      assert forall i, n :: 0 <= i < |rows| && n in names ==> n in rows[i];
      var probabilities := seq(|rows|, i requires 0 <= i < |rows| => probability(SelectFeatures(rows[i], names)));
      var predictions := seq(|rows|, i requires 0 <= i < |rows| => if probabilities[i] > 0.5 then 1 else 0);
      var riskLevels: seq<RiskLevel> := [];
      var i := 0;
      while i < |probabilities|
        invariant 0 <= i <= |probabilities|
        invariant |riskLevels| == i
        invariant forall j :: 0 <= j < i ==> riskLevels[j] == ModelTier(probabilities[j])
      {
        var p := probabilities[i];
        if p >= 0.7 {
          riskLevels := riskLevels + [Critical];
        } else if p >= 0.4 {
          riskLevels := riskLevels + [High];
        } else if p >= 0.2 {
          riskLevels := riskLevels + [Medium];
        } else {
          riskLevels := riskLevels + [Low];
        }
        i := i + 1;
      }
      return Ok(Prediction(predictions, probabilities, riskLevels));
    }
  }
}
