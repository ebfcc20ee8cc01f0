/** The analytics agent: performance-trend reports built from period-over-
    period changes, the insight list derived from those changes, and the
    comparison of several units on one metric. Every random draw of the
    agent arrives as a parameter; the float computation of the trend
    changes from the synthetic history is replaced by the changes
    themselves. */
module Analytics {
  import opened Values

  /** The number of days a named time range covers; unknown names read as
      thirty days. */
  function PeriodDays(timeRange: string): (days: nat)
    ensures timeRange == "last_7_days" ==> days == 7
    ensures timeRange == "last_90_days" ==> days == 90
    ensures timeRange != "last_7_days" && timeRange != "last_90_days" ==> days == 30
    ensures days in {7, 30, 90}
  {
    if timeRange == "last_7_days" then 7
    else if timeRange == "last_30_days" then 30
    else if timeRange == "last_90_days" then 90
    else 30
  }

  /** The direction shown next to a change. */
  datatype Arrow = Up | Down | Level

  function ArrowText(a: Arrow): string {
    match a
    case Up => "↑ Increasing"
    case Down => "↓ Decreasing"
    case Level => "→ Stable"
  }

  /** `trend_arrow(change)`: a change of more than one point either way
      counts as a trend; exactly one point does not. */
  function TrendArrow(change: real): (a: Arrow)
    ensures a == Up <==> change > 1.0
    ensures a == Down <==> change < -1.0
    ensures a == Level <==> -1.0 <= change <= 1.0
  {
    if change > 1.0 then Up
    else if change < -1.0 then Down
    else Level
  }

  /** The changes, current period against previous, that the insights are
      drawn from: percentages for the sensors, points for uptime and defect
      rate. */
  datatype Changes = Changes(temperature: real, vibration: real, pressure: real, uptime: real, defect: real)

  /** The lines `_generate_insights` can produce. */
  datatype Insight =
    | TemperatureSpike         // "🔥 Significant temperature increase detected ..."
    | TemperatureRising        // "⚠️  Temperature trending upward ..."
    | VibrationSpike           // "⚡ Sharp increase in vibration ..."
    | VibrationRising          // "📈 Vibration levels rising ..."
    | PressureDropping         // "💧 Pressure dropping ..."
    | PressureDecreasing       // "📉 Slight pressure decrease ..."
    | UptimeDeclining          // "⏱️  Uptime declining ..."
    | QualityWorsening         // "🎯 Quality issues increasing ..."
    | TemperatureQualityLink   // "🔗 Temperature increase correlates ..."
    | VibrationQualityLink     // "🔗 High vibration affecting product quality"
    | NormalOperation          // "✅ Equipment performing within normal parameters"
    | MultipleIndicators       // "🚨 Multiple degradation indicators ..."

  /** The lines a block of two rules contributes: each line whose guard
      holds, in order. */
  function Lines(b0: bool, x0: Insight, b1: bool, x1: Insight): seq<Insight> {
    (if b0 then [x0] else []) + (if b1 then [x1] else [])
  }

  lemma LinesMember(b0: bool, x0: Insight, b1: bool, x1: Insight, x: Insight)
    ensures x in Lines(b0, x0, b1, x1) <==> (b0 && x == x0) || (b1 && x == x1)
  {
  }

  lemma InConcat(a: seq<Insight>, b: seq<Insight>, x: Insight)
    ensures x in a + b <==> x in a || x in b
  {
  }

  // The blocks of rules; an `elif` guard holds only when its `if` guard
  // does not.

  /** A rise of more than 5 %, else of more than 2 %. */
  function TemperatureLines(c: Changes): seq<Insight> {
    Lines(c.temperature > 5.0, TemperatureSpike, !(c.temperature > 5.0) && c.temperature > 2.0, TemperatureRising)
  }

  /** A rise of more than 10 %, else of more than 5 %. */
  function VibrationLines(c: Changes): seq<Insight> {
    Lines(c.vibration > 10.0, VibrationSpike, !(c.vibration > 10.0) && c.vibration > 5.0, VibrationRising)
  }

  /** A drop of more than 5 %, else of more than 2 %. */
  function PressureLines(c: Changes): seq<Insight> {
    Lines(c.pressure < -5.0, PressureDropping, !(c.pressure < -5.0) && c.pressure < -2.0, PressureDecreasing)
  }

  /** Uptime down more than 3 points; defect rate up more than 1 point. */
  function UptimeDefectLines(c: Changes): seq<Insight> {
    Lines(c.uptime < -3.0, UptimeDeclining, c.defect > 1.0, QualityWorsening)
  }

  /** A sensor rise together with a defect-rate rise of more than 0.5. */
  function CorrelationLines(c: Changes): seq<Insight> {
    Lines(c.temperature > 3.0 && c.defect > 0.5, TemperatureQualityLink,
          c.vibration > 5.0 && c.defect > 0.5, VibrationQualityLink)
  }

  /** The lines of the rules that fire, block by block. */
  function RuleInsights(c: Changes): seq<Insight> {
    TemperatureLines(c) + VibrationLines(c) + PressureLines(c) + UptimeDefectLines(c) + CorrelationLines(c)
  }

  /** When each line is due, read off the rules one by one. */
  predicate RuleFires(c: Changes, x: Insight) {
    match x
    case TemperatureSpike => c.temperature > 5.0
    case TemperatureRising => 2.0 < c.temperature <= 5.0
    case VibrationSpike => c.vibration > 10.0
    case VibrationRising => 5.0 < c.vibration <= 10.0
    case PressureDropping => c.pressure < -5.0
    case PressureDecreasing => -5.0 <= c.pressure < -2.0
    case UptimeDeclining => c.uptime < -3.0
    case QualityWorsening => c.defect > 1.0
    case TemperatureQualityLink => c.temperature > 3.0 && c.defect > 0.5
    case VibrationQualityLink => c.vibration > 5.0 && c.defect > 0.5
    case NormalOperation => false
    case MultipleIndicators => false
  }

  /** The overall assessment: the normal-operation line when no rule
      fired, the multiple-indicators header in front of three or more rule
      lines. */
  function Assess(rules: seq<Insight>): seq<Insight> {
    if rules == [] then [NormalOperation]
    else if |rules| >= 3 then [MultipleIndicators] + rules
    else rules
  }

  /** The complete insight list. */
  function Insights(c: Changes): seq<Insight> {
    Assess(RuleInsights(c))
  }

  /** Appends to the list collected so far the lines of the temperature
      block. */
  method AddTemperatureInsights(insights: seq<Insight>, c: Changes) returns (r: seq<Insight>)
    ensures r == insights + TemperatureLines(c)
  {
    r := insights;
    if c.temperature > 5.0 {
      r := r + [TemperatureSpike];
    } else if c.temperature > 2.0 {
      r := r + [TemperatureRising];
    }
  }

  method AddVibrationInsights(insights: seq<Insight>, c: Changes) returns (r: seq<Insight>)
    ensures r == insights + VibrationLines(c)
  {
    r := insights;
    if c.vibration > 10.0 {
      r := r + [VibrationSpike];
    } else if c.vibration > 5.0 {
      r := r + [VibrationRising];
    }
  }

  method AddPressureInsights(insights: seq<Insight>, c: Changes) returns (r: seq<Insight>)
    ensures r == insights + PressureLines(c)
  {
    r := insights;
    if c.pressure < -5.0 {
      r := r + [PressureDropping];
    } else if c.pressure < -2.0 {
      r := r + [PressureDecreasing];
    }
  }

  method AddUptimeDefectInsights(insights: seq<Insight>, c: Changes) returns (r: seq<Insight>)
    ensures r == insights + UptimeDefectLines(c)
  {
    r := insights;
    if c.uptime < -3.0 {
      r := r + [UptimeDeclining];
    }
    if c.defect > 1.0 {
      r := r + [QualityWorsening];
    }
  }

  method AddCorrelationInsights(insights: seq<Insight>, c: Changes) returns (r: seq<Insight>)
    ensures r == insights + CorrelationLines(c)
  {
    r := insights;
    if c.temperature > 3.0 && c.defect > 0.5 {
      r := r + [TemperatureQualityLink];
    }
    if c.vibration > 5.0 && c.defect > 0.5 {
      r := r + [VibrationQualityLink];
    }
  }

  /** `_generate_insights(temp_change, vib_change, pres_change,
      uptime_change, defect_change)`: the rule blocks in order, then the
      overall assessment. */
  method GenerateInsights(c: Changes) returns (insights: seq<Insight>)
    ensures insights == Insights(c)
  {
    insights := [];
    insights := AddTemperatureInsights(insights, c);
    assert insights == TemperatureLines(c);
    insights := AddVibrationInsights(insights, c);
    insights := AddPressureInsights(insights, c);
    insights := AddUptimeDefectInsights(insights, c);
    insights := AddCorrelationInsights(insights, c);
    if |insights| == 0 {
      insights := insights + [NormalOperation];
    } else if |insights| >= 3 {
      insights := [MultipleIndicators] + insights;
    }
  }

  /** A rule line is in the list exactly when its block lists it. */
  lemma RuleInsightsUnion(c: Changes, x: Insight)
    ensures x in RuleInsights(c) <==>
      x in TemperatureLines(c) || x in VibrationLines(c) || x in PressureLines(c)
      || x in UptimeDefectLines(c) || x in CorrelationLines(c)
  {
    var t, v, p, q, k := TemperatureLines(c), VibrationLines(c), PressureLines(c), UptimeDefectLines(c), CorrelationLines(c);
    InConcat(t, v, x);
    InConcat(t + v, p, x);
    InConcat(t + v + p, q, x);
    InConcat(t + v + p + q, k, x);
  }

  // Each block lists exactly those of its lines whose rule fires.

  lemma TemperatureMember(c: Changes, x: Insight)
    ensures x in TemperatureLines(c) <==> (x.TemperatureSpike? || x.TemperatureRising?) && RuleFires(c, x)
  {
    LinesMember(c.temperature > 5.0, TemperatureSpike, !(c.temperature > 5.0) && c.temperature > 2.0, TemperatureRising, x);
  }

  lemma VibrationMember(c: Changes, x: Insight)
    ensures x in VibrationLines(c) <==> (x.VibrationSpike? || x.VibrationRising?) && RuleFires(c, x)
  {
    LinesMember(c.vibration > 10.0, VibrationSpike, !(c.vibration > 10.0) && c.vibration > 5.0, VibrationRising, x);
  }

  lemma PressureMember(c: Changes, x: Insight)
    ensures x in PressureLines(c) <==> (x.PressureDropping? || x.PressureDecreasing?) && RuleFires(c, x)
  {
    LinesMember(c.pressure < -5.0, PressureDropping, !(c.pressure < -5.0) && c.pressure < -2.0, PressureDecreasing, x);
  }

  lemma UptimeDefectMember(c: Changes, x: Insight)
    ensures x in UptimeDefectLines(c) <==> (x.UptimeDeclining? || x.QualityWorsening?) && RuleFires(c, x)
  {
    LinesMember(c.uptime < -3.0, UptimeDeclining, c.defect > 1.0, QualityWorsening, x);
  }

  lemma CorrelationMember(c: Changes, x: Insight)
    ensures x in CorrelationLines(c) <==> (x.TemperatureQualityLink? || x.VibrationQualityLink?) && RuleFires(c, x)
  {
    LinesMember(c.temperature > 3.0 && c.defect > 0.5, TemperatureQualityLink,
                c.vibration > 5.0 && c.defect > 0.5, VibrationQualityLink, x);
  }

  /** A line comes from the rules exactly when its rule fires; the two
      assessment lines never do. */
  lemma RuleInsightsMember(c: Changes, x: Insight)
    ensures x in RuleInsights(c) <==> RuleFires(c, x)
  {
    RuleInsightsUnion(c, x);
    TemperatureMember(c, x);
    VibrationMember(c, x);
    PressureMember(c, x);
    UptimeDefectMember(c, x);
    CorrelationMember(c, x);
  }

  /** Each if/elif block contributes at most one line, so at most one
      temperature, one vibration and one pressure line appear; at most ten
      rule lines in all. */
  lemma RuleInsightsBlocks(c: Changes)
    ensures |TemperatureLines(c)| <= 1 && |VibrationLines(c)| <= 1 && |PressureLines(c)| <= 1
    ensures |RuleInsights(c)| <= 10
  {
  }

  /** The insight list is never empty; it is the single normal-operation
      line exactly when no rule fired; with three or more rule lines the
      header comes first and the rule lines follow in order, otherwise the
      rule lines are the list; and no temperature, vibration or pressure
      pair appears together. */
  lemma InsightsShape(c: Changes)
    ensures var r := RuleInsights(c); var s := Insights(c);
      && 1 <= |s| <= 11
      && (s == [NormalOperation] <==> r == [])
      && (MultipleIndicators in s <==> |r| >= 3)
      && (|r| >= 3 ==> s[0] == MultipleIndicators && s[1..] == r)
      && (1 <= |r| <= 2 ==> s == r)
      && !(TemperatureSpike in s && TemperatureRising in s)
      && !(VibrationSpike in s && VibrationRising in s)
      && !(PressureDropping in s && PressureDecreasing in s)
  {
    var r := RuleInsights(c);
    var s := Insights(c);
    RuleInsightsBlocks(c);
    RuleInsightsMember(c, NormalOperation);
    RuleInsightsMember(c, MultipleIndicators);
    if r == [] {
      assert s == [NormalOperation];
    } else {
      if |r| >= 3 {
        assert s == [MultipleIndicators] + r;
        assert s[1..] == r;
      }
      forall x | x != MultipleIndicators ensures x in s <==> x in r {
        if |r| >= 3 {
          InConcat([MultipleIndicators], r, x);
        }
      }
      RuleInsightsMember(c, TemperatureSpike);
      RuleInsightsMember(c, TemperatureRising);
      RuleInsightsMember(c, VibrationSpike);
      RuleInsightsMember(c, VibrationRising);
      RuleInsightsMember(c, PressureDropping);
      RuleInsightsMember(c, PressureDecreasing);
    }
  }

  /** One entry of a report's trends: the arrow and the signed change it
      is drawn from, shown as "(+x.x% vs previous period)". */
  datatype Trend = Trend(arrow: Arrow, change: real)

  /** A change and its arrow. */
  function TrendOf(change: real): (r: Trend)
    ensures r.change == change && r.arrow == TrendArrow(change)
  {
    Trend(TrendArrow(change), change)
  }

  /** The five trends of a report. */
  datatype Trends = Trends(uptime: Trend, temperature: Trend, vibration: Trend, pressure: Trend, defectRate: Trend)

  /** The values behind a mock report: the current-period sensor averages,
      the three sensor changes (percent) and the four `np.random.uniform`
      draws, current and previous uptime and defect rate (percent). */
  datatype TrendInputs = TrendInputs(
    temperature: real, vibration: real, pressure: real,
    temperatureChange: real, vibrationChange: real, pressureChange: real,
    uptime: real, previousUptime: real, defectRate: real, previousDefectRate: real)

  /** The changes the insights are drawn from. */
  function ChangesOf(t: TrendInputs): Changes {
    Changes(t.temperatureChange, t.vibrationChange, t.pressureChange,
            t.uptime - t.previousUptime, t.defectRate - t.previousDefectRate)
  }

  const MockDataSource := "Mock Data (Development Mode)"

  datatype TrendReport = TrendReport(
    equipmentId: string, analysisType: string, timeRange: string, periodDays: nat,
    uptime: real, temperature: real, vibration: real, pressure: real, defectRate: real,
    trends: Trends, insights: seq<Insight>,
    confidence: real, dataSource: string)

  /** The mock performance-trend report. */
  function TrendReportOf(equipmentId: string, timeRange: string, t: TrendInputs): TrendReport {
    var c := ChangesOf(t);
    TrendReport(
      equipmentId, "performance_trend", timeRange, PeriodDays(timeRange),
      t.uptime, t.temperature, t.vibration, t.pressure, t.defectRate,
      Trends(TrendOf(c.uptime), TrendOf(c.temperature), TrendOf(c.vibration),
             TrendOf(c.pressure), TrendOf(c.defect)),
      Insights(c), 0.80, MockDataSource)
  }

  /** The report's current metrics are the current-period values, and
      each trend carries its change with the arrow drawn from it: the
      sensor changes as given, uptime and defect rate as current minus
      previous. */
  lemma TrendReportShape(equipmentId: string, timeRange: string, t: TrendInputs)
    ensures var r := TrendReportOf(equipmentId, timeRange, t);
      && r.equipmentId == equipmentId && r.analysisType == "performance_trend" && r.timeRange == timeRange
      && r.uptime == t.uptime && r.defectRate == t.defectRate
      && r.temperature == t.temperature && r.vibration == t.vibration && r.pressure == t.pressure
      && r.trends.temperature.change == t.temperatureChange
      && r.trends.vibration.change == t.vibrationChange
      && r.trends.pressure.change == t.pressureChange
      && r.trends.uptime.change == t.uptime - t.previousUptime
      && r.trends.defectRate.change == t.defectRate - t.previousDefectRate
      && r.trends.temperature.arrow == TrendArrow(t.temperatureChange)
      && r.trends.vibration.arrow == TrendArrow(t.vibrationChange)
      && r.trends.pressure.arrow == TrendArrow(t.pressureChange)
      && r.trends.uptime.arrow == TrendArrow(t.uptime - t.previousUptime)
      && r.trends.defectRate.arrow == TrendArrow(t.defectRate - t.previousDefectRate)
  {
  }

  /** `_mock_performance_trend(equipment_id, time_range)`. */
  method MockPerformanceTrend(equipmentId: string, timeRange: string, t: TrendInputs) returns (report: TrendReport)
    ensures report == TrendReportOf(equipmentId, timeRange, t)
  {
    var days := PeriodDays(timeRange);
    var c := Changes(t.temperatureChange, t.vibrationChange, t.pressureChange,
                     t.uptime - t.previousUptime, t.defectRate - t.previousDefectRate);
    var insights := GenerateInsights(c);
    report := TrendReport(
      equipmentId, "performance_trend", timeRange, days,
      t.uptime, t.temperature, t.vibration, t.pressure, t.defectRate,
      Trends(TrendOf(c.uptime), TrendOf(c.temperature), TrendOf(c.vibration),
             TrendOf(c.pressure), TrendOf(c.defect)),
      insights, 0.80, MockDataSource);
  }

  /** `analyze_performance_trend(equipment_id, time_range)`: with or
      without a warehouse client the report is the mock one, at confidence
      0.80, drawn from mock data; the range defaults to the last 30 days. */
  method AnalyzePerformanceTrend(hasClient: bool, equipmentId: string, t: TrendInputs, timeRange: string := "last_30_days")
    returns (report: TrendReport)
    ensures report == TrendReportOf(equipmentId, timeRange, t)
    ensures report.confidence == 0.80 && report.dataSource == MockDataSource
    ensures report.periodDays == PeriodDays(timeRange) && report.insights != []
  {
    InsightsShape(ChangesOf(t));
    if !hasClient {
      report := MockPerformanceTrend(equipmentId, timeRange, t);
      return;
    }
    report := MockPerformanceTrend(equipmentId, timeRange, t);
  }

  // ---------------------------------------------------------------------
  // Comparing units

  /** The unit a metric is reported in. */
  function UnitOf(metric: string): (unit: string)
    ensures unit == "%" <==> metric == "uptime" || metric == "defect_rate"
    ensures unit == "°C" <==> metric == "temperature"
    ensures unit == "" <==> metric !in ["uptime", "temperature", "defect_rate"]
  {
    if metric == "uptime" then "%"
    else if metric == "temperature" then "°C"
    else if metric == "defect_rate" then "%"
    else ""
  }

  /** One entry of `comparison_data`. */
  datatype Measurement = Measurement(value: real, unit: string)

  function Measure(metric: string, value: real): Measurement {
    Measurement(value, UnitOf(metric))
  }

  /** `comparison_data` after the loop: one entry per id, a repeated id
      overwritten by its last draw. */
  function Measurements(ids: seq<string>, metric: string, draws: seq<real>): (data: map<string, Measurement>)
    requires |draws| == |ids|
    ensures forall k :: k in data <==> k in ids
    decreases |ids|
  {
    if ids == [] then map[]
    else
      var n := |ids| - 1;
      Measurements(ids[..n], metric, draws[..n])[ids[n] := Measure(metric, draws[n])]
  }

  /** The keys of `comparison_data` in insertion order: each id at its
      first occurrence. */
  function KeyOrder(ids: seq<string>): (keys: seq<string>)
    ensures |keys| <= |ids|
    ensures forall k :: k in keys <==> k in ids
    decreases |ids|
  {
    if ids == [] then []
    else
      var n := |ids| - 1;
      var keys := KeyOrder(ids[..n]);
      if ids[n] in keys then keys else keys + [ids[n]]
  }

  predicate Distinct(s: seq<string>) {
    forall i, j :: 0 <= i < j < |s| ==> s[i] != s[j]
  }

  /** With no repeated id the dictionary keeps the ids in their order. */
  lemma {:induction false} KeyOrderDistinct(ids: seq<string>)
    requires Distinct(ids)
    ensures KeyOrder(ids) == ids
    decreases |ids|
  {
    if ids != [] {
      var n := |ids| - 1;
      KeyOrderDistinct(ids[..n]);
      assert ids[n] !in ids[..n];
      assert ids[..n] + [ids[n]] == ids;
    }
  }

  /** The position of the last occurrence of `k`. */
  function LastIndex(ids: seq<string>, k: string): (i: nat)
    requires k in ids
    ensures i < |ids| && ids[i] == k && k !in ids[i + 1..]
    decreases |ids|
  {
    var n := |ids| - 1;
    if ids[n] == k then n
    else
      assert k in ids[..n] by {
        var j :| 0 <= j < |ids| && ids[j] == k;
        assert ids[..n][j] == k;
      }
      var i := LastIndex(ids[..n], k);
      assert ids[i + 1..] == ids[..n][i + 1..] + [ids[n]];
      i
  }

  /** Each id's entry is the measurement of its last draw: a repeated id
      keeps only the value drawn last. */
  lemma {:induction false} MeasurementsEntries(ids: seq<string>, metric: string, draws: seq<real>)
    requires |draws| == |ids|
    ensures var data := Measurements(ids, metric, draws);
      forall k :: k in data ==> data[k] == Measure(metric, draws[LastIndex(ids, k)])
    decreases |ids|
  {
    if ids != [] {
      var n := |ids| - 1;
      var init := ids[..n];
      MeasurementsEntries(init, metric, draws[..n]);
      forall k | k in Measurements(ids, metric, draws)
        ensures Measurements(ids, metric, draws)[k] == Measure(metric, draws[LastIndex(ids, k)])
      {
        if k != ids[n] {
          assert LastIndex(ids, k) == LastIndex(init, k);
        }
      }
    }
  }

  /** `np.argmax`: the first position of the largest value. */
  function ArgMax(values: seq<real>): (k: nat)
    requires values != []
    ensures k < |values|
    ensures forall j :: 0 <= j < |values| ==> values[j] <= values[k]
    ensures forall j :: 0 <= j < k ==> values[j] < values[k]
    decreases |values|
  {
    if |values| == 1 then 0
    else
      var n := |values| - 1;
      var k := ArgMax(values[..n]);
      if values[n] > values[k] then n else k
  }

  /** `np.argmin`: the first position of the smallest value. */
  function ArgMin(values: seq<real>): (k: nat)
    requires values != []
    ensures k < |values|
    ensures forall j :: 0 <= j < |values| ==> values[k] <= values[j]
    ensures forall j :: 0 <= j < k ==> values[k] < values[j]
    decreases |values|
  {
    if |values| == 1 then 0
    else
      var n := |values| - 1;
      var k := ArgMin(values[..n]);
      if values[n] < values[k] then n else k
  }

  /** The values of `comparison_data`, in key order. */
  function ValuesOf(data: map<string, Measurement>, keys: seq<string>): (values: seq<real>)
    requires forall k :: k in keys ==> k in data
    ensures |values| == |keys|
    ensures forall j :: 0 <= j < |keys| ==> values[j] == data[keys[j]].value
  {
    seq(|keys|, j requires 0 <= j < |keys| => data[keys[j]].value)
  }

  function Sum(values: seq<real>): real
    decreases |values|
  {
    if values == [] then 0.0 else Sum(values[..|values| - 1]) + values[|values| - 1]
  }

  /** `np.mean`: the sum over the count. */
  function Mean(values: seq<real>): real
    requires values != []
  {
    Sum(values) / (|values| as real)
  }

  /** `np.var` with its default of dividing by the count (`ddof=0`); the
      `np.std` of the source is its square root. */
  function Variance(values: seq<real>): real
    requires values != []
  {
    Mean(SquaredDeviations(values, Mean(values)))
  }

  /** The squared distance of each value from `m`. */
  function SquaredDeviations(values: seq<real>, m: real): (r: seq<real>)
    ensures |r| == |values|
    ensures forall j :: 0 <= j < |values| ==> r[j] == (values[j] - m) * (values[j] - m)
  {
    seq(|values|, j requires 0 <= j < |values| => (values[j] - m) * (values[j] - m))
  }

  /** A sum of values no smaller than `lo` is at least count times `lo`. */
  lemma {:induction false} SumAtLeast(values: seq<real>, lo: real)
    requires forall j :: 0 <= j < |values| ==> lo <= values[j]
    ensures (|values| as real) * lo <= Sum(values)
    decreases |values|
  {
    if values != [] {
      var init := values[..|values| - 1];
      assert forall j :: 0 <= j < |init| ==> init[j] == values[j];
      SumAtLeast(init, lo);
      assert (|values| as real) * lo == (|init| as real) * lo + lo;
    }
  }

  /** A sum of values no larger than `hi` is at most count times `hi`. */
  lemma {:induction false} SumAtMost(values: seq<real>, hi: real)
    requires forall j :: 0 <= j < |values| ==> values[j] <= hi
    ensures Sum(values) <= (|values| as real) * hi
    decreases |values|
  {
    if values != [] {
      var init := values[..|values| - 1];
      assert forall j :: 0 <= j < |init| ==> init[j] == values[j];
      SumAtMost(init, hi);
      assert (|values| as real) * hi == (|init| as real) * hi + hi;
    }
  }

  /** The mean lies between any lower and upper bound of the values. */
  lemma MeanBetween(values: seq<real>, lo: real, hi: real)
    requires values != []
    requires forall j :: 0 <= j < |values| ==> lo <= values[j] <= hi
    ensures lo <= Mean(values) <= hi
  {
    SumAtLeast(values, lo);
    SumAtMost(values, hi);
    QuotientBetween(Sum(values), |values| as real, lo, hi);
  }

  /** Dividing by a positive count keeps a sum between count times the
      bounds within the bounds. */
  lemma QuotientBetween(s: real, n: real, lo: real, hi: real)
    requires n > 0.0 && n * lo <= s <= n * hi
    ensures lo <= s / n <= hi
  {
    assert (s / n) * n == s;
  }

  /** The variance is never negative, and values that are all equal have
      that value as their mean and no variance. */
  lemma VarianceBounds(values: seq<real>)
    requires values != []
    ensures Variance(values) >= 0.0
    ensures (forall j :: 0 <= j < |values| ==> values[j] == values[0]) ==>
              Mean(values) == values[0] && Variance(values) == 0.0
  {
    var m := Mean(values);
    var squares := SquaredDeviations(values, m);
    DeviationsNonNegative(values, m);
    SumAtLeast(squares, 0.0);
    if forall j :: 0 <= j < |values| ==> values[j] == values[0] {
      MeanBetween(values, values[0], values[0]);
      DeviationsFromEqual(values, m);
      MeanBetween(squares, 0.0, 0.0);
    }
  }

  /** A squared deviation is never negative. */
  lemma DeviationsNonNegative(values: seq<real>, m: real)
    ensures forall j :: 0 <= j < |values| ==> 0.0 <= SquaredDeviations(values, m)[j]
  {
    var squares := SquaredDeviations(values, m);
    forall j | 0 <= j < |values|
      ensures 0.0 <= squares[j]
    {
      var d := values[j] - m;
      assert squares[j] == d * d;
    }
  }

  /** Values all equal to `m` deviate from it by nothing. */
  lemma DeviationsFromEqual(values: seq<real>, m: real)
    requires forall j :: 0 <= j < |values| ==> values[j] == m
    ensures forall j :: 0 <= j < |values| ==> SquaredDeviations(values, m)[j] == 0.0
  {
    var squares := SquaredDeviations(values, m);
    forall j | 0 <= j < |values|
      ensures squares[j] == 0.0
    {
      assert values[j] - m == 0.0;
      assert squares[j] == 0.0 * 0.0;
    }
  }

  /** The positions of the best and the worst value: the largest and the
      smallest for uptime, the reverse for any other metric. */
  function BestWorst(values: seq<real>, metric: string): (bw: (nat, nat))
    requires values != []
    ensures bw.0 < |values| && bw.1 < |values|
    ensures metric == "uptime" ==>
      forall j :: 0 <= j < |values| ==> values[bw.1] <= values[j] <= values[bw.0]
    ensures metric != "uptime" ==>
      forall j :: 0 <= j < |values| ==> values[bw.0] <= values[j] <= values[bw.1]
  {
    if metric == "uptime" then (ArgMax(values), ArgMin(values))
    else (ArgMin(values), ArgMax(values))
  }

  /** The best and worst performers as written: the argmax/argmin position
      taken over the dictionary's values, used to index the id list. */
  function WrittenPerformers(ids: seq<string>, metric: string, draws: seq<real>): (p: (string, string))
    requires |draws| == |ids| && ids != []
  {
    var data := Measurements(ids, metric, draws);
    var keys := KeyOrder(ids);
    var bw := BestWorst(ValuesOf(data, keys), metric);
    (ids[bw.0], ids[bw.1])
  }

  /** The best and worst performers read from the dictionary's keys, the
      list the positions were taken over. */
  function Performers(ids: seq<string>, metric: string, draws: seq<real>): (p: (string, string))
    requires |draws| == |ids| && ids != []
    ensures var data := Measurements(ids, metric, draws);
      && p.0 in ids && p.1 in ids
      && (metric == "uptime" ==>
            forall k :: k in data ==> data[p.1].value <= data[k].value <= data[p.0].value)
      && (metric != "uptime" ==>
            forall k :: k in data ==> data[p.0].value <= data[k].value <= data[p.1].value)
  {
    var data := Measurements(ids, metric, draws);
    var keys := KeyOrder(ids);
    var values := ValuesOf(data, keys);
    var bw := BestWorst(values, metric);
    if metric == "uptime" then
      ExtremesByKey(data, keys, values, bw.1, bw.0);
      (keys[bw.0], keys[bw.1])
    else
      ExtremesByKey(data, keys, values, bw.0, bw.1);
      (keys[bw.0], keys[bw.1])
  }

  /** Extreme positions of the values taken over the keys are extreme
      entries of the dictionary. */
  lemma ExtremesByKey(data: map<string, Measurement>, keys: seq<string>, values: seq<real>, lo: nat, hi: nat)
    requires forall k :: k in data ==> k in keys
    requires forall k :: k in keys ==> k in data
    requires |values| == |keys| && lo < |keys| && hi < |keys|
    requires forall j :: 0 <= j < |keys| ==> values[j] == data[keys[j]].value
    requires forall j :: 0 <= j < |values| ==> values[lo] <= values[j] <= values[hi]
    ensures forall k :: k in data ==> data[keys[lo]].value <= data[k].value <= data[keys[hi]].value
  {
    forall k | k in data ensures data[keys[lo]].value <= data[k].value <= data[keys[hi]].value {
      var j :| 0 <= j < |keys| && keys[j] == k;
      assert values[j] == data[k].value;
    }
  }

  /** With distinct ids the code as written names the same units. */
  lemma WrittenPerformersDistinct(ids: seq<string>, metric: string, draws: seq<real>)
    requires |draws| == |ids| && ids != [] && Distinct(ids)
    ensures WrittenPerformers(ids, metric, draws) == Performers(ids, metric, draws)
  {
    KeyOrderDistinct(ids);
  }

  /** With a repeated id the code as written can name as best performer a
      unit whose value is not the largest: for ids A, A, B on uptime with
      draws 85, 85 and 90, A measures 85 and B 90, the argmax over the
      dictionary's values is position 1, and position 1 of the id list is A. */
  lemma WrittenPerformersRepeatedId()
    ensures var ids := ["A", "A", "B"]; var draws := [85.0, 85.0, 90.0];
      var data := Measurements(ids, "uptime", draws);
      && WrittenPerformers(ids, "uptime", draws).0 == "A"
      && data["A"].value < data["B"].value
      && Performers(ids, "uptime", draws).0 == "B"
  {
    var ids := ["A", "A", "B"];
    var draws := [85.0, 85.0, 90.0];
    assert ids[..2] == ["A", "A"] && ids[..2][..1] == ["A"] && ids[..1] == ["A"];
    assert draws[..2] == [85.0, 85.0] && draws[..2][..1] == [85.0];
    var data := Measurements(ids, "uptime", draws);
    assert data == map["A" := Measurement(85.0, "%"), "B" := Measurement(90.0, "%")];
    assert KeyOrder(ids) == ["A", "B"];
    var values := ValuesOf(data, ["A", "B"]);
    assert values == [85.0, 90.0];
    assert ArgMax(values) == 1;
  }

  /** The comparison report; `variance` is the square of the reported
      standard deviation. */
  datatype Comparison = Comparison(
    comparisonType: string, metric: string, equipmentCount: nat, data: map<string, Measurement>,
    best: string, worst: string, average: real, variance: real, recommendation: string)

  /** What numpy raises when comparing no units: the first call on the
      empty values is `np.argmax` for uptime and `np.argmin` otherwise. */
  function EmptyComparisonError(metric: string): string
  {
    "attempt to get " + (if metric == "uptime" then "argmax" else "argmin") + " of an empty sequence"
  }

  /** The comparison result; comparing no units raises in `np.argmax` or
      `np.argmin`. */
  function ComparisonOf(ids: seq<string>, metric: string, draws: seq<real>): (r: Result<Comparison, string>)
    requires |draws| == |ids|
  {
    if ids == [] then Err(EmptyComparisonError(metric))
    else
      var data := Measurements(ids, metric, draws);
      var values := ValuesOf(data, KeyOrder(ids));
      var p := Performers(ids, metric, draws);
      Ok(Comparison("equipment_comparison", metric, |ids|, data, p.0, p.1, Mean(values), Variance(values),
                    "Focus maintenance efforts on " + p.1 + " which shows lowest " + metric))
  }

  /** Comparing no units fails; otherwise every id has an entry in the
      metric's unit, the count is the number of ids given, best and worst
      are compared ids holding the extreme values (largest uptime, smallest
      of any other metric), and the recommendation names the worst. */
  lemma ComparisonSummary(ids: seq<string>, metric: string, draws: seq<real>)
    requires |draws| == |ids|
    ensures var r := ComparisonOf(ids, metric, draws);
      && (r.Err? <==> ids == [])
      && (r.Err? ==> r.error == "attempt to get " + (if metric == "uptime" then "argmax" else "argmin")
                                + " of an empty sequence")
      && (r.Ok? ==>
            var c := r.value;
            && c.comparisonType == "equipment_comparison"
            && c.equipmentCount == |ids| && c.metric == metric
            && (forall k :: k in c.data <==> k in ids)
            && (forall k :: k in c.data ==> c.data[k].unit == UnitOf(metric))
            && c.best in ids && c.worst in ids
            && (metric == "uptime" ==>
                  forall k :: k in c.data ==> c.data[c.worst].value <= c.data[k].value <= c.data[c.best].value)
            && (metric != "uptime" ==>
                  forall k :: k in c.data ==> c.data[c.best].value <= c.data[k].value <= c.data[c.worst].value)
            && c.recommendation == "Focus maintenance efforts on " + c.worst + " which shows lowest " + metric
            && c.average == Mean(ValuesOf(c.data, KeyOrder(ids)))
            && c.variance == Variance(ValuesOf(c.data, KeyOrder(ids))))
  {
    MeasurementsEntries(ids, metric, draws);
  }

  /** The average lies between the worst and the best unit's value, and
      the spread is never negative. */
  lemma ComparisonAverageBetween(ids: seq<string>, metric: string, draws: seq<real>)
    requires |draws| == |ids| && ids != []
    ensures var r := ComparisonOf(ids, metric, draws);
      && r.Ok?
      && var c := r.value;
      && c.best in c.data && c.worst in c.data
      && (metric == "uptime" ==> c.data[c.worst].value <= c.average <= c.data[c.best].value)
      && (metric != "uptime" ==> c.data[c.best].value <= c.average <= c.data[c.worst].value)
      && c.variance >= 0.0
  {
    ComparisonSummary(ids, metric, draws);
    MeasurementsEntries(ids, metric, draws);
    var c := ComparisonOf(ids, metric, draws).value;
    var keys := KeyOrder(ids);
    var values := ValuesOf(c.data, keys);
    assert forall j :: 0 <= j < |values| ==> keys[j] in c.data;
    if metric == "uptime" {
      MeanBetween(values, c.data[c.worst].value, c.data[c.best].value);
    } else {
      MeanBetween(values, c.data[c.best].value, c.data[c.worst].value);
    }
    VarianceBounds(values);
  }

  /** The loop of `compare_equipment`: one measurement per id, a later
      draw for a repeated id overwriting the earlier one, and the keys in
      first-insertion order. */
  method CollectMeasurements(ids: seq<string>, metric: string, draws: seq<real>)
    returns (data: map<string, Measurement>, keys: seq<string>)
    requires |draws| == |ids|
    ensures data == Measurements(ids, metric, draws)
    ensures keys == KeyOrder(ids)
  {
    data := map[];
    keys := [];
    var i := 0;
    while i < |ids|
      invariant 0 <= i <= |ids|
      invariant data == Measurements(ids[..i], metric, draws[..i])
      invariant keys == KeyOrder(ids[..i])
    {
      assert ids[..i + 1][..i] == ids[..i] && draws[..i + 1][..i] == draws[..i];
      if ids[i] !in data {
        keys := keys + [ids[i]];
      }
      data := data[ids[i] := Measurement(draws[i], UnitOf(metric))];
      i := i + 1;
    }
    assert ids[..i] == ids && draws[..i] == draws;
  }

  /** `compare_equipment(equipment_ids, metric)` with one draw per id;
      the metric defaults to uptime. */
  method CompareEquipment(ids: seq<string>, draws: seq<real>, metric: string := "uptime") returns (r: Result<Comparison, string>)
    requires |draws| == |ids|
    ensures r == ComparisonOf(ids, metric, draws)
  {
    var data, keys := CollectMeasurements(ids, metric, draws);
    if ids == [] {
      return Err(EmptyComparisonError(metric));
    }
    var values := ValuesOf(data, keys);
    var bw := BestWorst(values, metric);
    var best := keys[bw.0];
    var worst := keys[bw.1];
    r := Ok(Comparison("equipment_comparison", metric, |ids|, data, best, worst, Mean(values), Variance(values),
                       "Focus maintenance efforts on " + worst + " which shows lowest " + metric));
  }
}
