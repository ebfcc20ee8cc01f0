# Manufacturing copilot core, modelled in Dafny

This project models the decision logic of a manufacturing copilot. Each
part below is a Dafny module, one per source file, plus three helper
modules: `Values` (Python-like values, Option and Result), `Strings`
(prefix tests, `str.replace`, `str.split` and `join`, stripping, digits)
and `Conditional` (a list built by a run of guarded appends).

- **The diagnosis API** (`Security`, `ApiModels`, `Agents`).
  - The `X-Auth-Token` check.
  - The request, response and health schemas, with their field constraints.
  - The simulated diagnosis workflow.
- **The ML agent and the predictive-maintenance model** (`MlAgent`,
  `TrainModel`).
  - Feature preparation, and the rule-based score and risk tiers.
  - The contributing-factor and recommendation lists.
  - Threshold anomaly detection, and the error path of the graph node.
  - The model's classifier choice, its feature engineering on a data
    frame, its feature bookkeeping, and prediction with risk bucketing.
- **The analytics agent** (`Analytics`).
  - Time-range parsing, the trend arrows and the insight list.
  - The equipment comparison, with its units and best/worst selection.
- **The streaming pipeline** (`KafkaProducer`, `KafkaConsumer`).
  - The simulated fleet, and sensor readings, status events and quality
    inspections classified from their draws.
  - One production round, as messages handed to the producer.
  - Per-topic buffering with batched writes and a final flush.
  - The real-time analyzer's counters and alerts.
- **Tooling** (`Feedback`, `DeployCloudRun`, `PromptLint`, `Notebooks`).
  - The feedback ingestion guards and the row they insert.
  - The `gcloud run deploy` command line.
  - The prompt linter's error count.
  - The notebook rewriting pass that moves notebooks from the OpenAI chat
    model to HuggingFace endpoints.

Everything outside the program's own decisions becomes a parameter:
- random draws;
- the clock;
- Kafka polls;
- the trained classifier's probability;
- the warehouse client's insert result;
- loaded files.

Each module's opening comment says which parameters stand in for what.
Where the source changes state in place, the model does so too:
- the analyzer's counters;
- the consumer's buffers and its storage log;
- the producer's message log;
- the model's feature names;
- the data frame.

## Model

| member | source | states |
|---|---|---|
| Security.AuthorizeRequest | capstone_project/app/security.py:16-25 | a token without the prefix is refused with 401 "Invalid or missing authentication token."; a token that is exactly the prefix is refused with 401 "User ID missing in token."; every other token is accepted and the returned user id is non-empty and, with the prefix put back, is the token |
| Security.AuthorizeIssuedToken | capstone_project/app/security.py:22-25 | the prefix followed by any non-empty user id is accepted and yields that user id (issue, then check, gives the user back) |
| Security.AuthorizeAcceptedExamples | capstone_project/tests/test_security.py:13-42 | "Bearer technician-user123" yields "user123"; a user id that itself starts with "technician-" is returned whole |
| Security.AuthorizeRejectedExamples | capstone_project/tests/test_security.py:20-35 | a wrong prefix and a bare prefix are refused with their two 401 messages |
| ApiModels.PlantIdShape | capstone_project/app/models.py:9-14 | a plant id that matches `^[A-Z]{3,4}-\w{2,3}$` has 6 to 8 characters and exactly one hyphen, at position 3 or 4 |
| ApiModels.PlantIdExamples | capstone_project/tests/test_models.py:12-43 | "PUNE-IN" and "MEX-GTO" match the plant id pattern; "invalid-format" and "invalid" do not |
| ApiModels.ValidateDiagnosisRequest | capstone_project/app/models.py:7-23 | a request is built iff plant_id is present and matches the pattern, equipment_id is present with at least 4 characters and problem_description is present; the built request carries the given fields and the optional image_id; otherwise the error list is non-empty and names each failing field and no other |
| ApiModels.DiagnosisRequestExamples | capstone_project/tests/test_models.py:25-63 | the unit tests' requests: a valid one without image, "ABC" too short, "invalid-format" rejected by the pattern, and all three required fields reported missing, in declaration order |
| ApiModels.NewDiagnosisResponse | capstone_project/app/models.py:25-37 | a response is built iff the confidence score is within [0, 1]; it carries the given fields, no ML or analytics part and the default safety disclaimer |
| ApiModels.DiagnosisResponseExamples | capstone_project/tests/test_models.py:65-105 | a score of 1.5 is rejected and 0.85 accepted |
| ApiModels.NewHealthStatus | capstone_project/app/models.py:39-41 | the status is "ok" unless one is supplied, in which case it is that one |
| Agents.CoolantStep | capstone_project/app/agents.py:20 | the first guidance step names the equipment |
| Agents.RecommendedSteps | capstone_project/app/agents.py:19-23 | there are three guidance steps and the first names the equipment |
| Agents.IncidentReport | capstone_project/app/agents.py:28 | the report names the equipment, the plant and the defects joined with ", " |
| Agents.SimulatedDefectsJoined | capstone_project/app/agents.py:28 | the two simulated defects are joined as "micro-fracture, surface-discoloration" |
| Agents.RunCopilotInference | capstone_project/app/agents.py:6-36 | the response carries the fresh request id, the vision output (the two defects, confidence 0.85), the guidance (three steps naming the equipment, two cited documents), a report naming equipment, plant and defects, confidence 0.91 within [0, 1], no ML or analytics part and the default disclaimer |
| Agents.CopilotResponseValidates | capstone_project/app/agents.py:30-36 | the simulated response passes the response model's own validation (the confidence constraint of models.py:31-33) |
| Feedback.AllRequiredPresent | capstone_project/app/functions/feedback/main.py:38-39 | on a JSON object the check is true iff every required field is a key; it raises exactly when there are fields to look for and the body is not an object, list or string (where `in` is defined); whenever it does not raise, it is true iff every field is `in` the body |
| Feedback.FeedbackRow | capstone_project/app/functions/feedback/main.py:55-64 | the row has the four required fields copied from the request, feedback_text from the request or null when absent, and timestamp "AUTO" — and no other column |
| Feedback.IngestFeedback | capstone_project/app/functions/feedback/main.py:30-71 | the guards in order: not POST gives 405, missing or falsy JSON 400, a missing required field 400, a rating that is not an int in 1..5 400, an unset or empty table 500 "Internal server error: BigQuery table not configured."; a truthy body that is not an object gets 400 for a list or string lacking a field name and the framework's 500 otherwise (`in` or `['rating']` raises); a row is inserted iff every guard passes, into that table with exactly the one row; once a row is inserted, 200 iff the insert reported no errors and 500 "Failed to save feedback." otherwise |
| Feedback.FeedbackGuardExamples | capstone_project/app/functions/feedback/main.py:30-71 | an empty object is invalid JSON, GET is refused, an unset table gives 500 without writing, and a complete request with rating 4 succeeds |
| Feedback.FeedbackNonObjectExamples | capstone_project/app/functions/feedback/main.py:39-42 | a list naming every field raises at the rating lookup, a list lacking a field gives 400, and a number raises at the field check |
| DeployCloudRun.NewCloudRunConfig | capstone_project/scripts/deploy_cloud_run.py:8-21 | the four required settings are kept; the defaults are 4 max instances, 0 min instances, 1 CPU, "512Mi", no VPC connector, no environment variables and no secrets |
| DeployCloudRun.EnvEntries | capstone_project/scripts/deploy_cloud_run.py:65 | one "key=value" entry per environment variable, in the dictionary's order |
| DeployCloudRun.SecretEntries | capstone_project/scripts/deploy_cloud_run.py:69 | one "env_var=name:latest" entry per secret, in the dictionary's order |
| DeployCloudRun.EnvVarsArgSplits | capstone_project/scripts/deploy_cloud_run.py:65-66 | when no key or value contains a comma, splitting the --set-env-vars value at commas gives back exactly the per-variable entries |
| DeployCloudRun.SecretsArgSplits | capstone_project/scripts/deploy_cloud_run.py:69-70 | the same for the --update-secrets value and the per-secret entries |
| DeployCloudRun.DeployCommand | capstone_project/scripts/deploy_cloud_run.py:45-70 | the command starts with the 21 fixed words and base flags, with the instance counts and CPU as decimal text; then --vpc-connector, --set-env-vars and --update-secrets follow in that order, each exactly when its setting is non-empty, and the command has nothing else |
| DeployCloudRun.CommandNumbersReadBack | capstone_project/scripts/deploy_cloud_run.py:55-57 | the non-negative instance counts and CPU, written as decimal text on the command line, read back as the configured numbers |
| PromptLint.DescriptionErrors | week-11-12-production-capstone/tools/prompt_lint.py:34-42 | at most one error; a mapping without a description is charged one; a string description is charged one exactly when it is blank after stripping |
| PromptLint.PlaceholderErrors | week-11-12-production-capstone/tools/prompt_lint.py:49-53 | a string template is charged one exactly when it contains "TODO" or "FIXME"; the `in` test raises exactly when the template is not a container |
| PromptLint.FileErrors | week-11-12-production-capstone/tools/prompt_lint.py:24-60 | a file that fails to parse or to open is charged exactly one error |
| PromptLint.WellFormedFileErrors | week-11-12-production-capstone/tools/prompt_lint.py:29-53 | a mapping with string description and template is charged one error per broken rule: missing version, missing or blank description, missing template, placeholder in the template (a missing template reads as '' and holds no placeholder) |
| PromptLint.NonStringDescription | week-11-12-production-capstone/tools/prompt_lint.py:30-60 | a description that is not a string raises on strip(): the file is charged its version error, if any, plus one |
| PromptLint.ScalarDocument | week-11-12-production-capstone/tools/prompt_lint.py:30-60 | a document that is not a container (an empty file loads as None) raises at the first rule and is charged exactly once |
| PromptLint.Charges | week-11-12-production-capstone/tools/prompt_lint.py:24-60 | one charge per file, in file order, each what that file adds to the count |
| PromptLint.SumPositive | week-11-12-production-capstone/tools/prompt_lint.py:62-67 | the total is positive exactly when some file is charged |
| PromptLint.LintPrompts | week-11-12-production-capstone/tools/prompt_lint.py:6-67 | the returned count is the sum of what each file is charged (0 for no files), and it is positive exactly when some file broke a rule or raised |
| PromptLint.ExitStatus | week-11-12-production-capstone/tools/prompt_lint.py:69-76 | the exit status is 0 or 1, and 0 exactly when a directory was given and no error was found |
| TrainModel.ClassifierFor | capstone_project/ml_models/predictive_maintenance/train_model.py:38-55 | a classifier exists exactly for "random_forest" (100 trees, depth 10, split 5, leaf 2, seed 42) and "gradient_boosting" (100 stages, rate 0.1, depth 5, seed 42) |
| TrainModel.AddColumn | capstone_project/ml_models/predictive_maintenance/train_model.py:139-145 | assigning a column keeps the existing columns first and in order, and afterwards the columns are the old ones plus the assigned name |
| TrainModel.WithColumns | capstone_project/ml_models/predictive_maintenance/train_model.py:139-145 | after a series of assignments the columns are the old ones, still first and in order, plus the assigned names |
| TrainModel.WithDerived | capstone_project/ml_models/predictive_maintenance/train_model.py:139-145 | after feature engineering the columns are the old ones, still first and in order, plus the five derived names |
| TrainModel.WithDerivedSteps | capstone_project/ml_models/predictive_maintenance/train_model.py:139-145 | the engineered columns are the five assignments in source order |
| TrainModel.TargetSurvivesEngineering | capstone_project/ml_models/predictive_maintenance/train_model.py:139-145 | feature engineering neither adds nor removes the target column |
| TrainModel.FeatureColumns | capstone_project/ml_models/predictive_maintenance/train_model.py:165-166 | the feature columns are exactly the frame's columns other than failure_within_7_days |
| TrainModel.EngineerRow | capstone_project/ml_models/predictive_maintenance/train_model.py:135-147 | an engineered row has the old keys plus the five derived ones, and every non-derived value is unchanged |
| TrainModel.EngineeredInteraction | capstone_project/ml_models/predictive_maintenance/train_model.py:139-140 | the interaction is temperature times vibration; the combined flag is 1 exactly when temperature > 70 and pressure < 40 |
| TrainModel.EngineeredFlags | capstone_project/ml_models/predictive_maintenance/train_model.py:143-145 | maintenance_overdue, high_temperature_flag and high_vibration_flag are 1 exactly when hours > 360, temperature > 75 and vibration > 4.0, strictly |
| TrainModel.EngineeredFlagsBinary | capstone_project/ml_models/predictive_maintenance/train_model.py:140-145 | every derived column except the interaction holds 0 or 1 |
| TrainModel.EngineerRows | capstone_project/ml_models/predictive_maintenance/train_model.py:135-147 | every row is engineered, in order, and the new rows have exactly the engineered columns |
| TrainModel.DerivedNamesDistinct | capstone_project/ml_models/predictive_maintenance/train_model.py:139-145 | the five derived names differ from each other and from the four columns they are computed from |
| TrainModel.Frame.constructor | capstone_project/ml_models/predictive_maintenance/train_model.py:135 | a data frame holds the given labels and rows, and every row has exactly those columns |
| TrainModel.Frame.Assign | capstone_project/ml_models/predictive_maintenance/train_model.py:139-145 | the frame's labels and rows are replaced in place, and the frame stays consistent |
| TrainModel.ModelTier | capstone_project/ml_models/predictive_maintenance/train_model.py:271-280 | Critical iff p >= 0.7, High iff 0.4 <= p < 0.7, Medium iff 0.2 <= p < 0.4, Low iff p < 0.2 |
| TrainModel.ModelTierMonotone | capstone_project/ml_models/predictive_maintenance/train_model.py:271-280 | a higher probability never gets a lower tier |
| TrainModel.ModelTierBoundaries | capstone_project/ml_models/predictive_maintenance/train_model.py:273-279 | the boundary values 0.7, 0.4 and 0.2 fall into the higher tier; 0 is Low and 1 Critical |
| TrainModel.SelectFeatures | capstone_project/ml_models/predictive_maintenance/train_model.py:261 | the selected vector holds the row's value for each feature name, in feature-name order |
| TrainModel.SelectIgnoresExtraColumns | capstone_project/ml_models/predictive_maintenance/train_model.py:256-261 | columns outside the feature names do not change the selected vector |
| TrainModel.PredictiveMaintenanceModel.Init | capstone_project/ml_models/predictive_maintenance/train_model.py:32-36 | a new model records its type and classifier and has no feature names yet |
| TrainModel.PredictiveMaintenanceModel.New | capstone_project/ml_models/predictive_maintenance/train_model.py:25-55 | an unknown model type is refused with "Unknown model type: " and the name; otherwise a fresh model of that type; the type defaults to "random_forest" |
| TrainModel.Completed | capstone_project/ml_models/predictive_maintenance/train_model.py:139-145 | feature engineering completes all five assignments exactly when the four input columns are present; otherwise it stops at assignment 0, 1 or 2, the first one that reads a missing column (temperature or vibration, then pressure, then hours since maintenance) |
| TrainModel.MissingInput | capstone_project/ml_models/predictive_maintenance/train_model.py:139-142 | the column whose lookup raises is absent from the frame, and every input read before it is present |
| TrainModel.MissingNames | capstone_project/ml_models/predictive_maintenance/train_model.py:257 | a name is listed iff it is a feature name the frame lacks |
| TrainModel.PartialRow | capstone_project/ml_models/predictive_maintenance/train_model.py:139-140 | a row after the assignments made before the KeyError has its old keys plus exactly those derived names, and every other value is unchanged |
| TrainModel.PartialRowAgrees | capstone_project/ml_models/predictive_maintenance/train_model.py:139-140 | the derived values assigned before the KeyError equal the ones complete engineering gives |
| TrainModel.PartialRows | capstone_project/ml_models/predictive_maintenance/train_model.py:139-145 | every row is partially engineered, in order, and the rows have exactly the columns assigned so far |
| TrainModel.MissingPressureKeepsInteraction | capstone_project/ml_models/predictive_maintenance/train_model.py:139-140 | a frame with temperature and vibration but no pressure column is left with the interaction column added, and only that |
| TrainModel.PredictiveMaintenanceModel.EngineerFeatures | capstone_project/ml_models/predictive_maintenance/train_model.py:135-147 | the frame is changed in place: it succeeds iff the input columns are present, and then the columns gain the five derived ones and each row is its engineered version; otherwise the columns assigned before the missing input was read stay on the frame (EngineeredFrame) |
| TrainModel.PredictiveMaintenanceModel.Train | capstone_project/ml_models/predictive_maintenance/train_model.py:149-171 | succeeds iff the engineering inputs and the target are present; the feature names become every engineered column except the target; a missing input fails with the KeyError text of the first input read that is absent, a missing target with that of failure_within_7_days; a failure leaves the feature names as they were; the frame is left engineered (fully or partially) as by EngineerFeatures, also when the target is missing |
| TrainModel.PredictiveMaintenanceModel.Predict | capstone_project/ml_models/predictive_maintenance/train_model.py:242-286 | refused iff the model is untrained or a feature name is missing from the frame, with "'NoneType' object is not iterable" for an untrained model and "Missing features: {…}" naming the missing names otherwise; otherwise one prediction, probability and risk tier per row, the probability computed on the row's features in feature-name order, the tier by ModelTier and the class 1 exactly when the probability exceeds 0.5 |
| MlAgent.Reading | capstone_project/app/ml_agent.py:127 | `sensor_data.get(key, default)`: the reading when present, the default otherwise |
| MlAgent.BaseFeatures | capstone_project/app/ml_agent.py:126-149 | the seventeen model inputs, each the reading when present or its listed default |
| MlAgent.InputDefaultsExamples | capstone_project/app/ml_agent.py:127-128 | the defaults are paired with their inputs by position (temperature_avg 65.0, temperature_std 2.0) |
| MlAgent.PrepareFeatures | capstone_project/app/ml_agent.py:122-160 | the prepared row has exactly the seventeen inputs and the five derived features |
| MlAgent.TrainedNamesInFrame | capstone_project/app/ml_agent.py:122-160 | every feature a model trained on the synthetic columns asks for is a column of the agent's one-row frame |
| MlAgent.GenerateFailureExplanation | capstone_project/app/ml_agent.py:162-208 | the explanation built step by step is Explanation of the five readings (with their defaults) and the probability |
| MlAgent.FactorCheckKinds | capstone_project/app/ml_agent.py:171-199 | the five threshold checks are made in the order temperature, vibration, pressure, maintenance, age |
| MlAgent.SpecificFactorsShape | capstone_project/app/ml_agent.py:171-199 | at most five threshold factors, in check order; each, with its numbers, is listed exactly when temperature > 75, vibration > 3.5, pressure < 35, hours > 360 or age > 60 months, and nothing else is listed |
| MlAgent.ExplanationShape | capstone_project/app/ml_agent.py:162-208 | the explanation has 1 to 5 lines in check order; each threshold factor appears exactly when crossed; the generic warning appears exactly when no factor applies and the probability exceeds 0.5; the all-normal line exactly when no factor applies and it does not |
| MlAgent.TierLines | capstone_project/app/ml_agent.py:219-237 | each tier gets its three lines |
| MlAgent.TierRecommendations | capstone_project/app/ml_agent.py:217-237 | the tier block built step by step is the tier's three lines; any tier other than Critical, High or Medium gets the Low lines |
| MlAgent.GenerateMaintenanceRecommendations | capstone_project/app/ml_agent.py:210-252 | the list built step by step is the tier's lines followed by the sensor additions |
| MlAgent.RecommendationsShape | capstone_project/app/ml_agent.py:239-250 | at most three additions, in the order cooling, bearings, lines; each present exactly when temperature > 75, vibration > 3.5 or pressure < 35; an unknown tier is advised like Low |
| MlAgent.Clip | capstone_project/app/ml_agent.py:273 | `max(0, min(1, x))` lies in [0, 1], is x inside that range, 0 below and 1 above |
| MlAgent.MockScore | capstone_project/app/ml_agent.py:268-273 | the rule-based score lies in [0, 1] |
| MlAgent.MockTier | capstone_project/app/ml_agent.py:275-282 | Critical iff score > 0.7, High iff 0.4 < score <= 0.7, Medium iff 0.2 < score <= 0.4, Low otherwise |
| MlAgent.TierBoundaries | capstone_project/app/ml_agent.py:275-282 | the rule-based and the model bucketing (train_model.py:273-280) differ exactly at 0.7, 0.4 and 0.2, where the rule-based one is one tier lower |
| MlAgent.NominalScoresZero | capstone_project/app/ml_agent.py:264-282 | the nominal readings 65, 2.5 and 45 score 0 and are Low risk |
| MlAgent.MockFailurePrediction | capstone_project/app/ml_agent.py:254-295 | the result carries the clipped score, its MockTier, the explanation and recommendations for that score and tier, confidence 0.60, the rule-based model name and the note |
| MlAgent.PredictFailure | capstone_project/app/ml_agent.py:62-120 | no model: the rule-based result; a model that refuses the frame (untrained, or a feature missing from the agent's frame): the failed shape with probability 0.0, tier Unknown and the text of the model's exception; otherwise the model's probability on the prepared features in feature-name order, its ModelTier, the matching explanation and recommendations, confidence 0.85 |
| MlAgent.DetectAnomaly | capstone_project/app/ml_agent.py:297-354 | the anomalies of the reading (with defaults 65, 2.5, 45), anomaly_detected iff there is one, score = count / 3, and the given equipment id and timestamp |
| MlAgent.AnomaliesShape | capstone_project/app/ml_agent.py:318-345 | at most one anomaly per sensor, in sensor order, so the score lies in [0, 1]; temperature flagged iff outside 40–80 (High only above 85), vibration iff above 4.5 (High), pressure iff outside 25–65 (Medium) |
| MlAgent.AgentState.constructor | capstone_project/app/ml_agent.py:364 | the graph state holds the given equipment id, readings and errors, and no prediction yet |
| MlAgent.NodeSensorData | capstone_project/app/ml_agent.py:372-378 | the node hands over exactly the five readings, with its own defaults |
| MlAgent.MlAgentNode | capstone_project/app/ml_agent.py:364-401 | a state without equipment_id gets one "ML Agent: 'equipment_id'" error appended (the list created when absent) and an error result; otherwise the prediction for that id is stored and the errors are untouched; with no model, the stored probability is the rule-based score of the node's readings |
| Analytics.PeriodDays | capstone_project/app/analytics_agent.py:77-84 | "last_7_days" is 7 days, "last_90_days" 90, anything else (including "last_30_days") 30 |
| Analytics.TrendArrow | capstone_project/app/analytics_agent.py:126-132 | Increasing iff change > 1, Decreasing iff change < -1, Stable iff -1 <= change <= 1 |
| Analytics.AddTemperatureInsights | capstone_project/app/analytics_agent.py:179-182 | the temperature block appends its lines to the list built so far |
| Analytics.AddVibrationInsights | capstone_project/app/analytics_agent.py:185-188 | the vibration block appends its lines to the list built so far |
| Analytics.AddPressureInsights | capstone_project/app/analytics_agent.py:191-194 | the pressure block appends its lines to the list built so far |
| Analytics.AddUptimeDefectInsights | capstone_project/app/analytics_agent.py:197-202 | the uptime and defect-rate rules append their lines to the list built so far |
| Analytics.AddCorrelationInsights | capstone_project/app/analytics_agent.py:205-209 | the two correlation rules append their lines to the list built so far |
| Analytics.GenerateInsights | capstone_project/app/analytics_agent.py:166-217 | the list built by appends and the final insert is Insights of the five changes |
| Analytics.RuleInsightsUnion | capstone_project/app/analytics_agent.py:176-209 | a rule line is in the list exactly when one of the five blocks lists it |
| Analytics.TemperatureMember | capstone_project/app/analytics_agent.py:179-182 | the temperature block lists the spike line iff the change > 5, the rising line iff 2 < change <= 5, and nothing else |
| Analytics.VibrationMember | capstone_project/app/analytics_agent.py:185-188 | the vibration block lists the spike line iff the change > 10, the rising line iff 5 < change <= 10, and nothing else |
| Analytics.PressureMember | capstone_project/app/analytics_agent.py:191-194 | the pressure block lists the dropping line iff the change < -5, the decreasing line iff -5 <= change < -2, and nothing else |
| Analytics.UptimeDefectMember | capstone_project/app/analytics_agent.py:197-202 | the uptime line iff uptime fell by more than 3 points, the quality line iff the defect rate rose by more than 1 |
| Analytics.CorrelationMember | capstone_project/app/analytics_agent.py:205-209 | each correlation line iff its sensor rise (temperature > 3, vibration > 5) comes with a defect-rate rise > 0.5 |
| Analytics.RuleInsightsMember | capstone_project/app/analytics_agent.py:176-209 | a line comes from the rules exactly when its rule fires; the two assessment lines never do |
| Analytics.RuleInsightsBlocks | capstone_project/app/analytics_agent.py:179-209 | each if/elif block contributes at most one line; at most ten rule lines |
| Analytics.InsightsShape | capstone_project/app/analytics_agent.py:166-217 | the list has 1 to 11 lines; it is the single normal line iff no rule fired; the header is present iff three or more rule lines fired, and then it is first and the rule lines follow in order; with one or two rule lines the list is those lines; no two lines of one sensor block appear together |
| Analytics.MockPerformanceTrend | capstone_project/app/analytics_agent.py:73-164 | the report carries the id, the range and its days, the current uptime, temperature, vibration, pressure and defect rate, the five changes each with its arrow, the insights of the changes, confidence 0.80 and the mock data source |
| Analytics.TrendReportShape | capstone_project/app/analytics_agent.py:136-153 | the current metrics are the current-period values; each trend carries its change (the sensor changes as given, uptime and defect rate as current minus previous) and the arrow drawn from it |
| Analytics.AnalyzePerformanceTrend | capstone_project/app/analytics_agent.py:36-71 | with or without a warehouse client the report is the mock one: confidence 0.80, mock data, the range's days and a non-empty insight list; the range defaults to "last_30_days" |
| Analytics.UnitOf | capstone_project/app/analytics_agent.py:241-252 | "%" iff the metric is uptime or defect_rate, "°C" iff temperature, "" for any other metric |
| Analytics.Measurements | capstone_project/app/analytics_agent.py:239-257 | comparison_data has exactly one entry per id given |
| Analytics.KeyOrder | capstone_project/app/analytics_agent.py:239-257 | the dictionary's key order holds each id once, in first-insertion order |
| Analytics.KeyOrderDistinct | capstone_project/app/analytics_agent.py:239-257 | with no repeated id, the key order is the id list itself |
| Analytics.MeasurementsEntries | capstone_project/app/analytics_agent.py:240-257 | each id's entry is the measurement of its last draw: a repeated id keeps only the value drawn last |
| Analytics.ArgMax | capstone_project/app/analytics_agent.py:261-262 | `np.argmax` is the first position of a largest value |
| Analytics.ArgMin | capstone_project/app/analytics_agent.py:261-262 | `np.argmin` is the first position of a smallest value |
| Analytics.ValuesOf | capstone_project/app/analytics_agent.py:260 | the value list holds each entry's value, in key order |
| Analytics.BestWorst | capstone_project/app/analytics_agent.py:261-262 | for uptime the best position holds the largest value and the worst the smallest; for any other metric the reverse |
| Analytics.Performers | capstone_project/app/analytics_agent.py:259-265 | the best and worst performers are compared ids whose entries hold the extreme values: the largest uptime is best, for other metrics the smallest value is best |
| Analytics.ExtremesByKey | capstone_project/app/analytics_agent.py:260-265 | extreme positions of the values taken over the keys are extreme entries of the dictionary |
| Analytics.WrittenPerformersDistinct | capstone_project/app/analytics_agent.py:259-265 | with distinct ids, indexing the id list (as the code does) names the same units as indexing the keys |
| Analytics.WrittenPerformersRepeatedId | capstone_project/app/analytics_agent.py:260-265 | for ids A, A, B on uptime with draws 85, 85, 90, the code as written names A as best performer although B has the larger uptime |
| Analytics.ComparisonSummary | capstone_project/app/analytics_agent.py:219-279 | comparing no ids fails with numpy's message for `argmax` on uptime and for `argmin` on any other metric; otherwise every id has an entry in the metric's unit, the count is the number of ids given, best and worst are compared ids holding the extreme values, the recommendation names the worst, the type is "equipment_comparison", and the average and variance are the mean and population variance of the values in key order |
| Analytics.SumAtLeast | capstone_project/app/analytics_agent.py:275 | a sum of values each at least lo is at least count times lo |
| Analytics.SumAtMost | capstone_project/app/analytics_agent.py:275 | a sum of values each at most hi is at most count times hi |
| Analytics.MeanBetween | capstone_project/app/analytics_agent.py:275 | the mean of the values lies between any lower and upper bound of them |
| Analytics.VarianceBounds | capstone_project/app/analytics_agent.py:276 | the variance (the square of np.std) is never negative, and equal values have that value as mean and variance 0 |
| Analytics.ComparisonAverageBetween | capstone_project/app/analytics_agent.py:259-276 | the reported average lies between the worst and the best unit's value, and the variance is never negative |
| Analytics.CollectMeasurements | capstone_project/app/analytics_agent.py:239-257 | the loop builds exactly Measurements and the key order: a later draw for a repeated id overwrites the earlier one and the key keeps its first position |
| Analytics.CompareEquipment | capstone_project/app/analytics_agent.py:219-279 | the comparison computed by the method is ComparisonOf the ids, metric and draws; the metric defaults to "uptime" |
| Conditional.FiredMembers | capstone_project/app/ml_agent.py:171-199 | an item is listed by a series of guarded appends exactly when some guard for it holds |
| Conditional.FiredIncreasing | capstone_project/app/ml_agent.py:171-199 | guarded appends made in a fixed order list their items in that order, so at most one item per check |
| KafkaProducer.RandBelow | capstone_project/data_engineering/streaming_pipeline/kafka_producer.py:159 | the drawn index is below the number of choices |
| KafkaProducer.RandInt | capstone_project/data_engineering/streaming_pipeline/kafka_producer.py:169 | `randint(lo, hi)` lies within lo..hi, both ends included |
| KafkaProducer.InitializeEquipment | capstone_project/data_engineering/streaming_pipeline/kafka_producer.py:57-100 | the fleet has five machines and their ids are pairwise distinct |
| KafkaProducer.MultiplierRanges | capstone_project/data_engineering/streaming_pipeline/kafka_producer.py:109-129 | a normal reading varies each quantity within ±5 %; a high-temperature anomaly raises temperature by 15-30 %, a high-vibration one vibration by 30-50 %, a pressure drop lowers pressure by 15-30 %, with the other two factors in the source's ranges |
| KafkaProducer.GenerateSensorData | capstone_project/data_engineering/streaming_pipeline/kafka_producer.py:102-144 | the reading copies the machine's id, type and plant; it is an anomaly iff the first draw is below 0.05; temperature, vibration and pressure are the normal values times the multipliers for that case; humidity lies in 40..60 and power in 10..50 |
| KafkaProducer.StatusOf | capstone_project/data_engineering/streaming_pipeline/kafka_producer.py:149-159 | running iff the draw is below 0.85, idle iff it is in [0.85, 0.95), error iff it is at least 0.95 |
| KafkaProducer.StatusMonotone | capstone_project/data_engineering/streaming_pipeline/kafka_producer.py:149-159 | a larger draw never gives a healthier status |
| KafkaProducer.GenerateStatusEvent | capstone_project/data_engineering/streaming_pipeline/kafka_producer.py:146-172 | the event copies the machine's fields; its status follows the draw; an error code is present iff the status is error, and is one of E001-E004; uptime lies in 0..168 hours and cycles in 0..1000 |
| KafkaProducer.GenerateQualityMetric | capstone_project/data_engineering/streaming_pipeline/kafka_producer.py:174-201 | good iff the draw is below 0.80, minor defect iff in [0.80, 0.95), major iff at least 0.95; no defects iff good, 1-3 for a minor and 4-10 for a major defect; the inspection passes iff good; throughput lies in 50..200 and the batch id is "BATCH-" and a number drawn from 1000..9999 |
| KafkaProducer.QualityMonotone | capstone_project/data_engineering/streaming_pipeline/kafka_producer.py:177-187 | a larger quality draw never gives a better status, and a strictly worse status always carries strictly more defects |
| KafkaProducer.UnitMessages | capstone_project/data_engineering/streaming_pipeline/kafka_producer.py:217-245 | one machine's turn sends one to three messages |
| KafkaProducer.UnitMessageKeys | capstone_project/data_engineering/streaming_pipeline/kafka_producer.py:217-245 | every message of a machine's turn is keyed by its id |
| KafkaProducer.UnitMessagesShape | capstone_project/data_engineering/streaming_pipeline/kafka_producer.py:217-245 | a machine's turn starts with its sensor reading, sends nothing else to the sensor topic, sends a status event iff the 30 % draw succeeds and a quality inspection iff the 10 % draw succeeds |
| KafkaProducer.SensorMessagesConcat | capstone_project/data_engineering/streaming_pipeline/kafka_producer.py:216-251 | the sensor-topic messages of two runs of messages are those of each, in order |
| KafkaProducer.UnitSensorMessages | capstone_project/data_engineering/streaming_pipeline/kafka_producer.py:219-225 | a machine's turn sends exactly one message to the sensor topic |
| KafkaProducer.SensorTopicAbsent | capstone_project/data_engineering/streaming_pipeline/kafka_producer.py:228-245 | a run with no sensor-topic message contributes none |
| KafkaProducer.RoundSensorMessages | capstone_project/data_engineering/streaming_pipeline/kafka_producer.py:216-251 | each round sends exactly one sensor reading per machine, in fleet order, keyed by its id and generated from its draws |
| KafkaProducer.Ids | capstone_project/data_engineering/streaming_pipeline/kafka_producer.py:217 | the ids are the fleet's ids, in order |
| KafkaProducer.RoundMessageKeys | capstone_project/data_engineering/streaming_pipeline/kafka_producer.py:216-251 | every message of a round is keyed by the id of a machine of the fleet |
| KafkaProducer.ManufacturingDataProducer.constructor | capstone_project/data_engineering/streaming_pipeline/kafka_producer.py:57-100 | a new producer holds the five-machine fleet and has sent nothing |
| KafkaProducer.ManufacturingDataProducer.SendUnit | capstone_project/data_engineering/streaming_pipeline/kafka_producer.py:217-245 | the fleet is unchanged and the log grows by exactly that machine's messages |
| KafkaProducer.ManufacturingDataProducer.ProduceRound | capstone_project/data_engineering/streaming_pipeline/kafka_producer.py:216-251 | the fleet is unchanged and the log grows by exactly the round's messages, machine by machine |
| KafkaConsumer.ProcessedRecord | capstone_project/data_engineering/streaming_pipeline/kafka_consumer.py:53-68 | a record is accepted iff its value decodes to a JSON object; the result then has exactly the object's keys plus kafka_topic, kafka_partition, kafka_offset and consumed_at, holding the message's topic name, partition, offset and the consumption time, and every other key keeps its decoded value |
| KafkaConsumer.MetadataKeysDistinct | capstone_project/data_engineering/streaming_pipeline/kafka_consumer.py:60-63 | the four metadata keys are pairwise distinct, so none of the four assignments overwrites another |
| KafkaConsumer.Crosses | capstone_project/data_engineering/streaming_pipeline/kafka_consumer.py:182-200 | a reading that is not a number (bool counts as one) raises TypeError; otherwise the result is the strict comparison above (temperature, vibration) or below (pressure) the threshold |
| KafkaConsumer.CheckRuleFires | capstone_project/data_engineering/streaming_pipeline/kafka_consumer.py:182-207 | when a rule block does not raise, it records an alert iff the reading is present, numeric and strictly crosses `alert_threshold.get(key, default)`, and the alert carries the rule's kind, that threshold and the reading |
| KafkaConsumer.AlertsShape | capstone_project/data_engineering/streaming_pipeline/kafka_consumer.py:181-207 | at most three alerts, in the order temperature, vibration, pressure; each kind present iff its reading crosses its threshold, with the defaults 100, 10 and 20, and recorded with the threshold the comparison used |
| KafkaConsumer.AlertsDefined | capstone_project/data_engineering/streaming_pipeline/kafka_consumer.py:181-207 | numeric (or absent) readings in a record that has equipment_id and timestamp never make the corrected alert computation raise |
| KafkaConsumer.WrittenAlertsAgree | capstone_project/data_engineering/streaming_pipeline/kafka_consumer.py:182-207 | whenever the source's alert computation succeeds it equals the corrected one, and with all three thresholds configured the two always coincide |
| KafkaConsumer.WrittenAlertsMissingThreshold | capstone_project/data_engineering/streaming_pipeline/kafka_consumer.py:182-189 | with thresholds only for vibration and pressure, a temperature of 120 crosses the default 100 and the source raises KeyError('temperature') while recording the alert; the corrected computation returns the one alert with threshold 100 |
| KafkaConsumer.AnalyzeStep | capstone_project/data_engineering/streaming_pipeline/kafka_consumer.py:171-219 | total_messages grows by one and anomalies_detected by one iff is_anomaly is truthy, even when the alert computation raises; the call raises iff the alert computation does; otherwise the result lists the alerts, has_alerts iff there is one, alerts_triggered grows by their number and the returned stats are the new counters |
| KafkaConsumer.AnalyzeStepConsistent | capstone_project/data_engineering/streaming_pipeline/kafka_consumer.py:165-210 | the counters never record more anomalies than messages nor more than three alerts per message, whatever the analyzed record |
| KafkaConsumer.RealTimeAnalyzer.constructor | capstone_project/data_engineering/streaming_pipeline/kafka_consumer.py:156-169 | the analyzer keeps the given thresholds and starts with all three counters at zero |
| KafkaConsumer.RealTimeAnalyzer.Analyze | capstone_project/data_engineering/streaming_pipeline/kafka_consumer.py:171-219 | the result and the new counters are those of AnalyzeStep on the old counters |
| KafkaConsumer.FlattenConcat | capstone_project/data_engineering/streaming_pipeline/kafka_consumer.py:132-147 | the records written for a topic by two runs of writes are those of each, in order |
| KafkaConsumer.Accepted | capstone_project/data_engineering/streaming_pipeline/kafka_consumer.py:107-125 | no more records are accepted than polls were made |
| KafkaConsumer.FlushedOverSnoc | capstone_project/data_engineering/streaming_pipeline/kafka_consumer.py:145-147 | flushing one more topic adds that topic's buffer to what is written for it and nothing to any other topic |
| KafkaConsumer.FlattenFlushedThree | capstone_project/data_engineering/streaming_pipeline/kafka_consumer.py:145-147 | flushing three distinct topics writes exactly each one's buffer for it |
| KafkaConsumer.FlattenFlushed | capstone_project/data_engineering/streaming_pipeline/kafka_consumer.py:144-147 | the final flush writes each topic's buffer, and nothing else, for that topic |
| KafkaConsumer.FlattenSingle | capstone_project/data_engineering/streaming_pipeline/kafka_consumer.py:132-134 | a single write contributes its records to its own topic only |
| KafkaConsumer.RowsForSnoc | capstone_project/data_engineering/streaming_pipeline/kafka_consumer.py:123-124 | buffering one more record adds it to its own topic only |
| KafkaConsumer.AcceptedStep | capstone_project/data_engineering/streaming_pipeline/kafka_consumer.py:107-125 | one more poll adds its processed record iff it is a record that decodes to an object |
| KafkaConsumer.AnnotatedStep | capstone_project/data_engineering/streaming_pipeline/kafka_consumer.py:121-124 | one more poll keeps the buffered records in step with the accepted ones, each equal to it or, for a sensor record of the analytics consumer, to it with its analysis_result added |
| KafkaConsumer.FlattenTopicStep | capstone_project/data_engineering/streaming_pipeline/kafka_consumer.py:121-134 | buffering one record and writing out full batches keeps, for one topic, written records followed by the buffer equal to the start buffer followed by the records taken |
| KafkaConsumer.FlattenStep | capstone_project/data_engineering/streaming_pipeline/kafka_consumer.py:121-134 | the same for every topic at once |
| KafkaConsumer.FinalFlush | capstone_project/data_engineering/streaming_pipeline/kafka_consumer.py:143-147 | after the final flush every record taken is written exactly once, in order, after what the buffers held at the start |
| KafkaConsumer.ManufacturingDataConsumer.constructor | capstone_project/data_engineering/streaming_pipeline/kafka_consumer.py:46-51 | three empty buffers, nothing written; an analyzer iff the analytics variant is built, with the thresholds 80, 4 and 25 of lines 229-233 and zero counters |
| KafkaConsumer.ManufacturingDataConsumer.WriteToStorage | capstone_project/data_engineering/streaming_pipeline/kafka_consumer.py:70-91 | an empty list writes nothing; any other list is written as one batch of its topic; the buffers do not change |
| KafkaConsumer.ManufacturingDataConsumer.ProcessMessage | capstone_project/data_engineering/streaming_pipeline/kafka_consumer.py:235-248 | the plain consumer returns the processed record; the analytics consumer does the same for anything but a decoded sensor record, leaving its counters alone; for a decoded sensor record it runs the analysis, propagating its exception, and returns the record with analysis_result added |
| KafkaConsumer.ManufacturingDataConsumer.Buffer | capstone_project/data_engineering/streaming_pipeline/kafka_consumer.py:123-134 | the record is appended to its topic's buffer; a buffer reaching 100 records is written as one batch and emptied; every buffer stays below 100 records |
| KafkaConsumer.ManufacturingDataConsumer.FlushAll | capstone_project/data_engineering/streaming_pipeline/kafka_consumer.py:144-147 | every non-empty buffer is written as one batch, in topic order; the buffers are left as they are |
| KafkaConsumer.ManufacturingDataConsumer.HandleRecord | capstone_project/data_engineering/streaming_pipeline/kafka_consumer.py:120-134 | an exception leaves buffers and storage alone; otherwise a record is buffered iff it decodes to an object, annotated as ProcessMessage says, with full buffers written out |
| KafkaConsumer.ManufacturingDataConsumer.ConsumeStep | capstone_project/data_engineering/streaming_pipeline/kafka_consumer.py:107-134 | an empty poll or an error event moves the loop on without buffering; a record is handled as in RecordStep |
| KafkaConsumer.ManufacturingDataConsumer.RecordStep | capstone_project/data_engineering/streaming_pipeline/kafka_consumer.py:120-134 | a record either raises, leaving the loop state as it was, or moves the loop on by one poll, buffering at most one record |
| KafkaConsumer.ManufacturingDataConsumer.ConsumeLoop | capstone_project/data_engineering/streaming_pipeline/kafka_consumer.py:102-139 | the loop keeps every taken record either written in a full batch or buffered; it stops when the polls end, when processing raises, or right after the first record poll whose count reaches a truthy max_messages, and no earlier record poll reached it; it never takes more than a positive max_messages records |
| KafkaConsumer.NegativeMaxFirstRecord | capstone_project/data_engineering/streaming_pipeline/kafka_consumer.py:136-138 | with a negative max_messages the limit is reached at once, so a run not stopped before a poll saw no record before it: consumption ends right after the first record poll |
| KafkaConsumer.ManufacturingDataConsumer.Consume | capstone_project/data_engineering/streaming_pipeline/kafka_consumer.py:93-150 | after the final flush every accepted record (annotated for the analytics consumer) is written exactly once, in topic order, in full batches of 100 inside the loop and the rest at the end; consumption stops at the end of the polls, on an exception from a sensor record of the analytics consumer, or right after the first record poll whose count reaches a truthy max_messages (no earlier record poll reached it); max_messages defaults to no limit |
| Notebooks.Without | scripts/update_notebooks_to_hf.py:101 | removing a character never lengthens a text, and strictly shortens one that contains it |
| Notebooks.ConcatSplit | scripts/update_notebooks_to_hf.py:101 | joining the pieces of a split with '' gives the text with every separator removed |
| Notebooks.WrittenSourceLosesBreaks | scripts/update_notebooks_to_hf.py:101 | as written (here and at line 146), a rewritten text that contains a line break is stored as pieces that read back (joined with '', as at line 76) without its line breaks, so not as the text |
| Notebooks.WrittenSourceExample | scripts/update_notebooks_to_hf.py:101 | as written, "a\\nb" is stored as ["a", "b"] and reads back as "ab" |
| Notebooks.SplitAround | scripts/update_notebooks_to_hf.py:101 | splitting x, separator, y at the separator gives the two one-character pieces |
| Notebooks.WithEnds | scripts/update_notebooks_to_hf.py:101 | putting the separator back after each piece but the last keeps the number of pieces |
| Notebooks.ConcatWithEnds | scripts/update_notebooks_to_hf.py:76 | the pieces with their separators put back, joined with '', are the pieces joined with the separator |
| Notebooks.SourceLinesRoundTrip | scripts/update_notebooks_to_hf.py:101 | corrected: a text stored as lines that keep their line ends reads back as the same text, and a text without a line break is stored as the one-element list, as the source does |
| Notebooks.AddMaxTokens | scripts/update_notebooks_to_hf.py:139-143 | when the text has no max_new_tokens, constructs HuggingFaceEndpoint( and, stripped, ends with ')', the trailing ')', line breaks and spaces are replaced by ",\\n    max_new_tokens=512\\n)"; otherwise the text is unchanged |
| Notebooks.AddMaxTokensIdempotent | scripts/update_notebooks_to_hf.py:139-143 | after the step the text holds max_new_tokens and ends with ')', and applying the step again changes nothing |
| Notebooks.RewriteCell | scripts/update_notebooks_to_hf.py:72-146 | the cell's type and other fields are kept; a cell neither importing nor constructing ChatOpenAI is unchanged; an import cell's text has every import of ChatOpenAI replaced by the HuggingFaceEndpoint import (and nothing else, even when it also constructs the model); otherwise a constructor cell's text is the parameter rewrites followed by the token-limit step |
| Notebooks.ImportCellRewritten | scripts/update_notebooks_to_hf.py:95-98 | a rewritten import cell holds the HuggingFaceEndpoint import |
| Notebooks.Map | scripts/update_notebooks_to_hf.py:71-148 | the rewritten cells are as many as the cells, each the rewrite of the cell at its position |
| Notebooks.MapConcat | scripts/update_notebooks_to_hf.py:71-148 | rewriting two runs of cells is rewriting each, in order |
| Notebooks.MapSnoc | scripts/update_notebooks_to_hf.py:71-148 | rewriting a run one cell longer appends that cell's rewrite |
| Notebooks.FirstWhere | scripts/update_notebooks_to_hf.py:81-92 | the first import cell is an import cell and no cell before it is one |
| Notebooks.UpdateNotebookCells | scripts/update_notebooks_to_hf.py:53-166 | the notebook is updated iff some cell imports ChatOpenAI; then the new cells are the rewritten cells in their order with the note and the setup cell inserted once, just before the first import cell, so removing those two gives back exactly the rewritten cells; otherwise nothing is written |
| Notebooks.RewriteCells | scripts/update_notebooks_to_hf.py:65-152 | the loop reports whether a cell passes the import test; without one the cells are each rewritten; with one the result is the rewritten cells with the note and the setup cell inserted once, just before the first such cell |
| Notebooks.RewriteStep | scripts/update_notebooks_to_hf.py:71-148 | one turn of the loop keeps its state in step: found iff a cell so far passed the test, and the cells so far rewritten with the two cells inserted before the first match |
| Notebooks.RewriteDone | scripts/update_notebooks_to_hf.py:150-152 | at the end of the loop its state is the result RewriteCells promises |
| Notebooks.InsertedMap | scripts/update_notebooks_to_hf.py:84-92 | inserting the note and setup cell at the first match puts them at that position and the next, and leaves the rewritten cells around them |
| Notebooks.Inserted | scripts/update_notebooks_to_hf.py:84-92 | two cells inserted between two runs sit at the boundary, and removing them gives back the two runs |
| Notebooks.HasWhereSnoc | scripts/update_notebooks_to_hf.py:81-82 | after one more cell, a match has been seen iff one had been or this cell matches |
| Notebooks.HasWherePrefix | scripts/update_notebooks_to_hf.py:82-92 | a match among the first cells puts the first match among them |
| Notebooks.FirstWhereAt | scripts/update_notebooks_to_hf.py:85-92 | with no match so far, a matching cell is the first match |
| Notebooks.LoopStep | scripts/update_notebooks_to_hf.py:71-148 | the facts one turn of the loop needs: the found flag, the rewritten prefix and, once found, the position of the first match and the rewritten cells after it |

## Left out

- HTTP transport, routing, middleware, request ids and timing around the endpoints are not modelled. They are I/O and the clock.
- ApiModels: `\w` in the plant id pattern is read as ASCII letters, digits and `_`. Unicode word characters are not modelled.
- Feedback: the request object, the `BIGQUERY_TABLE` variable and the warehouse client are parameters. The JSON literal `true` passes the rating check, as in the source, because a bool is an int there.
- DeployCloudRun: running `gcloud` through `subprocess`, and printing the command, are not modelled. The model ends at the argument list.
- PromptLint: finding files with `rglob` and YAML parsing are not modelled. Each file arrives as loaded, unparsable or unreadable.
- PromptLint: the branch for a missing directory is not modelled. `rglob` on a missing directory yields no files rather than raising, so the model treats it as an empty file list.
- TrainModel: fitting, scaling, metrics, `predict_proba`, synthetic data generation, and saving or loading with joblib and JSON are not modelled. The trained classifier is a function from a feature vector to a probability.
- TrainModel.PredictiveMaintenanceModel.Predict: the "Missing features: {…}" message lists the missing names in feature-name order. A Python set prints in hash order, which is not modelled.
- TrainModel.PredictiveMaintenanceModel.Predict: a frame with no rows gives empty predictions. The classifier's refusal of an empty array is not modelled.
- TrainModel.PredictiveMaintenanceModel.Train: states only the feature-name bookkeeping and the engineered frame. It says nothing about the fitted classifier or its evaluation metrics.
- MlAgent: the async and thread-pool bridging in the graph node is not modelled, nor the module-level agent built when the module is imported.
- MlAgent: messages with formatted numbers (`:.1f`, `:.1%`) are tags carrying the numbers. Float formatting and IEEE rounding are not modelled; all readings are reals.
- Analytics: `calculate_kpis` and `analytics_agent_node` are not modelled. They are random KPI values and the async graph bridge.
- Analytics: the warehouse query is not modelled. The trend changes and current-period averages arrive as reals instead of being computed from the synthetic `linspace` history.
- Analytics.MockPerformanceTrend: the current metrics and the changes are reals. Their formatting (`:.1f`, `:.2f`, `:+.1f`, the units and "vs previous period") is not modelled.
- Analytics.ComparisonOf: the summary's `std_deviation` is not computed, because reals have no square root here. The comparison carries the population variance it is the square root of.
- Analytics.CompareEquipment: returns the corrected best and worst performers, the dictionary keys at the extreme positions (see Findings). The source's `equipment_ids[idx]` is modelled separately as WrittenPerformers; the two agree whenever the ids are distinct (WrittenPerformersDistinct).
- KafkaProducer: the Kafka client, topic creation, the delivery callback, `flush`, `sleep` and the clock are not modelled. Messages are appended to a log, and each draw is a parameter, as is each payload's own clock reading.
- KafkaProducer: `round(…, 2)` on readings and JSON encoding are not modelled. Readings are exact reals.
- KafkaProducer.ManufacturingDataProducer.ProduceRound: models one pass of the endless `while True` loop, not the loop itself or its interruption.
- KafkaConsumer: the Kafka client, logging, the `message_count % 10` progress messages, `datetime.utcnow()` and the parquet files are not modelled. Polls are an input sequence whose end stands for the keyboard interrupt, and each parquet write is a batch appended to a log.
- KafkaConsumer: a failing parquet write (an exception caught and logged inside `write_to_storage`) is not modelled. Every non-empty write is recorded as a batch.
- KafkaConsumer.RealTimeAnalyzer.Analyze: reads each alert's threshold with the same default as its guard, the corrected behaviour (see Findings). With a threshold missing from the dictionary the source raises KeyError once that reading exceeds the default; this is modelled separately as WrittenAlerts, and the two agree whenever all three thresholds are present (WrittenAlertsAgree).
- KafkaConsumer.AnalyzeStep: uses the corrected alerts, like RealTimeAnalyzer.Analyze. The consumer's own analyzer is built with all three thresholds, so for it the corrected and the as-written alerts agree (WrittenAlertsAgree).
- KafkaConsumer.ManufacturingDataConsumer.Consume: describes the closing of the Kafka consumer only as the end of consumption. The buffers the final flush writes are left as they were, as in the source.
- Notebooks: reading and writing notebook files, `glob`, the `main` driver and the printed messages are not modelled. The pass works on the in-memory cells and reports whether the notebook would be written.
- Notebooks: the in-place mutation of each cell's `source` is modelled by returning the rewritten cell, so aliasing between the input and the output cell list is not captured.
- Notebooks.RewriteCell: a cell source that is neither a list nor a string is not modelled, nor a cell without a `source` key. Such a cell is read as having an empty list, and a rewritten cell always carries the key.
- Notebooks.RewriteCell: stores a rewritten text with its line ends kept, the corrected behaviour (see Findings). The source's split is modelled separately as WrittenSourceLines.
- Notebooks.RewriteCell: no lemma states that `ChatOpenAI(` or `model=` is gone after a constructor cell is rewritten. The contract ties the text to the sequence of replacements and the token-limit step only.

## Findings

| source | as written | input that shows it | evidently intended | confidence | as-written member | corrected member |
|---|---|---|---|---|---|---|
| capstone_project/data_engineering/streaming_pipeline/kafka_consumer.py:182-207 | the comparison reads the threshold with `alert_threshold.get(key, default)`, but the alert record reads it with `alert_threshold[key]` | thresholds {vibration: 5, pressure: 30} and a record with temperature 120: the default 100 is crossed and recording the alert raises KeyError('temperature') | the alert records the threshold the comparison used, so a missing threshold falls back to its default | not executed | KafkaConsumer.WrittenAlertsMissingThreshold | KafkaConsumer.AlertsShape |
| scripts/update_notebooks_to_hf.py:101 | a rewritten source is stored as `new_source.split('\n')` (here and again at line 146), which drops the line breaks; a notebook joins its source lines with '' | a cell whose rewritten text is "a\nb" is stored as ["a", "b"] and reads back as "ab" | the lines keep their line ends, as notebooks store them, so the cell reads back as the rewritten text | not executed | Notebooks.WrittenSourceLosesBreaks | Notebooks.SourceLinesRoundTrip |
| capstone_project/app/analytics_agent.py:260-265 | the argmax and argmin over the dictionary's values index `equipment_ids`, whose positions differ from the dictionary's once an id repeats | ids A, A, B on "uptime" with draws 85, 85, 90: the largest value belongs to B, but position 1 of the id list is A | the best and worst performers are the ids holding the extreme values | not executed | Analytics.WrittenPerformersRepeatedId | Analytics.ComparisonSummary |
