/** The request and response schemas of the diagnosis API and the field
    constraints the validation layer enforces on them. */
module ApiModels {
  import opened Values

  // ---------------------------------------------------------------------------
  // plant_id: ^[A-Z]{3,4}-\w{2,3}$
  // ---------------------------------------------------------------------------

  predicate IsUpperLetter(ch: char) {
    'A' <= ch <= 'Z'
  }

  /** `\w`, read as the ASCII word characters. */
  predicate IsWordChar(ch: char) {
    'A' <= ch <= 'Z' || 'a' <= ch <= 'z' || '0' <= ch <= '9' || ch == '_'
  }

  /** `s` is `k` upper-case letters, a hyphen, then 2 or 3 word characters. */
  predicate PlantIdWithPrefix(s: string, k: nat) {
    k < |s| && 2 <= |s| - k - 1 <= 3
    && (forall i :: 0 <= i < k ==> IsUpperLetter(s[i]))
    && s[k] == '-'
    && (forall i :: k < i < |s| ==> IsWordChar(s[i]))
  }

  /** The whole of `s` matches the `plant_id` pattern. */
  predicate IsPlantId(s: string) {
    PlantIdWithPrefix(s, 3) || PlantIdWithPrefix(s, 4)
  }

  /** A plant id has one hyphen, at position 3 or 4, and 6 to 8 characters. */
  lemma PlantIdShape(s: string)
    requires IsPlantId(s)
    ensures 6 <= |s| <= 8
    ensures s[3] == '-' || s[4] == '-'
    ensures forall i :: 0 <= i < |s| && s[i] == '-' ==> i == 3 || i == 4
    ensures forall i, j :: 0 <= i < j < |s| && s[i] == '-' ==> s[j] != '-'
  {
  }

  /** Accepted and rejected plant ids of the unit and API tests. */
  lemma PlantIdExamples()
    ensures IsPlantId("PUNE-IN")
    ensures IsPlantId("MEX-GTO")
    ensures !IsPlantId("invalid-format")
    ensures !IsPlantId("invalid")
  {
    assert PlantIdWithPrefix("PUNE-IN", 4);
    assert PlantIdWithPrefix("MEX-GTO", 3);
    assert !IsUpperLetter("invalid-format"[0]);
    assert !IsUpperLetter("invalid"[0]);
  }

  // ---------------------------------------------------------------------------
  // DiagnosisRequest
  // ---------------------------------------------------------------------------

  datatype DiagnosisRequest = DiagnosisRequest(
    plantId: string,
    equipmentId: string,
    problemDescription: string,
    imageId: Option<string>)

  datatype RequestField = PlantId | EquipmentId | ProblemDescription

  /** One entry of the validation error list: which field, and why. */
  datatype FieldError =
    | Missing(field: RequestField)
    | PatternMismatch(field: RequestField)
    | TooShort(field: RequestField)

  function PlantIdErrors(plantId: Option<string>): seq<FieldError> {
    if plantId.None? then [Missing(PlantId)]
    else if !IsPlantId(plantId.value) then [PatternMismatch(PlantId)]
    else []
  }

  function EquipmentIdErrors(equipmentId: Option<string>): seq<FieldError> {
    if equipmentId.None? then [Missing(EquipmentId)]
    else if |equipmentId.value| < 4 then [TooShort(EquipmentId)]
    else []
  }

  /** Whether a field failed validation, whatever the reason. */
  predicate Names(errors: seq<FieldError>, f: RequestField) {
    exists e :: e in errors && e.field == f
  }

  /** Building a `DiagnosisRequest` from the supplied fields (None = field
      absent): every field is checked and all failures are reported, in the
      order the fields are declared; `image_id` is optional. */
  function ValidateDiagnosisRequest(
    plantId: Option<string>, equipmentId: Option<string>,
    problemDescription: Option<string>, imageId: Option<string>): (r: Result<DiagnosisRequest, seq<FieldError>>)
    ensures r.Ok? <==>
      plantId.Some? && IsPlantId(plantId.value)
      && equipmentId.Some? && |equipmentId.value| >= 4
      && problemDescription.Some?
    ensures r.Ok? ==>
      r.value.plantId == plantId.value && r.value.equipmentId == equipmentId.value
      && r.value.problemDescription == problemDescription.value && r.value.imageId == imageId
    ensures r.Err? ==>
      r.error != []
      && (Names(r.error, PlantId) <==> plantId.None? || !IsPlantId(plantId.value))
      && (Names(r.error, EquipmentId) <==> equipmentId.None? || |equipmentId.value| < 4)
      && (Names(r.error, ProblemDescription) <==> problemDescription.None?)
  {
    var p, e := PlantIdErrors(plantId), EquipmentIdErrors(equipmentId);
    var d := if problemDescription.None? then [Missing(ProblemDescription)] else [];
    var errors := p + e + d;
    if errors == [] then
      Ok(DiagnosisRequest(plantId.value, equipmentId.value, problemDescription.value, imageId))
    else
      assert p != [] ==> p[0] in errors && p[0].field == PlantId;
      assert e != [] ==> e[0] in errors && e[0].field == EquipmentId;
      assert d != [] ==> d[0] in errors && d[0].field == ProblemDescription;
      Err(errors)
  }

  /** The request examples of the unit tests. */
  lemma DiagnosisRequestExamples()
    ensures ValidateDiagnosisRequest(Some("MEX-GTO"), Some("PUMP-B-05"), Some("Unusual vibration detected"), None)
      == Ok(DiagnosisRequest("MEX-GTO", "PUMP-B-05", "Unusual vibration detected", None))
    ensures ValidateDiagnosisRequest(Some("PUNE-IN"), Some("ABC"), Some("Test"), None)
      == Err([TooShort(EquipmentId)])
    ensures ValidateDiagnosisRequest(Some("invalid-format"), Some("CNC-A-102"), Some("Test"), None)
      == Err([PatternMismatch(PlantId)])
    ensures ValidateDiagnosisRequest(None, None, None, None)
      == Err([Missing(PlantId), Missing(EquipmentId), Missing(ProblemDescription)])
  {
    PlantIdExamples();
    assert PlantIdErrors(Some("PUNE-IN")) == [];
    assert PlantIdErrors(Some("MEX-GTO")) == [];
    assert PlantIdErrors(Some("invalid-format")) == [PatternMismatch(PlantId)];
    assert EquipmentIdErrors(Some("ABC")) == [TooShort(EquipmentId)];
    var none: seq<FieldError> := [];
    assert none + [TooShort(EquipmentId)] + none == [TooShort(EquipmentId)];
    assert [PatternMismatch(PlantId)] + none + none == [PatternMismatch(PlantId)];
    assert [Missing(PlantId)] + [Missing(EquipmentId)] + [Missing(ProblemDescription)]
      == [Missing(PlantId), Missing(EquipmentId), Missing(ProblemDescription)];
  }

  // ---------------------------------------------------------------------------
  // DiagnosisResponse and HealthStatus
  // ---------------------------------------------------------------------------

  const SafetyDisclaimer: string :=
    "Always follow standard safety procedures and consult a supervisor if unsure."

  datatype DiagnosisResponse = DiagnosisResponse(
    requestId: string,
    visionAnalysis: map<string, Value>,
    ragGuidance: map<string, Value>,
    generatedReport: string,
    confidenceScore: real,
    mlPrediction: Option<map<string, Value>>,
    analyticsInsights: Option<map<string, Value>>,
    safetyDisclaimer: string)

  /** The constraint on `confidence_score`: between 0 and 1 inclusive. */
  predicate ConfidenceInRange(c: real) {
    0.0 <= c <= 1.0
  }

  /** Building a `DiagnosisResponse` with its optional fields left at their
      defaults: rejected exactly when the confidence is out of [0, 1]. */
  function NewDiagnosisResponse(
    requestId: string, visionAnalysis: map<string, Value>, ragGuidance: map<string, Value>,
    generatedReport: string, confidenceScore: real): (r: Option<DiagnosisResponse>)
    ensures r.Some? <==> ConfidenceInRange(confidenceScore)
    ensures r.Some? ==>
      r.value.confidenceScore == confidenceScore && r.value.generatedReport == generatedReport
      && r.value.visionAnalysis == visionAnalysis && r.value.ragGuidance == ragGuidance
      && r.value.requestId == requestId
      && r.value.mlPrediction.None? && r.value.analyticsInsights.None?
      && r.value.safetyDisclaimer == SafetyDisclaimer
  {
    if ConfidenceInRange(confidenceScore) then
      Some(DiagnosisResponse(requestId, visionAnalysis, ragGuidance, generatedReport,
                             confidenceScore, None, None, SafetyDisclaimer))
    else None
  }

  /** The response examples of the unit tests. */
  lemma DiagnosisResponseExamples()
    ensures NewDiagnosisResponse("12345678-1234-5678-1234-567812345678", map[], map[], "Test", 1.5).None?
    ensures NewDiagnosisResponse("12345678-1234-5678-1234-567812345678", map[], map[], "Test", 0.85).Some?
  {
  }

  datatype HealthStatus = HealthStatus(status: string)

  /** `HealthStatus(...)`: "ok" unless a status is supplied. */
  function NewHealthStatus(status: Option<string>): (h: HealthStatus)
    ensures status.None? ==> h.status == "ok"
    ensures status.Some? ==> h.status == status.value
  {
    HealthStatus(if status.Some? then status.value else "ok")
  }
}
