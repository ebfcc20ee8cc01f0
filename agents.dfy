/** The simulated diagnosis workflow behind `POST /v1/diagnose`: a fixed
    vision result, fixed retrieval guidance for the equipment, and a one-line
    incident report built from both. */
module Agents {
  import opened Values
  import opened Strings
  import opened ApiModels

  const SimulatedDefects: seq<string> := ["micro-fracture", "surface-discoloration"]
  const VisionConfidence: real := 0.85
  const CitedDocuments: seq<string> := ["SOP-123", "MAINT-GUIDE-V2"]
  const CopilotConfidence: real := 0.91

  const TorqueStep: string := "2. Verify torque settings on mounting bolts (Ref: SOP-123, Sec 4.2)."
  const EscalationStep: string := "3. Escalate to Level-2 maintenance if vibration exceeds 5mm/s."

  /** The first guidance step, which names the equipment. */
  function CoolantStep(equipmentId: string): (step: string)
    ensures Contains(step, equipmentId)
  {
    ContainsInfix("1. For equipment ", equipmentId, ", inspect the primary coolant line for leaks.");
    "1. For equipment " + equipmentId + ", inspect the primary coolant line for leaks."
  }

  /** The three guidance steps; the first names the equipment. */
  function RecommendedSteps(equipmentId: string): (steps: seq<string>)
    ensures |steps| == 3
    ensures Contains(steps[0], equipmentId)
  {
    [CoolantStep(equipmentId), TorqueStep, EscalationStep]
  }

  /** Text made of seven pieces contains the second, fourth and sixth. */
  lemma ContainsPieces(h: string, e: string, m: string, p: string, f: string, j: string, t: string)
    ensures Contains(h + e + m + p + f + j + t, e)
    ensures Contains(h + e + m + p + f + j + t, p)
    ensures Contains(h + e + m + p + f + j + t, j)
  {
    ContainsInfix(h, e, m + p + f + j + t);
    assert h + e + m + p + f + j + t == h + e + (m + p + f + j + t);
    ContainsInfix(h + e + m, p, f + j + t);
    assert h + e + m + p + f + j + t == (h + e + m) + p + (f + j + t);
    ContainsInfix(h + e + m + p + f, j, t);
  }

  /** The incident report; it names the equipment and the plant and lists
      the defects separated by ", ". */
  function IncidentReport(equipmentId: string, plantId: string, defects: seq<string>): (report: string)
    ensures Contains(report, equipmentId)
    ensures Contains(report, plantId)
    ensures Contains(report, Join(defects, ", "))
  {
    ContainsPieces("Incident Report for ", equipmentId, " at ", plantId, ": Visual inspection found ",
                   Join(defects, ", "), ". Recommended action: Follow RAG guidance.");
    "Incident Report for " + equipmentId + " at " + plantId + ": Visual inspection found "
      + Join(defects, ", ") + ". Recommended action: Follow RAG guidance."
  }

  function StrList(items: seq<string>): (v: Value)
    ensures v.List? && |v.items| == |items|
    ensures forall i :: 0 <= i < |items| ==> v.items[i] == Str(items[i])
  {
    List(seq(|items|, i requires 0 <= i < |items| => Str(items[i])))
  }

  /** A dictionary literal with two distinct keys. */
  function Pair(k0: string, v0: Value, k1: string, v1: Value): (m: map<string, Value>)
    requires k0 != k1
    ensures m.Keys == {k0, k1} && m[k0] == v0 && m[k1] == v1
  {
    map[k0 := v0, k1 := v1]
  }

  lemma SimulatedDefectsJoined()
    ensures Join(SimulatedDefects, ", ") == "micro-fracture" + ", " + "surface-discoloration"
  {
    JoinCons("micro-fracture", ["surface-discoloration"], ", ");
    assert SimulatedDefects[1..] == ["surface-discoloration"];
  }

  /** `run_copilot_inference(payload)`; the request id is the fresh UUID the
      source draws. */
  function RunCopilotInference(payload: DiagnosisRequest, requestId: string): (r: DiagnosisResponse)
    ensures ConfidenceInRange(r.confidenceScore) && r.confidenceScore == CopilotConfidence
    ensures r.requestId == requestId
    ensures r.visionAnalysis.Keys == {"defects_found", "confidence"}
    ensures r.ragGuidance.Keys == {"recommended_steps", "cited_documents"}
    ensures r.visionAnalysis["defects_found"] == StrList(SimulatedDefects)
    ensures r.visionAnalysis["confidence"] == Num(VisionConfidence)
    ensures r.ragGuidance["recommended_steps"] == StrList(RecommendedSteps(payload.equipmentId))
    ensures r.ragGuidance["cited_documents"] == StrList(CitedDocuments)
    ensures Contains(r.generatedReport, payload.equipmentId)
    ensures Contains(r.generatedReport, payload.plantId)
    ensures Contains(r.generatedReport, "micro-fracture" + ", " + "surface-discoloration")
    ensures r.mlPrediction.None? && r.analyticsInsights.None? && r.safetyDisclaimer == SafetyDisclaimer
  {
    assert "defects_found"[0] != "confidence"[0];
    var vision := Pair("defects_found", StrList(SimulatedDefects), "confidence", Num(VisionConfidence));
    assert "recommended_steps"[0] != "cited_documents"[0];
    var rag := Pair("recommended_steps", StrList(RecommendedSteps(payload.equipmentId)),
                    "cited_documents", StrList(CitedDocuments));
    var report := IncidentReport(payload.equipmentId, payload.plantId, SimulatedDefects);
    SimulatedDefectsJoined();
    DiagnosisResponse(requestId, vision, rag, report, CopilotConfidence, None, None, SafetyDisclaimer)
  }

  /** The simulated response passes the response model's own validation. */
  lemma CopilotResponseValidates(payload: DiagnosisRequest, requestId: string)
    ensures var r := RunCopilotInference(payload, requestId);
      NewDiagnosisResponse(r.requestId, r.visionAnalysis, r.ragGuidance, r.generatedReport, r.confidenceScore)
        == Some(r)
  {
  }
}
