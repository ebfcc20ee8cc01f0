/** The `ingest_feedback` HTTP function: a chain of guards on the request,
    then one row handed to the warehouse client. The request method, the
    decoded JSON body, the `BIGQUERY_TABLE` setting and the client's list of
    insert errors are parameters. */
module Feedback {
  import opened Values

  datatype Body = Text(text: string) | Json(json: Value)

  datatype Response = Response(body: Body, status: int)

  /** The call made on the warehouse client: target table and rows. */
  datatype InsertCall = InsertCall(table: string, rows: seq<map<string, Value>>)

  /** What one invocation does: its response, and the insert it made if any. */
  datatype Outcome = Outcome(response: Response, inserted: Option<InsertCall>)

  const RequiredFields: seq<string> := ["user_id", "request_id", "rating", "agent_name"]

  const MethodNotAllowed := Response(Text("Only POST requests are accepted"), 405)
  const InvalidJson := Response(Text("Invalid JSON"), 400)
  const MissingFields := Response(Text("Missing one or more required fields: ['user_id', 'request_id', 'rating', 'agent_name']"), 400)
  const BadRating := Response(Text("Field 'rating' must be an integer between 1 and 5."), 400)
  const TableNotConfigured := Response(Text("Internal server error: BigQuery table not configured."), 500)
  const SaveFailed := Response(Text("Failed to save feedback."), 500)
  const Success := Response(Json(Dict(map["status" := Str("success")])), 200)
  /** What the web framework answers when the function raises. */
  const UncaughtException := Response(Text("Internal Server Error"), 500)

  /** `isinstance(v, int) and 1 <= v <= 5`; a JSON `true` is the int 1. */
  predicate RatingAccepted(v: Value) {
    (v.Int? && 1 <= v.i <= 5) || v == Bool(true)
  }

  /** `all(field in request_json for field in required_fields)`, which
      stops at the first absent field or raises on a non-container body. */
  function AllRequiredPresent(body: Value, fields: seq<string>): (r: Result<bool, PyError>)
    ensures body.Dict? ==> r == Ok(forall f :: f in fields ==> f in body.entries)
    ensures r.Ok? ==> r.value == (forall f :: f in fields ==> In(f, body) == Ok(true))
    ensures r.Err? <==> fields != [] && !(body.Dict? || body.List? || body.Str?)
    decreases |fields|
  {
    if fields == [] then Ok(true)
    else
      match In(fields[0], body)
      case Err(e) => Err(e)
      case Ok(present) => if !present then Ok(false) else AllRequiredPresent(body, fields[1..])
  }

  /** The row written for an accepted request. */
  function FeedbackRow(entries: map<string, Value>): (row: map<string, Value>)
    requires forall f :: f in RequiredFields ==> f in entries
    ensures row.Keys == {"user_id", "request_id", "rating", "agent_name", "feedback_text", "timestamp"}
    ensures forall f :: f in RequiredFields ==> row[f] == entries[f]
    ensures row["feedback_text"] == (if "feedback_text" in entries then entries["feedback_text"] else Null)
    ensures row["timestamp"] == Str("AUTO")
  {
    map["user_id" := entries["user_id"], "request_id" := entries["request_id"],
        "rating" := entries["rating"], "agent_name" := entries["agent_name"],
        "feedback_text" := Get(entries, "feedback_text", Null),
        "timestamp" := Str("AUTO")]
  }

  /** `ingest_feedback(request)`. `json` is `request.get_json(silent=True)`
      (None when the body is not JSON), `tableId` the `BIGQUERY_TABLE`
      setting, `insertErrors` what the client's `insert_rows_json` returns. */
  function IngestFeedback(httpMethod: string, json: Option<Value>, tableId: Option<string>,
                          insertErrors: seq<Value>): (o: Outcome)
    // the guards, in order; the first that fails decides the response
    ensures httpMethod != "POST" ==> o == Outcome(MethodNotAllowed, None)
    ensures httpMethod == "POST" && (json.None? || !Truthy(json.value)) ==> o == Outcome(InvalidJson, None)
    ensures httpMethod == "POST" && json.Some? && json.value.Dict? && json.value.entries != map[]
            && !(forall f :: f in RequiredFields ==> f in json.value.entries)
            ==> o == Outcome(MissingFields, None)
    ensures httpMethod == "POST" && json.Some? && json.value.Dict? && json.value.entries != map[]
            && (forall f :: f in RequiredFields ==> f in json.value.entries)
            && !RatingAccepted(json.value.entries["rating"])
            ==> o == Outcome(BadRating, None)
    ensures httpMethod == "POST" && json.Some? && json.value.Dict?
            && (forall f :: f in RequiredFields ==> f in json.value.entries)
            && RatingAccepted(json.value.entries["rating"])
            && (tableId.None? || tableId.value == "")
            ==> o == Outcome(TableNotConfigured, None)
    // a truthy body that is not an object: a list or string lacking one of
    // the field names fails the field check; one holding them all raises at
    // `request_json['rating']`, and any other value raises at `in`
    ensures httpMethod == "POST" && json.Some? && Truthy(json.value) && !json.value.Dict? ==>
      o == (if (json.value.List? || json.value.Str?)
               && exists f :: f in RequiredFields && In(f, json.value) == Ok(false)
            then Outcome(MissingFields, None)
            else Outcome(UncaughtException, None))
    // a row is written exactly when every guard passes
    ensures o.inserted.Some? <==>
      httpMethod == "POST" && json.Some? && json.value.Dict?
      && (forall f :: f in RequiredFields ==> f in json.value.entries)
      && RatingAccepted(json.value.entries["rating"])
      && tableId.Some? && tableId.value != ""
    ensures o.inserted.Some? ==>
      o.inserted.value == InsertCall(tableId.value, [FeedbackRow(json.value.entries)])
    ensures o.response.status == 200 <==> o.inserted.Some? && insertErrors == []
    ensures o.response.status == 200 ==> o.response == Success
    ensures o.inserted.Some? && insertErrors != [] ==> o.response == SaveFailed
  {
    if httpMethod != "POST" then Outcome(MethodNotAllowed, None)
    else if json.None? || !Truthy(json.value) then Outcome(InvalidJson, None)
    else
      var body := json.value;
      match AllRequiredPresent(body, RequiredFields)
      case Err(_) => Outcome(UncaughtException, None)
      case Ok(present) =>
        if !present then Outcome(MissingFields, None)
        else
          match Subscript(body, "rating")
          case Err(_) => Outcome(UncaughtException, None)
          case Ok(rating) =>
            if !RatingAccepted(rating) then Outcome(BadRating, None)
            else if tableId.None? || tableId.value == "" then Outcome(TableNotConfigured, None)
            else
              var call := InsertCall(tableId.value, [FeedbackRow(body.entries)]);
              if insertErrors != [] then Outcome(SaveFailed, Some(call))
              else Outcome(Success, Some(call))
  }

  /** An empty JSON object is rejected as invalid JSON, and a well-formed
      request with an unset table is answered 500 without writing. */
  lemma FeedbackGuardExamples(entries: map<string, Value>)
    requires forall f :: f in RequiredFields ==> f in entries
    requires entries["rating"] == Int(4)
    ensures IngestFeedback("POST", Some(Dict(map[])), Some("t"), []) == Outcome(InvalidJson, None)
    ensures IngestFeedback("GET", Some(Dict(entries)), Some("t"), []) == Outcome(MethodNotAllowed, None)
    ensures IngestFeedback("POST", Some(Dict(entries)), None, []) == Outcome(TableNotConfigured, None)
    ensures IngestFeedback("POST", Some(Dict(entries)), Some("t"), []).response == Success
  {
    assert "user_id" in entries;
  }

  /** Bodies that are not JSON objects: a list naming every field raises
      when the rating is read, a list lacking a field is refused with 400,
      and a number raises at the field check. */
  lemma FeedbackNonObjectExamples()
    ensures IngestFeedback("POST", Some(List([Str("user_id"), Str("request_id"), Str("rating"), Str("agent_name")])),
                           Some("t"), []) == Outcome(UncaughtException, None)
    ensures IngestFeedback("POST", Some(List([Str("rating")])), Some("t"), []) == Outcome(MissingFields, None)
    ensures IngestFeedback("POST", Some(Int(3)), Some("t"), []) == Outcome(UncaughtException, None)
  {
    assert In("user_id", List([Str("rating")])) == Ok(false);
  }
}
