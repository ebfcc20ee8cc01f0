/** The header check that guards every API endpoint: `authorize_request`
    accepts `X-Auth-Token` values of the form "Bearer technician-<user id>"
    and hands the user id to the endpoint. */
module Security {
  import opened Values
  import opened Strings

  /** `settings.VALID_AUTH_TOKEN_PREFIX` */
  const ValidAuthTokenPrefix: string := "Bearer technician-"

  const InvalidTokenDetail: string := "Invalid or missing authentication token."
  const MissingUserIdDetail: string := "User ID missing in token."

  /** The `HTTPException` the dependency raises. */
  datatype HttpError = HttpError(statusCode: int, detail: string)

  /** `authorize_request(x_auth_token)`: the user id after the prefix, or the
      401 error that rejects the request. */
  function AuthorizeRequest(token: string): (r: Result<string, HttpError>)
    ensures !StartsWith(token, ValidAuthTokenPrefix) <==> r == Err(HttpError(401, InvalidTokenDetail))
    ensures token == ValidAuthTokenPrefix <==> r == Err(HttpError(401, MissingUserIdDetail))
    ensures r.Ok? <==> StartsWith(token, ValidAuthTokenPrefix) && |token| > |ValidAuthTokenPrefix|
    ensures r.Ok? ==> r.value != "" && ValidAuthTokenPrefix + r.value == token
  {
    if !StartsWith(token, ValidAuthTokenPrefix) then
      Err(HttpError(401, InvalidTokenDetail))
    else
      var userId := RemovePrefix(token, ValidAuthTokenPrefix);
      if userId == "" then Err(HttpError(401, MissingUserIdDetail)) else Ok(userId)
  }

  /** Issuing a token for a user and checking it gives the user back. */
  lemma AuthorizeIssuedToken(userId: string)
    requires userId != ""
    ensures AuthorizeRequest(ValidAuthTokenPrefix + userId) == Ok(userId)
  {
    var token := ValidAuthTokenPrefix + userId;
    assert token[..|ValidAuthTokenPrefix|] == ValidAuthTokenPrefix;
  }

  /** The accepted tokens of the unit tests; a user id that itself begins
      with "technician-" keeps it, as only one prefix is removed. */
  lemma AuthorizeAcceptedExamples()
    ensures AuthorizeRequest("Bearer technician-user123") == Ok("user123")
    ensures AuthorizeRequest(ValidAuthTokenPrefix + "technician-abc-xyz-123") == Ok("technician-abc-xyz-123")
  {
    AuthorizeIssuedToken("user123");
    assert "Bearer technician-user123" == ValidAuthTokenPrefix + "user123";
    AuthorizeIssuedToken("technician-abc-xyz-123");
  }

  /** The wrong-prefix and empty-user tokens of the unit tests. */
  lemma AuthorizeRejectedExamples()
    ensures AuthorizeRequest("InvalidPrefix user123") == Err(HttpError(401, InvalidTokenDetail))
    ensures AuthorizeRequest("Bearer technician-") == Err(HttpError(401, MissingUserIdDetail))
  {
    assert "InvalidPrefix user123"[..|ValidAuthTokenPrefix|] != ValidAuthTokenPrefix by {
      assert "InvalidPrefix user123"[0] != ValidAuthTokenPrefix[0];
    }
  }
}
