/**
 * The validation branches of the trigger endpoint: answer a CORS preflight,
 * reject an empty or incomplete body and a wrong token, and otherwise submit
 * the request's `pk` for processing.
 */
module Trigger {
  import opened Wrappers
  import opened Json

  /** The shared secret a trigger must present. */
  const AuthToken: string := "lab8token"

  const HttpOk: int := 200
  const BadRequest: int := 400
  const Unauthorized: int := 401
  const ServerError: int := 500

  /** The endpoint accepts only these two methods. */
  datatype Method = Options | Post

  /** The status code of the reply, and the request id handed to the worker, if any. */
  datatype Reply = Reply(status: int, submitted: Option<Value>)

  /**
   * The parsed request body: a JSON object, or some other JSON value that is
   * falsy (`[]`, `""`, `0`, `false`, `null`) or truthy (a non-empty list or
   * string, a non-zero number, `true`).
   */
  datatype Body = Object(fields: map<string, Value>) | Falsy | Truthy

  /**
   * The reply to one request. An empty object and a falsy non-object both fail
   * the emptiness test; a truthy non-object has no `keys`, and the lookup
   * raises into the generic handler, which answers 500.
   */
  function ProcessRequest(verb: Method, body: Body): (r: Reply)
    ensures verb.Options? ==> r == Reply(HttpOk, None)
    ensures r.status in {HttpOk, BadRequest, Unauthorized, ServerError}
    ensures r.status == BadRequest <==>
      verb.Post? && (body.Falsy? ||
        (body.Object? && (body.fields == map[] || "pk" !in body.fields || "token" !in body.fields)))
    ensures r.status == ServerError <==> verb.Post? && body.Truthy?
    ensures r.status == Unauthorized <==>
      verb.Post? && body.Object? && "pk" in body.fields && "token" in body.fields &&
      body.fields["token"] != Str(AuthToken)
    ensures r.submitted.Some? <==>
      verb.Post? && body.Object? && "pk" in body.fields && "token" in body.fields &&
      body.fields["token"] == Str(AuthToken)
    ensures r.submitted.Some? ==> r.status == HttpOk && r.submitted.value == body.fields["pk"]
    ensures r.status != HttpOk ==> r.submitted.None?
  {
    if verb.Options? then Reply(HttpOk, None)
    else if body.Falsy? || body == Object(map[]) then Reply(BadRequest, None)
    else if body.Truthy? then Reply(ServerError, None)
    else if "pk" !in body.fields || "token" !in body.fields then Reply(BadRequest, None)
    else if body.fields["token"] != Str(AuthToken) then Reply(Unauthorized, None)
    else Reply(HttpOk, Some(body.fields["pk"]))
  }
}
