/** Classification of the HTTP status of the feed response (`_check_status`). */
module Status {
  import opened Wrappers
  import opened Values

  /** The parts of a `requests` response the classifier reads. */
  datatype Response = Response(status: int, text: string, content: string)

  /** The RuntimeError `_check_status` raises, one constructor per branch. */
  datatype StatusError =
    | BadRequest(message: Option<Value>)      // 400; None when the body has no readable `message`
    | Unauthorized                            // 401
    | NotFound                                // 404
    | Timeout                                 // 408
    | Unprocessable(message: Option<Value>)   // 422; None as for 400
    | RateLimited                             // 429
    | Busy                                    // 500-504
    | Unknown(content: string)                // any other code that is not the expected one

  const ServerErrors: set<int> := {500, 501, 502, 503, 504}

  /** The codes that raise whatever code is expected, because they are tested first. */
  const Classified: set<int> := {400, 401, 404, 408, 422} + {429} + ServerErrors

  /** `json.loads(text)['message']`, None when either step raises. */
  function ServerMessage(text: string, loads: string -> Option<Value>): (r: Option<Value>)
    ensures r.Some? ==> loads(text).Some? && loads(text).value.Dict? && "message" in loads(text).value.entries
  {
    match loads(text)
    case Some(Dict(e)) => if "message" in e then Some(e["message"]) else None
    case _ => None
  }

  /** `_check_status(resp, expect)`: the tests in the order the source makes them. */
  function CheckStatus(resp: Response, expected: int, loads: string -> Option<Value>): (r: Outcome<StatusError>)
    ensures r.Pass? <==> resp.status == expected && resp.status !in Classified
    ensures resp.status in ServerErrors ==> r == Fail(Busy)
    ensures resp.status !in Classified && resp.status != expected ==> r == Fail(Unknown(resp.content))
  {
    if resp.status == 400 then Fail(BadRequest(ServerMessage(resp.text, loads)))
    else if resp.status == 401 then Fail(Unauthorized)
    else if resp.status == 404 then Fail(NotFound)
    else if resp.status == 408 then Fail(Timeout)
    else if resp.status == 422 then Fail(Unprocessable(ServerMessage(resp.text, loads)))
    else if resp.status == 429 then Fail(RateLimited)
    else if resp.status in ServerErrors then Fail(Busy)
    else if resp.status != expected then Fail(Unknown(resp.content))
    else Pass
  }

  /** At the call site (expect=200) the response is accepted exactly when the status is 200. */
  lemma AcceptsOnly200(resp: Response, loads: string -> Option<Value>)
    ensures CheckStatus(resp, 200, loads).Pass? <==> resp.status == 200
  {
  }

  /** Each classified code raises its own error, whatever code is expected. */
  lemma ClassificationTable(resp: Response, expected: int, loads: string -> Option<Value>)
    ensures resp.status == 400 ==> CheckStatus(resp, expected, loads) == Fail(BadRequest(ServerMessage(resp.text, loads)))
    ensures resp.status == 401 ==> CheckStatus(resp, expected, loads) == Fail(Unauthorized)
    ensures resp.status == 404 ==> CheckStatus(resp, expected, loads) == Fail(NotFound)
    ensures resp.status == 408 ==> CheckStatus(resp, expected, loads) == Fail(Timeout)
    ensures resp.status == 422 ==> CheckStatus(resp, expected, loads) == Fail(Unprocessable(ServerMessage(resp.text, loads)))
    ensures resp.status == 429 ==> CheckStatus(resp, expected, loads) == Fail(RateLimited)
  {
  }

  /** The message carried by a 400 or 422 is the body's `message` field when the body is a JSON object that has one. */
  lemma ServerMessageRead(resp: Response, loads: string -> Option<Value>, body: map<string, Value>)
    requires resp.status in {400, 422}
    requires loads(resp.text) == Some(Dict(body)) && "message" in body
    ensures CheckStatus(resp, 200, loads).Fail?
    ensures CheckStatus(resp, 200, loads).error.message == Some(body["message"])
  {
  }
}
