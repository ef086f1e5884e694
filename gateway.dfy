/** The HTTP gateway shared by every request: the server is an oracle, and the
    gateways of the two implementations decide what becomes of its reply.

    The server is a total function from the sequence number of a call and the
    request (endpoint URL and query parameters) to a reply, so that a request
    repeated later (a retry) may be answered differently. A reply is either an
    exception raised while sending the request or decoding the body, or an HTTP
    status with the decoded JSON body. Authentication (HTTP Basic with the token
    as user name) is part of every call and does not change the model. */
module Gateway {
  import opened PyJson

  datatype Request = Request(api: string, params: map<string, Json>)

  datatype Reply = Raised(error: Exc) | Response(status: int, body: Json)

  /** The answer to call number `n` (counting from 0) of the run. */
  type Server = (nat, Request) -> Reply

  /** `req` with the page parameter `p` set, as `{**params, "p": p}` or `params["p"] = p` build it. */
  function WithPage(req: Request, page: int): Request {
    req.(params := req.params["p" := Int(page)])
  }

  /** The text the asynchronous gateway logs for a payload that reports errors:
      `data['errors'][0]['msg']`, whose evaluation may itself raise. */
  function ErrorsMessage(data: Json): Result<Json> {
    var errs :- Index(data, "errors");
    var first :- IndexFirst(errs);
    Index(first, "msg")
  }

  /** `_async_sq_api`: what the asynchronous gateway returns for a reply.
      `Ok(Null)` is its `None`: status 401, any other status but 200, or a
      payload holding `errors`. An exception from the transport, from testing a
      payload that is not a container, or from building the log message of an
      `errors` payload, propagates. */
  function Classify(reply: Reply): (r: Result<Json>)
    ensures reply.Raised? ==> r == Err(reply.error)
    ensures reply.Response? && reply.status != 200 ==> r == Ok(Null)
    ensures r.Ok? && r.value != Null ==>
              reply == Response(200, r.value) && Contains(r.value, "errors") == Ok(false)
    ensures reply.Response? && reply.status == 200 && reply.body.Obj? ==>
              ("errors" in reply.body.fields <==> (r.Err? || r == Ok(Null)))
  {
    match reply
    case Raised(e) => Err(e)
    case Response(status, body) =>
      if status == 401 then Ok(Null)
      else if status != 200 then Ok(Null)
      else
        var hasErrors :- Contains(body, "errors");
        if hasErrors then
          var _ :- ErrorsMessage(body);
          Ok(Null)
        else
          Ok(body)
  }

  /** `_get_issues_batch` / `_get_hotspots_batch`: the listing field of a page,
      `[]` for a falsy (or `None`) payload. */
  function Batch(reply: Reply, field: string): (r: Result<Json>)
    ensures Classify(reply) == Ok(Null) ==> r == Ok(Arr([]))
    ensures Classify(reply).Err? ==> r == Err(Classify(reply).error)
    ensures Classify(reply).Ok? && Classify(reply).value.Obj? ==>
              var o := Classify(reply).value.fields;
              r == Ok(if field in o then o[field] else Arr([]))
  {
    var data :- Classify(reply);
    if Truthy(data) then Get(data, field, Arr([])) else Ok(Arr([]))
  }

  const AuthError := "sonarqube auth error"
  const ApiError := "sonarqube api error"

  /** `sq_api` of the synchronous script: status 401 and any other status but 200
      raise ValueError; otherwise the status and the decoded body are returned. */
  function SqApi(reply: Reply): (r: Result<(int, Json)>)
    ensures reply.Raised? ==> r == Err(reply.error)
    ensures reply.Response? && reply.status == 401 ==> r == Err(Exc(AuthError))
    ensures reply.Response? && reply.status != 401 && reply.status != 200 ==> r == Err(Exc(ApiError))
    ensures r.Ok? <==> reply.Response? && reply.status == 200
    ensures r.Ok? ==> r.value == (200, reply.body)
  {
    match reply
    case Raised(e) => Err(e)
    case Response(status, body) =>
      if status == 401 then Err(Exc(AuthError))
      else if status != 200 then Err(Exc(ApiError))
      else Ok((status, body))
  }

  /** A call of the synchronous gateway that does not raise. */
  predicate Answered(reply: Reply) {
    SqApi(reply).Ok?
  }
}
