/** The API-key gate of the chart service's HTTP surface: the standalone
    authentication endpoint and the wrapper that admits a request to another
    handler only when it carries the configured key. The CORS middleware the
    endpoint awaits first is taken to pass every request through. */
module ApiAuth {
  import opened Wrappers

  /** An incoming request: its HTTP method (absent when unknown) and its
      headers, whose names are lower-case. */
  datatype Request = Request(verb: Option<string>, headers: map<string, string>)

  /** A JSON response: status code and a flat string-valued body. */
  datatype Response = Response(status: nat, body: map<string, string>)

  /** Whether a guarded request reaches the wrapped handler. */
  datatype Admission = Admit | Reject(response: Response)

  const KeyHeader: string := "x-api-key"

  /** The value of the `x-api-key` header, if sent. */
  function ApiKey(req: Request): (k: Option<string>)
    ensures k.Some? <==> KeyHeader in req.headers
    ensures k.Some? ==> k.value == req.headers[KeyHeader]
  {
    if KeyHeader in req.headers then Some(req.headers[KeyHeader]) else None
  }

  /** The authentication endpoint: a non-POST request is refused with 405
      before the key is looked at; a POST without a usable key gets 401; any
      POST carrying a non-empty key succeeds with 200, whatever the key is. */
  function Handler(req: Request): (res: Response)
    ensures res.status == 405 <==> req.verb != Some("POST")
    ensures res.status == 401 <==> req.verb == Some("POST") && !Truthy(ApiKey(req))
    ensures res.status == 200 <==> req.verb == Some("POST") && Truthy(ApiKey(req))
    ensures res.status == 405 ==> res.body == map["message" := "Method not allowed"]
    ensures res.status == 401 ==> res.body == map["message" := "API key required"]
    ensures res.status == 200 ==>
              res.body == map["status" := "success", "message" := "Authentication successful"]
  {
    if req.verb != Some("POST") then
      Response(405, map["message" := "Method not allowed"])
    else if !Truthy(ApiKey(req)) then
      Response(401, map["message" := "API key required"])
    else
      Response(200, map["status" := "success", "message" := "Authentication successful"])
  }

  /** The refusal `withApiAuth` sends. */
  const Unauthorized: Response :=
    Response(401, map["error" := "Unauthorized", "message" := "Invalid or missing API key"])

  /** The admission decision of `withApiAuth`, given the configured key
      (`API_KEY` from the environment, absent when unset): admit exactly the
      requests whose header key is non-empty and equal to the configured one;
      refuse every other with 401 "Unauthorized". The method is not checked. */
  function Gate(configured: Option<string>, req: Request): (a: Admission)
    ensures a.Admit? <==> Truthy(ApiKey(req)) && configured == ApiKey(req)
    ensures a.Reject? ==> a.response == Unauthorized && a.response.status == 401
  {
    var key := ApiKey(req);
    if !Truthy(key) || key != configured then Reject(Unauthorized) else Admit
  }

  /** `withApiAuth(wrapped)` applied to a request: the wrapped handler's
      response when admitted, the 401 refusal otherwise. */
  function WithApiAuth(wrapped: Request -> Response, configured: Option<string>, req: Request): (res: Response)
    ensures Truthy(ApiKey(req)) && configured == ApiKey(req) ==> res == wrapped(req)
    ensures !(Truthy(ApiKey(req)) && configured == ApiKey(req)) ==> res == Unauthorized
  {
    match Gate(configured, req)
    case Admit => wrapped(req)
    case Reject(r) => r
  }

  /** With `API_KEY` unset, or set to the empty string, no request is
      admitted and every one is answered 401. */
  lemma UnsetKeyRejectsAll(configured: Option<string>, wrapped: Request -> Response, req: Request)
    requires !Truthy(configured)
    ensures Gate(configured, req).Reject?
    ensures WithApiAuth(wrapped, configured, req).status == 401
  {
  }

  /** The method check comes first: a non-POST request gets 405 from the
      endpoint whatever its headers hold. */
  lemma MethodCheckedFirst(req: Request, headers: map<string, string>)
    requires req.verb != Some("POST")
    ensures Handler(req) == Handler(Request(req.verb, headers))
    ensures Handler(req).status == 405
  {
  }

  /** The endpoint does not compare keys: two POSTs that both carry a
      non-empty key get the same response. */
  lemma EndpointIgnoresKeyValue(r1: Request, r2: Request)
    requires r1.verb == Some("POST") && r2.verb == Some("POST")
    requires Truthy(ApiKey(r1)) && Truthy(ApiKey(r2))
    ensures Handler(r1) == Handler(r2) && Handler(r1).status == 200
  {
  }

  /** The gate is stricter than the endpoint: a POST the gate admits is one
      the endpoint accepts, and a POST the endpoint refuses for lack of a key
      is one the gate refuses too. */
  lemma GateStricterThanEndpoint(configured: Option<string>, req: Request)
    requires req.verb == Some("POST")
    ensures Gate(configured, req).Admit? ==> Handler(req).status == 200
    ensures Handler(req).status == 401 ==> Gate(configured, req).Reject?
  {
  }
}
