/**
 * The `analyze-business-plan` serverless function: validate the request, make one call
 * to the language-model gateway, and write the parsed analysis onto the record.
 *
 * The gateway's reply (its status and the outcome of parsing its message as JSON), the
 * environment's variables, the database's answer to the update and the clock are
 * inputs. `Decide` is the straight-line classification of the handler up to its one
 * write; `Serve` performs that write on the table and chooses the final response.
 */
module EnrichmentWorker {
  import opened Wrappers
  import opened AnalysisRecords

  /** The request body after `req.json()` and destructuring; `MalformedBody` is a body
      that does not parse, carrying the message of the error thrown. */
  datatype RequestBody =
    | Fields(analysisId: Option<string>, fileContent: Option<string>)
    | MalformedBody(message: string)

  datatype Request = Request(httpMethod: string, body: RequestBody)

  /** What the handler reads from its environment: the database URL and service key
      (each read as `''` when unset) and the gateway API key. */
  datatype Env = Env(supabaseUrl: Option<string>, serviceRoleKey: Option<string>, apiKey: Option<string>)

  /** The gateway's answer: no answer at all (the fetch rejected), or an HTTP status and
      the outcome of reading `choices[0].message.content` and parsing it as JSON. */
  datatype GatewayReply =
    | Unreachable(message: string)
    | Replied(status: int, parsed: Result<Analysis>)

  /** The one chat-completion request: endpoint, bearer token, model, and the user turn
      that follows the fixed system prompt; the response format is always JSON. */
  datatype GatewayRequest = GatewayRequest(url: string, authorization: string, model: string, userTurn: string)

  datatype ResponseBody = NoBody | ErrorBody(error: string) | SuccessBody(analysis: Analysis)

  datatype Response = Response(status: int, headers: map<string, string>, body: ResponseBody)

  const CorsHeaders: map<string, string> := map[
    "Access-Control-Allow-Origin" := "*",
    "Access-Control-Allow-Headers" := "authorization, x-client-info, apikey, content-type"]

  const JsonHeaders: map<string, string> := CorsHeaders["Content-Type" := "application/json"]

  const GatewayUrl: string := "https://ai.gateway.lovable.dev/v1/chat/completions"
  const GatewayModel: string := "google/gemini-2.5-flash"
  const UserTurnPrefix: string := "Analyze this business plan and provide detailed feedback:\n\n"

  const MissingFields: string := "Missing required fields"
  /** The errors the database client's constructor (supabase-js 2.7.1) throws for an
      empty URL or an empty key. */
  const UrlRequired: string := "supabaseUrl is required."
  const KeyRequired: string := "supabaseKey is required."
  const KeyNotConfigured: string := "LOVABLE_API_KEY not configured"
  const RateLimited: string := "Rate limit exceeded. Please try again later."
  const CreditsDepleted: string := "AI credits depleted. Please add credits to continue."
  const AnalysisFailed: string := "AI analysis failed"
  const UnknownError: string := "Unknown error"

  /** The answer to a pre-flight request: no body, the cross-origin headers, status 200. */
  const PreflightResponse: Response := Response(200, CorsHeaders, NoBody)

  /** `Response.ok`. */
  predicate GatewayOk(status: int) {
    200 <= status <= 299
  }

  /** A JSON error response. */
  function ErrorResponse(status: int, message: string): Response {
    Response(status, JsonHeaders, ErrorBody(message))
  }

  /** The message the catch-all handler reports for a thrown database error. */
  function ThrownMessage(e: DbError): (m: string)
    ensures e.isErrorInstance ==> m == e.message
    ensures !e.isErrorInstance ==> m == UnknownError
  {
    if e.isErrorInstance then e.message else UnknownError
  }

  /** The gateway request for the given key and file text. */
  function GatewayRequestFor(apiKey: string, fileContent: string): (g: GatewayRequest)
    ensures g.url == GatewayUrl && g.model == GatewayModel
    ensures g.authorization == "Bearer " + apiKey
    ensures |g.userTurn| == |UserTurnPrefix| + |fileContent|
    ensures g.userTurn[..|UserTurnPrefix|] == UserTurnPrefix
    ensures g.userTurn[|UserTurnPrefix|..] == fileContent
  {
    GatewayRequest(GatewayUrl, "Bearer " + apiKey, GatewayModel, UserTurnPrefix + fileContent)
  }

  /** The response to a gateway status that is not ok: rate limiting and exhausted credits
      pass through with their own status and message; every other status becomes a 500. */
  function GatewayFailure(status: int): (r: Response)
    requires !GatewayOk(status)
    ensures r.headers == JsonHeaders && r.body.ErrorBody?
    ensures status == 429 <==> r.status == 429
    ensures status == 402 <==> r.status == 402
    ensures status == 429 ==> r.body.error == RateLimited
    ensures status == 402 ==> r.body.error == CreditsDepleted
    ensures status != 429 && status != 402 ==> r == ErrorResponse(500, AnalysisFailed)
  {
    if status == 429 then ErrorResponse(429, RateLimited)
    else if status == 402 then ErrorResponse(402, CreditsDepleted)
    else ErrorResponse(500, AnalysisFailed)
  }

  /** The request passes every check that comes before the gateway call. */
  predicate Accepted(req: Request, env: Env) {
    && req.httpMethod != "OPTIONS"
    && req.body.Fields?
    && Truthy(req.body.analysisId) && Truthy(req.body.fileContent)
    && Truthy(env.supabaseUrl) && Truthy(env.serviceRoleKey)
    && Truthy(env.apiKey)
  }

  /** Where the handler stands when it either has its response or reaches the update:
      the gateway requests made so far are in `calls`. */
  datatype Decision =
    | Respond(response: Response, calls: seq<GatewayRequest>)
    | Commit(id: string, analysis: Analysis, calls: seq<GatewayRequest>)

  /** The handler's early returns and throws, in the order the function takes them. */
  function Decide(req: Request, env: Env, gateway: GatewayReply): (d: Decision)
    // A pre-flight request gets the cross-origin headers and nothing else happens.
    ensures req.httpMethod == "OPTIONS" ==> d == Respond(PreflightResponse, [])
    // A body that does not parse: 500 with the parser's message.
    ensures req.httpMethod != "OPTIONS" && req.body.MalformedBody? ==>
              d == Respond(ErrorResponse(500, req.body.message), [])
    // A missing or empty id or text: 400, before anything else.
    ensures req.httpMethod != "OPTIONS" && req.body.Fields?
            && !(Truthy(req.body.analysisId) && Truthy(req.body.fileContent)) ==>
              d == Respond(ErrorResponse(400, MissingFields), [])
    // An empty database URL or key: the client's constructor throws, giving a 500.
    ensures req.httpMethod != "OPTIONS" && req.body.Fields?
            && Truthy(req.body.analysisId) && Truthy(req.body.fileContent) && !Truthy(env.supabaseUrl) ==>
              d == Respond(ErrorResponse(500, UrlRequired), [])
    ensures req.httpMethod != "OPTIONS" && req.body.Fields?
            && Truthy(req.body.analysisId) && Truthy(req.body.fileContent) && Truthy(env.supabaseUrl)
            && !Truthy(env.serviceRoleKey) ==>
              d == Respond(ErrorResponse(500, KeyRequired), [])
    // No API key: 500, before the gateway call.
    ensures req.httpMethod != "OPTIONS" && req.body.Fields?
            && Truthy(req.body.analysisId) && Truthy(req.body.fileContent)
            && Truthy(env.supabaseUrl) && Truthy(env.serviceRoleKey) && !Truthy(env.apiKey) ==>
              d == Respond(ErrorResponse(500, KeyNotConfigured), [])
    // Exactly one gateway call for an accepted request, none otherwise.
    ensures Accepted(req, env) ==> d.calls == [GatewayRequestFor(env.apiKey.value, req.body.fileContent.value)]
    ensures !Accepted(req, env) ==> d.calls == [] && d.Respond?
    // Gateway failures become error responses; no write is reached.
    ensures Accepted(req, env) && gateway.Unreachable? ==> d.Respond? && d.response == ErrorResponse(500, gateway.message)
    ensures Accepted(req, env) && gateway.Replied? && !GatewayOk(gateway.status) ==>
              d.Respond? && d.response == GatewayFailure(gateway.status)
    ensures Accepted(req, env) && gateway.Replied? && GatewayOk(gateway.status) && gateway.parsed.Err? ==>
              d.Respond? && d.response == ErrorResponse(500, gateway.parsed.message)
    // The write is reached exactly when the gateway answered ok with parseable JSON.
    ensures d.Commit? <==> Accepted(req, env) && gateway.Replied? && GatewayOk(gateway.status) && gateway.parsed.Ok?
    ensures d.Commit? ==> d.id == req.body.analysisId.value && d.analysis == gateway.parsed.value
  {
    if req.httpMethod == "OPTIONS" then Respond(PreflightResponse, [])
    else match req.body
      case MalformedBody(m) => Respond(ErrorResponse(500, m), [])
      case Fields(id, content) =>
        if !Truthy(id) || !Truthy(content) then Respond(ErrorResponse(400, MissingFields), [])
        else if !Truthy(env.supabaseUrl) then Respond(ErrorResponse(500, UrlRequired), [])
        else if !Truthy(env.serviceRoleKey) then Respond(ErrorResponse(500, KeyRequired), [])
        else if !Truthy(env.apiKey) then Respond(ErrorResponse(500, KeyNotConfigured), [])
        else
          var calls := [GatewayRequestFor(env.apiKey.value, content.value)];
          match gateway
          case Unreachable(m) => Respond(ErrorResponse(500, m), calls)
          case Replied(status, parsed) =>
            if !GatewayOk(status) then Respond(GatewayFailure(status), calls)
            else match parsed
              case Err(m) => Respond(ErrorResponse(500, m), calls)
              case Ok(a) => Commit(id.value, a, calls)
  }

  /** The whole handler. The response is the decision's, except after the update, where a
      database error gives a 500 (even though the gateway succeeded) and success gives the
      default 200 with the analysis that was written. Only the update changes the table. */
  method Serve(table: AnalysesTable, req: Request, env: Env, gateway: GatewayReply, now: string, fault: Option<DbError>)
    returns (response: Response, calls: seq<GatewayRequest>)
    modifies table
    ensures calls == Decide(req, env, gateway).calls
    ensures Decide(req, env, gateway).Respond? ==>
              response == Decide(req, env, gateway).response && table.rows == old(table.rows)
    ensures Decide(req, env, gateway).Commit? ==>
              var id, a := req.body.analysisId.value, gateway.parsed.value;
              && (fault.Some? ==> response == ErrorResponse(500, ThrownMessage(fault.value)) && table.rows == old(table.rows))
              && (fault.None? ==> response == Response(200, JsonHeaders, SuccessBody(a)))
              && (fault.None? && id in old(table.rows) ==>
                    table.rows == old(table.rows)[id := CompletedRow(old(table.rows)[id], a, now)])
              && (fault.None? && id !in old(table.rows) ==> table.rows == old(table.rows))
  {
    var d := Decide(req, env, gateway);
    calls := d.calls;
    match d
    case Respond(r, _) =>
      response := r;
    case Commit(id, a, _) =>
      var error := table.CompleteById(id, a, now, fault);
      if error.Some? {
        response := ErrorResponse(500, ThrownMessage(error.value));
      } else {
        response := Response(200, JsonHeaders, SuccessBody(a));
      }
  }
}
