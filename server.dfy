/**
 * The gateway process (server/server.js): bearer-token choice, the health report,
 * forwarding of a request to the encoding backend with its error classification,
 * the route table with its `/api` stripping and SPA fallback, and the CORS origin list.
 */
module Server {
  import opened Wrappers
  import opened Strings
  import opened Json

  /** The process environment read at startup; an unset variable is `None`. */
  datatype Env = Env(
    encoreApiUrl: Option<string>,
    bearerToken: Option<string>,
    oscAccessToken: Option<string>,
    allowedOrigins: Option<string>)

  /** JavaScript truthiness of an environment value: set and non-empty. */
  predicate IsSet(v: Option<string>) {
    v.Some? && v.value != ""
  }

  const DefaultApiUrl := "http://localhost:8080"

  /** `ENCORE_API_URL || 'http://localhost:8080'`. */
  function ApiUrl(env: Env): (r: string)
    ensures IsSet(env.encoreApiUrl) ==> r == env.encoreApiUrl.value
    ensures !IsSet(env.encoreApiUrl) ==> r == DefaultApiUrl
  {
    if IsSet(env.encoreApiUrl) then env.encoreApiUrl.value else DefaultApiUrl
  }

  /**
   * The module-level state fixed at startup: the environment, and whether the OSC
   * context (`oscContext`) exists.
   */
  datatype Gateway = Gateway(env: Env, oscContext: bool)

  /**
   * Startup: the OSC context is constructed only when an OSC access token is set;
   * `contextCreated` says whether that constructor returned rather than threw.
   */
  function Start(env: Env, contextCreated: bool): (g: Gateway)
    ensures g.env == env
    ensures g.oscContext <==> IsSet(env.oscAccessToken) && contextCreated
  {
    Gateway(env, IsSet(env.oscAccessToken) && contextCreated)
  }

  // ---------------------------------------------------------------------------
  // Token provider

  /** What the OSC SDK's `getServiceAccessToken(service)` does: return a token or throw. */
  datatype MintOutcome = Minted(token: string) | MintError(message: string)

  /** What `getBearerToken` does: resolve to a token or `null`, or throw. */
  datatype TokenOutcome = TokenOk(token: Option<string>) | TokenThrown(message: string)

  /** The outcome together with the service a token was minted for; `None` means no minting call was made. */
  datatype TokenCall = TokenCall(outcome: TokenOutcome, mintedFor: Option<string>)

  const TokenFailureMessage := "Failed to generate authentication token"
  const EncoreService := "encore"

  /** Whether the dynamic path is available: `oscContext && OSC_ACCESS_TOKEN`. */
  predicate DynamicAvailable(g: Gateway) {
    g.oscContext && IsSet(g.env.oscAccessToken)
  }

  /**
   * `getBearerToken`: the static token if set, without minting; otherwise a fresh `'encore'` token
   * minted on this call, with a mint failure rethrown under a fixed message; otherwise `null`.
   */
  function GetBearerToken(g: Gateway, mint: string -> MintOutcome): (r: TokenCall)
    ensures IsSet(g.env.bearerToken) ==> r == TokenCall(TokenOk(g.env.bearerToken), None)
    ensures r.mintedFor.Some? <==> !IsSet(g.env.bearerToken) && DynamicAvailable(g)
    ensures r.mintedFor.Some? ==> r.mintedFor.value == EncoreService
    ensures r.outcome.TokenThrown? <==> r.mintedFor.Some? && mint(EncoreService).MintError?
    ensures r.outcome.TokenThrown? ==> r.outcome.message == TokenFailureMessage
    ensures r.mintedFor.Some? && mint(EncoreService).Minted? ==>
      r.outcome == TokenOk(Some(mint(EncoreService).token))
    ensures !IsSet(g.env.bearerToken) && !DynamicAvailable(g) ==> r == TokenCall(TokenOk(None), None)
  {
    if IsSet(g.env.bearerToken) then TokenCall(TokenOk(g.env.bearerToken), None)
    else if DynamicAvailable(g) then
      match mint(EncoreService)
      case Minted(sat) => TokenCall(TokenOk(Some(sat)), Some(EncoreService))
      case MintError(_) => TokenCall(TokenThrown(TokenFailureMessage), Some(EncoreService))
    else TokenCall(TokenOk(None), None)
  }

  /** Configuring both sources prefers the static token, whatever the minting service would do. */
  lemma StaticTokenIgnoresMinting(g: Gateway, mint1: string -> MintOutcome, mint2: string -> MintOutcome)
    requires IsSet(g.env.bearerToken)
    ensures GetBearerToken(g, mint1) == GetBearerToken(g, mint2)
    ensures GetBearerToken(g, mint1).mintedFor.None?
  {
  }

  // ---------------------------------------------------------------------------
  // Health report

  datatype AuthMethod = Static | OscDynamic | NoAuth

  /** `hasStaticToken ? 'static' : hasOscToken ? 'osc-dynamic' : 'none'`. */
  function AuthMethodOf(g: Gateway): (m: AuthMethod)
    ensures m == Static <==> IsSet(g.env.bearerToken)
    ensures m == OscDynamic <==> !IsSet(g.env.bearerToken) && DynamicAvailable(g)
  {
    if IsSet(g.env.bearerToken) then Static
    else if IsSet(g.env.oscAccessToken) && g.oscContext then OscDynamic
    else NoAuth
  }

  /**
   * The reported method names the branch `getBearerToken` takes: static exactly when the static
   * token is returned without minting, osc-dynamic exactly when a token is minted, none exactly
   * when the result is `null` without minting.
   */
  lemma AuthMethodMatchesTokenChoice(g: Gateway, mint: string -> MintOutcome)
    ensures var r := GetBearerToken(g, mint);
      && (AuthMethodOf(g) == Static <==> r.mintedFor.None? && r.outcome.TokenOk? && IsSet(r.outcome.token))
      && (AuthMethodOf(g) == OscDynamic <==> r.mintedFor == Some(EncoreService))
      && (AuthMethodOf(g) == NoAuth <==> r == TokenCall(TokenOk(None), None))
  {
  }

  /** The `/health` body (the timestamp is left out). */
  datatype HealthReply =
    | HealthOk(encoreApiUrl: string, hasToken: bool, authMethod: AuthMethod)
    | HealthError(error: string, message: string)
  {
    function StatusCode(): int { if HealthOk? then 200 else 500 }
    function StatusField(): string { if HealthOk? then "OK" else "ERROR" }
  }

  function Health(g: Gateway, mint: string -> MintOutcome): (h: HealthReply)
    ensures h.HealthOk? <==> GetBearerToken(g, mint).outcome.TokenOk?
    ensures h.HealthOk? ==> h.encoreApiUrl == ApiUrl(g.env) && h.authMethod == AuthMethodOf(g)
    ensures h.HealthOk? ==> (h.hasToken <==> IsSet(GetBearerToken(g, mint).outcome.token))
    ensures h.HealthError? ==>
      && h.StatusCode() == 500 && h.StatusField() == "ERROR"
      && h.error == "Token generation failed" && h.message == TokenFailureMessage
  {
    match GetBearerToken(g, mint).outcome
    case TokenOk(token) => HealthOk(ApiUrl(g.env), IsSet(token), AuthMethodOf(g))
    case TokenThrown(msg) => HealthError("Token generation failed", msg)
  }

  /** With a static token the health check never fails and reports it. */
  lemma HealthWithStaticToken(g: Gateway, mint: string -> MintOutcome)
    requires IsSet(g.env.bearerToken)
    ensures Health(g, mint) == HealthOk(ApiUrl(g.env), true, Static)
  {
  }

  // ---------------------------------------------------------------------------
  // Forwarding

  /** The headers of the backend client built by `createEncoreApiClient`. */
  function ForwardHeaders(token: Option<string>): (h: map<string, string>)
    ensures "Content-Type" in h && h["Content-Type"] == "application/json"
    ensures "Authorization" in h <==> IsSet(token)
    ensures "Authorization" in h ==> h["Authorization"] == "Bearer " + token.value
    ensures h.Keys <= {"Content-Type", "Authorization"}
  {
    var base := map["Content-Type" := "application/json"];
    if IsSet(token) then base["Authorization" := "Bearer " + token.value] else base
  }

  /** An inbound request: `path` is `req.path`, `url` is `req.url` (which keeps the query string). */
  datatype Request = Request(verb: string, path: string, url: string, body: Json, query: Json)

  /** The request handed to the backend client. */
  datatype Outbound = Outbound(
    baseUrl: string,
    headers: map<string, string>,
    verb: string,
    url: string,
    data: Json,
    params: Json)

  /** How the backend call ended: a 2xx response, an error response, no response, or a failure while setting up. */
  datatype BackendOutcome =
    | Responded(status: int, data: Json)
    | ErrorResponse(message: string, status: int, statusText: string, data: Json)
    | NoResponse(message: string)
    | SetupFailure(message: string)

  /** The status and JSON body sent back to the caller. */
  datatype Reply = Reply(status: int, body: Json)

  function ErrorBody(error: Json, details: Json): Json {
    JObj(map["error" := error, "details" := details])
  }

  const AuthFailedReply := Reply(401, ErrorBody(JStr("Authentication failed"),
    JStr("Unable to generate or retrieve authentication token")))

  /** `error.response.data?.message || error.response.statusText`. */
  function ResponseErrorText(statusText: string, data: Json): (r: Json)
    ensures TruthyOpt(Field(data, "message")) ==> r == data.fields["message"]
    ensures !TruthyOpt(Field(data, "message")) ==> r == JStr(statusText)
  {
    var m := Field(data, "message");
    if TruthyOpt(m) then m.value else JStr(statusText)
  }

  /** The thrown error the catch block inspects. */
  datatype ProxyError =
    | Thrown(message: string)
    | WithResponse(message: string, status: int, statusText: string, data: Json)
    | WithRequest(message: string)

  /**
   * `proxyToEncore`: builds the client with a fresh token, sends the request once, and relays the
   * answer; the catch block sends 401 for the token failure message, the backend's own status for
   * an error response, 503 when nothing came back and 500 otherwise.
   */
  method ProxyToEncore(g: Gateway, req: Request, mint: string -> MintOutcome, backend: Outbound -> BackendOutcome)
    returns (reply: Reply, sent: Option<Outbound>)
    ensures var t := GetBearerToken(g, mint).outcome;
      && (t.TokenThrown? ==> sent.None? && reply == AuthFailedReply)
      && (t.TokenOk? ==> sent == Some(Outbound(ApiUrl(g.env), ForwardHeaders(t.token),
                                               Lower(req.verb), req.url, req.body, req.query)))
    ensures sent.Some? && backend(sent.value).Responded? ==>
      reply == Reply(backend(sent.value).status, backend(sent.value).data)
    ensures sent.Some? && backend(sent.value).ErrorResponse? ==>
      var o := backend(sent.value);
      reply == if o.message == TokenFailureMessage then AuthFailedReply
               else Reply(o.status, ErrorBody(ResponseErrorText(o.statusText, o.data), o.data))
    ensures sent.Some? && backend(sent.value).NoResponse? ==>
      var o := backend(sent.value);
      reply == if o.message == TokenFailureMessage then AuthFailedReply
               else Reply(503, ErrorBody(JStr("Service unavailable - Could not reach Encore API"), JStr(o.message)))
    ensures sent.Some? && backend(sent.value).SetupFailure? ==>
      var o := backend(sent.value);
      reply == if o.message == TokenFailureMessage then AuthFailedReply
               else Reply(500, ErrorBody(JStr("Internal server error"), JStr(o.message)))
  {
    sent := None;
    var failure: Option<ProxyError> := None;
    var call := GetBearerToken(g, mint);
    match call.outcome {
      case TokenThrown(msg) =>
        failure := Some(Thrown(msg));
      case TokenOk(token) =>
        var out := Outbound(ApiUrl(g.env), ForwardHeaders(token), Lower(req.verb), req.url, req.body, req.query);
        sent := Some(out);
        match backend(out) {
          case Responded(status, data) =>
            reply := Reply(status, data);
          case ErrorResponse(msg, status, text, data) =>
            failure := Some(WithResponse(msg, status, text, data));
          case NoResponse(msg) =>
            failure := Some(WithRequest(msg));
          case SetupFailure(msg) =>
            failure := Some(Thrown(msg));
        }
    }
    if failure.Some? {
      var e := failure.value;
      if e.message == TokenFailureMessage {
        reply := AuthFailedReply;
      } else if e.WithResponse? {
        reply := Reply(e.status, ErrorBody(ResponseErrorText(e.statusText, e.data), e.data));
      } else if e.WithRequest? {
        reply := Reply(503, ErrorBody(JStr("Service unavailable - Could not reach Encore API"), JStr(e.message)));
      } else {
        reply := Reply(500, ErrorBody(JStr("Internal server error"), JStr(e.message)));
      }
    }
  }

  // ---------------------------------------------------------------------------
  // Routing

  /** Where the router sends a request. */
  datatype Route =
    | HealthCheck
    | Proxy(url: string)
    | ApiNotFound(error: string, message: string)
    | ServeIndex
    | Unmatched

  /** `app.get` also answers HEAD requests. */
  predicate IsGetLike(verb: string) {
    verb == "GET" || verb == "HEAD"
  }

  /** Express matches route paths case-insensitively and allows one trailing slash. */
  predicate IsHealthPath(path: string) {
    Lower(path) == "/health" || Lower(path) == "/health/"
  }

  /** A route pattern ending in a wildcard matches every path that begins with `p` (case-insensitively). */
  predicate MatchesPrefix(path: string, p: string) {
    StartsWith(Lower(path), Lower(p))
  }

  predicate IsLegacyPath(path: string) {
    MatchesPrefix(path, "/encoreJobs") || MatchesPrefix(path, "/queue") || MatchesPrefix(path, "/encore")
  }

  /**
   * The route table in registration order: `GET /health`, `ALL /api/` plus wildcard (drop the first `/api`
   * from the url), the `/encoreJobs`, `/queue` and `/encore` wildcards (verbatim), then the GET fallback.
   */
  function Dispatch(req: Request): (r: Route)
    ensures r == HealthCheck <==> IsGetLike(req.verb) && IsHealthPath(req.path)
    ensures r.Proxy? ==> MatchesPrefix(req.path, "/api/") || IsLegacyPath(req.path)
    ensures r.ServeIndex? || r.ApiNotFound? ==> IsGetLike(req.verb)
    ensures r == Unmatched <==> !IsGetLike(req.verb) && !MatchesPrefix(req.path, "/api/") && !IsLegacyPath(req.path)
  {
    if IsGetLike(req.verb) && IsHealthPath(req.path) then HealthCheck
    else if MatchesPrefix(req.path, "/api/") then Proxy(ReplaceFirst(req.url, "/api", ""))
    else if IsLegacyPath(req.path) then Proxy(req.url)
    else if IsGetLike(req.verb) then
      if StartsWith(req.path, "/api/") || StartsWith(req.path, "/health") then
        ApiNotFound("API endpoint not found", "Route " + req.verb + " " + req.url + " not found")
      else ServeIndex
    else Unmatched
  }

  lemma NotHealthPath(path: string, p: string)
    requires MatchesPrefix(path, p) && |p| >= 2 && Lower(p)[1] != 'h'
    ensures !IsHealthPath(path)
  {
    assert Lower(path)[1] == Lower(p)[1];
  }

  /** Every request under `/api/` is proxied with the first `/api` of its url removed. */
  lemma ApiRouteStripsPrefix(req: Request)
    requires StartsWith(req.path, "/api/")
    ensures Dispatch(req) == Proxy(ReplaceFirst(req.url, "/api", ""))
  {
    StartsWithLower(req.path, "/api/");
    NotHealthPath(req.path, "/api/");
  }

  /** When the url itself begins with `/api`, what is forwarded is the rest of it. */
  lemma ApiRouteForwardsRemainder(req: Request)
    requires StartsWith(req.path, "/api/") && StartsWith(req.url, "/api")
    ensures Dispatch(req) == Proxy(req.url[4..])
  {
    ApiRouteStripsPrefix(req);
    ReplaceFirstAtStart(req.url, "/api", "");
  }

  /** Requests under the legacy prefixes are forwarded with their url untouched. */
  lemma LegacyRoutesVerbatim(req: Request)
    requires StartsWith(req.path, "/encoreJobs") || StartsWith(req.path, "/queue") || StartsWith(req.path, "/encore")
    ensures Dispatch(req) == Proxy(req.url)
  {
    if StartsWith(req.path, "/encoreJobs") {
      StartsWithLower(req.path, "/encoreJobs");
      NotHealthPath(req.path, "/encoreJobs");
    } else if StartsWith(req.path, "/queue") {
      StartsWithLower(req.path, "/queue");
      NotHealthPath(req.path, "/queue");
    } else {
      StartsWithLower(req.path, "/encore");
      NotHealthPath(req.path, "/encore");
    }
    assert !MatchesPrefix(req.path, "/api/") by {
      assert Lower(req.path)[1] != 'a';
    }
  }

  /**
   * The fallback's 404 JSON body is only ever sent for GET paths beginning with `/health`
   * (other than the health route itself): a path beginning with `/api/` never reaches it,
   * because the `/api/` route matches it first.
   */
  lemma FallbackNotFoundOnlyForHealth(req: Request)
    ensures Dispatch(req).ApiNotFound? <==>
      IsGetLike(req.verb) && StartsWith(req.path, "/health") && !IsHealthPath(req.path)
  {
    if StartsWith(req.path, "/api/") {
      StartsWithLower(req.path, "/api/");
    }
    if StartsWith(req.path, "/health") {
      HealthPrefixNotProxied(req.path);
    }
  }

  /** A path beginning with `/health` matches none of the proxy patterns. */
  lemma HealthPrefixNotProxied(path: string)
    requires StartsWith(path, "/health")
    ensures !MatchesPrefix(path, "/api/") && !IsLegacyPath(path)
  {
    StartsWithLower(path, "/health");
    assert Lower(path)[1] == 'h';
  }

  /** Any other GET serves the application shell. */
  lemma FallbackServesShell(req: Request)
    requires IsGetLike(req.verb) && !IsHealthPath(req.path)
    requires !MatchesPrefix(req.path, "/api/") && !IsLegacyPath(req.path) && !StartsWith(req.path, "/health")
    ensures Dispatch(req) == ServeIndex
  {
    if StartsWith(req.path, "/api/") {
      StartsWithLower(req.path, "/api/");
    }
  }

  // ---------------------------------------------------------------------------
  // CORS

  const DefaultOrigins := ["http://localhost:5173", "http://localhost:3000"]

  /** `ALLOWED_ORIGINS.split(',').map(origin => origin.trim())`, or the two development origins. */
  function CorsOrigins(env: Env): (r: seq<string>)
    ensures !IsSet(env.allowedOrigins) ==> r == DefaultOrigins
    ensures IsSet(env.allowedOrigins) ==>
      var pieces := Split(env.allowedOrigins.value, ',');
      |r| == CountChar(env.allowedOrigins.value, ',') + 1
      && forall i :: 0 <= i < |r| ==> r[i] == Trim(pieces[i])
  {
    if IsSet(env.allowedOrigins) then
      var pieces := Split(env.allowedOrigins.value, ',');
      seq(|pieces|, i requires 0 <= i < |pieces| => Trim(pieces[i]))
    else DefaultOrigins
  }

  /** Trimming keeps a character out if it was out. */
  lemma TrimKeepsCharOut(p: string, c: char)
    requires c !in p
    ensures c !in Trim(p)
  {
  }

  /** Every configured origin is already trimmed and holds no comma. */
  lemma CorsOriginsClean(env: Env)
    ensures forall o :: o in CorsOrigins(env) ==> Trim(o) == o && ',' !in o
  {
    var r := CorsOrigins(env);
    if IsSet(env.allowedOrigins) {
      var pieces := Split(env.allowedOrigins.value, ',');
      forall i | 0 <= i < |r| ensures Trim(r[i]) == r[i] && ',' !in r[i] {
        TrimIdempotent(pieces[i]);
        TrimKeepsCharOut(pieces[i], ',');
      }
    } else {
      DefaultOriginsClean();
    }
  }

  lemma DefaultOriginsClean()
    ensures forall o :: o in DefaultOrigins ==> Trim(o) == o && ',' !in o
  {
    forall o | o in DefaultOrigins ensures Trim(o) == o && ',' !in o {
      OriginClean(o);
    }
  }

  /** A URL that starts with a letter and ends in a digit, free of commas, is its own trim. */
  lemma OriginClean(o: string)
    requires o != [] && 'a' <= o[0] <= 'z' && '0' <= o[|o| - 1] <= '9' && ',' !in o
    ensures Trim(o) == o && ',' !in o
  {
    TrimOfTrimmed(o);
  }
}
