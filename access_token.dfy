/**
 * The token-exchange API route (pages/api/get-access-token.ts): checks the
 * server's environment, then the `code` query parameter, and only then
 * trades the code for credentials. The route's reply is a value here
 * rather than writes to a response object.
 */
module AccessToken {
  import opened Wrappers
  import opened Vercel

  /** The three environment variables the route reads; None when unset. */
  datatype Env = Env(clientId: Option<string>, clientSecret: Option<string>, redirectHost: Option<string>)

  /** `request.query.code`: absent, given once, or repeated (an array of strings). */
  datatype QueryParam = Missing | Single(value: string) | Repeated(values: seq<string>)

  /** What `getAccessToken` is called with. */
  datatype TokenRequest = TokenRequest(clientId: string, clientSecret: string, code: string, redirectUri: string)

  /** The route either answers at once with a status and a message, or calls the exchange. */
  datatype Decision = Reject(status: nat, message: string) | Exchange(call: TokenRequest)

  datatype Body = Text(text: string) | CredentialsJson(credentials: Credentials)

  datatype Response = Response(status: nat, contentType: Option<string>, body: Body)

  /**
   * The handler's end: a response it wrote, or the exchange's error escaping
   * the handler (the handler writes nothing then).
   */
  datatype Outcome = Responded(response: Response) | Escaped(error: ApiError)

  const EnvMissingMessage := "Required server env variables missing"
  const BadCodeMessage := "The “code” argument is missing or invalid"
  const CallbackPath := "/callback"

  /** JavaScript truthiness of an optional string: set and not empty. */
  predicate Truthy(v: Option<string>) {
    v.Some? && v.value != ""
  }

  predicate EnvComplete(env: Env) {
    Truthy(env.clientId) && Truthy(env.clientSecret) && Truthy(env.redirectHost)
  }

  /** `code` passes `!code || typeof code !== 'string'` only as one non-empty string. */
  predicate ValidCode(code: QueryParam) {
    code.Single? && code.value != ""
  }

  /** The checks of the handler, in order: environment first, then the code. */
  function Decide(env: Env, code: QueryParam): (d: Decision)
    ensures d.Exchange? <==> EnvComplete(env) && ValidCode(code)
    ensures !EnvComplete(env) ==> d == Reject(500, EnvMissingMessage)
    ensures EnvComplete(env) && !ValidCode(code) ==> d == Reject(400, BadCodeMessage)
    ensures d.Exchange? ==>
      && d.call.clientId == env.clientId.value
      && d.call.clientSecret == env.clientSecret.value
      && d.call.code == code.value
      && d.call.redirectUri == env.redirectHost.value + "/callback"
  {
    if !Truthy(env.clientId) || !Truthy(env.clientSecret) || !Truthy(env.redirectHost) then
      Reject(500, EnvMissingMessage)
    else if !code.Single? || code.value == "" then
      Reject(400, BadCodeMessage)
    else
      Exchange(TokenRequest(env.clientId.value, env.clientSecret.value, code.value, env.redirectHost.value + CallbackPath))
  }

  /**
   * The whole handler, given the reply the token endpoint would send; that
   * reply is only looked at when the exchange is called.
   */
  function Handle(env: Env, code: QueryParam, reply: Reply, nulls: Nullability): (o: Outcome)
    ensures !EnvComplete(env) ==> o == Responded(Response(500, None, Text(EnvMissingMessage)))
    ensures EnvComplete(env) && !ValidCode(code) ==> o == Responded(Response(400, None, Text(BadCodeMessage)))
    ensures o.Responded? && o.response.status == 200 <==>
      EnvComplete(env) && ValidCode(code) && GetAccessToken(reply, nulls).Success?
    ensures o.Responded? && o.response.status == 200 ==>
      o.response == Response(200, Some("application/json"), CredentialsJson(GetAccessToken(reply, nulls).value))
    ensures o.Escaped? ==> o.error == GetAccessToken(reply, nulls).error
    ensures EnvComplete(env) && ValidCode(code) && GetAccessToken(reply, nulls).Failure? ==>
      o == Escaped(GetAccessToken(reply, nulls).error)
  {
    match Decide(env, code)
    case Reject(status, message) => Responded(Response(status, None, Text(message)))
    case Exchange(_) =>
      match GetAccessToken(reply, nulls)
      case Success(credentials) => Responded(Response(200, Some("application/json"), CredentialsJson(credentials)))
      case Failure(error) => Escaped(error)
  }

  /** The requests the handler sends: one POST to the token endpoint, and only when both checks pass. */
  function ExchangeRequests(env: Env, code: QueryParam): (rs: seq<Request>)
    ensures |rs| <= 1
    ensures rs != [] <==> EnvComplete(env) && ValidCode(code)
    ensures forall i :: 0 <= i < |rs| ==> rs[i] == Request(Post, "https://api.vercel.com/v2/oauth/access_token")
  {
    if Decide(env, code).Exchange? then [AccessTokenRequest()] else []
  }

  /** With an incomplete environment the answer is 500 whatever the code is. */
  lemma EnvironmentCheckedFirst(env: Env, a: QueryParam, b: QueryParam, reply: Reply, nulls: Nullability)
    requires !EnvComplete(env)
    ensures Handle(env, a, reply, nulls) == Handle(env, b, reply, nulls)
    ensures Handle(env, a, reply, nulls).response.status == 500
  {
  }

  /** A rejected request never depends on the token endpoint: no exchange was made. */
  lemma RejectionMakesNoExchange(env: Env, code: QueryParam, r1: Reply, r2: Reply, nulls: Nullability)
    requires Decide(env, code).Reject?
    ensures Handle(env, code, r1, nulls) == Handle(env, code, r2, nulls)
  {
  }

  /** The redirect URI ends in `/callback` and the host reads back from what precedes it. */
  lemma RedirectUriShape(env: Env, code: QueryParam)
    requires EnvComplete(env) && ValidCode(code)
    ensures var uri := Decide(env, code).call.redirectUri;
      |uri| == |env.redirectHost.value| + 9
      && uri[..|env.redirectHost.value|] == env.redirectHost.value
      && uri[|env.redirectHost.value|..] == "/callback"
  {
  }
}
