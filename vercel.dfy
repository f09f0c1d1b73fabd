/**
 * The request and response rules of the Vercel API client (lib/vercel.ts):
 * the entities and their decoders over an abstract JSON value, the
 * resource URLs, the status mapping of log-drain deletion, and the
 * outcome of each API call given the reply the network delivered.
 */
module Vercel {
  import opened Wrappers
  import opened Json
  import opened Text

  // ---------------------------------------------------------------------
  // Entities
  // ---------------------------------------------------------------------

  /** What the token exchange hands back. */
  datatype Credentials = Credentials(
    tokenType: string,
    accessToken: string,
    installationId: string,
    userId: string,
    teamId: Option<string>)

  datatype Project = Project(accountId: string, id: string, name: string)

  /** The log format of a drain: the literals `json`, `ndjson` and `syslog`. */
  datatype LogDrainType = JsonFormat | NdjsonFormat | SyslogFormat

  datatype LogDrain = LogDrain(
    clientId: string,
    configurationId: string,
    createdAt: int,
    id: string,
    drainType: LogDrainType,
    name: string,
    ownerId: string,
    projectId: Option<string>,
    url: string)

  /**
   * Whether a `nullable` field may also be left out of the object. The
   * decoding library's choice is not part of this model, so every decoder
   * takes it as a parameter and every property holds for both choices.
   */
  datatype Nullability = NullOnly | NullOrAbsent

  // ---------------------------------------------------------------------
  // Field decoders
  // ---------------------------------------------------------------------

  function DrainTypeName(t: LogDrainType): string {
    match t
    case JsonFormat => "json"
    case NdjsonFormat => "ndjson"
    case SyslogFormat => "syslog"
  }

  /** The union of the three literals: any other string is rejected. */
  function ParseDrainType(s: string): (r: Option<LogDrainType>)
    ensures r.Some? <==> s == "json" || s == "ndjson" || s == "syslog"
    ensures r.Some? ==> DrainTypeName(r.value) == s
  {
    if s == "json" then Some(JsonFormat)
    else if s == "ndjson" then Some(NdjsonFormat)
    else if s == "syslog" then Some(SyslogFormat)
    else None
  }

  function RequiredString(fields: map<string, Json>, key: string): Result<string, string> {
    if key !in fields then Failure("missing field " + key)
    else match fields[key]
      case JString(s) => Success(s)
      case _ => Failure("field " + key + " is not a string")
  }

  function RequiredNumber(fields: map<string, Json>, key: string): Result<int, string> {
    if key !in fields then Failure("missing field " + key)
    else match fields[key]
      case JNumber(n) => Success(n)
      case _ => Failure("field " + key + " is not a number")
  }

  function RequiredDrainType(fields: map<string, Json>, key: string): Result<LogDrainType, string> {
    if key !in fields then Failure("missing field " + key)
    else match fields[key]
      case JString(s) =>
        (match ParseDrainType(s)
         case Some(t) => Success(t)
         case None => Failure("field " + key + " is not one of json, ndjson, syslog"))
      case _ => Failure("field " + key + " is not a string")
  }

  /** `nullable(string)`: null gives None, a string gives Some. */
  function NullableString(fields: map<string, Json>, key: string, nulls: Nullability): Result<Option<string>, string> {
    if key !in fields then
      (if nulls == NullOrAbsent then Success(None) else Failure("missing field " + key))
    else match fields[key]
      case JNull => Success(None)
      case JString(s) => Success(Some(s))
      case _ => Failure("field " + key + " is neither null nor a string")
  }

  // ---------------------------------------------------------------------
  // Record decoders and their encodings
  // ---------------------------------------------------------------------

  function DecodeCredentials(j: Json, nulls: Nullability): (r: Result<Credentials, string>)
    ensures r.Success? ==> DescribesCredentials(j, r.value, nulls)
  {
    if !j.JObject? then Failure("expected an object")
    else
      var tokenType :- RequiredString(j.fields, "token_type");
      var accessToken :- RequiredString(j.fields, "access_token");
      var installationId :- RequiredString(j.fields, "installation_id");
      var userId :- RequiredString(j.fields, "user_id");
      var teamId :- NullableString(j.fields, "team_id", nulls);
      Success(Credentials(tokenType, accessToken, installationId, userId, teamId))
  }

  function DecodeProject(j: Json): (r: Result<Project, string>)
    ensures r.Success? ==> DescribesProject(j, r.value)
  {
    if !j.JObject? then Failure("expected an object")
    else
      var accountId :- RequiredString(j.fields, "accountId");
      var id :- RequiredString(j.fields, "id");
      var name :- RequiredString(j.fields, "name");
      Success(Project(accountId, id, name))
  }

  function DecodeLogDrain(j: Json, nulls: Nullability): (r: Result<LogDrain, string>)
    ensures r.Success? ==> DescribesLogDrain(j, r.value, nulls)
  {
    if !j.JObject? then Failure("expected an object")
    else
      var clientId :- RequiredString(j.fields, "clientId");
      var configurationId :- RequiredString(j.fields, "configurationId");
      var createdAt :- RequiredNumber(j.fields, "createdAt");
      var id :- RequiredString(j.fields, "id");
      var drainType :- RequiredDrainType(j.fields, "type");
      var name :- RequiredString(j.fields, "name");
      var ownerId :- RequiredString(j.fields, "ownerId");
      var projectId :- NullableString(j.fields, "projectId", nulls);
      var url :- RequiredString(j.fields, "url");
      Success(LogDrain(clientId, configurationId, createdAt, id, drainType, name, ownerId, projectId, url))
  }

  function NullableJson(v: Option<string>): Json {
    match v
    case None => JNull
    case Some(s) => JString(s)
  }

  /** The JSON object the API sends for a value (null for an empty nullable field). */
  function EncodeCredentials(c: Credentials): Json {
    JObject(map[
      "token_type" := JString(c.tokenType),
      "access_token" := JString(c.accessToken),
      "installation_id" := JString(c.installationId),
      "user_id" := JString(c.userId),
      "team_id" := NullableJson(c.teamId)])
  }

  function EncodeProject(p: Project): Json {
    JObject(map["accountId" := JString(p.accountId), "id" := JString(p.id), "name" := JString(p.name)])
  }

  function EncodeLogDrain(d: LogDrain): Json {
    JObject(map[
      "clientId" := JString(d.clientId),
      "configurationId" := JString(d.configurationId),
      "createdAt" := JNumber(d.createdAt),
      "id" := JString(d.id),
      "type" := JString(DrainTypeName(d.drainType)),
      "name" := JString(d.name),
      "ownerId" := JString(d.ownerId),
      "projectId" := NullableJson(d.projectId),
      "url" := JString(d.url)])
  }

  /**
   * `fields` holds `key` with exactly the value `expected`; a nullable key
   * whose expected value is null may instead be absent, when absence
   * counts as null.
   */
  predicate Carries(fields: map<string, Json>, key: string, expected: Json, nullable: bool, nulls: Nullability) {
    if key in fields then fields[key] == expected
    else nullable && expected == JNull && nulls == NullOrAbsent
  }

  /** `j` is an object describing `c`: every listed field present with its type; other keys are ignored. */
  predicate DescribesCredentials(j: Json, c: Credentials, nulls: Nullability) {
    && j.JObject?
    && Carries(j.fields, "token_type", JString(c.tokenType), false, nulls)
    && Carries(j.fields, "access_token", JString(c.accessToken), false, nulls)
    && Carries(j.fields, "installation_id", JString(c.installationId), false, nulls)
    && Carries(j.fields, "user_id", JString(c.userId), false, nulls)
    && Carries(j.fields, "team_id", NullableJson(c.teamId), true, nulls)
  }

  predicate DescribesProject(j: Json, p: Project) {
    && j.JObject?
    && Carries(j.fields, "accountId", JString(p.accountId), false, NullOnly)
    && Carries(j.fields, "id", JString(p.id), false, NullOnly)
    && Carries(j.fields, "name", JString(p.name), false, NullOnly)
  }

  predicate DescribesLogDrain(j: Json, d: LogDrain, nulls: Nullability) {
    && j.JObject?
    && Carries(j.fields, "clientId", JString(d.clientId), false, nulls)
    && Carries(j.fields, "configurationId", JString(d.configurationId), false, nulls)
    && Carries(j.fields, "createdAt", JNumber(d.createdAt), false, nulls)
    && Carries(j.fields, "id", JString(d.id), false, nulls)
    && Carries(j.fields, "type", JString(DrainTypeName(d.drainType)), false, nulls)
    && Carries(j.fields, "name", JString(d.name), false, nulls)
    && Carries(j.fields, "ownerId", JString(d.ownerId), false, nulls)
    && Carries(j.fields, "projectId", NullableJson(d.projectId), true, nulls)
    && Carries(j.fields, "url", JString(d.url), false, nulls)
  }

  /** The keys of a log drain that must hold a string. */
  const LogDrainStringKeys: set<string> := {"clientId", "configurationId", "id", "name", "ownerId", "url"}

  /** The keys of credentials that must hold a string. */
  const CredentialStringKeys: set<string> := {"token_type", "access_token", "installation_id", "user_id"}

  /** Decoding succeeds with exactly the values the object describes. */
  lemma DecodeCredentialsExact(j: Json, c: Credentials, nulls: Nullability)
    ensures DecodeCredentials(j, nulls) == Success(c) <==> DescribesCredentials(j, c, nulls)
  {
  }

  lemma DecodeProjectExact(j: Json, p: Project)
    ensures DecodeProject(j) == Success(p) <==> DescribesProject(j, p)
  {
  }

  lemma DecodeLogDrainExact(j: Json, d: LogDrain, nulls: Nullability)
    ensures DecodeLogDrain(j, nulls) == Success(d) <==> DescribesLogDrain(j, d, nulls)
  {
  }

  lemma CredentialsRoundTrip(c: Credentials, nulls: Nullability)
    ensures DecodeCredentials(EncodeCredentials(c), nulls) == Success(c)
  {
  }

  lemma ProjectRoundTrip(p: Project)
    ensures DecodeProject(EncodeProject(p)) == Success(p)
  {
  }

  lemma LogDrainRoundTrip(d: LogDrain, nulls: Nullability)
    ensures DecodeLogDrain(EncodeLogDrain(d), nulls) == Success(d)
  {
  }

  /** A required key that is missing, or holds a value of the wrong type, makes the decoding fail. */
  lemma LogDrainBadFieldFails(j: Json, key: string, nulls: Nullability)
    requires j.JObject?
    requires
      || (key in LogDrainStringKeys && (key !in j.fields || !j.fields[key].JString?))
      || (key == "createdAt" && (key !in j.fields || !j.fields[key].JNumber?))
      || (key == "type" && (key !in j.fields || !j.fields[key].JString? || ParseDrainType(j.fields[key].s).None?))
      || (key == "projectId" && key in j.fields && !j.fields[key].JNull? && !j.fields[key].JString?)
    ensures DecodeLogDrain(j, nulls).Failure?
  {
  }

  lemma CredentialsBadFieldFails(j: Json, key: string, nulls: Nullability)
    requires j.JObject?
    requires
      || (key in CredentialStringKeys && (key !in j.fields || !j.fields[key].JString?))
      || (key == "team_id" && key in j.fields && !j.fields[key].JNull? && !j.fields[key].JString?)
    ensures DecodeCredentials(j, nulls).Failure?
  {
  }

  // ---------------------------------------------------------------------
  // Arrays and the projects envelope
  // ---------------------------------------------------------------------

  /** `array(decode)`: every element must decode; the values keep the elements' order. */
  function DecodeArray<T>(items: seq<Json>, decode: Json -> Result<T, string>): (r: Result<seq<T>, string>)
    ensures r.Success? <==> forall i :: 0 <= i < |items| ==> decode(items[i]).Success?
    ensures r.Success? ==> |r.value| == |items| && forall i :: 0 <= i < |items| ==> decode(items[i]) == Success(r.value[i])
  {
    if items == [] then Success([])
    else
      var head :- decode(items[0]);
      var tail :- DecodeArray(items[1..], decode);
      assert forall i :: 1 <= i < |items| ==> items[i] == items[1..][i - 1];
      Success([head] + tail)
  }

  function DecodeLogDrains(j: Json, nulls: Nullability): Result<seq<LogDrain>, string> {
    if !j.JArray? then Failure("expected an array")
    else DecodeArray(j.items, d => DecodeLogDrain(d, nulls))
  }

  /** `record({projects: array(decodeProject)})` followed by `.projects`. */
  function DecodeProjectsEnvelope(j: Json): Result<seq<Project>, string> {
    if !j.JObject? then Failure("expected an object")
    else if "projects" !in j.fields then Failure("missing field projects")
    else match j.fields["projects"]
      case JArray(items) => DecodeArray(items, DecodeProject)
      case _ => Failure("field projects is not an array")
  }

  function EncodeLogDrains(ds: seq<LogDrain>): Json {
    JArray(seq(|ds|, i requires 0 <= i < |ds| => EncodeLogDrain(ds[i])))
  }

  function EncodeProjectsEnvelope(ps: seq<Project>): Json {
    JObject(map["projects" := JArray(seq(|ps|, i requires 0 <= i < |ps| => EncodeProject(ps[i])))])
  }

  lemma LogDrainsRoundTrip(ds: seq<LogDrain>, nulls: Nullability)
    ensures DecodeLogDrains(EncodeLogDrains(ds), nulls) == Success(ds)
  {
    var items := EncodeLogDrains(ds).items;
    var decode := (d: Json) => DecodeLogDrain(d, nulls);
    forall i | 0 <= i < |ds|
      ensures decode(items[i]) == Success(ds[i])
    {
      LogDrainRoundTrip(ds[i], nulls);
    }
    var r := DecodeArray(items, decode);
    assert r.value == ds;
  }

  /** `j` is a `{projects: [...]}` envelope whose array decodes, element by element, to `ps`. */
  predicate IsProjectsEnvelope(j: Json, ps: seq<Project>) {
    && j.JObject?
    && "projects" in j.fields
    && j.fields["projects"].JArray?
    && |j.fields["projects"].items| == |ps|
    && forall i :: 0 <= i < |ps| ==> DecodeProject(j.fields["projects"].items[i]) == Success(ps[i])
  }

  lemma ProjectsEnvelopeExact(j: Json, ps: seq<Project>)
    ensures DecodeProjectsEnvelope(j) == Success(ps) <==> IsProjectsEnvelope(j, ps)
  {
    if IsProjectsEnvelope(j, ps) {
      var r := DecodeArray(j.fields["projects"].items, DecodeProject);
      assert r.Success?;
      assert r.value == ps;
    }
  }

  lemma ProjectsEnvelopeRoundTrip(ps: seq<Project>)
    ensures DecodeProjectsEnvelope(EncodeProjectsEnvelope(ps)) == Success(ps)
  {
    var j := EncodeProjectsEnvelope(ps);
    forall i | 0 <= i < |ps|
      ensures DecodeProject(j.fields["projects"].items[i]) == Success(ps[i])
    {
      ProjectRoundTrip(ps[i]);
    }
    ProjectsEnvelopeExact(j, ps);
  }

  // ---------------------------------------------------------------------
  // URLs and requests
  // ---------------------------------------------------------------------

  const ApiBase := "https://api.vercel.com"
  const LogDrainsPath := "/v1/integrations/log-drains"
  const ProjectsPath := "/v4/projects"
  const AccessTokenUrl := "https://api.vercel.com/v2/oauth/access_token"

  function DrainPath(drainId: string): string {
    LogDrainsPath + "/" + drainId
  }

  /** A team scope is requested only by a truthy id: a missing id and "" both mean the personal scope. */
  predicate TeamSelected(teamId: Option<string>) {
    teamId.Some? && teamId.value != ""
  }

  /** The base and the path, followed by `?teamId=` and the id exactly when a team is selected. */
  function ResourceUrl(path: string, teamId: Option<string>): (url: string)
    ensures |ApiBase + path| <= |url| && url[..|ApiBase + path|] == ApiBase + path
    ensures TeamSelected(teamId) <==> |url| > |ApiBase + path|
    ensures TeamSelected(teamId) ==> url[|ApiBase + path|..] == "?teamId=" + teamId.value
  {
    ApiBase + path + (if TeamSelected(teamId) then "?teamId=" + teamId.value else "")
  }

  /** The part of a URL before its first `?`. */
  function UrlPath(url: string): string {
    match IndexOf(url, '?')
    case None => url
    case Some(i) => url[..i]
  }

  /** The query string after the first `?`, if the URL has one. */
  function UrlQuery(url: string): Option<string> {
    match IndexOf(url, '?')
    case None => None
    case Some(i) => Some(url[i + 1..])
  }

  lemma ResourceUrlWithTeam(path: string, teamId: string)
    requires teamId != ""
    ensures ResourceUrl(path, Some(teamId)) == "https://api.vercel.com" + path + "?teamId=" + teamId
  {
  }

  lemma ResourceUrlWithoutTeam(path: string, teamId: Option<string>)
    requires teamId == None || teamId == Some("")
    ensures ResourceUrl(path, teamId) == "https://api.vercel.com" + path
  {
  }

  /** None of the fixed parts of a URL contains a `?`. */
  lemma NoQueryMarkInConstants()
    ensures '?' !in ApiBase && '?' !in LogDrainsPath && '?' !in ProjectsPath
  {
  }

  /**
   * For a path without `?`, a resource URL splits back into the base plus
   * the path, and a query that is present exactly when a team is selected
   * and then names that team.
   */
  lemma {:induction false} ResourceUrlSplits(path: string, teamId: Option<string>)
    requires '?' !in path
    ensures UrlPath(ResourceUrl(path, teamId)) == ApiBase + path
    ensures UrlQuery(ResourceUrl(path, teamId)) == if TeamSelected(teamId) then Some("teamId=" + teamId.value) else None
  {
    var a := ApiBase + path;
    NoQueryMarkInConstants();
    assert '?' !in a;
    if TeamSelected(teamId) {
      var b := "teamId=" + teamId.value;
      assert ResourceUrl(path, teamId) == a + ['?'] + b;
      IndexOfAfterPrefix(a, '?', b);
      assert (a + ['?'] + b)[..|a|] == a;
      assert (a + ['?'] + b)[|a| + 1..] == b;
    } else {
      assert ResourceUrl(path, teamId) == a;
    }
  }

  datatype Method = Get | Post | Delete

  /** Method and URL of an API call; headers and bodies are not part of this model. */
  datatype Request = Request(verb: Method, url: string)

  function LogDrainsRequest(teamId: Option<string>): Request {
    Request(Get, ResourceUrl(LogDrainsPath, teamId))
  }

  function CreateLogDrainRequest(teamId: Option<string>): Request {
    Request(Post, ResourceUrl(LogDrainsPath, teamId))
  }

  function DeleteLogDrainRequest(drainId: string, teamId: Option<string>): Request {
    Request(Delete, ResourceUrl(DrainPath(drainId), teamId))
  }

  function ProjectsRequest(teamId: Option<string>): Request {
    Request(Get, ResourceUrl(ProjectsPath, teamId))
  }

  /** The token exchange posts to a fixed URL, never scoped to a team. */
  function AccessTokenRequest(): Request {
    Request(Post, AccessTokenUrl)
  }

  /** A DELETE of a drain targets the drain's own path below the list endpoint, in the requested scope. */
  lemma DeleteRequestTargetsDrain(drainId: string, teamId: Option<string>)
    requires '?' !in drainId
    ensures DeleteLogDrainRequest(drainId, teamId).verb == Delete
    ensures UrlPath(DeleteLogDrainRequest(drainId, teamId).url) == ApiBase + LogDrainsPath + "/" + drainId
    ensures UrlQuery(DeleteLogDrainRequest(drainId, teamId).url) ==
      if TeamSelected(teamId) then Some("teamId=" + teamId.value) else None
  {
    NoQueryMarkInConstants();
    assert '?' !in DrainPath(drainId);
    ResourceUrlSplits(DrainPath(drainId), teamId);
  }

  /** Listing and creating share one URL; the projects list has its own. */
  lemma ListingEndpoints(teamId: Option<string>)
    ensures LogDrainsRequest(teamId).url == CreateLogDrainRequest(teamId).url
    ensures UrlPath(LogDrainsRequest(teamId).url) == ApiBase + LogDrainsPath
    ensures UrlPath(ProjectsRequest(teamId).url) == ApiBase + ProjectsPath
  {
    NoQueryMarkInConstants();
    ResourceUrlSplits(LogDrainsPath, teamId);
    ResourceUrlSplits(ProjectsPath, teamId);
  }

  // ---------------------------------------------------------------------
  // Replies, errors and the API calls
  // ---------------------------------------------------------------------

  /**
   * What the network delivered for one request: nothing (the fetch
   * rejected), or a status with a body that either parsed as JSON or made
   * `response.json()` reject with a message.
   */
  datatype Reply = NetworkFailure(reason: string) | Received(status: nat, body: Result<Json, string>)

  /** The three kinds of failure a caller can tell apart, and the strings deletion throws. */
  datatype ApiError =
    | Network(detail: string)
    | MalformedBody(detail: string)
    | Undecodable(detail: string)
    | DeleteRejected(status: nat)

  // Each of the two long messages below equals the single literal the client throws, written in two pieces.
  const InvalidQueryMessage := "One of the provided values " + "in the request query is invalid"
  const PermissionDeniedMessage := "You do not have permission " + "to access this resource"
  const NotFoundMessage := "The log drain was not found"
  const UnexpectedStatusPrefix := "Unexpected HTTP status code "

  /** The string `deleteLogDrain` throws for a status other than 204. */
  function DeleteFailureMessage(status: nat): (m: string)
    ensures |m| > 0
    ensures status !in {400, 403, 404} ==>
      |UnexpectedStatusPrefix| <= |m| && m[..|UnexpectedStatusPrefix|] == UnexpectedStatusPrefix
  {
    match status
    case 400 => InvalidQueryMessage
    case 403 => PermissionDeniedMessage
    case 404 => NotFoundMessage
    case _ => UnexpectedStatusPrefix + NatToString(status)
  }

  /** The generic message carries the status code, which reads back from its digits. */
  lemma UnexpectedStatusCarriesCode(status: nat)
    requires status != 400 && status != 403 && status != 404
    ensures |DeleteFailureMessage(status)| > |UnexpectedStatusPrefix|
    ensures DeleteFailureMessage(status)[..|UnexpectedStatusPrefix|] == UnexpectedStatusPrefix
    ensures AllDigits(DeleteFailureMessage(status)[|UnexpectedStatusPrefix|..])
    ensures DecimalValue(DeleteFailureMessage(status)[|UnexpectedStatusPrefix|..]) == status
  {
    var m := DeleteFailureMessage(status);
    assert m[|UnexpectedStatusPrefix|..] == NatToString(status);
    DecimalValueOfNatToString(status);
  }

  /** The three fixed messages differ in length, and none starts like the generic one. */
  lemma FixedMessagesDiffer()
    ensures |InvalidQueryMessage| == 58 && |PermissionDeniedMessage| == 50 && |NotFoundMessage| == 27
    ensures InvalidQueryMessage[0] == 'O'
    ensures PermissionDeniedMessage[0] == 'Y'
    ensures NotFoundMessage[0] == 'T'
    ensures UnexpectedStatusPrefix[0] == 'U'
  {
  }

  /** Every failing status has its own message: the message determines the status. */
  lemma DeleteFailureMessageInjective(a: nat, b: nat)
    requires DeleteFailureMessage(a) == DeleteFailureMessage(b)
    ensures a == b
  {
    if a !in {400, 403, 404} { UnexpectedStatusCarriesCode(a); }
    if b !in {400, 403, 404} { UnexpectedStatusCarriesCode(b); }
    FixedMessagesDiffer();
  }

  /** `${error}` of an Error object: its name, then ": " and its message when there is one. */
  function JsErrorText(name: string, message: string): string {
    if message == "" then name else name + ": " + message
  }

  /** The text `${e}` yields for each error a call can throw. */
  function ErrorText(e: ApiError): (text: string)
    ensures |text| > 0
  {
    match e
    case Network(detail) => JsErrorText("TypeError", detail)
    case MalformedBody(detail) => JsErrorText("SyntaxError", detail)
    case Undecodable(detail) => JsErrorText("Error", detail)
    case DeleteRejected(status) => DeleteFailureMessage(status)
  }

  /**
   * The body of a reply run through `decode`. The status is never looked
   * at: an error reply fails only if its body does not decode.
   */
  function FromReply<T>(reply: Reply, decode: Json -> Result<T, string>): (r: Result<T, ApiError>)
    ensures r.Failure? && r.error.Network? <==> reply.NetworkFailure?
    ensures r.Failure? && r.error.MalformedBody? <==> reply.Received? && reply.body.Failure?
    ensures r.Failure? && r.error.Undecodable? <==> reply.Received? && reply.body.Success? && decode(reply.body.value).Failure?
    ensures r.Success? <==> reply.Received? && reply.body.Success? && decode(reply.body.value).Success?
    ensures r.Success? ==> decode(reply.body.value) == Success(r.value)
  {
    match reply
    case NetworkFailure(reason) => Failure(Network(reason))
    case Received(_, body) =>
      match body
      case Failure(message) => Failure(MalformedBody(message))
      case Success(j) =>
        match decode(j)
        case Success(v) => Success(v)
        case Failure(message) => Failure(Undecodable(message))
  }

  /** The token exchange yields credentials exactly when the reply's body decodes as credentials. */
  function GetAccessToken(reply: Reply, nulls: Nullability): (r: Result<Credentials, ApiError>)
    ensures r.Success? <==> reply.Received? && reply.body.Success? && DecodeCredentials(reply.body.value, nulls).Success?
    ensures r.Success? ==> DescribesCredentials(reply.body.value, r.value, nulls)
  {
    FromReply(reply, j => DecodeCredentials(j, nulls))
  }

  function GetLogDrains(reply: Reply, nulls: Nullability): Result<seq<LogDrain>, ApiError> {
    FromReply(reply, j => DecodeLogDrains(j, nulls))
  }

  /** Creation yields the server's drain exactly when the reply's body decodes as a drain. */
  function CreateLogDrain(reply: Reply, nulls: Nullability): (r: Result<LogDrain, ApiError>)
    ensures r.Success? <==> reply.Received? && reply.body.Success? && DecodeLogDrain(reply.body.value, nulls).Success?
    ensures r.Success? ==> DescribesLogDrain(reply.body.value, r.value, nulls)
  {
    FromReply(reply, j => DecodeLogDrain(j, nulls))
  }

  function GetProjects(reply: Reply): Result<seq<Project>, ApiError> {
    FromReply(reply, DecodeProjectsEnvelope)
  }

  /** Deletion reads only the status: 204 and nothing else succeeds. */
  function DeleteLogDrain(reply: Reply): (r: Result<(), ApiError>)
    ensures r.Success? <==> reply.Received? && reply.status == 204
    ensures reply.NetworkFailure? ==> r == Failure(Network(reply.reason))
    ensures reply.Received? && reply.status != 204 ==> r == Failure(DeleteRejected(reply.status))
  {
    match reply
    case NetworkFailure(reason) => Failure(Network(reason))
    case Received(status, _) => if status == 204 then Success(()) else Failure(DeleteRejected(status))
  }

  /** What a failed deletion says, status by status. */
  lemma DeleteFailureTexts(reply: Reply)
    requires reply.Received? && reply.status != 204
    ensures reply.status == 400 ==> ErrorText(DeleteLogDrain(reply).error) == InvalidQueryMessage
    ensures reply.status == 403 ==> ErrorText(DeleteLogDrain(reply).error) == PermissionDeniedMessage
    ensures reply.status == 404 ==> ErrorText(DeleteLogDrain(reply).error) == NotFoundMessage
    ensures reply.status !in {400, 403, 404} ==>
      ErrorText(DeleteLogDrain(reply).error) == UnexpectedStatusPrefix + NatToString(reply.status)
  {
  }

  /** `getProjects` yields exactly the decoded `projects` array of the envelope. */
  lemma GetProjectsUnwrapsEnvelope(reply: Reply, ps: seq<Project>)
    ensures GetProjects(reply) == Success(ps) <==>
      reply.Received? && reply.body.Success? && IsProjectsEnvelope(reply.body.value, ps)
  {
    if reply.Received? && reply.body.Success? {
      ProjectsEnvelopeExact(reply.body.value, ps);
    }
  }

  /** A reply that carries the encoding of a list of drains lists exactly those drains, whatever its status. */
  lemma GetLogDrainsOfEncoded(status: nat, ds: seq<LogDrain>, nulls: Nullability)
    ensures GetLogDrains(Received(status, Success(EncodeLogDrains(ds))), nulls) == Success(ds)
  {
    LogDrainsRoundTrip(ds, nulls);
  }
}
