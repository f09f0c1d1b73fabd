# Vercel log-drain integration: a Dafny model of its decision logic

This project models the three pieces of the integration that decide
something, and proves properties of them.

- **The Vercel API client** (`lib/vercel.ts`), in module `Vercel`
  (vercel.dfy). It covers the entities `Credentials`, `Project` and
  `LogDrain`, and their record decoders over an abstract JSON value
  (module `Json`, json.dfy). It also covers `array(...)` decoding, the
  `{projects: [...]}` envelope, resource URL construction with the optional
  `?teamId=` query, and each request's method and URL. Deletion's mapping
  from HTTP status to outcome is modelled, and so is the outcome of each
  API call given the reply the network delivered. A reply is a `Reply`:
  either a network failure, or a status with a body that did or did not
  parse as JSON. Callers can tell apart the three error kinds: network,
  malformed body, and undecodable body.
- **The configuration page** (`pages/configure.tsx`), in module
  `Configure` (configure.dfy). It has a three-variant `State` and the pure
  transition function `Next` over the page's events. `Run` is its iteration
  over a sequence of events. The class `ConfigurePage` holds the single
  `state` cell and has one method per handler: login submit, `handleLogin`,
  create click, cancel, create submit, `handleDrainCreation` and
  `handleDrainDeletion`. Each method replaces the cell wholesale, as
  `setState` does. The awaited API calls enter these methods as `Reply`
  values.
- **The token-exchange route** (`pages/api/get-access-token.ts`), in
  module `AccessToken` (access_token.dfy). It decides from the environment
  variables and the `code` query parameter. The answer is 500 or 400, or
  an exchange call whose result becomes a 200 JSON answer.

Helper modules: `Wrappers` (Option, Result) and `Text` (the decimal
rendering of `${status}` with its inverse, and a first-occurrence search
used to split a URL at its `?`).

Behaviour of the source worth noting:
- Listing drains, creating a drain, listing projects and the token
  exchange never look at the HTTP status. An error reply fails only when
  its body does not decode, and no separate HTTP-status failure exists for
  these calls. Only deletion reads the status.
- Login fetches the drains and then the projects one after the other. The
  projects are fetched only when the drains fetch succeeded
  (`HandleLogin`'s `requests`).
- A team id of `""` selects the personal scope, the same as no team id,
  because the check is JavaScript truthiness.

## Model

| member | source | states |
|---|---|---|
| Vercel.ParseDrainType | lib/vercel.ts:38 | the drain type accepts exactly the strings `json`, `ndjson`, `syslog`, and reads back to the same name |
| Vercel.DecodeCredentials | lib/vercel.ts:7-13 | whatever credentials decoding yields carries exactly the object's four string fields and its null-or-string `team_id` |
| Vercel.DecodeProject | lib/vercel.ts:23-27 | a decoded project carries exactly the object's `accountId`, `id` and `name` strings |
| Vercel.DecodeLogDrain | lib/vercel.ts:33-43 | a decoded drain carries every field of the object with its type, `type` one of the three literals |
| Vercel.DecodeCredentialsExact | lib/vercel.ts:7-13 | credentials decode to `c` iff the value is an object with the four string fields and `team_id` null-or-string equal to `c`'s; extra keys are ignored |
| Vercel.CredentialsRoundTrip | lib/vercel.ts:7-13 | decoding the API's encoding of any credentials gives them back, for either meaning of `nullable` |
| Vercel.CredentialsBadFieldFails | lib/vercel.ts:7-13 | a missing or non-string required field, or a `team_id` that is neither null nor a string, makes decoding fail |
| Vercel.DecodeProjectExact | lib/vercel.ts:23-27 | a project decodes to `p` iff the object carries `accountId`, `id` and `name` as those strings |
| Vercel.ProjectRoundTrip | lib/vercel.ts:23-27 | decoding an encoded project gives it back |
| Vercel.DecodeLogDrainExact | lib/vercel.ts:33-43 | a drain decodes to `d` iff every field is present with its type (`createdAt` a number, `type` one of the three literals, `projectId` null or string) and equals `d`'s |
| Vercel.LogDrainRoundTrip | lib/vercel.ts:33-43 | decoding an encoded drain gives it back |
| Vercel.LogDrainBadFieldFails | lib/vercel.ts:33-43 | a missing or mistyped required field, a `type` outside the three literals, or a `projectId` neither null nor string makes decoding fail |
| Vercel.DecodeArray | lib/vercel.ts:91 | `array(decode)` succeeds iff every element decodes, and then yields the decoded elements in order, one per element |
| Vercel.LogDrainsRoundTrip | lib/vercel.ts:91 | an encoded list of drains decodes to the same list |
| Vercel.ProjectsEnvelopeExact | lib/vercel.ts:157-167 | the envelope decodes to `ps` iff it is an object whose `projects` array decodes element-wise to `ps` |
| Vercel.ProjectsEnvelopeRoundTrip | lib/vercel.ts:157-167 | an encoded envelope of projects decodes to exactly those projects |
| Vercel.GetProjectsUnwrapsEnvelope | lib/vercel.ts:156-168 | `getProjects` returns `ps` iff the reply's body is an envelope whose `projects` array decodes to `ps` |
| Vercel.GetLogDrainsOfEncoded | lib/vercel.ts:83-92 | a reply carrying an encoded drain list yields exactly that list, whatever its status |
| Vercel.FromReply | lib/vercel.ts:88-91 | a network failure, a body that is not JSON and a body that does not decode give three distinct error kinds; success iff the body decodes, with the decoded value |
| Vercel.GetAccessToken | lib/vercel.ts:60-74 | the token exchange yields credentials iff the reply's body decodes as credentials, and then the body describes them; the status is not read |
| Vercel.CreateLogDrain | lib/vercel.ts:95-128 | creation yields a drain iff the reply's body decodes as a drain, and then the body describes it; the status is not read |
| Vercel.ResourceUrl | lib/vercel.ts:178-182 | the URL starts with the base and the path, and continues past them exactly when a team is selected, then with `?teamId=` and the id |
| Vercel.ResourceUrlWithTeam | lib/vercel.ts:178-181 | with a non-empty team id the URL is the base, the path, then `?teamId=` and the id |
| Vercel.ResourceUrlWithoutTeam | lib/vercel.ts:178-181 | with no team id or `""` the URL is the base and the path, with no query string |
| Vercel.ResourceUrlSplits | lib/vercel.ts:178-181 | for a path without `?`, the URL splits back into base plus path, and a query present exactly when a team is selected, naming that team |
| Vercel.DeleteRequestTargetsDrain | lib/vercel.ts:131-140 | deletion is a DELETE of `/v1/integrations/log-drains/<id>` in the requested scope |
| Vercel.ListingEndpoints | lib/vercel.ts:83-160 | listing and creating drains use one URL under `/v1/integrations/log-drains`; projects use `/v4/projects` |
| Vercel.DeleteLogDrain | lib/vercel.ts:141-152 | deletion succeeds iff the reply has status 204 (200 is a failure); any other status fails carrying that status |
| Vercel.DeleteFailureMessage | lib/vercel.ts:141-152 | every failure message is non-empty, and a status other than 400, 403 and 404 gives a message starting `Unexpected HTTP status code ` |
| Vercel.DeleteFailureTexts | lib/vercel.ts:144-151 | 400, 403 and 404 give their fixed messages; every other status gives `Unexpected HTTP status code ` and the number |
| Vercel.UnexpectedStatusCarriesCode | lib/vercel.ts:150-151 | the generic message starts with the fixed prefix and its remaining digits read back as the status |
| Vercel.DeleteFailureMessageInjective | lib/vercel.ts:141-152 | distinct failing statuses give distinct messages |
| Vercel.ErrorText | pages/configure.tsx:57 | the text `${e}` of any error a call throws is non-empty |
| Configure.WithoutDrain | pages/configure.tsx:67 | the filtered list holds exactly the drains of the old list whose id differs from the deleted id, and is no longer |
| Configure.WithoutDrainConcat | pages/configure.tsx:67 | filtering distributes over concatenation, so kept drains keep their relative order |
| Configure.WithoutAbsentDrain | pages/configure.tsx:67 | deleting an id no drain has leaves the list unchanged |
| Configure.WithoutDrainRemovesEntry | pages/configure.tsx:67 | removing the only drain with an id from `before + [x] + after` gives `before + after` |
| Configure.WithoutDrainIdempotent | pages/configure.tsx:67 | filtering twice by the same id is filtering once |
| Configure.Next | pages/configure.tsx:36-117 | an event is refused exactly when it does not belong to the current screen (login submit off the login form, create click or deletion off the list, cancel, create submit or creation off the drain form); outside the login form no event but a login leaves the session's screens or changes the team id |
| Configure.NextPreservesInv | pages/configure.tsx:36-117 | every transition keeps the invariant: a login error is always `Login failed.`, a submitting drain form shows no error, a shown creation error is non-empty |
| Configure.RunPreservesInv | pages/configure.tsx:36-117 | the invariant holds after any sequence of events from a state satisfying it |
| Configure.NextKeepsAccount | pages/configure.tsx:48-117 | except a login, no event changes the team id, token or projects; the drains stay, gain one appended drain, or are filtered |
| Configure.RunKeepsAccount | pages/configure.tsx:48-117 | along any run without a login the page stays logged in with the same team id, token and projects |
| Configure.RunDrainsProvenance | pages/configure.tsx:36-72 | every drain on the page was there at the start or was returned by a login or a creation during the run |
| Configure.DeletionRemovesId | pages/configure.tsx:66-68 | after a successful deletion the page is still logged in and no drain with that id remains |
| Configure.ConfigurePage.constructor | pages/configure.tsx:31-34 | the page starts on the login form, not submitting, without an error |
| Configure.ConfigurePage.SubmitLogin | pages/configure.tsx:79 | submitting the login form sets `submitting` and keeps the previous error |
| Configure.ConfigurePage.HandleLogin | pages/configure.tsx:36-46 | both fetches succeeding gives `logged_in` with exactly the fetched session; otherwise `login`, not submitting, with `Login failed.`; projects are fetched only after the drains fetch succeeded, both in the given team scope |
| Configure.ConfigurePage.ClickCreate | pages/configure.tsx:92-98 | the create click moves to the drain form with the same session, not submitting, no error |
| Configure.ConfigurePage.Cancel | pages/configure.tsx:106 | cancel returns to the list with the session unchanged |
| Configure.ConfigurePage.SubmitCreate | pages/configure.tsx:108 | submitting the drain form sets `submitting` and clears the error |
| Configure.ConfigurePage.HandleDrainCreation | pages/configure.tsx:48-59 | legal only on the drain form; success returns to the list with the created drain appended and the rest of the session unchanged; failure stays on the form, not submitting, with a non-empty error |
| Configure.ConfigurePage.HandleDrainDeletion | pages/configure.tsx:61-72 | legal only on the list; a 204 reply filters the drain out and changes nothing else; any failure leaves the state as it was |
| AccessToken.Decide | pages/api/get-access-token.ts:7-23 | the exchange is called iff all three variables are truthy and `code` is one non-empty string; otherwise 500 for the environment, checked first, then 400; the call carries the id, secret, code and `REDIRECT_HOST + "/callback"` |
| AccessToken.Handle | pages/api/get-access-token.ts:4-27 | the answer is 200 with a JSON content type and the credentials iff the checks pass and the exchange succeeds; 500 and 400 as decided; when the checks pass and the exchange fails, its error escapes the handler |
| AccessToken.ExchangeRequests | pages/api/get-access-token.ts:7-23 | the handler sends at most one request, a POST to the token endpoint, and sends it iff both checks pass |
| AccessToken.EnvironmentCheckedFirst | pages/api/get-access-token.ts:7-16 | with an incomplete environment the answer is 500 whatever `code` is |
| AccessToken.RejectionMakesNoExchange | pages/api/get-access-token.ts:7-16 | a rejected request does not depend on the token endpoint's reply |
| AccessToken.RedirectUriShape | pages/api/get-access-token.ts:21 | the redirect URI is the host followed by `/callback` |

## Left out

- Network I/O (`fetch`, `response.json()`), the bearer header, and the request bodies (`URLSearchParams`, `JSON.stringify`) are not modelled. Each call is represented by its method and URL, and by the reply it received.
- `typescript-json-decoder` is foreign code. Decoders are validators over the `Json` datatype. Whether `nullable` also accepts an absent key is a `Nullability` parameter, and every property holds for both choices. The decoders' error wording is the model's own.
- ErrorText: the text of a decoder error is modelled as that of an `Error` with the decoder's message. The library's real wording is not part of this model. The text of a network error is modelled as a `TypeError`'s and that of a malformed body as a `SyntaxError`'s.
- JSON numbers are integers here. Fractional `createdAt` values are not modelled.
- `getAccessTokenFromClient` (the browser's call of the route) is not modelled. It only builds a relative URL and reuses the credentials decoder.
- React rendering and the form components' own input state (`LoginForm`, `DrainList`, `NewDrain`, `DrainParams` editing) are not modelled. Neither is the drain count's pluralisation, nor `pages/callback.tsx`.
- `lib/utils.ts` is not part of this model. `randomString` is randomness. `assert` becomes the preconditions `state.CreateNewDrain?` and `state.LoggedIn?` on the creation and deletion handlers, and `None` in `Next`.
- Console logging of failures is not modelled.
- Async interleaving and stale closures are not modelled. Each handler acts on the state current when it runs.
- Next.js's answer when the token exchange throws is not modelled. The handler writes no response then, which the model records as `Escaped`.
