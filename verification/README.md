# Verification of centrauth

centrauth is an OpenID Connect provider: the authorization code flow with
mandatory PKCE (section 4.1 of RFC 6749, section 4 of RFC 7636, sections 2 and
3.1 of OpenID Connect Core 1.0), sign-in brokered through Google and GitHub, and
an admin console. This project models its logic in Dafny and proves what it
promises, for every input and for every interleaving of requests.

`dafny verify dfyconfig.toml` checks everything.

## How it is modelled

Code that computes a value is a function. Code that changes state is a class with
the source's fields, its methods written step by step as the source writes them.
Concurrent claims are about step relations: a request is a small program whose
steps are single database statements, transactions or clock readings, and a run is
any interleaving of such steps. A request, of either endpoint or of the broker,
carries a stamp of the state it came in at, which no step decides by and which is
proved to be that state of the run, so that results can say what was true since. The
two meet in the handler classes: each method is proved to end in the state and with
the answer that its own steps give when nothing comes between them, and that sequence
of steps is proved to be one of the runs, so what holds of all runs holds of the
handler. What is answered is stated apart from the steps: for each endpoint, which
requests succeed, with what, and which error comes first otherwise.

| file | what it holds |
|---|---|
| `Prelude.dfy`, `Models.dfy` | option and result types, table rows, the digest and the URL parser |
| `Text.dfy`, `Decimal.dfy`, `Base64.dfy`, `Query.dfy` | Go's `strings`, `fmt`, `encoding/base64` and `net/url` as far as used |
| `Oauth.dfy` | request validation, PKCE, client checks, redirect URI rules |
| `Forms.dfy`, `Registration.dfy` | form text to lists and scopes; registering applications and clients |
| `Password.dfy` | the argon2id hash string, printed and parsed |
| `Sessions.dfy` | session tables and managers, of users and of operators |
| `CodeFlow.dfy`, `CodeFlowInvariant.dfy`, `CodeFlowResults.dfy`, `CodeHandlers.dfy` | the authorization and token endpoints: steps, invariant, results, handlers |
| `CodeFlowAnswers.dfy` | exactly what each endpoint answers to a request that nothing interrupts |
| `CodeFlowExact.dfy`, `CodeFlowScenario.dfy` | two guarantees of the endpoints that hold under a condition: exactly when, and runs in which they fail |
| `Upstream.dfy`, `Providers.dfy` | supported providers, GitHub's address selection, provider configuration |
| `Provisioning.dfy`, `ProvisioningAddresses.dfy` | local users from upstream identities, and their addresses |
| `Broker.dfy`, `BrokerProvenance.dfy`, `BrokerHistory.dfy`, `BrokerResults.dfy`, `UpstreamHandlers.dfy` | prompt, start and callback of a brokered sign-in, on top of the code flow and of provisioning: steps, invariant, when what took place, results, handlers |
| `BrokerAnswers.dfy` | exactly when a start is redirected and when a callback signs in |
| `BrokerTargets.dfy`, `BrokerScenario.dfy` | which client the two handlers read in one request target, and a run in which they read two |
| `Setup.dfy` | the first operator's seat |

Tables from which nothing is deleted are sequences, a row's id being its index.
Times are integers in nanoseconds. SHA-256 is some function with 32-byte results;
only the results that name `CollisionFree` assume more. argon2 is some function
whose result has the requested length. `url.Parse`, query unescaping and the JSON
codec are parameters; of JSON only that decoding undoes encoding, that an object
starts with a brace, and that a text starting with a slash is no object. The secret
box is ideal: a ciphertext opens to what was sealed in it, sealing picks a new
ciphertext, and browsers present values that decode to a ciphertext they were given
or that open nothing. Random values are parameters, fresh only where a unique constraint or a
hypothesis says so. Every statement may fail without effect.

## What the code does not guarantee

- `Consume` (`internal/repository/code_repo.go:39-48`) is said to refuse expired
  codes. It reads the clock twice: the condition holds for the first reading, and
  the stored `consumed_at` is the second. It lies within the expiry exactly when the
  clock moved by less than was left in between (`CodeFlowExact.StampWithinExpiry`);
  `CodeFlowScenario.StampsCanBeLate` gives a run from the start in which it does not.
- A code's scopes were allowed by the application as it was at some state since the
  request came in. At the insertion they still are exactly when the last edit since
  the request loaded the application, if any, names them all
  (`CodeFlowExact.ScopesAllowedAtInsertion`); `CodeFlowScenario.ScopesCanBeNarrowed`
  gives a run from the start in which they are not.
- The start of a brokered sign-in reads `client_id` from the stored target with
  `url.Parse`, which ends the query at a `#`; the authorization handler read it from
  a target parsed without fragments. `BrokerTargets.StoredIdIsRequested` says exactly
  when they agree, and `BrokerTargets.StoredIdMayDiffer` that any complete request of
  plain text can come in a target in which they do not. So the sealed application need
  not be the one whose prompt was shown: it is exactly when they agree or the two ids
  name clients of one application (`BrokerResults.SignInIsForThePromptedClient`), and
  `BrokerScenario.ApplicationsCanDiffer` gives a run from the start, through prompt,
  start and callback, in which it is not.
- `HashPassword` and `VerifyPassword` panic inside argon2 on parameters it does not
  accept; the round trip holds exactly for those it does
  (`Password.HashThenVerify`).
- `syntheticEmail` (`internal/service/provider_service.go:185-195`) maps different
  subjects to one address, `a.b` and `a-b` for instance, and the second identity is
  then refused (`ProvisioningAddresses.CollidingSubjects`).

## Model

| member | source | states |
|---|---|---|
| CodeFlowInvariant.RunKeeps | internal/token.go:28-188 | The invariant of the whole system (tables sound, each code issued by one authorization request and consumed by at most one token request) holds after any interleaving, and runs only append rows, consume codes and finish requests |
| CodeFlowResults.ConsumedAtMostOnce | internal/repository/code_repo.go:42-55 | Between any two states of a run a code row changes in nothing but `consumed_at`, and that at most once, from null to set |
| CodeFlowResults.OneGrantPerCode | internal/token.go:90-121 | Of all requests that ever present one code text, at most one is answered with a token (section 4.1.2 of RFC 6749) |
| CodeFlowResults.OnlyConsumptionWrites | internal/token.go:28-188 | The only write of a token request is the conditional update of the row it loaded, which was unconsumed; once it has consumed, it stays so |
| CodeFlowResults.RejectedBeforeConsuming | internal/token.go:31-121 | A request rejected before consuming is recorded as the consumer of no code |
| CodeFlowResults.RejectedAfterConsuming | internal/token.go:117-174 | A code consumed by a request that was then rejected (redirect, PKCE, random source, user, token failure) is never granted on later |
| CodeFlowResults.GrantIsBound | internal/authorize.go:92-138 | Every granted token traces back to one earlier authorization request for the same client, public or authenticated at exchange by its secret where its method wants it, and the same redirect URI. It was made with a session of the stored user that was live after the request came in, its challenge is the S256 of the presented verifier, and its code was consumed for a reading made since the token request came in and strictly before an expiry 60 seconds after a reading of the authorization request (section 4.1.3 of RFC 6749, section 4.6 of RFC 7636) |
| CodeFlowAnswers.TokenGrantedExactly | internal/token.go:28-188 | At any reachable state, a token request that nothing interrupts is granted exactly when it is a complete form for this grant type, from a public client or one with its secret by its method, with an unconsumed, unexpired code of that client, the code's redirect URI, a verifier of 43 to 128 bytes that meets its challenge, and a working random source; every other one is refused with the status and error of what is wrong first, and the code is consumed exactly if it could be taken |
| CodeFlowAnswers.RightRequestsAreGranted | internal/token.go:117-188 | The answer of such a request: the code consumed, an access token of the random bytes, ten minutes or the configured lifetime, and with `openid` the claims about the code's user |
| CodeFlowResults.AuthenticatedExactly | internal/token.go:190-209 | Authentication, for a client as registered: public, or `client_secret_basic` with its id and secret in the header, or `client_secret_post` with them in the form |
| CodeFlowResults.TokenArrivalIsReal | internal/token.go:28-31 | The stamp of a token request is the state of the run at which it came in |
| CodeFlowResults.ExpiredCodesAreRefused | internal/repository/code_repo.go:42-55 | A token request that comes in at or after the expiry of the code it presents is never granted and is recorded as the consumer of no code, whatever else happens |
| CodeFlowResults.ArrivalIsReal | internal/authorize.go:42-45 | The stamp of an authorization request is the state of the run at which it came in |
| CodeFlowResults.CodesNeedALiveSession | internal/middleware/session.go:16-39 | A request that got a code came in at some state k, and at a state from there on the session of its cookie was live, by the specification of sessions, for a clock reading made since k |
| CodeFlowResults.DeadSessionsGetNoCode | internal/session/session.go:56-69 | A request whose cookie has, from its arrival on, only revoked or expired sessions gets no code, whatever else happens |
| CodeFlowResults.OneOrigin | internal/authorize.go:117-153 | That authorization request is unique, and with a collision-free digest it redirected with exactly the presented code |
| CodeFlowResults.ExpiryIsSixtySeconds | internal/oauth/code.go:12-12 | The expiry of every stored code is exactly 60 seconds after a clock reading of the request that issued it, made between the check of its session and the insertion |
| CodeFlowExact.StampWithinExpiry | internal/repository/code_repo.go:43-47 | Whatever else runs between the two clock readings and before the update, the stored time of consumption is the second reading, and it is before the expiry exactly when the clock moved, between them, by less than was left at the first |
| CodeFlowScenario.StampsCanBeLate | internal/repository/code_repo.go:43-47 | From the empty system, with any digest and at any time, a run ends with a consumption stored past the expiry |
| CodeFlowResults.IdTokenContent | internal/token.go:142-178 | An ID token is issued exactly when `openid` was requested; it carries the request's non-empty nonce, the stored user's subject, the exchanging client's id, the configured issuer, the user's address exactly when `email` was requested, the code's creation as authentication time, an issue between the consumption of the code and now, and a lifetime equal to the answer's `expires_in`, ten minutes or as configured, or a second longer (section 2 of OpenID Connect Core 1.0) |
| CodeFlowResults.ClaimsOf | internal/oidc/idtoken.go:50-61 | The claims built from a loaded code, a user and a clock reading are those |
| CodeFlowResults.StoredScopesWereAllowed | internal/authorize.go:84-90 | Every scope on a stored code is one of the three, and at a state of the run between the arrival of its request and its insertion the client's application, as it then was, allowed them all |
| CodeFlowExact.ScopesAllowedAtInsertion | internal/authorize.go:77-134 | Whatever runs between the load of the application and the insertion, the application allows all scopes of the new code exactly when its last accepted edit in between, if any, names them all |
| CodeFlowScenario.ScopesCanBeNarrowed | internal/authorize.go:77-134 | From the empty system, with any digest and at any time, a run ends with a stored code whose application does not allow its scope |
| CodeFlowResults.RedirectsAreRegistered | internal/authorize.go:67-70 | Every redirect, with a code or an error, goes to the requested URI, which is registered for the named client and parses, absolute, without fragment, and over plain http only to the machine itself (section 4.1.2.1 of RFC 6749) |
| CodeFlowResults.AdmittedRequestsAreProper | internal/oauth/authorize.go:59-81 | Whoever got a code or saw the prompt had asked for response type `code`, with an S256 challenge of 43 to 128 bytes, a state, and a nonce if for `openid` |
| CodeFlowResults.StoredCodesAreProper | internal/authorize.go:124-134 | So had the request of every stored code, whose row carries its challenge, scope and nonce |
| CodeFlowAnswers.LoneRequestsAreAnswered | internal/authorize.go:42-152 | At any reachable state, what an authorization request that nothing interrupts is answered: without a known client and a URI of it a page, otherwise a redirect with `unsupported_response_type`, `invalid_request` or `invalid_scope`, in this order; then the prompt if no session of its cookie is live, and otherwise a code for the session's user, or `server_error` when there is none to be had |
| CodeFlowAnswers.CodeIssuedExactly | internal/authorize.go:92-138 | So a code is issued exactly to a proper request of a known client with a live session, allowed scopes and a new code; and the prompt shown exactly without a live session |
| CodeFlowResults.ParseExitsUnreachable | internal/authorize.go:155-160 | Once a redirect URI was found registered, the exits for one that does not parse are never taken by the checks of the application and of the code |
| CodeFlowResults.RefusedRequestsAreRedirected | internal/authorize.go:66-75 | Nor by the validation of the request: for a known client and a registered URI it goes on exactly if proper, and otherwise redirects with `unsupported_response_type` or, for all else, `invalid_request` |
| CodeFlowResults.EveryCodeWasDelivered | internal/authorize.go:131-153 | Every stored code was sent in a redirect to its own redirect URI by the very request that stored it |
| CodeHandlers.App.CreateCode | internal/repository/code_repo.go:26-29 | A code is appended unless its hash is stored already |
| CodeHandlers.App.Consume | internal/repository/code_repo.go:42-55 | Succeeds exactly when the row is unconsumed and unexpired for the first reading, and stores the second |
| CodeHandlers.App.TokenHandler | internal/token.go:28-88 | The whole handler, in order, ends as its steps do when uninterrupted: same table, same answer |
| CodeHandlers.App.ExchangeCode | internal/token.go:90-121 | The same for the part from the code lookup to the consumption |
| CodeHandlers.App.Respond | internal/token.go:123-188 | The same for the checks after consumption and the response |
| CodeHandlers.App.BuildClaims | internal/token.go:149-170 | The parameters gathered for an ID token and the claims made of them |
| CodeHandlers.TokenSoloIsRun | internal/token.go:28-188 | An uninterrupted token request, its clock readings not going back, is a run of the system |
| CodeHandlers.App.Middleware | internal/middleware/session.go:16-39 | A user is present exactly when the session was read unrevoked, was unexpired when checked, and its user exists |
| CodeHandlers.App.RedirectAuthorizeError | internal/authorize.go:155-169 | Redirects with the error, or shows it when the URI does not parse |
| CodeHandlers.App.AuthorizeHandler | internal/authorize.go:42-75 | The middleware and the whole handler behind it end as their steps do when uninterrupted: same table, same answer |
| CodeHandlers.App.PromptOrIssue | internal/authorize.go:77-115 | The same from the application lookup on, to the prompt or to the code |
| CodeHandlers.App.IssueCode | internal/authorize.go:117-152 | The same for storing the code and redirecting with it |
| CodeHandlers.AuthorizeSoloIsRun | internal/authorize.go:42-153 | An uninterrupted authorization request is a run of the system |
| Provisioning.RunKeeps | internal/service/provider_service.go:126-183 | The invariant below, with what every unfinished request knows, holds after any interleaving, and both tables only grow |
| Provisioning.TablesStaySound | internal/repository/user_identity_repo.go:46-54 | In every reachable state: subjects, addresses (ignoring case), identity pairs and one identity per provider and user are unique, every identity's user exists, and every user has an identity its address came from |
| Provisioning.SubjectsAreRandom | internal/service/provider_service.go:166-171 | The subject of every user in a reachable table is the base64url text of the random bytes of the request that made it |
| Provisioning.DistinctRandomsNeverClash | internal/service/provider_service.go:197-203 | So a buffer that no request has used gives a subject that no user has, whatever the upstream subjects are |
| Provisioning.IdentitiesAreWritten | internal/service/provider_service.go:143-181 | Every stored identity is one that a request came with: its provider, subject, name and flag, and its address as it came or, if vouched for, trimmed |
| Provisioning.NeverRebound | internal/db/migrations/20261103000200_identity_providers.sql:26-27 | A pair of provider and subject, once bound to a user, is bound to that user for ever |
| Provisioning.ProvisioningIsAFunction | internal/service/provider_service.go:126-155 | Whatever races they ran, two successful runs for one pair return the same user row |
| Provisioning.StepAddsOneIdentityOrNothing | internal/service/provider_service.go:152-182 | A statement that changes a table adds the identity of its own request, with its new user or for an existing one, and finishes returning that user; a failing run leaves nothing behind |
| Provisioning.ProviderService.CreateIdentity | internal/repository/user_identity_repo.go:41-44 | Inserts exactly when the user exists and both unique constraints allow it |
| Provisioning.ProviderService.CreateUserWithIdentity | internal/repository/user_identity_repo.go:46-54 | Both rows or neither |
| Provisioning.ProviderService.ProvisionUser | internal/service/provider_service.go:126-183 | The method ends as its statements do when uninterrupted: same tables, same answer |
| Provisioning.AloneIsRun | internal/service/provider_service.go:126-183 | An uninterrupted run is one of the interleavings |
| ProvisioningAddresses.UnverifiedAddressesStayOut | internal/service/provider_service.go:123-138 | A user's address is the trimmed one of an identity that vouched for it, or, if it vouched for none, its provider, a hyphen, its subject with a hyphen for all but letters, digits, `-` and `_`, and the reserved domain; unverified addresses never get in |
| ProvisioningAddresses.TwoKindsOfUsers | internal/service/provider_service.go:135-178 | If no provider vouches for an address under the reserved domain, every user is of exactly one kind: all its identities verified with its address up to trimming and case, or a single identity that vouches for nothing and gave its synthetic address |
| ProvisioningAddresses.SyntheticEmailsCollide | internal/service/provider_service.go:185-195 | Synthetic addresses of Google and GitHub identities coincide, ignoring case, exactly when provider and sanitised subject do |
| ProvisioningAddresses.PlainSubjectsNeverCollide | internal/service/provider_service.go:185-195 | On lower-case subjects over letters, digits, `-` and `_` the synthetic address determines the identity, even ignoring case |
| ProvisioningAddresses.ProvisioningSucceedsExactly | internal/service/provider_service.go:126-183 | If no provider vouches for an address under the reserved domain, then from any reachable state an uninterrupted, fault-free run whose random bytes spell no subject there is fails exactly when its pair is unbound and an identity of the same provider already vouches for its address, or, if it has none, has an equal sanitised subject and vouches for nothing |
| ProvisioningAddresses.PlainSubjectsAlwaysSucceed | internal/service/provider_service.go:161-182 | Among plain subjects a run for an identity without vouched address never fails |
| ProvisioningAddresses.CollidingSubjects | internal/service/provider_service.go:185-195 | Outside them it can: after `a.b` the identity `a-b` of the same provider is refused |
| BrokerAnswers.StartRedirectsExactly | internal/upstream_flow.go:29-117 | At any reachable state, a start that carries a sealed target is redirected exactly when it is for Google or GitHub, the target begins with `/authorize?` and parses, a client it names has an application that offers the provider, and the random source and the seal work; what is sealed and sent is then a new state, with Google a verifier and its challenge, for ten minutes |
| BrokerAnswers.CallbackOpensExactly | internal/upstream_flow.go:121-151 | At any reachable state, a callback with the cookie of a start is let in exactly when provider and state are that start's, there is a code and no error, and no more than ten minutes have passed, in whole seconds |
| BrokerAnswers.CallbackSignsInExactly | internal/upstream_flow.go:119-194 | Run to its end it signs in exactly when, besides, the provider is offered, the exchange gave an identity, provisioning it gave a user and the token is new; the session is that user's and lives for the configured time |
| BrokerAnswers.PromptHandsOutTarget | internal/authorize.go:201-217 | A rendered prompt hands out the target of its request as it came in |
| BrokerProvenance.RunKeeps | internal/upstream_flow.go:29-195 | The broker's invariant, on top of the code flow's and provisioning's, holds after any interleaving of prompts, starts, callbacks, provisioning statements, provider changes and code flow actions |
| BrokerResults.SignInHasProvenance | internal/upstream_flow.go:141-194 | Whenever a callback creates a session and redirects, its target was answered with the prompt (known client, registered redirect URI, valid request, scopes allowed since it came in) before its start came in, the start was redirected before the callback came in, the sealed application is that of the client the stored target names, the provider was enabled for it in tables met since the start and since the callback came in, and the user is the one bound to the identity |
| BrokerResults.ProviderWasEnabledTwice | internal/upstream_flow.go:62-75 | The provider was enabled for the sealed application at a state between the arrival of the start and its redirect, and at a state from the arrival of the callback on; prompt, start, redirect and callback come in this order |
| BrokerResults.DisabledProvidersSignNobodyIn | internal/upstream_flow.go:153-157 | A provider that is disabled for an application in every state from the callback's arrival on signs nobody in for it |
| BrokerHistory.StartCameIn | internal/upstream_flow.go:29-31 | The stamp of a start is the state of the run at which it came in |
| BrokerHistory.StartWasSent | internal/upstream_flow.go:102-117 | The stamp of a redirect to the provider is the state at which it was sent, and what was chosen then is what it was sent for |
| BrokerHistory.CallbackCameIn | internal/upstream_flow.go:119-121 | The stamp of a callback is the state of the run at which it came in |
| BrokerHistory.PromptWasRendered | internal/authorize.go:92-108 | The step noted for a prompt is the one in which it was rendered |
| BrokerHistory.IdentityWasExchanged | internal/upstream_flow.go:168-179 | The identity a callback provisions is the one its own exchange answered with, under the name of the provider that was asked |
| BrokerResults.SignInAnswersItsStart | internal/upstream_flow.go:146-151 | The callback came back to the provider the start had chosen, with the state the start had sent, less than ten minutes and a second after it |
| BrokerResults.KindsNeverConfused | internal/upstream_flow.go:218-239 | A cookie value a browser can present is accepted as a pending request only if that target was prompted, as a sign-in state only if a start made that payload, and never as both |
| BrokerTargets.StoredIdIsRequested | internal/upstream_flow.go:43-48 | Start and authorization handler read the same client id from a target exactly when it has no `#`, or a complete pair before it names one, or the cut pair names what the rest names |
| BrokerTargets.StoredIdMayDiffer | internal/upstream_flow.go:43-48 | Every request whose parameters are plain text can come, complete and unchanged, in a target in which the start handler reads any other plain id |
| BrokerResults.SignInIsForThePromptedClient | internal/upstream_flow.go:48-60 | A finished sign-in ran for the very client that was prompted exactly when the target meets that condition, and for its application exactly when it does or the two ids name clients of one application |
| BrokerScenario.ApplicationsCanDiffer | internal/upstream_flow.go:43-60 | From the empty system, with any digest, verifier and clock, a run registers two applications and ends with a sign-in, one that came from a prompt of the second application, sealed for the first |
| BrokerScenario.UsualSettingsExist | internal/upstream_flow.go:218-239 | What this asks of the URL parser, the unescaping and the JSON codec is met by some, with any digest |
| BrokerResults.EverySessionWasBrokered | internal/upstream_flow.go:174-194 | Every user session was created by a finished callback, for the user it signed in |
| BrokerResults.TokenTracesToSignIn | internal/upstream_flow.go:192-194 | End to end: a granted token goes back to its authorization request, that to a session live since its arrival, and that to a finished sign-in of the code's user, who is the user bound to the provider and subject that the sign-in's exchange answered with; an ID token carries that user's subject |
| BrokerProvenance.RedirectedOk | internal/upstream_flow.go:85-109 | The payload names the checked provider, application and target and expires ten minutes on, and with Google a generated verifier is in range and meets the challenge that was sent |
| Query.SameWithoutFragment | internal/upstream_flow.go:43-48 | A query parameter has the same first value with and without a fragment cut off exactly under the condition above |
| Query.FragmentChangesValue | internal/upstream_flow.go:43-48 | Of `name=a#;` followed by any plain fields the request carries every field, `name` among them, and the cut leaves a |
| UpstreamHandlers.App.ReadAuthorizeRequest | internal/authorize.go:219-237 | Returns the sealed target of a cookie that decodes, opens and starts with `/authorize?`, and nothing otherwise |
| UpstreamHandlers.App.ReadUpstreamStateCookie | internal/upstream_flow.go:218-239 | Returns the sealed payload of a cookie that decodes, opens, parses and has such a target, and nothing otherwise |
| UpstreamHandlers.App.UpstreamStartHandler | internal/upstream_flow.go:29-117 | The handler ends as its statements do when uninterrupted: same cookies given, same answer |
| UpstreamHandlers.App.RedirectToProvider | internal/upstream_flow.go:85-117 | State, verifier, payload and cookie of a start whose provider was enabled |
| UpstreamHandlers.StartIsRun | internal/upstream_flow.go:29-117 | The uninterrupted start is a run of the system |
| UpstreamHandlers.App.AcceptCallback | internal/upstream_flow.go:119-179 | The callback up to the session ends as its statements and those of provisioning do: same tables, same answer |
| UpstreamHandlers.App.UpstreamCallbackHandler | internal/upstream_flow.go:181-194 | Redirects to the payload's target exactly when the session was created, for the provisioned user; same users, identities and sessions as its steps |
| UpstreamHandlers.CallbackIsRun | internal/upstream_flow.go:119-194 | The uninterrupted callback (arrival, provider check, exchange, statements of provisioning, second clock reading, session) is a run of the system that ends with its users, identities, sessions and redirect |
| Upstream.SelectAddress | internal/upstream/upstream.go:213-232 | First verified primary address; else a non-blank profile address, unverified; else the first verified non-empty address; verified exactly when a verified primary exists, or the profile is blank and any entry is verified |
| Sessions.RunRepresents | internal/repository/session_repo.go:28-62 | After any history of creates, revocations and sweeps the table holds exactly the rows that history implies, but for swept ones, each expired or revoked |
| Sessions.ValidateMeetsSpecification | internal/session/session.go:56-69 | A token validates at t exactly when it came from a create at c with t <= c + TTL and was not revoked since, whatever sweeps ran |
| Sessions.LiveTokenWasCreated | internal/session/session.go:36-54 | With a collision-free digest that create made this very token |
| Sessions.SweepsAreInvisible | internal/session/session.go:107-109 | Validation on the table of a history and on that of the history without its sweeps answers alike; where the errors differ, the swept table says not found and the other revoked or expired |
| Sessions.UnsweptTableExists | internal/session/session.go:107-109 | That other table exists exactly when no two creates share a hash |
| Sessions.RevokeAllIsExact | internal/repository/session_repo.go:52-58 | After it a token validates on the table exactly when it validated before and its session is not the owner's |
| Sessions.RevokeIsExact | internal/repository/session_repo.go:41-50 | After it a token validates on the table exactly when it validated before and its session is not that one |
| Sessions.Manager.Create | internal/session/session.go:36-54 | Adds the create event exactly when the token's hash is free |
| Sessions.Manager.Validate | internal/session/operator.go:44-57 | Succeeds exactly on tokens live in the history; the same class serves operators |
| Sessions.Manager.Revoke | internal/repository/operator_session_repo.go:41-50 | Records the revocation, and reports whether the id exists |
| Sessions.Manager.RevokeAllForOwner | internal/repository/operator_session_repo.go:52-58 | Records the revocation of the owner's unrevoked sessions |
| Sessions.Manager.DeleteInactive | internal/repository/operator_session_repo.go:60-62 | Deletes and counts exactly the expired and revoked rows |
| Setup.RunKeeps | internal/setup.go:26-100 | The seat's invariant holds after any interleaving: the lock is held by exactly the request inside its transaction, which saw an empty table |
| Setup.OneSeat | internal/repository/operator_repo.go:60-79 | There is never more than one operator, and the first stays as it is |
| Setup.LosersLeaveNoTrace | internal/repository/operator_repo.go:64-78 | A request that finished without a committed row never added one |
| Setup.TurnedAwayIsALoss | internal/setup.go:36-73 | Being sent to the login page or back to the form means having added none |
| Setup.WinnerOwnsSeatAndSession | internal/setup.go:58-85 | The winner gave one password twice, of at least 8 bytes, and an address with an `@`; the operator has that address, trimmed, and a hash the password verifies against, and the winner's session belongs to that operator |
| Setup.FormShownForItsFault | internal/setup.go:36-49 | A form shown again is shown for its first fault: different passwords, else no address, else a password under 8 bytes |
| Setup.LoneRequestsAreAnswered | internal/setup.go:26-86 | From any table, what a request that nothing interrupts is answered: with an operator there the login page, for a faulty form its fault, and for a good one, random source and token willing, the seat and a session |
| Setup.OneWinner | internal/setup.go:75-85 | At most one request ever sets up the seat |
| Setup.HolderFreesTheLock | internal/repository/operator_repo.go:64-77 | Whoever holds the lock frees it within three of its own statements, whatever these meet |
| Setup.App.CreateFirstOperator | internal/repository/operator_repo.go:60-79 | The transaction, uninterrupted, ends as its statements do |
| Setup.App.SetupHandler | internal/setup.go:26-86 | The handler, uninterrupted, ends as its statements do: same tables, same answer |
| Setup.AloneIsRun | internal/setup.go:26-86 | That is one of the interleavings |
| Password.HashThenVerify | internal/service/password.go:35-113 | Hashing returns exactly for parameters argon2 accepts with a positive key length, and every password then verifies against its own hash |
| Password.VerifyRecoversAll | internal/service/password.go:65-113 | Verifying any password against a printed hash uses exactly the salt, costs and key length that were printed: it matches exactly when the derived keys are equal |
| Password.DefaultHashText | internal/service/password.go:35-63 | The stored string, character by character but for salt and key |
| Password.MatchesExactly | internal/service/password.go:65-113 | Of all strings a password matches exactly those of this variant and version, with readable costs, salt and non-empty key, whose key it derives |
| Password.ParsesBack | internal/service/password.go:65-113 | Splitting, decimal parsing and base64 decoding recover the version, costs, salt and key of an assembled string |
| Decimal.FieldRoundTrip | internal/service/password.go:75-86 | Scanning a printed number after its literal returns that number and the rest |
| Base64.RoundTrip | internal/service/password.go:88-97 | Raw decoding undoes encoding on every byte string (sections 4 and 5 of RFC 4648) |
| Base64.EncodeSpells | internal/oauth/code.go:16-22 | The characters are the digits, in the order of the alphabet, of the big-endian number of the bytes, filled up with zero bits (section 4 of RFC 4648) |
| Base64.SkipsExactly | internal/upstream_flow.go:223-226 | Decoding skips line breaks and nothing else |
| Base64.EncodeLength | internal/oauth/code.go:16-22 | Encoding n bytes takes the ceiling of 4n/3 characters, so 32 bytes take 43 |
| Base64.EncodeInAlphabet | internal/oauth/pkce.go:25-28 | Every encoded character is in the alphabet, and ASCII |
| Base64.DecodeDefined | internal/upstream_flow.go:223-226 | Decoding succeeds exactly on texts that, line breaks apart, lie in the alphabet and have a possible length |
| Oauth.ValidatesExactly | internal/oauth/authorize.go:59-81 | Validation passes exactly requests that are proper in each part, and errs with `unsupported_response_type` for the type and `invalid_request` for the rest |
| Oauth.RedirectURIAcceptedExactly | internal/oauth/validate.go:20-56 | A redirect URI is accepted exactly when it parses, absolute, with a host, without fragment or `*`, over https, or over http to localhost, 127.0.0.1 or ::1 |
| Oauth.VerifyPKCEExact | internal/oauth/pkce.go:10-21 | With S256 the check is the length range 43 to 128 and the equation with the challenge (section 4.6 of RFC 7636) |
| Oauth.ChallengeLength | internal/oauth/pkce.go:25-28 | A challenge has 43 characters of the URL alphabet |
| Oauth.ComputedChallengeValidates | internal/oauth/authorize.go:66-74 | A computed challenge passes the request's length check |
| Oauth.GeneratedVerifierAccepted | internal/upstream_flow.go:91-100 | A generated verifier is accepted for its challenge |
| Oauth.OneVerifierPerChallenge | internal/oauth/pkce.go:18-20 | With a collision-free digest one verifier meets a challenge |
| Forms.SplitLines | internal/admin/apps.go:317-326 | The loop returns the trimmed non-blank lines in order |
| Forms.NormalizeList | internal/service/app_service.go:300-311 | The loop returns all white-space tokens of its values in order |
| Forms.TwoStagesAreOnePass | internal/admin/apps.go:155-156 | Tokenising the lines of any text is tokenising the text |
| Forms.LinesStable | internal/admin/apps.go:175-176 | Splitting the joined lines again returns the lines |
| Forms.NormalizeScopes | internal/service/app_service.go:280-298 | Succeeds exactly when every lower-cased token is supported, returning first occurrences in order; else names the first unsupported one |
| Forms.DedupCharacterised | internal/service/app_service.go:288-296 | The kept tokens are in the order of their first positions, each token once |
| Forms.NormalFormFixed | internal/service/app_service.go:280-298 | A list is its own normal form exactly when it has no duplicates and only supported scopes |
| Forms.NormalizedIsNormal | internal/service/app_service.go:280-298 | Every result is such a list |
| Forms.EditRoundTrip | internal/admin/apps.go:241-248 | Printing stored scopes into the edit form and parsing them back leaves them unchanged |
| Forms.NormalFormIsShort | internal/service/app_service.go:280-298 | There are at most three |
| Registration.BuildClient | internal/service/app_service.go:196-272 | Refuses exactly the fields that break a rule, and otherwise returns the row and the secret |
| Registration.AcceptedRedirectsParse | internal/service/app_service.go:212-216 | Every stored redirect URI, of sign-in and of sign-out, is the very string that was validated: it parses as a safe target |
| Registration.RegisteredFromForm | internal/admin/apps.go:155-155 | The URIs registered from the form's text area are its white-space tokens |
| Registration.SecretHashMarksConfidential | internal/service/app_service.go:249-258 | A stored client is confidential exactly when it carries a 32-byte secret hash, public otherwise, and its own secret then validates |
| Registration.DefaultMethodIsBasic | internal/service/app_service.go:233-242 | Public clients have no method and no digest; a confidential one has the digest of its secret, and `client_secret_basic` unless its form names a method |
| Registration.DefaultEnvironmentIsLocal | internal/service/app_service.go:204-207 | No environment in the form means the local one |
| Registration.RegisteredSecretIsRandom | internal/service/app_service.go:244-257 | The row added, and that the secret shown for it is the base64url text of the random bytes, whose digest the row holds |
| Registration.HexSpells | internal/service/app_service.go:345-351 | A client id spells its random bytes in hexadecimal digits |
| Registration.AppAcceptedExactly | internal/service/app_service.go:123-145 | An application is accepted exactly with a name and scopes among the three in any case, and stored trimmed, its scopes in lower case |
| Registration.ClientAcceptedExactly | internal/service/app_service.go:196-272 | A client is accepted exactly with a known type, environment and method, safe URIs, at least one of them to redirect to, real origins, and a new id |
| Registration.BothAcceptedExactly | internal/service/app_service.go:106-121 | Both at once exactly when each would be |
| Registration.ValidateURIs | internal/service/app_service.go:313-320 | Reports the field exactly when one of its URIs is refused |
| Registration.ValidateOrigins | internal/service/app_service.go:221-227 | Reports the field exactly when one of the origins is refused |
| Registration.AppService.RegisterApp | internal/service/app_service.go:106-121 | Both rows or neither, and the resulting tables |
| Registration.AppService.CreateClient | internal/service/app_service.go:147-160 | The resulting tables, or unchanged ones |
| Registration.AppService.UpdateApp | internal/service/app_service.go:123-145 | The resulting tables, or unchanged ones |
| Registration.AfterRegisterAppKeeps | internal/service/app_service.go:106-121 | Registering keeps the tables well formed: unique client ids, existing applications, parsing redirect URIs, scopes in normal form |
| Registration.AfterCreateClientKeeps | internal/service/app_service.go:147-160 | So does adding a client |
| Registration.AfterUpdateAppKeeps | internal/service/app_service.go:123-145 | So does editing an application |
| Providers.GetReturnsCurrentSecret | internal/service/provider_service.go:97-107 | After any history of calls a pair is found exactly when a secret was stored and not deleted since, and the secret is the one of the last successful non-blank upsert, as submitted |
| Providers.StepIsLocal | internal/repository/identity_provider_repo.go:46-85 | A failing call leaves the table as it is, and no call touches another pair |
| Providers.StepOnOwnPair | internal/service/provider_service.go:47-94 | A successful upsert stores the trimmed id, the flag and the new secret, or keeps the old one when blank; toggles and deletes do what they say |
| Providers.UpsertSavesExactly | internal/service/provider_service.go:47-94 | An upsert whose statements work is saved exactly for Google or GitHub with a client id and a secret, new or stored; otherwise it reports exactly the fields at fault |
| Providers.OthersSaveExactly | internal/repository/identity_provider_repo.go:59-85 | Toggling and deleting succeed exactly for a pair that is there |
| Providers.ProviderService.Upsert | internal/service/provider_service.go:47-94 | The table and the reported fields, for every order of checks |
| Providers.ProviderService.SetEnabled | internal/repository/identity_provider_repo.go:59-71 | Toggles the one row, or reports that there is none |
| Providers.ProviderService.Delete | internal/repository/identity_provider_repo.go:73-85 | Removes the one row, or reports that there is none |
| Providers.ProviderService.Read | internal/service/provider_service.go:97-107 | The row with its opened secret |

## Left out

- HTTP plumbing, routing, cookie attributes, CSRF and logging middleware, templates and static files: no state worth proving.
- SHA-256, AES-GCM, argon2 and RSA signing: parameters with the properties listed above; key files and the signature of an ID token are not modelled.
- The calls to Google and GitHub: the returned identity, or address list, is arbitrary; only the address selection is modelled.
- The URL grammar and the order and escaping of the parameters added to a redirect: a redirect is its URI with the parameters beside it.
- Unicode case folding: lower-casing changes ASCII letters only, in the code's `strings.ToLower` as in the case-insensitive address column.
- Invalid UTF-8 in form values: strings are sequences of Unicode scalar values, with their byte length where the code uses it.
- Statements that commit while reporting a failure, except in the seat claim, where they are modelled.
- The fallback to the current time for a code without creation time (`internal/token.go:150-153`): the table always sets one.
- Rounding of times by the database, and gaps in its generated ids.
- GORM's default for `first_party` on insert, which turns a false into true.
- `ClientRepository.Update`, which no handler reaches, and the deletion of users or applications, which does not exist.
- Interleaved provider upserts: the blank-secret edit reads and writes back in two statements, and the history result is about sequential calls.
- Operators' login, configuration, health check, dashboard, discovery and key documents, and the list of buttons on the prompt: easy members.
- Two session managers as two classes: they differ only in what they call the owner, so one class stands for both, with one instance for users and one for operators.
