# The authorization server's protocol state, verified

A Dafny model of a FAPI 2.0 authorization server: pushed authorization requests, the
interactive and `prompt=none` authorization flows, codes, grants, access and refresh
tokens, revocation, introspection and userinfo, the DPoP and client-assertion replay
guards, the rate limiter, the session cookie and the signing keystore. Nothing here is
executed; `dafny verify dfyconfig.toml` checks everything.

## How it is built

Two grains of the same protocol are modelled and connected.

*Await level.* `Protocol.dfy` is a state machine in which every storage call and the policy
decision is one step. Any number of requests interleave, a request may die between any two
steps, and clients may be registered or changed at any time. Each request carries what the
handler holds in its local variables at that point, stale or not. A `World` also records,
for the theorems only, which validated request each grant came from (`origins`), which
request URIs a refusal consumed (`declined`) and what was presented for each access token
(`mints`); no step reads these. Each step of the machine takes its own clock reading, with
no order assumed between readings. `PgProtocol.dfy` is the same machine with PostgreSQL's
`redeem`, which is two statements with other requests in between, and proves that it comes to
exactly the same worlds.

*Request level.* `MemoryStores.dfy` holds the in-memory repositories as classes changed in
place and `Handlers.dfy` the endpoint handlers as methods over them, written statement by
statement. Each handler is proved to leave the storage, and give the outcome, that the
machine reaches when the same request is stepped to its end with nothing in between
(`Serve`). Whole runs at this grain are the *serial* runs of the machine, in which a request
starts only when all others are done: `Serving.dfy` proves that serving one more request
extends a serial run to a serial run, from which `Serving.ServeKeeps` draws what the handlers
promise of their storage (`Handlers.Kept`).

| file | what it holds |
|---|---|
| `Base`, `Text`, `Base64Url` | options and results, clock arithmetic, splitting and trimming, decimal text, base64url and UTF-8, with the injectivity facts that the codecs rest on |
| `AuthzRequest` | validation of an authorization request and its stored form |
| `Tables` | the rows and what each storage statement does to them |
| `Protocol` | the await-level machine |
| `Provenance` | its invariant, kept by every event |
| `Descent` | whole-run theorems: provenance and attenuation, growth, one outcome per request URI |
| `Cascade`, `GrantEnd` | when the end of a grant is final, at both grains |
| `Runs` | making runs: from any consent form shown to its grant, from a client alone to a code |
| `Races` | runs, from a client alone on, in which the end of a grant is not final |
| `Lapses` | when a grant still meets its `max_age`, and when a token still has the key that PAR bound |
| `Approval` | the decision, the consent and the fresh login behind every grant |
| `Liveness` | token lookup, introspection, userinfo, permanence of death |
| `Serving` | requests served one at a time, as serial runs of the machine |
| `MemoryStores`, `Handlers` | the imperative repositories and handlers |
| `PgRedeem`, `PgProtocol` | the two-statement PostgreSQL redeem, linearized, and the machine over it |
| `ReplayStore`, `Dpop`, `ClientAuth` | the forgetting replay stores and their two users |
| `RateLimit`, `Sessions`, `Mac` | the limiter; session cookie and CSRF token; the keyed hash |
| `KeyStore`, `KeyStoreRaces` | one process's keystore; many processes over one table |

Time is in milliseconds since 1970. `iat` and `exp` are real numbers, as JSON allows.
SHA-256 and HMAC are parameters, assumed injective only in the lemmas that say so. Random
identifiers are inputs, required not to be in use. Signature validity, parsed tokens and
headers, normalised URLs, the policy decision and the outcome of the database's
probabilistic reaping are inputs too.

## What was found

- DPoP single use holds exactly if the clock disorder is at most `(skew - 1) * 1000` ms, so
  it needs a skew of at least 1 s even with a perfect clock; `src/config.ts:62` also permits
  0, for which `Dpop.SingleUseFails` gives a run that accepts one proof twice.
- A client assertion is single-use exactly if its `exp` is a whole second and the readings of
  the clock reach the store in order (or it was already past at the epoch). The reading is
  taken at `src/domain/client-auth.ts:57`, before keys are fetched, so order is not given:
  `ClientAuth.SingleUseFails` has the run for a fractional `exp`,
  `ClientAuth.SingleUseFailsOutOfOrder` the one for 1 ms of disorder.
- In any window length the limiter lets through at most `2 * limit - 1` calls of a source,
  and that many is reached.
- With requests interleaved, neither the replay cascade nor the revocation of a refresh
  token is final by itself: a request that passed its last check before the revocation can
  still insert a token. `Races.CascadeIsNotFinal` is a whole run of it from an empty storage,
  and from every world with a code that can be redeemed, or a refresh token that can be used,
  there is one (`Races.CascadeRace`, `Races.RevocationRace`). `Cascade.FinalExactly` says
  exactly when they are final; `GrantEnd` says which request any surviving access or refresh
  token came from, and that with requests served one at a time there is none.
- A request with `prompt=login` can never end in a grant: `src/endpoints/interaction.ts:95`
  asks for a new login each time the form is to be shown, also after one, so no interaction is
  ever bound for it (`Approval.LoginPromptNeverGranted`).
- `max_age` is checked when the consent form is shown (`src/endpoints/interaction.ts:95`) and
  not when it is submitted, and the session that submits need not be the one that was shown
  it (`src/endpoints/interaction.ts:180` compares subjects only). `Lapses.AgeKeptExactly` says
  when a session's consent is sure to be in age; `Lapses.MaxAgeNotKept` is a run, for every
  `max_age` that leaves room before the request expires, in which the user has just signed in,
  is shown the form in time, and gets a grant one second too late in the same session.
- A key that PAR bound holds for the code and not for its refresh token: a refresh token
  can be used with any key, and its token has that one (`Lapses.KeyKeptExactly`,
  `Lapses.KeyChanges`). Section 5 of RFC 9449 asks for no more where clients authenticate.
- A rotation that fails at the store leaves the process signing with a key that it has marked
  retired, which it stops publishing 24 h later; there is no other way to that
  (`KeyStoreRaces.ActivePublishedExactly`, `KeyStoreRaces.ActiveUnpublished`).
- A server that is up while `src/db/keys-rotate.ts` rotates does not come to know the new key
  (`KeyStoreRaces.ServerPublishesExactly`, `KeyStoreRaces.UnknownToServer`).
- The 24 h retention of retired keys covers exactly the tokens whose lifetime, plus the time
  by which their signature came after the key's retirement, is at most 24 h; for anything
  more `KeyStore.HorizonMissed` is a keystore's history with such a token.
- The header comment of `src/db/repositories/memory.ts:4-8` says the memory adapter mirrors
  PostgreSQL exactly; for the replay guard this holds only below 8192 rows
  (`ReplayStore.MemoryJtiReplay.Register`), at which the memory adapter refuses;
  `ReplayStore.CapReached` is a history that gets there.

## Model

| member | source | states |
|---|---|---|
| `ReplayStore.ForgettingRefinesRemembering` | src/db/repositories/memory.ts:188-212 | A store that may drop any expired row at any access answers, under a monotone clock, exactly as one that never forgets an accepted registration. |
| `ReplayStore.JoinKeyInjective` | src/db/repositories/memory.ts:206 | The NUL-joined memory key keeps apart what the two-column key keeps apart. |
| `ReplayStore.MemoryJtiReplay.Sweep` | src/db/repositories/memory.ts:196-201 | The in-place sweep leaves exactly the unexpired rows, and happens only from 4096 rows and 1 s after the last. |
| `ReplayStore.MemoryJtiReplay.Register` | src/db/repositories/memory.ts:193-211 | Refuses exactly at the cap or for a live key; for want of room only if all rows are live or the last sweep was within a second; agrees with the never-forgetting reference below the cap and only refuses more at it; the object's whole history is a run of the abstract store. |
| `ReplayStore.CapReached` | src/db/repositories/memory.ts:193-211 | A history of 8192 accepted registrations after which the guard refuses a key that was never registered. |
| `ReplayStore.PgJtiReplay.Register` | src/db/repositories/pg.ts:343-365 | Reap of any expired rows, then conditional upsert: accepted exactly if no live row has the key. |
| `ReplayStore.PgAgreesWithReference` | src/db/repositories/pg.ts:343-365 | However reaps fall between calls, each registration is accepted exactly when the never-forgetting reference accepts it. |
| `Dpop.VerifyDpopProof` | src/domain/dpop.ts:58-174 | Success means a proof of the right type and algorithm, signed with the public key it shows, for this method, address and token, inside the window, with an accepted nonce, registered; every defect is refused without trace; a stale nonce is answered with one valid now; with room in the store and a monotone clock a good proof is refused if and only if its context, key and jti were accepted before and that row has not expired; with skew at least 1 s no accepted proof was ever accepted before in the store's history. |
| `Dpop.ProofKeyExactly` | src/domain/dpop.ts:160-171 | Two proofs share a replay row if and only if context, key thumbprint and jti are equal. |
| `Dpop.ProperProofAdmissible` | src/domain/dpop.ts:58-158 | A proof made for this request by section 4.2 of RFC 9449, inside the window, is admissible. |
| `Dpop.ExpiryOutlastsWindow` | src/domain/dpop.ts:134-167 | The replay row of a proof inside its floored window outlives the reading by more than `(skew - 1)` s. |
| `Dpop.ReplayRefused` | src/domain/dpop.ts:160-171 | Whatever was swept, reaped or reclaimed, the row of an accepted proof is live whenever the proof would pass the window again. |
| `Dpop.SingleUseHolds` | src/domain/dpop.ts:134-171 | In any unbounded run with bounded clock disorder a proof accepted once is never accepted again. |
| `Dpop.SingleUseFails` | src/config.ts:62 | With less skew than the disorder needs, 0 in particular, a run that accepts one proof twice. |
| `Dpop.SingleUseExactly` | src/domain/dpop.ts:134-171 | Section 11.1 of RFC 9449 is met by all runs if and only if disorder is at most `(skew - 1) * 1000` ms. |
| `Dpop.NonceForInjective` | src/domain/dpop.ts:183-189 | The colon-joined nonce message determines key, endpoint and window. |
| `Dpop.NonceWindow` | src/domain/dpop.ts:191-198 | A nonce is honoured later if and only if key and endpoint are the same and the 60 s windows differ by at most one. |
| `Dpop.NonceLifetime` | src/domain/dpop.ts:191-198 | Hence always for 60 s and never from 120 s on. |
| `ClientAuth.AuthenticateClient` | src/domain/client-auth.ts:53-201 | Success means one verified assertion alone, by and about this registered client, for this issuer, with a jti, unexpired, within the longest lifetime and not from the future, registered; which malformations are whose error; nothing is registered before every check; a whole-second assertion accepted now was never accepted before. |
| `ClientAuth.ProperAssertionAuthentic` | src/domain/client-auth.ts:53-201 | An assertion made by section 3 of RFC 7523 and sent with nothing beside it but the client's own id authenticates. |
| `ClientAuth.ReplayKeyInjective` | src/domain/client-auth.ts:209-212 | Context, client and jti are recovered from the joined key, whatever characters they contain. |
| `ClientAuth.ApartFromProofs` | src/domain/client-auth.ts:194-198 | In the store that both guards share, no assertion has the row of a DPoP proof. |
| `ClientAuth.SingleUseHolds` | src/domain/client-auth.ts:156-198 | With a whole-second `exp` and readings in order, no run accepts an assertion twice across the four endpoints. |
| `ClientAuth.SingleUseFails` | src/domain/client-auth.ts:163-194 | A run that accepts an assertion with a fractional `exp` twice. |
| `ClientAuth.SingleUseFailsOutOfOrder` | src/domain/client-auth.ts:57-198 | A run that accepts an assertion with a whole-second `exp` twice, with readings 1 ms out of order. |
| `ClientAuth.SingleUseExactly` | src/domain/client-auth.ts:57-198 | Section 3 item 7 of RFC 7523 is met by all runs with that much clock disorder if and only if `exp` is whole and there is no disorder, or `exp` is never acceptable. |
| `RateLimit.FixedWindowRateLimiter.Allow` | src/endpoints/rate-limit.ts:20-39 | The in-place update is the state function that the run theorems are about. |
| `RateLimit.BoundKept` | src/endpoints/rate-limit.ts:29-38 | The map never exceeds `maxKeys`. |
| `RateLimit.AtMostTwiceTheLimit` | src/endpoints/rate-limit.ts:20-39 | Any half-open stretch of one window's length contains at most `2 * limit - 1` allowed calls of a key. |
| `RateLimit.BoundIsTight` | src/endpoints/rate-limit.ts:20-39 | A run that reaches that number. |
| `RateLimit.AgreesUntilCapRefusal` | src/endpoints/rate-limit.ts:27-38 | All answers are those of a limiter that never sweeps, until the first refusal at the cap, and its table then holds every live window of that limiter. |
| `RateLimit.RefusedExactly` | src/endpoints/rate-limit.ts:27-38 | In every table a call is refused if and only if its own live window is used up, or its source is unknown to a full table in which all sources are live or which was swept within the last window. |
| `RateLimit.SweptExactly` | src/endpoints/rate-limit.ts:29-34 | A call that opens a window at the cap, a window after the last sweep, leaves exactly the live sources and its own. |
| `RateLimit.WindowSurvives` | src/endpoints/rate-limit.ts:20-39 | In every run, capped or not, a window once opened is there, with its start, after every call within its length. |
| `RateLimit.CapFailsClosed` | src/endpoints/rate-limit.ts:36 | At the cap an unknown source is refused, every live window is kept as it is, and the table stays within its bound. |
| `Text.SplitExactly` | src/domain/interaction.ts:61 | Splitting gives exactly the pieces between separators. |
| `Text.WordsExactly` | src/domain/clients.ts:91-93 | The words that scope checks compare are exactly the words of the text, each between spaces or the ends. |
| `Text.WordCount` | src/domain/authz-request.ts:151-155 | A prompt has more than one word if and only if words begin at two places. |
| `Text.TrimExactly` | src/domain/sessions.ts:105-113 | Trimming cuts white space at both ends, all of it and nothing else. |
| `Text.SpacesExactly` | src/domain/authz-request.ts:107 | White space is what `String.prototype.trim` strips, character by character. |
| `AuthzRequest.ValidExactly` | src/domain/authz-request.ts:66-191 | A request is valid if and only if its fields are right, is then what was sent, and otherwise the error names what is wrong. |
| `AuthzRequest.ValidateAuthorizationRequest` | src/domain/authz-request.ts:66-191 | The imperative checks accept exactly the requests that are sent as they must be, said of the fields and their characters; what is accepted is what was sent; `InvalidScope` is answered exactly when all before is right and a word asked for is not registered, `UnsupportedResponseType` exactly for another type; and all this is the function that the round trip is about. |
| `AuthzRequest.CollectPassthrough` | src/domain/authz-request.ts:157-167 | The loop collects exactly the recognised parameters, or fails. |
| `AuthzRequest.ValidatedIsSound` | src/domain/authz-request.ts:66-191 | What every validated request satisfies: what was sent, registered redirect URI, every word of its scope registered, well-formed challenge, key and dialogue parameters. |
| `AuthzRequest.ToStoredParams` | src/domain/authz-request.ts:194-209 | The stored map holds each parameter's stored value and nothing else. |
| `AuthzRequest.StoredFormRoundTrip` | src/domain/par.ts:43-66 | Validating the stored form again under any later registration succeeds if and only if the redirect URI is still registered and the reread scope allowed; then it gives the request back, with only the key that PAR bound, and for a blank stored scope the new registered scope, changed. |
| `AuthzRequest.SameClientRoundTrip` | src/endpoints/interaction.ts:74 | Under the unchanged registration the round trip always succeeds. |
| `Base64Url.LettersInOrder` | src/domain/sessions.ts:42-48 | The letters are those of section 5 of RFC 4648, in its order. |
| `Base64Url.EncodesFoobar` | src/domain/sessions.ts:42-48 | The encoder gives section 10's value for its longest text. |
| `Sessions.OpenSealed` | src/domain/sessions.ts:42-76 | A sealed session opens to itself if and only if its `exp` is in the future. |
| `Sessions.OpensOnlySigned` | src/domain/sessions.ts:50-76 | A value opens if and only if its payload carries this secret's signature and decodes to an unexpired session. |
| `Sessions.CookieRoundTrip` | src/domain/sessions.ts:98-113 | Sealed, serialised, sent among other differently named cookies, read and opened, the session comes back if and only if it is unexpired. |
| `Sessions.CsrfBoundToSession` | src/domain/sessions.ts:84-91 | A CSRF token verifies for a session id if and only if it was issued for it, given a MAC that is not empty. |
| `Sessions.CsrfVerifiesExactly` | src/domain/sessions.ts:84-91 | A CSRF token verifies if and only if it is there and is the encoding of the session's own tag; nothing and the empty text never do. |
| `Sessions.CookieIsGuarded` | src/domain/sessions.ts:93-103 | The cookie set has the attributes that its `__Host-` name demands, and is kept from scripts. |
| `Tables.ApplyEvolves` | src/db/repositories/memory.ts:75-186 | No storage statement removes a row, changes what it was inserted with, or rewrites `consumedAt`, `revokedAt` or `completedAt`. |
| `Tables.AccessExactly` | src/db/repositories/memory.ts:140-162 | Of the access tokens a statement puts in one, or revokes the unrevoked one named, or those of a grant, and leaves every other row as it was. |
| `Tables.RefreshExactly` | src/db/repositories/memory.ts:164-186 | Likewise for refresh tokens. |
| `Tables.GrantsExactly` | src/db/repositories/memory.ts:102-118 | Likewise for grants. |
| `Tables.ParExactly` | src/db/repositories/memory.ts:75-100 | A pushed request is put in, or the unused, unexpired one named is used up, and every other row is as it was. |
| `Tables.CodesExactly` | src/db/repositories/memory.ts:120-138 | Likewise for codes. |
| `Tables.InteractionsExactly` | src/db/repositories/memory.ts:214-256 | An interaction is put in, bound while it is not completed, or completed before it expires, and every other row is as it was. |
| `Tables.FoundExactly` | src/db/repositories/memory.ts:82-137 | The lookups find what is unused and unexpired, and tell a used code from an unknown or expired one. |
| `Provenance.ActTrades` | src/endpoints/interaction.ts:233-243 | A request URI, a grant's one code and a code's one refresh token are used only by the request that won them by its own write. |
| `Provenance.ClaimsKept` | src/endpoints/interaction.ts:233-243 | No two requests under way ever hold the same claim, and nothing has come of a held one. |
| `Provenance.InvKept` | src/endpoints/token.ts:94-174 | The whole invariant is kept by every event: a start, a step, a crash, a client registration. |
| `Provenance.RunInv` | src/endpoints/token.ts:94-174 | It holds in every world of every run. |
| `Descent.RunRegistered` | src/endpoints/authorize.ts:102-116 | The client that a grant's request was validated for was registered exactly so at some earlier moment. |
| `Descent.TokenDescends` | src/domain/grant.ts:31-129 | Every access token ever stored goes back to one grant, one redeemed code and one consumed pushed request, with equal client and subject; every word of the token's scope is one of the grant's, and every word of that one registered at the last validation; redirect URI, challenge and key as pushed. |
| `Descent.MintedForTheHolder` | src/domain/grant.ts:105-123 | The token minted with a code went to whoever showed the pushed redirect URI, a verifier of 43 to 128 characters that hashes to the pushed challenge, and the key bound at PAR, to which it is bound. |
| `Lapses.KeyKeptExactly` | src/endpoints/token.ts:133-174 | Every access token of a grant whose request PAR bound to a key has that key, if and only if it came of the code, or of a refresh at which that key was presented. |
| `Lapses.RefreshTakesAnyKey` | src/endpoints/token.ts:133-174 | From every world of a run with a usable refresh token, its client can go on to a live token bound to any key. |
| `Lapses.KeyChanges` | src/endpoints/token.ts:94-174 | A run from a client alone in which a request bound to one key ends in a token bound to another. |
| `Descent.RunGrows` | src/db/repositories/memory.ts:75-186 | Between any two moments of a run rows stay and death marks are written once. |
| `Descent.RunUsedInTime` | src/db/repositories/memory.ts:91-137 | In every run, whatever was used up (a pushed request, a code, an interaction) was used up before its expiry. |
| `Descent.OneOutcome` | src/endpoints/interaction.ts:193-243 | At any two moments of any run, one request URI has at most one code, and none if a refusal consumes it, before or after. |
| `Approval.ArrivedBy` | src/endpoints/interaction.ts:165-215 | In every run, a request past its entry is where it is by an earlier step of its own. |
| `Approval.GrantIsAuthorised` | src/endpoints/interaction.ts:191-214 | Behind every grant of every run: the policy decision on exactly this request was to allow, its URI was then good and taken by the same request, and before that the user approved on an open interaction, or the word `none` is in its `prompt` and the session was one that it need not renew. |
| `Approval.ConsentIsBySubject` | src/endpoints/interaction.ts:176-190 | Consent behind a grant was given in a session of the subject that the grant names; before that the interaction was bound, by a request of that subject, in a session that was checked and fresh enough for this very request. |
| `Approval.BoundWhenFresh` | src/endpoints/interaction.ts:87-126 | Whenever an interaction is bound, an earlier step of the same request found the session it is bound to fresh enough for what was pushed. |
| `Approval.LoginPromptNeverGranted` | src/domain/interaction.ts:56-66 | No grant of any run has a request with the word `login` in its `prompt`. |
| `Runs.ConsentsOn` | src/endpoints/interaction.ts:165-215 | From every world of a run with an open interaction bound to a subject, for an open request, any session of that subject can go on to a grant with its own `authTime`. |
| `Lapses.AgeKeptExactly` | src/endpoints/interaction.ts:165-191 | From every such world: in all continuations what a session consents to up to a given reading is in age when it is submitted, if and only if the request has no `max_age` or the session is still in age at that reading. |
| `Lapses.AgeKeptByAllExactly` | src/endpoints/interaction.ts:176-182 | For all sessions of the subject, if and only if the request has no `max_age`. |
| `Lapses.RecordedSessionWasInAge` | src/endpoints/interaction.ts:94-105 | Where the session that submits is the one recorded in the interaction, an earlier step found it in age for this very request, so that it is too old by no more than the time since. |
| `Lapses.Overstays` | src/endpoints/interaction.ts:165-215 | From every such world, the run to a grant in a session that is past its `max_age` at the closing. |
| `Lapses.OverstaysFromNothing` | src/endpoints/interaction.ts:87-215 | From a client alone, with the same session shown the form in time. |
| `Lapses.MaxAgeNotKept` | src/domain/authz-request.ts:169-175 | There is such a run for every client with a redirect URI, every key and every `max_age` shorter by a second than the lifetimes of pushed request and interaction. |
| `Cascade.NoNewMinter` | src/domain/grant.ts:125-149 | Once a grant or its refresh token is revoked, nobody comes to be able to mint for it. |
| `Cascade.SealedForever` | src/domain/grant.ts:93-99 | A closed grant with every token revoked and nobody able to mint stays so, and gains no token, in every continuation. |
| `Cascade.FinalExactly` | src/endpoints/revoke.ts:50-57 | At any moment of any run a closed grant's tokens are dead in all continuations if and only if all are revoked now and no request under way has passed the checks. |
| `GrantEnd.CascadeMissesOnlyEarlier` | src/domain/grant.ts:93-129 | Any interleaving: an access token live after a cascade was inserted by a request whose `grants.find` came before the `grants.revoke`. |
| `GrantEnd.CascadeMissesOnlyEarlierRefresh` | src/domain/grant.ts:93-129 | Likewise for a refresh token live after the cascade's last step. |
| `GrantEnd.RevocationMissesOnlyEarlier` | src/endpoints/revoke.ts:50-57 | Any interleaving: an access token live after its refresh token's revocation was inserted by a refresh that had found the refresh token unrevoked before. |
| `GrantEnd.RevocationEndsRefresh` | src/endpoints/revoke.ts:50-57 | Any interleaving: after it there is no other refresh token of the grant, so none is live. |
| `GrantEnd.RevocationTrackStep` | src/endpoints/revoke.ts:50-57 | Each step of a revocation by the owner makes its part of the end, and leaves the grants table alone. |
| `GrantEnd.TrackRun` | src/domain/grant.ts:93-101 | In a serial run the grant is sealed from the first moment its ending request is done. |
| `GrantEnd.ReplayIsFinal` | src/domain/grant.ts:93-101 | Requests one at a time: once a second presentation of a code is answered, its grant is revoked with all its tokens, and none is ever live or minted again. |
| `GrantEnd.RevocationIsFinal` | src/endpoints/revoke.ts:50-57 | Likewise once the owner has revoked the grant's refresh token. |
| `Races.CascadeRace` | src/domain/grant.ts:79-129 | From every world of a run with a code that its client can redeem, the run can go on so that a replay is answered with the grant closed and every token of it revoked, and then a token of the grant comes to life. |
| `Races.RevocationRace` | src/endpoints/revoke.ts:50-57 | Likewise from every world with a usable refresh token and its revocation by the owner. |
| `Runs.ReachesOpenCode` | src/endpoints/token.ts:94-131 | From a storage with one client alone, pushing, parking, consent and issuance lead to a code that can be redeemed, for every request that validates and whose `max_age` the user meets. |
| `Races.CascadeIsNotFinal` | src/domain/grant.ts:93-129 | So there is a run from there in which the cascade completes and a token of its grant is live afterwards. |
| `Serving.ServeExtends` | src/endpoints/token.ts:94-174 | After any serial run, serving a request that enters legally and draws unused identifiers is again a serial run of the machine, which ends where the handlers do. |
| `Serving.ServeKeeps` | src/domain/grant.ts:93-101 | Served so, no request removes a row or a death mark, and a grant that is closed with all tokens revoked stays so and gets no token. |
| `Serving.RegisterKeeps` | src/db/repositories/memory.ts:70-72 | Nor does a new or changed client registration. |
| `Serving.NothingServed` | src/db/repositories/memory.ts:259-270 | An empty storage is one that served requests have left, so all of this holds from the start. |
| `Liveness.ResolveToken` | src/domain/token-lookup.ts:57-71 | The ordered lookup finds a record if either finder does; the hint only picks between two. |
| `Liveness.IntrospectExactly` | src/endpoints/introspect.ts:40-80 | The answer is active, and says what the record says, if and only if the record that the lookup finds is the caller's own, not revoked and not expired. |
| `Liveness.UserInfo` | src/endpoints/userinfo.ts:35-79 | Success means a live bound token and an accepted proof for this token with its key, and such a token with such a proof, not used before, does succeed; an unpresentable token spends no proof; the owner's introspection with the same keys at that instant says active with the same subject and key. |
| `Liveness.AccessDeathIsPermanent` | src/endpoints/introspect.ts:60-75 | A token seen revoked or expired is, at every later moment of the run, never active and never presentable. |
| `Liveness.RevokedAccessIsDead` | src/endpoints/revoke.ts:56 | An access token that its owner's revocation has cut is, at every later moment of the run and at any reading, neither active nor presentable. |
| `Liveness.RefreshDeathIsPermanent` | src/endpoints/introspect.ts:47-58 | A refresh token seen dead is never active again and never again passes the refresh grant. |
| `Liveness.ConsumptionIsPermanent` | src/db/repositories/memory.ts:82-138 | Consumed codes and requests and completed interactions stay so at every later moment and any clock reading. |
| `MemoryStores.MemoryParRequests.Consume` | src/db/repositories/memory.ts:91-99 | The table function's update and answer; afterwards nobody gets the row. |
| `MemoryStores.MemoryAuthorizationCodes.Redeem` | src/db/repositories/memory.ts:127-137 | The table function's update and answer; a redeemed code is reported as replayed ever after. |
| `MemoryStores.MemoryAccessTokens.RevokeByGrant` | src/db/repositories/memory.ts:157-161 | The loop revokes exactly the grant's unrevoked tokens. |
| `MemoryStores.MemoryRefreshTokens.RevokeByGrant` | src/db/repositories/memory.ts:181-185 | Likewise for refresh tokens. |
| `MemoryStores.ForgettingIsInvisible` | src/db/repositories/memory.ts:217-256 | While the clock does not run backwards, a table that has lost expired interactions answers like one that keeps all. |
| `MemoryStores.MemoryInteractions.Insert` | src/db/repositories/memory.ts:217-225 | Sweeps from 1024 rows, only expired rows, and stays equivalent to the table that keeps all. |
| `MemoryStores.MemoryInteractions.Find` | src/db/repositories/memory.ts:227-232 | Answers as the table that keeps all. |
| `MemoryStores.MemoryInteractions.Complete` | src/db/repositories/memory.ts:250-256 | Answers and completes as the table that keeps all. |
| `MemoryStores.PgInteractions.Insert` | src/db/repositories/pg.ts:385-410 | Any reap of expired rows keeps that equivalence. |
| `MemoryStores.PgInteractions.Complete` | src/db/repositories/pg.ts:434-443 | Answers and completes as the table that keeps all. |
| `Handlers.PushAuthorizationRequest` | src/domain/par.ts:23-69 | The handler ends as the machine does and keeps what every request keeps (so for each endpoint below). A request is stored if and only if it is acceptable, names no `request_uri` and no second key; the one row put in is the client's, unused, expires in time, is bound to the key of header or body, and reads back as what was sent. |
| `Handlers.HandleAuthorize` | src/endpoints/authorize.ts:70-172 | As above. A request that cannot be opened or may not be made changes nothing; without the word `none` in its `prompt` it is parked, and nothing else happens; with it, it takes a session that need not be renewed and is decided at once, and a code is for the session's own user. |
| `Handlers.LoadInteractionContext` | src/endpoints/interaction.ts:52-79 | The three lookups and the re-validation give the context as it stands, even on a table that has swept. |
| `Handlers.ShowInteraction` | src/endpoints/interaction.ts:87-126 | As above. Nothing happens to an interaction or request that is not open; an open interaction is bound to the session's subject if and only if the session need not be renewed for the request, and nothing else changes. |
| `Handlers.SubmitConsent` | src/endpoints/interaction.ts:165-215 | As above. The form counts if and only if interaction and request are open and it was bound to the submitting subject; it then completes it; a code takes exactly the user's approval, the policy's and a request still unused, and its grant names that subject; a refusal leaves a request that nobody can open again. |
| `Handlers.IssueCodeForInteraction` | src/endpoints/interaction.ts:222-248 | As the machine: a code if and only if the request is still unused and unexpired, which it then is not, and the grant is this user's. |
| `Handlers.IssueAuthorizationCode` | src/domain/grant.ts:31-66 | As the machine; exactly one grant row and one code row, stored by its hash, with all their members. |
| `Handlers.RedeemAuthorizationCode` | src/domain/grant.ts:79-130 | As the machine. Success if and only if the code is unused and unexpired, is shown by its client with its redirect URI, a verifier that hashes to its challenge and its key, and its grant is not revoked. An open code is used up in any case; a used one ends its grant with every token of it, and nothing else changes. |
| `Handlers.HandleAuthorizationCode` | src/endpoints/token.ts:94-131 | As above, to the tokens, which are exactly those of the grant, its subject and scope, bound to the key presented, a refresh token exactly for clients registered for it; a used code shuts its grant, for every request served later. |
| `Handlers.LoadRefreshGrant` | src/domain/grant.ts:133-151 | Success if and only if the refresh token is live, the client's own, and its grant unrevoked. |
| `Handlers.HandleRefreshToken` | src/endpoints/token.ts:133-174 | As above. A token if and only if the refresh token is live and this client's, its grant not revoked, and no word asked for is beyond its scope; it is exactly one row, of the scope asked for or else all of it; no refresh token changes. |
| `Handlers.IssueTokenSet` | src/domain/tokens.ts:124-155 | As the machine; exactly one access row, and a refresh row exactly if asked for, with all their members. |
| `Handlers.Revoke` | src/endpoints/revoke.ts:46-65 | As above; the answer is the same always. The first finder that finds a record decides: another client's record changes nothing; the owner's access token is revoked and nothing else; the owner's refresh token is revoked with every access token of its grant and nothing else. |
| `PgRedeem.LinearizesPrefix` | src/db/repositories/pg.ts:223-245 | At every moment the one-step operations so far give the same answers and leave the same table. |
| `PgRedeem.RealTime` | src/db/repositories/pg.ts:223-245 | What has been answered is already in the sequence, what has not begun is not, nothing is in twice. |
| `PgRedeem.Linearizable` | src/db/repositories/pg.ts:223-245 | Any interleaving of inserts and redemptions with differing clock readings is one of atomic in-memory operations. |
| `PgRedeem.OneRedemption` | src/db/repositories/pg.ts:223-245 | Once a code is redeemed, every later presentation that is answered is told of the replay with the same record, even past expiry. |
| `PgRedeem.PgAuthorizationCodes.Redeem` | src/db/repositories/pg.ts:223-245 | With nothing in between, the two statements are the in-memory redeem. |
| `PgProtocol.RunSeen` | src/db/repositories/pg.ts:223-245 | Every run of the machine whose redeem is an UPDATE and a SELECT with other requests in between is, world by world, a run of the machine that redeems in one step. |
| `PgProtocol.SameWorlds` | src/db/repositories/pg.ts:223-245 | And the two machines come to exactly the same worlds. |
| `PgProtocol.PgRunInv` | src/domain/grant.ts:79-130 | So the whole invariant of provenance holds over PostgreSQL. |
| `PgProtocol.PgOneOutcome` | src/endpoints/interaction.ts:193-243 | So does one outcome per request URI, at any two moments. |
| `PgProtocol.PgFinalExactly` | src/domain/grant.ts:93-101 | And the end of a grant is final in all continuations there, if and only if all its tokens are revoked and no request under way has passed the checks. |
| `KeyStore.MemorySigningKeys.Insert` | src/db/repositories/memory.ts:38-51 | Refused, changing nothing, if and only if the row is active and there is an active one. |
| `KeyStore.KeyStore.Init` | src/crypto/keys.ts:141-161 | Alone, on any table, ends with exactly one active row: the newest there was, the others retired oldest first, each at its own reading of the clock, or a new one. |
| `KeyStore.RetiredAt` | src/crypto/keys.ts:147-154 | Each stale row is retired at the reading taken for it and otherwise left as it was. |
| `KeyStore.KeyStore.Rotate` | src/crypto/keys.ts:165-210 | The kid returned is the one active row of the table, its own or an adopted one, and the previous key is retired and stays loaded; if the store fails, before or after it has done the work, nothing is returned and the key marked retired stays in use. |
| `KeyStore.KeyStore.PublicJwks` | src/crypto/keys.ts:219-230 | Exactly the keys inside the horizon, once each, active first and otherwise in the map's order; among them the key of every unexpired signature made in time. |
| `KeyStore.RetentionExactly` | src/crypto/keys.ts:46-49 | Every unexpired token's key is published if and only if lifetime plus lateness is at most 24 h; the configured maximum just fits. |
| `KeyStore.HorizonMissed` | src/crypto/keys.ts:165-230 | For anything more, a keystore's history: it boots, fails to rotate, signs that much later, and does not publish the key while the token is unexpired. |
| `KeyStoreRaces.AtMostOneActive` | src/db/migrations/0002_domain.sql:16-19 | Under any interleaving of `init` and `rotate` across processes, with failures and crashes at any await, a table with at most one active row keeps at most one. |
| `KeyStoreRaces.ActiveIsLoaded` | src/crypto/keys.ts:155-209 | The key a process signs with is always among those it has loaded. |
| `KeyStoreRaces.FailedInitIsForgotten` | src/crypto/keys.ts:130-138 | In every run a process holds on to no failed `init`, so that a live one whose inits have all failed can start another. |
| `KeyStoreRaces.ActivePublishedExactly` | src/crypto/keys.ts:165-227 | In every run, it is published at a given time if and only if no rotation of this process marked it retired 24 h ago or more and has settled on nothing since. |
| `KeyStoreRaces.ActiveUnpublished` | src/crypto/keys.ts:171-209 | A run, with one failed insert, that ends with a live process signing with a key which it does not publish from 24 h on. |
| `KeyStoreRaces.ServerPublishesExactly` | src/crypto/keys.ts:141-161 | A process that never rotates holds, once booted, exactly the keys listed by its `init` and the one it settled on, which is the newest active one listed if there was one; it publishes the latter and, of the others, exactly those retired less than 24 h before, counted from the listed mark or from when this `init` itself retired the row. |
| `KeyStoreRaces.SignedBeforeIsKnown` | src/crypto/keys.ts:141-161 | Whatever any process signed with before that listing, the server knows. |
| `KeyStoreRaces.UnknownToServer` | src/db/keys-rotate.ts:26-27 | A run in which one process boots and serves, another boots and rotates, all calls complete, and the first does not know the key that the second signs with. |
| `KeyStoreRaces.ReturnsActiveKid` | src/crypto/keys.ts:165-210 | The kid a call settles on was the table's active one at some moment during the call. |
| `KeyStoreRaces.FirstBootAgrees` | src/crypto/keys.ts:141-206 | Any number of processes booting on a table with no active row, crashing anywhere, with nobody rotating: all that complete, whenever, hold the same key, the one active row. |

## Left out

- Cryptography: signing, verifying, AES-GCM envelopes of private keys, SHA-256 and HMAC are parameters or inputs; a token's signature being valid is an input.
- HTTP, Fastify wiring, headers, views, logging, TLS, error texts and status codes beyond which kind of error stops a request.
- SQL: each statement is one atomic step on a map; foreign keys, indexes other than the one on active keys, and transactions are not modelled.
- Remote JWKS fetching and the policy decision point: their answers are inputs.
- The access and identity tokens as signed text: the machine stores the access-token record; building and signing the claims touches no table.
- The login POST: it authenticates and sets a cookie but writes no table; the session it makes is the input of the interaction steps.
- CSRF checks in the machine: a consent step starts with a session that has already passed them.
- Registration of proofs and assertions as steps of the machine: authentication and proof verification are modules of their own, and the machine's requests start after them.
- Sweeping of interactions in the machine: `MemoryStores` shows that it cannot be seen.
- Rate limiting in front of the endpoints: modelled by itself, in RateLimit.
- URL parsing: redirect URIs and `htu` are compared as given, after normalisation.
- Text outside Unicode scalar values (lone surrogates), and Node's leniency in decoding base64url.
- `max_age` values beyond 2^53, where `Number` loses digits.
- Configuration loading, discovery, metadata checks of clients, migrations, seeding, deployment and conformance scripts.
- Dpop.ValidNonce: does not model the window numbered -1, which exists only in the first minute of 1970.
- KeyStore.KeyStore.Init: does not model a failing store; that is KeyStoreRaces, where any call of `init` or `rotate` may fail.
- Key import: undecryptable rows make `init` fail, which KeyStoreRaces covers as a failing call, without saying which rows.
