# The API gateway's edge, verified

The gateway is mostly a proxy, but it owns state of its own: one-time ownership
challenges, a cache of idempotent workstation claims, an audit log, and the
budget checks in front of the OTP and challenge routes. In front of mounted
handlers it puts bearer-token, staff and audit layers that can be stacked in any
order. This project models that part of the gateway in Dafny and proves what it
guarantees over whole runs: for every interleaving of concurrent requests, every
limiter behaviour, every stack of layers and every token.

`dafny verify dfyconfig.toml` checks everything.

## How the model is built

The limited routes are modelled three times, and the three are proved to agree.

- `Edge` is a small-step machine. Requests arrive, the clock is set, and any
  request takes its next atomic step: a limiter call, a clock read, the upstream
  call, or one of the four mutex-guarded store operations. Code between two such
  steps is local to its request. Every step is logged as an event with the
  positions of the earlier steps it rests on.
- `Pipeline` is the same in direct style: what one route does when nothing
  interferes.
- `Stores`, `Service` and `Handlers` are the source's own form: stores with a map
  that methods reassign, use cases that call them in order, handlers that set
  headers and write one status. Each method is proved against `Pipeline`.

`SoloRuns` closes the triangle: a request that runs alone in the machine does
what its route does in direct style, from any state, so sequential service is
one of the machine's runs. `Linearization` goes the other way: it says exactly
which runs are explained by serving their requests one after the other, in the
order of their last store operations. `RouteTheorems` and `RefusalRuns` tell whole
routes by what callers send and receive.

`EdgeInvariant` proves one invariant of every reachable state; `OwnershipRuns`,
`ClaimRuns` and `LimitRuns` draw the theorems about all runs from it. `Logs` says
what an event log means for the two stores without mentioning requests.

The token layers are modelled twice. `Middleware.Serve` interprets a stack, given
as a list of layers, on one request; `Tokens.TokenAuth` is the source's form, with
headers, written statuses and an append-only store, and is proved to do what the
interpreter says. `StackTheorems` and `TokenTheorems` prove their results by induction over all stacks.
`Audit` holds the log and its views.

`Text`, `Ids`, `Crypto`, `RateLimit`, `Ownership` and `Onboarding` hold the values:
trimming and folding, codes, hex, keys and policies, challenges, claims. Each has
lemmas that say what its functions mean in characters, digits, bytes and seconds.

## What the code guarantees less of than it may seem

Five properties one might expect do not hold of the code as it is. Each is
settled by inputs or a run that show it and by the exact condition.

- A claim replay is first-writer-wins only while claims on a key do not overlap.
  `Claim` is a Get followed by a Put, and two overlapping claims are both answered
  as fresh while the second replaces the first in the cache
  (`OverlappingClaimsRebind`), although the comment above `ClaimCredentialsFor`
  says a replay returns exactly what the first call returned. Without an overtaken
  Put every answer carries the first record (`ReplaysAreExact`); a single Put and a
  single fresh answer each hold exactly then (`FirstWriterWinsExactlyWhen`), and
  once nothing is pending on the key, exactly when no claim's Get fell between
  another's Get and Put (`FirstWriterWinsWithoutOverlap`). No sequential order gives
  two fresh answers on one key (`OneFreshInAnyOrder`).
- Derived claim keys of different claimants collide exactly across a shifted
  colon (`DerivedKeyCollision`, with `CollidingClaimants` as an example). The
  replay then hands the second claimant its own secrets under the first one's name
  (`CollisionReplaysFirst`).
- `VerifyChallenge` reads the clock before it compares. Under overlap a proof can
  be dated before its challenge (`ProofMayPredateChallenge`), exactly when the
  verification read the clock first and the clock then moved
  (`ProofPredatesExactlyWhen`). And a code can be confirmed after another call found
  it expired (`StaleReadingMayConfirm`): a verification succeeds exactly when the
  unconsumed code had not expired at its own reading, whatever others found
  (`VerifySucceedsExactlyWhen`), so only with a reading taken before the one that
  found the expiry (`ExpiryIsFinal`).
- Limiter keys separate clients from identifiers except that an OTP-request client
  whose address is "id:" and a hash shares that identifier's key (`BucketKeys`).
  A forwarded address can spell that when the proxy is trusted
  (`ForwardedClientSharesKey`).
- A granted break-glass access can be recorded without an actor
  (`UnnamedBreakGlass`), exactly when the token names its bearer by neither claim
  (`UnnamedBreakGlassExactlyWhen`). An AuditHook outside the outermost
  authenticating layer never sees an identity and records nothing, which is why
  `AuditConservation` counts only the hooks entered with one.

## Assumptions the theorems state

- Strings are ASCII. SHA-256, title-casing and the rendering of a time are
  unknown functions that every theorem quantifies over.
- The limiter may answer anything at every call. Only `ThreePerWindow` and `ThreePerInterval` assume
  something of it: at most three grants of the identifier policy on the bucket
  among the decisions of a window. `ThreePerWindow` takes any set of positions in the
  log as a window and counts an act with the grant it spent; `ThreePerInterval` takes
  an interval and counts acts where they happen.
- The clock may show anything, except where a theorem asks that it start at zero
  and never run backwards.
- JWT verification is an unknown function of secret and token, the same throughout
  one request; the upstream's answers to API-token validation are arbitrary and
  may differ from layer to layer. Where an API token is presented, the theorems
  ask that no secret verifies a token beginning with `oat_`: read as base64url
  those letters give a first byte of 0xA1, which no JSON header starts with.

## Model

| member | source | states |
|---|---|---|
| `OwnershipRuns.ProofRestsOnSave` | internal/application/ownership.go:44-64 | In every interleaving, each proof rests on an earlier Save: the normal form of the address the caller gave, the code the caller gave, VerifiedAt not after that Save's expiry, and no Save or success for that address in between |
| `OwnershipRuns.ProofsUseDistinctSaves` | internal/infrastructure/memory/memory.go:33-42 | Two proofs never rest on the same Save: a code is consumed at most once, whatever runs concurrently |
| `OwnershipRuns.StoreEventsAreAnswered` | internal/application/ownership.go:52-63 | The converse: every accepted Confirm was answered with the proof for that address, and every Save with the 200 of the request that made it |
| `OwnershipRuns.SavesAreConserved` | internal/infrastructure/memory/memory.go:24-42 | Per address, Saves equal successes plus overwritten challenges plus the stored one; so successes and a stored entry never exceed Saves |
| `OwnershipRuns.StoreMatchesHistory` | internal/infrastructure/memory/memory.go:24-42 | At every point of every run the store holds, per address, the last Save not followed by a success, and nothing else |
| `OwnershipRuns.StoredKeysAreNormal` | internal/application/ownership.go:20-23 | Every stored key is non-empty, contains "@" and is its own normal form; every stored code is six digits |
| `OwnershipRuns.VerifySucceedsExactlyWhen` | internal/application/ownership.go:51-56 | Wherever the Confirm step falls in an interleaving, it succeeds if and only if the last thing that happened to the address is a Save of this code not expired at the reading; a failure answers 401 and changes no challenge, a success removes exactly that one |
| `OwnershipRuns.IssuedCodeVerifies` | internal/application/ownership.go:42-64 | Completeness: after any history, an unconsumed and not superseded code verifies up to and including its expiry instant, however the address is cased or padded and the code padded, with any wrong codes and other calls in between |
| `OwnershipRuns.AnySpellingVerifies` | internal/application/ownership.go:20-64 | The same told by the two requests: a code verifies for every spelling of the address that differs from the challenge request's in case and blank padding only |
| `OwnershipRuns.ProofSpellsItsChallenge` | internal/application/ownership.go:44-64 | And only for those: in every interleaving a proof's request spells the address of the challenge it rests on, up to case and padding, and the code up to padding |
| `RouteTheorems.ChallengeThenVerify` | internal/application/ownership.go:19-64 | End to end, from an empty store: a verification is answered with a proof if and only if its address is the challenge's up to case and padding, its code the six digits the drawn bytes denote, and at most 600 seconds have passed; otherwise 401, or 400 for blanks, and the challenge stays |
| `RouteTheorems.RefusedVerification` | internal/application/ownership.go:52-56 | A non-blank verification that is refused says so in the contract's words |
| `Ownership.ChallengeLifetime` | internal/domain/ownership.go:11 | A challenge expires 600 seconds after the instant it was issued at |
| `Ownership.ProofMeaning` | internal/domain/ownership.go:55-60 | A proof carries the address and the instant, and as fingerprint the first sixteen digest bytes of email, code and time joined by colons, in hexadecimal |
| `OwnershipRuns.ReadingsAreOrdered` | internal/application/ownership.go:51 | Under a clock that never runs backwards, clock readings are ordered as they were taken |
| `OwnershipRuns.ExpiryIsFinal` | internal/application/ownership.go:51-56 | Under such a clock, after one evaluation found the challenge expired, every verification that read the clock no earlier fails until the next Save for that address |
| `OwnershipRuns.StaleReadingMayConfirm` | internal/application/ownership.go:51-56 | The reading order is needed: for every address and code there is a run in which a verification that read the clock before the expiry succeeds after another one found the challenge expired |
| `OwnershipRuns.ProofPredatesExactlyWhen` | internal/application/ownership.go:29-63 | Under a clock that never runs backwards, a proof is dated before its challenge if and only if the verification read the clock before the challenge did and the clock moved in between |
| `OwnershipRuns.ProofIsDatedWithinLifetime` | internal/application/ownership.go:29-31 | Its corollary: a proof is dated within the ten minutes of its challenge whenever the verification read the clock no earlier than the challenge did; the exact condition is ProofPredatesExactlyWhen |
| `OwnershipRuns.ProofMayPredateChallenge` | internal/application/ownership.go:51-63 | That order is needed too: for every address and code there is a run whose proof is dated before its challenge was issued |
| `Logs.StoreIsLastTouch` | internal/infrastructure/memory/memory.go:24-42 | Replaying any event log leaves, per address, the last Save that no success consumed |
| `Logs.ConfirmedExactlyWhen` | internal/infrastructure/memory/memory.go:33-42 | A compare-and-remove succeeds exactly when the last event that touched its address is a Save that the acceptance rule accepts |
| `Logs.SavesAreSingleUse` | internal/infrastructure/memory/memory.go:33-42 | Distinct successes for one address consume distinct Saves |
| `Logs.ChallengeConservation` | internal/infrastructure/memory/memory.go:24-42 | In every faithful log each Save is consumed once, overwritten once, or still stored |
| `Logs.ExpiredStaysExpired` | internal/application/ownership.go:52-54 | No evaluation at an instant no earlier than one that found the challenge expired succeeds before the next Save |
| `Ids.NewCode` | internal/infrastructure/ids/ids.go:16-20 | The byte-buffer computation yields six digits that denote the big-endian number of the three bytes, modulo one million |
| `Ids.CodeMeaning` | internal/infrastructure/ids/ids.go:19 | A string is the code of a draw if and only if it is six digits denoting 65536 times the first byte plus 256 times the second plus the third, modulo one million |
| `Ids.CodesAreTrimmed` | internal/infrastructure/ids/ids.go:19 | Codes are trimmed, so blank padding around a code is stripped to exactly that code |
| `Ids.EveryCodeIsDrawn` | internal/infrastructure/ids/ids.go:16-20 | Every six-digit string is the code of some draw |
| `Text.TrimSpaceMeaning` | internal/application/ownership.go:45-46 | Trimming gives the one core without blank ends that the string pads |
| `Text.ToLowerMeaning` | internal/application/ownership.go:20 | Folding gives the one text without capitals that agrees with the given one up to the two cases of a letter |
| `Text.NormalizeMeaning` | internal/application/ownership.go:20-45 | Two texts have one normal form if and only if they agree up to case and blank padding |
| `Text.BlankCharacters` | internal/application/ownership.go:20 | Exactly tab, line feed, vertical tab, form feed, carriage return and space are blank |
| `Text.PrefixMeaning` | internal/infrastructure/httpapi/middleware.go:71-75 | A prefix is what precedes some rest, and trimming it leaves exactly that rest |
| `Text.ItoaMeaning` | internal/infrastructure/httpapi/response.go:87-91 | Decimal digits that denote the magnitude, after a minus sign for a negative number |
| `Crypto.HexSpells` | internal/domain/ratelimit.go:131-134 | Each byte becomes its two lower-case hexadecimal digits, the high one first |
| `Text.NormalizeLaws` | internal/domain/ratelimit.go:131-134 | Trim-then-lower and lower-then-trim agree and are idempotent on every ASCII string, so the two orders the source uses give one normal form |
| `Text.NormalizePadded` | internal/application/ownership.go:20 | Blank padding on either side never changes the normal form of an address |
| `ClaimRuns.AnswersFollowPuts` | internal/application/onboarding.go:20-42 | In every interleaving a response is fresh exactly when its Get precedes the first Put for its key; a fresh response is the caller's own record, a replay is the record of the last Put before its Get with only the replay flag set |
| `ClaimRuns.CacheMatchesHistory` | internal/infrastructure/memory/memory.go:56-68 | At every point the cache holds the last Put per key, with the replay flag false and one user named throughout |
| `ClaimRuns.AnswersNameOneUser` | internal/application/onboarding.go:30-34 | Every answered claim has User.UID equal to ForgejoUsername, and non-empty |
| `ClaimRuns.KeysStayBound` | internal/infrastructure/memory/memory.go:64-68 | No run ever unbinds a key |
| `ClaimRuns.OneClaimantOneCredential` | internal/application/onboarding.go:24-34 | If all claims on a key share trimmed token and normalized UID, every response on it, fresh or replayed, carries the same credentials |
| `ClaimRuns.PutRebindsExactlyWhen` | internal/application/onboarding.go:24-40 | A Put replaces an earlier record exactly when another claim on the key put one between this claim's Get and Put |
| `ClaimRuns.FirstWriterWinsExactlyWhen` | internal/application/onboarding.go:24-40 | A key has at most one Put if and only if no Put on it was overtaken, and at most one fresh response under the same condition and no other |
| `ClaimRuns.ReplaysAreExact` | internal/application/onboarding.go:24-42 | Unless a Put on the key was overtaken, every answered claim on it carries the record of the one Put, flagged as a replay exactly when another request made it |
| `ClaimRuns.FirstWriterWinsWithoutOverlap` | internal/application/onboarding.go:24-40 | The condition as overlap: without a Get between another claim's Get and its Put there is one Put, and once no claim on the key is about to put, one Put means no such Get |
| `ClaimRuns.PutMeansFresh` | internal/application/onboarding.go:40-42 | Every Put ended its request with a fresh answer of the record it stored |
| `ClaimRuns.OverlappingClaimsRebind` | internal/application/onboarding.go:24-42 | For any two complete claims on one idempotency key there is a run that answers both as fresh, each with its own record, and leaves the second record in the cache |
| `Onboarding.CacheHoldsFirstWriters` | internal/application/onboarding.go:24-40 | Claims run one after the other leave, per key, exactly the first complete call's record: the cache is a first-writer-wins map |
| `Onboarding.FirstWriterWins` | internal/application/onboarding.go:24-42 | Each sequential claim is answered with the record of the first complete call on its key, flagged as a replay exactly when it is not that call |
| `Onboarding.OneFreshInAnyOrder` | internal/application/onboarding.go:24-42 | In whatever order claims are served one after the other, at most one on a key is answered as fresh |
| `Onboarding.RefusedExactlyWhen` | internal/application/onboarding.go:14-18 | A claim is refused, and changes nothing, if and only if its invite token or its UID is blank |
| `Onboarding.CredentialsMeaning` | internal/domain/onboarding.go:91-101 | The secrets of a claim are the digest of the trimmed token, a colon and the UID: its first sixteen bytes in hexadecimal after "mcp_", and 10 plus its first byte modulo 200 |
| `Onboarding.KeyMeaning` | internal/application/onboarding.go:20-23 | The caller's key is used as it is; without one the key is the trimmed token, a colon and the record's UID |
| `RouteTheorems.ClaimAnswer` | internal/application/onboarding.go:13-43 | A claim route end to end: 400 for a blank token or UID, otherwise the cached record as a replay, or a new unflagged record that is now cached |
| `RefusalRuns.ClaimsCarryTokenAndUID` | internal/application/onboarding.go:14-18 | In every interleaving every answered claim came with a non-blank invite token and UID |
| `RefusalRuns.RefusedExactlyWhen` | internal/infrastructure/httpapi/response.go:25-34 | In every interleaving a request that passed the class stage is refused with 400 and its text, having asked and touched nothing more, exactly when it is not JSON, has no "@" in its address, or leaves a required field blank; every other one acted, or was refused by the identifier budget |
| `RefusalRuns.ActsAreWellFormed` | internal/application/ownership.go:21-23 | Only well-formed requests reach the identifier stage, the clock, the upstream or a store |
| `Onboarding.RecordKeepsSupplied` | internal/domain/onboarding.go:79-89 | A record keeps the caller's email and display name up to padding, fills blank ones from the UID, and names one trimmed lower-case user throughout |
| `Onboarding.DerivedKeyCollision` | internal/application/onboarding.go:20-23 | Derived keys of different claimants collide if and only if a colon is shifted between token and UID; a collision gives equal MCP token and WireGuard profile under different user names |
| `Onboarding.CollisionReplaysFirst` | internal/application/onboarding.go:20-28 | Whenever two different complete claimants share a derived key, the second is answered with the first one's record as a replay: another user name, and exactly the token and profile of its own record |
| `Onboarding.ShiftedColonCollides` | internal/application/onboarding.go:14-28 | Such claimants exist for any three trimmed lower-case words: the middle one can end the token or begin the UID |
| `Onboarding.CollidingClaimants` | internal/application/onboarding.go:14-28 | One pair: token "t:x" with UID "y", and token "t" with UID "x:y" |
| `Onboarding.DerivedKeyInjective` | internal/application/onboarding.go:20-23 | Where no UID holds a colon, the derived key determines token and UID |
| `Onboarding.HostOctetRange` | internal/domain/onboarding.go:94-116 | The client address of every claimant stays in 10.42.0.10 .. 10.42.0.209 |
| `Onboarding.ProfileAddress` | internal/domain/onboarding.go:105-108 | The profile opens with the address line, 10.42.0 and the host octet |
| `Onboarding.ProfileRevealsOctet` | internal/domain/onboarding.go:103-116 | The rendered WireGuard profile determines its host octet, so equal profiles mean equal octets and the reverse |
| `Logs.LookedExactlyWhen` | internal/infrastructure/memory/memory.go:56-68 | A look-up misses exactly when no Put for its key came before it, and otherwise returns the last one |
| `Text.JoinCollision` | internal/application/onboarding.go:22 | Two colon-joined pairs are equal if and only if they are the same pair or one boundary colon lies inside a component of the other |
| `LimitRuns.ActsAreGranted` | internal/application/auth.go:20-34 | With a limiter, every upstream OTP request and every saved challenge for a non-blank identifier spends an earlier grant of the same request on that identifier's one bucket, whatever route, case or padding it came with |
| `LimitRuns.OTPSpendsItsOwnField` | internal/application/auth.go:20-34 | Told by the body's fields: an OTP request that names an identifier spends a grant on that identifier whatever its email, one without spends a grant on its email, and blanks spend none |
| `LimitRuns.ChecksAskAboutFields` | internal/application/auth.go:67-76 | Every identifier check asks about its own request's field or address, and blanks are never asked about |
| `RouteTheorems.GrantedOTP` | internal/application/auth.go:20-34 | A granted OTP request asks about its client and its metered field, sends the body upstream as it came, and answers by the upstream: 200 with its expiry, the kind's status, or 500 without a kind |
| `RouteTheorems.BlockedRequest` | internal/infrastructure/httpapi/handlers.go:42-55 | A class denial answers 429 with the decision and its delay, a limiter failure 503 with Retry-After 5; one limiter call and nothing else happened |
| `LimitRuns.GrantsAreSpentOnce` | internal/application/auth.go:67-76 | No grant pays for two acts |
| `LimitRuns.ActsWithinGrants` | internal/application/auth.go:20-76 | Within any window of limiter decisions, acts for one identifier over both routes are at most the grants on its bucket, for every limiter |
| `LimitRuns.ThreePerWindow` | internal/domain/ratelimit.go:96-98 | Given a limiter that keeps the identifier policy, at most three acts per identifier spend grants of one window; ThreePerInterval counts acts where they happen |
| `LimitRuns.ActsWithinInterval` | internal/application/auth.go:20-76 | Counted where they happen: in any interval of the log the acts for one identifier are at most the grants given in it plus the unspent ones in flight at its start |
| `LimitRuns.ThreePerInterval` | internal/domain/ratelimit.go:96-98 | So, given a limiter that keeps the policy there, an interval sees at most three acts beyond those in flight at its start |
| `LimitRuns.HeldByDistinctRequests` | internal/application/auth.go:67-76 | Each grant in flight is held by a request of its own |
| `LimitRuns.GrantsAreNotLost` | internal/application/ownership.go:24-32 | Conversely every grant is the one its request holds, and was spent on that request's act, or the request is still in flight towards it |
| `LimitRuns.DenialsHaveNoEffect` | internal/infrastructure/httpapi/response.go:67-85 | Retry-After appears exactly when the limiter denied or failed at the class or identifier stage; then it is at least 1, 5 for a failure, the status is 429 or 503, and the request called nothing upstream and touched no store |
| `LimitRuns.HeadersShow` | internal/infrastructure/httpapi/handlers.go:42-100 | The X-RateLimit headers of an OTP request or challenge: the identifier decision on success with a non-blank identifier or on its denial, otherwise the class decision, otherwise none |
| `LimitRuns.AnswersAreTheLimiters` | internal/application/ratelimit.go:12-27 | Each limiter answer in the log is the one its request recorded, asked about its own class bucket and policy, or, once the class stage passed, about the bucket of its own identifier |
| `LimitRuns.ResponsesAreFinal` | internal/infrastructure/httpapi/handlers.go:42-55 | Once written, a response never changes |
| `RateLimit.BucketKeys` | internal/domain/ratelimit.go:119-127 | Distinct buckets have distinct limiter keys, except exactly an OTP-request client whose address is literally "id:" and a hash |
| `RateLimit.ForwardedClientSharesKey` | internal/infrastructure/httpapi/response.go:93-105 | The exception is reachable: behind a trusted proxy, a forwarded address spelling an identifier's hash puts its client on that identifier's key |
| `RateLimit.SharedBucket` | internal/domain/ratelimit.go:129-134 | Two identifiers share a bucket if and only if the digests of their normal forms agree on eight bytes; identifiers alike up to case and padding always do |
| `RateLimit.NormalFormBucket` | internal/application/ownership.go:24 | The normalized address Challenge meters and the raw identifier RequestOTP meters have one bucket |
| `RateLimit.RetrySeconds` | internal/infrastructure/httpapi/response.go:79-83 | The whole seconds of the delay, and at least one |
| `RateLimit.Budgets` | internal/domain/ratelimit.go:85-117 | The limits and windows: 5, 20, 10 and 30 a minute for the four auth classes, the zero policy for the others, 3 a minute for an identifier |
| `RateLimit.HashMeaning` | internal/domain/ratelimit.go:129-134 | An identifier's hash is the first eight digest bytes of its normal form, in hexadecimal |
| `RateLimit.IdentifierKeyText` | internal/domain/ratelimit.go:124-127 | The literal key of an identifier |
| `RateLimit.ClientKeyText` | internal/domain/ratelimit.go:119-122 | The literal key of a client within a class |
| `RateLimit.ClassTexts` | internal/domain/ratelimit.go:13-22 | The class names of the routes |
| `RateLimit.ClientIPMeaning` | internal/infrastructure/httpapi/response.go:93-105 | The socket's host without a trusted proxy or a forwarded list, otherwise the trimmed first entry of the list |
| `EdgeInvariant.Reachable` | internal/application/ownership.go:19-64 | Every state of every interleaving satisfies the invariant: stores replay the log, every request is justified by its own input and events, every event by the request that took it |
| `Edge.SoloIsARun` | internal/infrastructure/httpapi/handlers.go:42-55 | A request running alone from any reachable state is one of the interleavings, and takes at most four steps |
| `SoloRuns.SoloIsRoute` | internal/infrastructure/httpapi/handlers.go:42-100 | From any state, a request that runs without interference leaves the stores, the outside calls and the response that its route computes in direct style |
| `SoloRuns.ServingIsARun` | internal/infrastructure/httpapi/handlers.go:42-55 | Requests served one after the other are one of the interleavings, so theorems about all runs hold of them |
| `Linearization.LinearizableExactlyWhen` | internal/infrastructure/memory/memory.go:24-68 | A run is linearizable in commit order if and only if no Put in it was overtaken: exactly then every request that committed got the response it would have got served alone at its turn, and both stores are those that order leaves |
| `Linearization.OwnershipIsLinearizable` | internal/application/ownership.go:19-64 | Challenges and verifications are linearizable without condition, each with its own clock reading |
| `Linearization.CommitOrderLeaves` | internal/infrastructure/memory/memory.go:24-68 | In every run commit order leaves the run's own challenge store and the cache of first Puts |
| `Linearization.AnswersCommit` | internal/application/onboarding.go:24-42 | Every answer from a store was committed, exactly once and by a step of its own request |
| `Stores.Challenges.Save` | internal/infrastructure/memory/memory.go:24-28 | Inserts or replaces one challenge and keeps the others |
| `Stores.Challenges.Confirm` | internal/infrastructure/memory/memory.go:33-42 | Removes the challenge if and only if it is stored and accepted; a rejection leaves the whole store |
| `Stores.Claims.Get` | internal/infrastructure/memory/memory.go:56-61 | The cached record, or none |
| `Stores.Claims.Put` | internal/infrastructure/memory/memory.go:64-68 | Inserts or replaces one record and keeps the others |
| `Service.Application.Allow` | internal/application/ratelimit.go:18-27 | One limiter call with this key and policy; an error, a denial and a grant become the three outcomes |
| `Service.Application.CheckClassLimit` | internal/application/ratelimit.go:12-14 | One limiter call on the client's bucket under the class policy |
| `Service.Application.CheckIdentifierLimit` | internal/application/auth.go:67-76 | A blank identifier or no limiter costs nothing; otherwise exactly one call on the identifier's bucket |
| `Service.Application.RequestOTP` | internal/application/auth.go:20-34 | The identifier budget is asked first; upstream is called exactly when it did not refuse |
| `Service.Application.Challenge` | internal/application/ownership.go:19-40 | The whole new store and the limiter calls on every path: bad address, denial, failure, and success |
| `Service.Application.VerifyChallenge` | internal/application/ownership.go:44-64 | The proof and the removal when the stored challenge accepts; otherwise the error and an unchanged store |
| `Service.Application.Provision` | internal/application/onboarding.go:30-39 | The record of a claim from defaults and derived credentials |
| `Service.Application.Claim` | internal/application/onboarding.go:13-43 | One call without interference is one step of the first-writer-wins cache |
| `Handlers.HeadersReveal` | internal/infrastructure/httpapi/response.go:87-91 | Response headers determine whether a decision is shown, and its limit, remainder, reset second and Retry-After |
| `Handlers.HeadersTell` | internal/infrastructure/httpapi/response.go:19-23 | A response's headers: JSON always; limit, remainder and reset second exactly for a shown decision, each under its own name; Retry-After exactly when set |
| `Handlers.HeaderTexts` | internal/infrastructure/httpapi/response.go:87-91 | The literal header names |
| `Edge.KindStatuses` | internal/infrastructure/httpapi/response.go:41-60 | The status of each kind of failure |
| `Edge.ErrorTexts` | internal/infrastructure/httpapi/response.go:27-85 | The edge's own error texts tell its failures apart |
| `Handlers.ResponseWriter.WriteJSON` | internal/infrastructure/httpapi/response.go:19-23 | One status, the prepared headers plus the content type, and the body |
| `Handlers.ResponseWriter.SetRateLimitHeaders` | internal/infrastructure/httpapi/response.go:87-91 | Replaces the shown decision, whatever was shown before |
| `Handlers.ResponseWriter.WriteAppError` | internal/infrastructure/httpapi/response.go:38-63 | The response of an application failure, with the headers prepared so far |
| `Handlers.ResponseWriter.WriteLimitError` | internal/infrastructure/httpapi/response.go:67-85 | The response of an unavailable limiter, a denial, or an application failure |
| `Handlers.Handlers.RequestOTP` | internal/infrastructure/httpapi/handlers.go:81-100 | Stores, outside calls and the one response are those of the direct style |
| `Handlers.Handlers.Challenge` | internal/infrastructure/httpapi/handlers.go:183-200 | The same for a challenge |
| `Handlers.Handlers.VerifyChallenge` | internal/infrastructure/httpapi/handlers.go:202-219 | The same for a verification |
| `Handlers.Handlers.Claim` | internal/infrastructure/httpapi/handlers.go:258-296 | The same for a claim |
| `Handlers.Handlers.Serve` | internal/infrastructure/httpapi/handlers.go:42-55 | The wrapped route from arrival to its one written status, for every limiter behaviour |
| `Audit.AuditStore.Record` | internal/infrastructure/memory/audit.go:22-27 | Appends one entry and keeps the others in place |
| `Audit.AuditStore.ListByOrg` | internal/infrastructure/memory/audit.go:30-40 | The order-preserving filter for a non-empty organization, everything for the empty one |
| `Audit.AuditStore.All` | internal/infrastructure/memory/audit.go:43-49 | Everything, in order |
| `Audit.AuditStore.RecordAudit` | internal/application/service.go:96-115 | Appends the entry with missing time and ID filled and everything else kept |
| `Audit.FilledIsComplete` | internal/application/service.go:96-115 | A recorded entry keeps everything given, takes the clock's time if it had none and the literal ID text if it had none, and recording it again would change nothing |
| `Audit.ActionNames` | internal/infrastructure/httpapi/middleware.go:215-250 | A break-glass entry and request entries of different methods or paths never read alike |
| `Audit.ViewsSelect` | internal/infrastructure/memory/audit.go:30-40 | A view holds every entry of its organization as often as the log does, and no other |
| `Audit.ViewsOnlyGrow` | internal/infrastructure/memory/audit.go:22-40 | Later records only extend an earlier view; what was returned stays a prefix |
| `Audit.ViewsPartition` | internal/infrastructure/memory/audit.go:30-40 | The views of a duplicate-free list of the occurring organizations partition the log as a multiset |
| `Audit.ListsPartition` | internal/infrastructure/memory/audit.go:30-49 | The non-empty organizations' lists plus the entries without one partition the full list |
| `StackTheorems.EndpointSeesOneEnrichment` | internal/infrastructure/httpapi/middleware.go:336-370 | Through every stack of any depth and order, a reached endpoint sees exactly the context of one enrichment (empty if nothing authenticates), and X-User-Id names that user exactly below a Dual |
| `StackTheorems.StaffReachedExactlyWhen` | internal/infrastructure/httpapi/middleware.go:130-169 | Behind at least one RequireStaff a JWT request is served if and only if a secret is configured, the Bearer prefix is present, a configured secret verifies the token and its claims report staff; otherwise 500, 401 or 403 |
| `StackTheorems.APITokenNeverReachesStaff` | internal/infrastructure/httpapi/middleware.go:64-169 | An oat_ token never gets past a RequireStaff, wherever it stands in the stack |
| `StackTheorems.AuditConservation` | internal/infrastructure/httpapi/middleware.go:172-263 | A verified request appends exactly the break-glass entry if it was granted and one identical entry per AuditHook entered with its identity, if that names an actor, in that order, and nothing else |
| `StackTheorems.InnerHooksWriteFirst` | internal/infrastructure/httpapi/middleware.go:172-221 | For any token and context, entries come endpoint first, then hooks inner before outer, each from the context around it |
| `StackTheorems.EntriesAreCoherent` | internal/infrastructure/httpapi/middleware.go:172-263 | Every entry any request writes: staff type exactly when IsStaff, break-glass and a reason only for staff, a non-empty actor on AuditHook entries |
| `StackTheorems.ReachableLogs` | internal/infrastructure/httpapi/middleware.go:172-263 | Every log of every run of requests is coherent and complete, and later requests alter nothing already there |
| `StackTheorems.InterleavedLogsAreCoherent` | internal/infrastructure/httpapi/middleware.go:172-221 | After any interleaving of concurrent requests the store's entries, stamped as they were recorded, are coherent and complete, and every earlier state is a prefix |
| `StackTheorems.UnnamedBreakGlass` | internal/infrastructure/httpapi/middleware.go:224-263 | A token claiming only is_staff and a reason, through RequireStaff and AuditHook, is granted and leaves exactly one entry, without an actor |
| `StackTheorems.UnnamedBreakGlassExactlyWhen` | internal/infrastructure/httpapi/middleware.go:224-255 | A granted break-glass access is recorded without an actor, and by no AuditHook, if and only if the token carries neither sub nor staff_subject |
| `StackTheorems.VerifiedServe` | internal/infrastructure/httpapi/middleware.go:64-169 | For a verified token: which stacks block it, with 403, and what the endpoint of every other stack sees |
| `StackTheorems.UnverifiedServe` | internal/infrastructure/httpapi/middleware.go:64-169 | Without verified claims nothing passes an authenticating layer and nothing is written: 401, or 500 without a secret |
| `StackTheorems.SubjectsAgree` | internal/infrastructure/httpapi/middleware.go:162-166 | For staff claims the subject fallbacks of RequireStaff and of JWT and Dual agree |
| `StackTheorems.EnrichIdempotent` | internal/infrastructure/httpapi/middleware.go:336-354 | Enriching a context twice with one token is enriching it once |
| `StackTheorems.EnrichedReveals` | internal/infrastructure/httpapi/middleware.go:336-431 | What the context readers return for verified claims, told from the claims alone |
| `TokenTheorems.BearerMeaning` | internal/infrastructure/httpapi/middleware.go:70-75 | The credential is what follows "Bearer " in the header, as section 2.1 of RFC 6750 has it |
| `TokenTheorems.APITokenMeaning` | internal/infrastructure/httpapi/middleware.go:76 | API tokens are those that start with "oat_" |
| `TokenTheorems.ParseTokenMeaning` | internal/infrastructure/httpapi/middleware.go:281-303 | Claims are those under the tenant secret if it is configured and verifies the token, otherwise those under the staff secret if that is; an empty secret is never tried |
| `TokenTheorems.VerifiedMeaning` | internal/infrastructure/httpapi/middleware.go:281-303 | A request is verified if and only if its token is not an API token and a configured secret, one being enough, gives its claims |
| `TokenTheorems.MissingBearer` | internal/infrastructure/httpapi/middleware.go:107-117 | Without a bearer credential an authenticating stack answers 401, or 500 exactly when neither secret is set |
| `TokenTheorems.DualOnAPIToken` | internal/infrastructure/httpapi/middleware.go:76-94 | Dual hands a known and permitted API token on as its user with its scopes, and answers an unknown one 401 and an unpermitted one 403 |
| `TokenTheorems.APITokenReachesExactlyWhen` | internal/infrastructure/httpapi/middleware.go:64-169 | Through every stack an API token reaches the endpoint if and only if no JWT or RequireStaff stands in it, a secret is configured wherever a Dual stands, and every Dual's validation knows the token and permits the method; the endpoint then sees the innermost Dual's identity |
| `TokenTheorems.GateTrustsContext` | internal/infrastructure/httpapi/middleware.go:136-144 | RequireStaff hands a staff context on as it is and answers an identified caller that is not staff 403 |
| `TokenTheorems.UnauditedWritesNothing` | internal/infrastructure/httpapi/middleware.go:176-178 | Without an audit store nothing is written through any stack, for any token and endpoint |
| `TokenTheorems.VerifiedStatus` | internal/infrastructure/httpapi/middleware.go:224-263 | The status a verified token gets through any authenticating stack: 403 where staff is required and it is not, the handler's own otherwise, and 200, 400 or 403 at the break-glass endpoint |
| `TokenTheorems.EndpointAnswers` | internal/infrastructure/httpapi/middleware.go:64-263 | No layer changes the status of an endpoint that was reached |
| `TokenTheorems.StaffIdentityTells` | internal/infrastructure/httpapi/middleware.go:305-354 | The staff identity a token yields, field by field from its claims; the context holds it for staff only |
| `TokenTheorems.OrgMeaning` | internal/infrastructure/httpapi/middleware.go:318-324 | An entry names the first non-empty of the staff token's organization claims, the path and the header, in that order |
| `TokenTheorems.HookEntryTells` | internal/infrastructure/httpapi/middleware.go:182-218 | What an AuditHook records of a verified request, field by field from the claims and the request line |
| `TokenTheorems.BreakGlassEntryTells` | internal/infrastructure/httpapi/middleware.go:235-255 | What a granted break-glass access leaves on record, field by field |
| `TokenTheorems.ScopesMeaning` | internal/infrastructure/httpapi/middleware.go:372-389 | No scopes permit everything; otherwise "write", in any case and padding, permits every method and "read" exactly GET, HEAD and OPTIONS |
| `TokenTheorems.ReadOnlyScopes` | internal/infrastructure/httpapi/middleware.go:372-389 | A list of nothing but "read" permits nothing but reading |
| `Middleware.ClaimNames` | internal/infrastructure/httpapi/middleware.go:305-334 | The literal claim names, all distinct |
| `Middleware.StringClaims` | internal/infrastructure/httpapi/middleware.go:307-324 | A claim reads as its text exactly when it is a string, and as empty otherwise |
| `Middleware.MethodNames` | internal/infrastructure/httpapi/middleware.go:378 | The literal names of the reading methods |
| `StackTheorems.WriteImpliesRead` | internal/infrastructure/httpapi/middleware.go:374-389 | Scopes that permit a write method permit every read method |
| `StackTheorems.MoreScopesAllowMore` | internal/infrastructure/httpapi/middleware.go:374-389 | Adding scopes to a non-empty list never revokes a permission |
| `StackTheorems.ScopesUpToNormalForm` | internal/infrastructure/httpapi/middleware.go:374-389 | The verdict does not depend on order, repetition, case or padding of the scopes |
| `Tokens.TokenAuth.constructor` | internal/infrastructure/httpapi/middleware.go:25-35 | An empty staff secret leaves the tenant secret in its place |
| `Tokens.TokenAuth.ParseToken` | internal/infrastructure/httpapi/middleware.go:281-303 | The loop over the secrets finds the claims of the first configured secret that verifies the token |
| `Tokens.TokenAuth.ExtractStaffIdentity` | internal/infrastructure/httpapi/middleware.go:305-334 | The step-by-step filling yields the declarative staff identity |
| `Tokens.TokenAuth.AllowedByScopes` | internal/infrastructure/httpapi/middleware.go:374-389 | The loop decides the declarative rule: no scopes, or one that grants the method |
| `Tokens.TokenAuth.HandleStaffBreakGlass` | internal/infrastructure/httpapi/middleware.go:224-263 | One status, and one entry exactly when granted and a store is wired |
| `Tokens.TokenAuth.RecordOnTheWayOut` | internal/infrastructure/httpapi/middleware.go:176-219 | What an AuditHook appends for the context around it |
| `Tokens.TokenAuth.ServeHTTP` | internal/infrastructure/httpapi/middleware.go:64-263 | Serving any stack step by step writes the one status, appends the entries and shows the endpoint the context that the interpreter of stacks computes |
| `Tokens.TokenAuth.ServeDual` | internal/infrastructure/httpapi/middleware.go:64-102 | The same for a Dual on top, with X-User-Id set |
| `Tokens.TokenAuth.ServeJWT` | internal/infrastructure/httpapi/middleware.go:107-125 | The same for a JWT on top |
| `Tokens.TokenAuth.ServeRequireStaff` | internal/infrastructure/httpapi/middleware.go:130-169 | The same for a RequireStaff on top |
| `Tokens.TokenAuth.ServeAuditHook` | internal/infrastructure/httpapi/middleware.go:172-221 | The same for an AuditHook on top: inner entries first |

## Left out

- The rate-limiting algorithm, Redis, and the per-IP and per-organization keys of the shared library: the limiter is a port that may answer anything, which is what the theorems need.
- JWT parsing and signature checks, SHA-256, title-casing, JSON encoding and decoding: unknown functions, or an input that is absent when decoding failed.
- net.SplitHostPort: the socket's host is an input, and a request of the machine carries the client address already chosen.
- Unicode case folding and blanks: strings are ASCII.
- Response fields that are constants: the claim's status, groups and workspace, the challenge's status and "10m", the proof's status and its never-set display name, and the bodies of the token layers' error responses.
- The Metadata map of audit entries, which these layers never set, and its aliasing; uniqueness of audit IDs and collision resistance of hashes, which the code does not guarantee.
- A service without an audit store is the `audited` flag of the token layers' configuration; a nil clock falling back to time.Now is the same arbitrary stamp.
- The mutexes themselves: each guarded store operation is one atomic step of the machine. The imperative classes are proved for one request at a time; concurrency is the machine's.
- `Linearization` orders the requests that reached a store. OTP requests touch neither store, and requests that were blocked or malformed touch nothing; their responses follow from what the limiter and the upstream answered them.
- The direct style records limiter calls and upstream calls in two lists, not the order between them; that order is in the machine's log (`ActsAreGranted`).
- Mounted endpoint handlers are an arbitrary status; they are taken not to write to the audit log or to change headers that the layers read.
- Organization, sign-up, tenant and flag routes, verifyOTP, login and refresh, and the gRPC adapter: these forward one call and copy fields.
- Fiber and net/http wiring, header-spelling restoration, body size limits, timeouts, JWKS, OpenAPI and installer assets, main: I/O and configuration.
- RateLimit.RetrySeconds: whole seconds are computed exactly, without the rounding of a duration converted to floating-point seconds, which agrees below 2^22 seconds.
