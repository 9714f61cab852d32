/** The use cases (internal/application), run by one request at a time. */
module Service {
  import opened Crypto
  import opened Edge
  import opened Ids
  import opened Onboarding
  import opened Ownership
  import opened Pipeline
  import opened RateLimit
  import opened Stores
  import opened Text
  import opened Wrappers

  datatype OTPReceipt = OTPReceipt(expiresAt: string, identifierLimit: Option<Decision>)

  datatype ChallengeReceipt = ChallengeReceipt(identifierLimit: Option<Decision>)

  class Application {
    const cfg: Config
    const limiter: Limiter?
    const challenges: Challenges
    const claims: Claims
    const upstream: Upstream

    ghost predicate Valid() {
      cfg.limited <==> limiter != null
    }

    /** The limiter calls made so far. */
    ghost function Calls(): seq<LimiterCall>
      reads limiter
    {
      if limiter == null then [] else limiter.calls
    }

    /** The stores and the outside calls made so far. */
    ghost function Observed(): World
      reads challenges, claims, limiter, upstream
    {
      World(challenges.items, claims.items, Calls(), upstream.sent)
    }

    constructor (prims: Primitives, limiter: Limiter?)
      ensures Valid() && cfg == Config(limiter != null, prims) && this.limiter == limiter
      ensures fresh(challenges) && fresh(claims) && fresh(upstream)
      ensures challenges.items == map[] && claims.items == map[] && upstream.sent == []
    {
      cfg := Config(limiter != null, prims);
      this.limiter := limiter;
      challenges := new Challenges();
      claims := new Claims();
      upstream := new Upstream();
    }

    method Allow(bucket: Bucket, policy: Policy, answer: Answer) returns (r: Result<Decision, Failure>)
      requires Valid() && limiter != null
      modifies limiter
      ensures Calls() == old(Calls()) + [LimiterCall(bucket, policy, answer)]
      ensures r == Verdict(answer)
    {
      var given := limiter.Allow(bucket, policy, answer);
      if given.Failed? {
        return Failure(LimiterDown);
      }
      if !given.decision.allowed {
        return Failure(Denied(given.decision));
      }
      return Success(given.decision);
    }

    method CheckClassLimit(class_: RouteClass, clientIP: string, answer: Answer) returns (r: Result<Decision, Failure>)
      requires Valid() && limiter != null
      modifies limiter
      ensures Calls() == old(Calls()) + [LimiterCall(ClientBucket(class_, clientIP), PolicyFor(class_), answer)]
      ensures r == Verdict(answer)
    {
      r := Allow(ClientBucket(class_, clientIP), PolicyFor(class_), answer);
    }

    /** A blank identifier is not addressable: it consumes no budget and consults no limiter. */
    method CheckIdentifierLimit(identifier: string, answer: Answer) returns (r: Result<Option<Decision>, Failure>)
      requires Valid()
      modifies limiter
      ensures r == IdentifierVerdict(cfg.limited, identifier, answer)
      ensures Calls() == old(Calls()) + IdentifierCalls(identifier, answer)
    {
      if limiter == null || TrimSpace(identifier) == "" {
        return Success(None);
      }
      var decision := Allow(IdentifierBucketOf(cfg.prims.sha256, identifier), OTPRequestIdentifierPolicy(), answer);
      match decision
      case Failure(e) => return Failure(e);
      case Success(d) => return Success(Some(d));
    }

    ghost function IdentifierCalls(identifier: string, answer: Answer): seq<LimiterCall> {
      if Consults(cfg.limited, identifier)
      then [LimiterCall(IdentifierBucketOf(cfg.prims.sha256, identifier), OTPRequestIdentifierPolicy(), answer)]
      else []
    }

    /** The identifier budget is spent before the upstream call, and a refusal prevents it. */
    method RequestOTP(body: OTPRequest, input: Input) returns (r: Result<OTPReceipt, Failure>)
      requires Valid()
      modifies limiter, upstream
      ensures Calls() == old(Calls()) + IdentifierCalls(IdentifierOf(body), input.identifierAnswer)
      ensures var verdict := IdentifierVerdict(cfg.limited, IdentifierOf(body), input.identifierAnswer);
              match verdict
              case Failure(e) => r == Failure(e) && upstream.sent == old(upstream.sent)
              case Success(limit) =>
                && upstream.sent == old(upstream.sent) + [body]
                && r == match input.upstream
                        case Refused(error) => Failure(Application(error))
                        case Accepted(expiresAt) => Success(OTPReceipt(expiresAt, limit))
    {
      var identifier := body.identifier;
      if identifier == "" {
        identifier := body.email;
      }
      var limit := CheckIdentifierLimit(identifier, input.identifierAnswer);
      if limit.Failure? {
        return Failure(limit.error);
      }
      var answer := upstream.RequestOTP(body, input.upstream);
      match answer
      case Refused(error) => return Failure(Application(error));
      case Accepted(expiresAt) => return Success(OTPReceipt(expiresAt, limit.value));
    }

    /** A fresh code is saved under the normal form of the address, once its budget is spent. */
    method Challenge(rawEmail: string, input: Input, now: int) returns (r: Result<ChallengeReceipt, Failure>)
      requires Valid()
      modifies limiter, challenges
      ensures var email := Normalize(rawEmail);
              if !ValidEmail(email) then
                && r == Failure(Application(AppError(InvalidArgument, EmailRequired)))
                && Calls() == old(Calls()) && challenges.items == old(challenges.items)
              else
                && Calls() == old(Calls()) + IdentifierCalls(email, input.identifierAnswer)
                && match IdentifierVerdict(cfg.limited, email, input.identifierAnswer)
                   case Failure(e) => r == Failure(e) && challenges.items == old(challenges.items)
                   case Success(limit) =>
                     && r == Success(ChallengeReceipt(limit))
                     && challenges.items == old(challenges.items)[email := IssuedAt(CodeOf(input.draw), now)]
    {
      var email := TrimSpace(ToLower(rawEmail));
      if email == "" || '@' !in email {
        return Failure(Application(AppError(InvalidArgument, EmailRequired)));
      }
      var limit := CheckIdentifierLimit(email, input.identifierAnswer);
      if limit.Failure? {
        return Failure(limit.error);
      }
      var code := NewCode(input.draw);
      challenges.Save(email, IssuedAt(code, now));
      return Success(ChallengeReceipt(limit.value));
    }

    /** A code is checked once: success consumes it, failure leaves every challenge in place. */
    method VerifyChallenge(rawEmail: string, rawCode: string, now: int) returns (r: Result<OwnershipProof, Failure>)
      modifies challenges
      ensures var email, code := Normalize(rawEmail), TrimSpace(rawCode);
              if email == "" || code == "" then
                && r == Failure(Application(AppError(InvalidArgument, EmailAndCodeRequired)))
                && challenges.items == old(challenges.items)
              else if Confirms(old(challenges.items), email, code, now) then
                && r == Success(ProofOf(cfg.prims, email, code, now))
                && challenges.items == old(challenges.items) - {email}
              else
                && r == Failure(Application(AppError(Unauthenticated, InvalidOrExpiredCode)))
                && challenges.items == old(challenges.items)
    {
      var email := TrimSpace(ToLower(rawEmail));
      var code := TrimSpace(rawCode);
      if email == "" || code == "" {
        return Failure(Application(AppError(InvalidArgument, EmailAndCodeRequired)));
      }
      var confirmed := challenges.Confirm(email, (c: Challenge) => c.code == code && !(now > c.expiresAt));
      if confirmed.None? {
        return Failure(Application(AppError(Unauthenticated, InvalidOrExpiredCode)));
      }
      return Success(OwnershipProof(email, KeyFingerprint(cfg.prims, email, code, now), now));
    }

    /** The record of a claim: what the caller left blank is filled from the UID. */
    method Provision(token: string, uid: string, input: ClaimInput) returns (result: ClaimResult)
      requires token == Token(input) && uid == UID(input)
      ensures result == RecordOf(cfg.prims, input)
    {
      var email := TrimSpace(input.email);
      if email == "" {
        email := uid + DefaultDomain();
      }
      var displayName := TrimSpace(input.displayName);
      if displayName == "" {
        displayName := cfg.prims.title(uid);
      }
      var sum := cfg.prims.sha256(Join(token, uid));
      var credentials := ClaimCredentials(uid, "mcp_" + Hex(sum[..16]), WireGuardProfile(sum[0] % 200 + 10));
      result := ClaimResult(false, ClaimUser(uid, email, displayName), credentials);
    }

    /** One claim without interference is one step of the first-writer-wins cache. */
    method Claim(input: ClaimInput, idempotencyKey: string) returns (r: Result<ClaimResult, Failure>)
      modifies claims
      ensures var (cache, answer) := ClaimOnce(cfg.prims, old(claims.items), ClaimCall(input, idempotencyKey));
              && claims.items == cache
              && r == match answer
                      case Some(result) => Success(result)
                      case None => Failure(Application(AppError(InvalidArgument, TokenAndUIDRequired)))
    {
      var token := TrimSpace(input.inviteToken);
      var uid := NormalizeUID(input.desiredUID);
      if token == "" || uid == "" {
        return Failure(Application(AppError(InvalidArgument, TokenAndUIDRequired)));
      }
      var key := idempotencyKey;
      if key == "" {
        key := Join(token, uid);
      }
      var cached := claims.Get(key);
      if cached.Some? {
        var result := cached.value.(idempotentReplay := true);
        return Success(result);
      }
      var result := Provision(token, uid, input);
      claims.Put(key, result);
      return Success(result);
    }
  }
}
