/** Whole routes told by what callers send and receive, from arrival to response. */
module RouteTheorems {
  import opened Crypto
  import opened Edge
  import opened Ids
  import opened Onboarding
  import opened Ownership
  import opened Pipeline
  import opened RateLimit
  import opened Text
  import opened Wrappers

  /** The limiter, if there is one, grants every budget it is asked for. */
  predicate GrantsAll(cfg: Config, input: Input) {
    cfg.limited ==> input.classAnswer.Granted() && input.identifierAnswer.Granted()
  }

  /** The decision of the class stage, as the headers show it. */
  function ClassDecision(cfg: Config, input: Input): Option<Decision> {
    if cfg.limited && input.classAnswer.Decided? then Some(input.classAnswer.decision) else None
  }

  // ---------- A challenge and its verification ----------

  /** The text is the six digits the draw denotes, between blanks. */
  ghost predicate IsCodeFor(text: string, draw: Draw) {
    exists c: string :: IsCore(text, c) && Denotes(c, draw)
  }

  lemma CodeForMeaning(text: string, draw: Draw)
    ensures TrimSpace(text) == CodeOf(draw) <==> IsCodeFor(text, draw)
  {
    TrimSpaceMeaning(text, TrimSpace(text));
    CodeMeaning(draw, TrimSpace(text));
    forall c: string | IsCore(text, c) && Denotes(c, draw) ensures TrimSpace(text) == CodeOf(draw) {
      TrimSpaceMeaning(text, c);
      CodeMeaning(draw, c);
    }
  }

  /** The world after a challenge for the address, drawn and granted so. */
  function Challenged(cfg: Config, w: World, from: Request, input: Input, now: int): World {
    Route(cfg, w, from, input, now).world
  }

  lemma ChallengeIssues(cfg: Config, w: World, from: Request, raw: string, input: Input, now: int)
    requires from.op == IssueChallenge(Some(raw)) && '@' in raw && GrantsAll(cfg, input)
    ensures var first := Route(cfg, w, from, input, now);
            && first.response.status == 200 && first.response.payload == Dispatched
            && first.world.challenges == w.challenges[Normalize(raw) := Challenge(CodeOf(input.draw), now + 600_000_000_000)]
            && first.world.claims == w.claims
  {
    NormalizeKeeps(raw);
    NormalizeLaws(raw);
    ChallengeLifetime(CodeOf(input.draw), now);
  }

  lemma VerificationChecks(cfg: Config, w: World, from: Request, body: VerifyBody, input: Input, now: int)
    requires from.op == VerifyChallenge(Some(body)) && (cfg.limited ==> input.classAnswer.Granted())
    ensures var second := Route(cfg, w, from, input, now);
            var email, code := Normalize(body.email), TrimSpace(body.code);
            var ok := email != "" && code != "" && Confirms(w.challenges, email, code, now);
            && (second.response.status == 200 <==> ok)
            && (ok ==> second.world.challenges == w.challenges - {email}
                       && second.response.payload == Proof(ProofOf(cfg.prims, email, code, now)))
            && (!ok ==> second.world.challenges == w.challenges
                        && second.response.status == if email == "" || code == "" then 400 else 401)
  {
  }

  /**
    Ownership end to end, from a store that holds nothing: after a challenge for one
    address, a verification of another is answered with a proof if and only if the
    two addresses are the same up to case and padding, the code is the drawn one up
    to padding, and at most ten minutes have passed. The proof consumes the
    challenge; anything else answers 401, or 400 for blanks, and keeps it.
   */
  lemma ChallengeThenVerify(cfg: Config, w: World, from: Request, raw: string, input: Input, now: int,
                            back: Request, body: VerifyBody, input': Input, now': int)
    requires from.op == IssueChallenge(Some(raw)) && '@' in raw && GrantsAll(cfg, input)
    requires back.op == VerifyChallenge(Some(body)) && (cfg.limited ==> input'.classAnswer.Granted())
    requires w.challenges == map[]
    ensures var first := Route(cfg, w, from, input, now);
            var second := Route(cfg, first.world, back, input', now');
            var proven := Alike(raw, body.email) && IsCodeFor(body.code, input.draw) && now' <= now + 600_000_000_000;
            && first.response.status == 200
            && (second.response.status == 200 <==> proven)
            && (proven ==> second.response.payload.Proof? && second.response.payload.proof.verifiedAt == now'
                           && second.world.challenges == map[])
            && (!proven ==> second.world.challenges == first.world.challenges
                            && second.response.status == if AllBlank(body.email) || AllBlank(body.code) then 400 else 401)
  {
    ChallengeIssues(cfg, w, from, raw, input, now);
    var w1 := Challenged(cfg, w, from, input, now);
    VerificationChecks(cfg, w1, back, body, input', now');
    NormalizeMeaning(raw, body.email);
    NormalizeKeeps(raw);
    NormalizeKeeps(body.email);
    BlankExactlyWhen(body.code);
    CodeForMeaning(body.code, input.draw);
    CodesAreTrimmed(input.draw);
  }

  // ---------- OTP requests ----------

  /** The field that is metered: the identifier if the body names one, its email otherwise. */
  function MeteredField(body: OTPRequest): string {
    if body.identifier != "" then body.identifier else body.email
  }

  /** The limiter calls of a granted OTP request: its client, and its metered field unless that is blank. */
  function OTPCalls(cfg: Config, from: Request, body: OTPRequest, input: Input): seq<LimiterCall> {
    if !cfg.limited then []
    else
      [LimiterCall(ClientBucket(from.class_, from.clientIP), PolicyFor(from.class_), input.classAnswer)] +
      if AllBlank(MeteredField(body)) then []
      else [LimiterCall(IdentifierBucketOf(cfg.prims.sha256, MeteredField(body)), OTPRequestIdentifierPolicy(), input.identifierAnswer)]
  }

  /**
    A granted OTP request: the limiter is asked about the client and the metered
    field, the body goes upstream as it came, and the upstream's answer decides the
    response; a failure without a client-safe kind is a 500.
   */
  lemma GrantedOTP(cfg: Config, w: World, from: Request, body: OTPRequest, input: Input, now: int)
    requires from.op == RequestOTP(Some(body)) && GrantsAll(cfg, input)
    ensures var out := Route(cfg, w, from, input, now);
            && out.world == w.(calls := w.calls + OTPCalls(cfg, from, body, input), sent := w.sent + [body])
            && out.response.retryAfter.None?
            && match input.upstream
               case Accepted(expiresAt) => out.response.status == 200 && out.response.payload == OTPExpiry(expiresAt)
               case Refused(AppError(kind, text)) =>
                 && out.response.status == StatusOf(kind) && out.response.payload == Problem(text)
                 && out.response.shown == ClassDecision(cfg, input)
               case Refused(Opaque) =>
                 && out.response.status == 500 && out.response.payload.Problem?
                 && Wire(out.response.payload.error) == "upstream error"
                 && out.response.shown == ClassDecision(cfg, input)
  {
    BlankExactlyWhen(MeteredField(body));
  }

  /** A denial or failure at either stage: what was asked, and nothing sent, stored or removed. */
  lemma BlockedRequest(cfg: Config, w: World, from: Request, input: Input, now: int)
    requires cfg.limited && !input.classAnswer.Granted()
    ensures var out := Route(cfg, w, from, input, now);
            && out.world ==
               w.(calls := w.calls + [LimiterCall(ClientBucket(from.class_, from.clientIP), PolicyFor(from.class_), input.classAnswer)])
            && (input.classAnswer.Failed? ==>
                  && out.response.status == 503 && out.response.shown.None? && out.response.retryAfter == Some(5)
                  && out.response.payload.Problem? && Wire(out.response.payload.error) == "rate limiter unavailable")
            && (input.classAnswer.Decided? ==>
                  && out.response.status == 429 && out.response.shown == Some(input.classAnswer.decision)
                  && out.response.retryAfter == Some(RetrySeconds(input.classAnswer.decision))
                  && out.response.payload.Problem? && Wire(out.response.payload.error) == "rate limit exceeded")
  {
  }

  /** What a claim that its class let through is answered, told by its own fields and the cache. */
  lemma ClaimAnswer(cfg: Config, w: World, from: Request, claim: ClaimInput, key: string, input: Input, now: int)
    requires from.op == ClaimWorkstation(Some(claim), key) && (cfg.limited ==> input.classAnswer.Granted())
    ensures var out := Route(cfg, w, from, input, now);
            var own := ClaimKey(claim, key);
            && out.world.challenges == w.challenges
            && (AllBlank(claim.inviteToken) || AllBlank(claim.desiredUID) ==>
                  && out.response.status == 400 && out.world.claims == w.claims
                  && out.response.payload.Problem?
                  && Wire(out.response.payload.error) == "invite_token and desired_uid are required")
            && (!AllBlank(claim.inviteToken) && !AllBlank(claim.desiredUID) ==>
                  && out.response.status == 200
                  && (own in w.claims ==> out.world.claims == w.claims
                                          && out.response.payload == Claimed(w.claims[own].(idempotentReplay := true)))
                  && (own !in w.claims ==> own in out.world.claims
                                           && out.response.payload == Claimed(out.world.claims[own])
                                           && !out.world.claims[own].idempotentReplay))
  {
    CompleteMeaning(claim);
  }

  /** A verification that is refused says so in these words. */
  lemma RefusedVerification(cfg: Config, w: World, from: Request, body: VerifyBody, input: Input, now: int)
    requires from.op == VerifyChallenge(Some(body)) && (cfg.limited ==> input.classAnswer.Granted())
    requires !AllBlank(body.email) && !AllBlank(body.code)
    requires Route(cfg, w, from, input, now).response.status != 200
    ensures var payload := Route(cfg, w, from, input, now).response.payload;
            payload.Problem? && Wire(payload.error) == "invalid or expired verification code"
  {
    NormalizeKeeps(body.email);
    BlankExactlyWhen(body.code);
  }
}
