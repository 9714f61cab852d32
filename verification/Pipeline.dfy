/**
  The limited routes in direct style: what one request does to the edge, from its
  arrival to its response, when nothing interferes.
 */
module Pipeline {
  import opened Crypto
  import opened Edge
  import opened Ids
  import opened Onboarding
  import opened Ownership
  import opened RateLimit
  import opened Text
  import opened Wrappers

  datatype LimiterCall = LimiterCall(bucket: Bucket, policy: Policy, answer: Answer)

  /** The edge's stores and the outside calls it has made. */
  datatype World = World(challenges: ChallengeMap, claims: ClaimMap, calls: seq<LimiterCall>, sent: seq<OTPRequest>)

  datatype Outcome = Outcome(world: World, response: Response)

  /** What a use case can fail with: a limiter error, a limiter denial, or an application error. */
  datatype Failure = LimiterDown | Denied(decision: Decision) | Application(error: AppError)

  /** How one limiter answer reads to a use case. */
  function Verdict(answer: Answer): Result<Decision, Failure> {
    match answer
    case Failed => Failure(LimiterDown)
    case Decided(d) => if d.allowed then Success(d) else Failure(Denied(d))
  }

  /** Whether the identifier stage asks the limiter at all. */
  predicate Consults(limited: bool, identifier: string) {
    limited && TrimSpace(identifier) != ""
  }

  function IdentifierVerdict(limited: bool, identifier: string, answer: Answer): Result<Option<Decision>, Failure> {
    if !Consults(limited, identifier) then Success(None)
    else
      match Verdict(answer)
      case Success(d) => Success(Some(d))
      case Failure(e) => Failure(e)
  }

  function FailureResponse(shown: Option<Decision>, error: Failure): Response {
    match error
    case Application(e) => AppFailure(shown, e)
    case LimiterDown => Unavailable(shown)
    case Denied(decision) => Limited(decision)
  }

  /** The identifier stage: at most one limiter call, on the identifier's bucket. */
  function AskIdentifier(cfg: Config, w: World, identifier: string, answer: Answer): World {
    if !Consults(cfg.limited, identifier) then w
    else
      w.(calls := w.calls + [LimiterCall(IdentifierBucketOf(cfg.prims.sha256, identifier), OTPRequestIdentifierPolicy(), answer)])
  }

  /** The decision a success shows: the identifier's if one was spent, else the class's. */
  function Spent(shown: Option<Decision>, limit: Option<Decision>): Option<Decision> {
    if limit.Some? then limit else shown
  }

  function HandleOTP(cfg: Config, w: World, shown: Option<Decision>, body: OTPRequest, input: Input): Outcome {
    var asked := AskIdentifier(cfg, w, IdentifierOf(body), input.identifierAnswer);
    match IdentifierVerdict(cfg.limited, IdentifierOf(body), input.identifierAnswer)
    case Failure(e) => Outcome(asked, FailureResponse(shown, e))
    case Success(limit) =>
      var called := asked.(sent := asked.sent + [body]);
      match input.upstream
      case Refused(error) => Outcome(called, AppFailure(shown, error))
      case Accepted(expiresAt) => Outcome(called, Response(200, Spent(shown, limit), None, OTPExpiry(expiresAt)))
  }

  function HandleChallenge(cfg: Config, w: World, shown: Option<Decision>, raw: string, input: Input, now: int): Outcome {
    var email := Normalize(raw);
    if !ValidEmail(email) then Outcome(w, AppFailure(shown, AppError(InvalidArgument, EmailRequired)))
    else
      var asked := AskIdentifier(cfg, w, email, input.identifierAnswer);
      match IdentifierVerdict(cfg.limited, email, input.identifierAnswer)
      case Failure(e) => Outcome(asked, FailureResponse(shown, e))
      case Success(limit) =>
        Outcome(asked.(challenges := w.challenges[email := IssuedAt(CodeOf(input.draw), now)]),
                Response(200, Spent(shown, limit), None, Dispatched))
  }

  function HandleVerify(cfg: Config, w: World, shown: Option<Decision>, body: VerifyBody, now: int): Outcome {
    var email, code := Normalize(body.email), TrimSpace(body.code);
    if email == "" || code == "" then Outcome(w, AppFailure(shown, AppError(InvalidArgument, EmailAndCodeRequired)))
    else if Confirms(w.challenges, email, code, now) then
      Outcome(w.(challenges := w.challenges - {email}),
              Response(200, shown, None, Proof(ProofOf(cfg.prims, email, code, now))))
    else Outcome(w, AppFailure(shown, AppError(Unauthenticated, InvalidOrExpiredCode)))
  }

  function HandleClaim(cfg: Config, w: World, shown: Option<Decision>, call: ClaimCall): Outcome {
    var (cache, answer) := ClaimOnce(cfg.prims, w.claims, call);
    match answer
    case None => Outcome(w, AppFailure(shown, AppError(InvalidArgument, TokenAndUIDRequired)))
    case Some(result) => Outcome(w.(claims := cache), Response(200, shown, None, Claimed(result)))
  }

  /** The wrapped handler, with the class decision already in the headers. */
  function Handle(cfg: Config, w: World, shown: Option<Decision>, op: Operation, input: Input, now: int): Outcome {
    match op
    case RequestOTP(Some(body)) => HandleOTP(cfg, w, shown, body, input)
    case IssueChallenge(Some(raw)) => HandleChallenge(cfg, w, shown, raw, input, now)
    case VerifyChallenge(Some(body)) => HandleVerify(cfg, w, shown, body, now)
    case ClaimWorkstation(Some(claim), key) => HandleClaim(cfg, w, shown, ClaimCall(claim, key))
    case _ => Outcome(w, InvalidJSON(shown))
  }

  /** The whole route: the class stage, then the handler. */
  function Route(cfg: Config, w: World, req: Request, input: Input, now: int): Outcome {
    if !cfg.limited then Handle(cfg, w, None, req.op, input, now)
    else
      var call := LimiterCall(ClientBucket(req.class_, req.clientIP), PolicyFor(req.class_), input.classAnswer);
      var asked := w.(calls := w.calls + [call]);
      match Verdict(input.classAnswer)
      case Failure(e) => Outcome(asked, FailureResponse(None, e))
      case Success(d) => Handle(cfg, asked, Some(d), req.op, input, now)
  }
}
