/**
  The edge as a small-step machine: any number of concurrent requests, each taking
  one atomic step at a time on the state they share. The atomic steps are the
  limiter calls, the clock reads, the upstream call and the four mutex-guarded
  store operations; everything between two of them is local to the request.
 */
module Edge {
  import opened Crypto
  import opened Ids
  import opened Onboarding
  import opened Ownership
  import opened RateLimit
  import opened Text
  import opened Wrappers

  // ---------- Requests ----------

  /** Whether a limiter is wired, and the unknown library functions. */
  datatype Config = Config(limited: bool, prims: Primitives)

  datatype OTPRequest = OTPRequest(identifier: string, channel: string, email: string, correlationID: string)

  datatype VerifyBody = VerifyBody(email: string, code: string)

  /** The four limited operations; None stands for a body that is not valid JSON. */
  datatype Operation =
    | RequestOTP(body: Option<OTPRequest>)
    | IssueChallenge(email: Option<string>)
    | VerifyChallenge(credentials: Option<VerifyBody>)
    | ClaimWorkstation(claim: Option<ClaimInput>, idempotencyKey: string)

  /** A request on a route wrapped with the class, from a client address. */
  datatype Request = Request(class_: RouteClass, clientIP: string, op: Operation)

  /** The identifier RequestOTP meters: the email is only a fallback. */
  function IdentifierOf(body: OTPRequest): string {
    if body.identifier == "" then body.email else body.identifier
  }

  // ---------- Responses ----------

  datatype Kind =
    | Internal | InvalidArgument | Unauthenticated | PermissionDenied | FailedPrecondition
    | ResourceExhausted | NotFound | Conflict | BadGateway

  /** The texts of the error responses; the last is whatever the upstream said. */
  datatype ErrorText =
    | InvalidJSONText | EmailRequired | EmailAndCodeRequired | TokenAndUIDRequired
    | InvalidOrExpiredCode | LimiterUnavailable | LimitExceeded | UpstreamError
    | UpstreamSaid(message: string)

  function Wire(error: ErrorText): string {
    match error
    case InvalidJSONText => "invalid json"
    case EmailRequired => "valid email is required"
    case EmailAndCodeRequired => "email and code are required"
    case TokenAndUIDRequired => "invite_token and desired_uid are required"
    case InvalidOrExpiredCode => "invalid or expired verification code"
    case LimiterUnavailable => "rate limiter unavailable"
    case LimitExceeded => "rate limit exceeded"
    case UpstreamError => "upstream error"
    case UpstreamSaid(message) => message
  }

  /** The edge's own texts tell its failures apart. */
  lemma ErrorTexts(a: ErrorText, b: ErrorText)
    requires !a.UpstreamSaid? && !b.UpstreamSaid?
    ensures Wire(a) == Wire(b) <==> a == b
  {
  }

  /** A failure with a client-safe kind and message, or one without. */
  datatype AppError = AppError(kind: Kind, text: ErrorText) | Opaque

  datatype UpstreamAnswer = Accepted(expiresAt: string) | Refused(error: AppError)

  datatype Payload =
    | Problem(error: ErrorText)
    | OTPExpiry(expiresAt: string)
    | Dispatched
    | Proof(proof: OwnershipProof)
    | Claimed(result: ClaimResult)

  /** Status, the decision in the X-RateLimit headers, Retry-After in seconds, and the body. */
  datatype Response = Response(status: int, shown: Option<Decision>, retryAfter: Option<int>, payload: Payload)

  function StatusOf(kind: Kind): int {
    match kind
    case Internal => 500
    case InvalidArgument => 400
    case Unauthenticated => 401
    case PermissionDenied => 403
    case FailedPrecondition => 412
    case ResourceExhausted => 429
    case NotFound => 404
    case Conflict => 409
    case BadGateway => 502
  }

  /** The status of each kind of failure. */
  lemma KindStatuses()
    ensures StatusOf(InvalidArgument) == 400 && StatusOf(Unauthenticated) == 401 && StatusOf(PermissionDenied) == 403
    ensures StatusOf(NotFound) == 404 && StatusOf(Conflict) == 409 && StatusOf(FailedPrecondition) == 412
    ensures StatusOf(ResourceExhausted) == 429 && StatusOf(BadGateway) == 502 && StatusOf(Internal) == 500
  {
  }

  function AppFailure(shown: Option<Decision>, error: AppError): Response {
    match error
    case AppError(kind, text) => Response(StatusOf(kind), shown, None, Problem(text))
    case Opaque => Response(500, shown, None, Problem(UpstreamError))
  }

  function InvalidJSON(shown: Option<Decision>): Response {
    Response(400, shown, None, Problem(InvalidJSONText))
  }

  function Unavailable(shown: Option<Decision>): Response {
    Response(503, shown, Some(5), Problem(LimiterUnavailable))
  }

  function Limited(decision: Decision): Response {
    Response(429, Some(decision), Some(RetrySeconds(decision)), Problem(LimitExceeded))
  }

  // ---------- State ----------

  /** Where a request stands: the atomic step it takes next, with what it carries there. */
  datatype Pc =
    | AtClass
    | AtIdentifier(identifier: string)
    | AtUpstream(body: OTPRequest)
    | AtIssue(email: string)
    | AtSave(email: string, challenge: Challenge, read: nat)
    | AtClock(email: string, code: string)
    | AtConfirm(email: string, code: string, at: int, read: nat)
    | AtGet(claim: ClaimInput, key: string)
    | AtPut(key: string, result: ClaimResult, look: nat)
    | Done(response: Response)

  /**
    A request in flight. `shown` is the decision in its response headers so far;
    `grant` and `last` are positions in the log of the identifier grant it holds
    and of the event that ended it.
   */
  datatype Thread = Thread(
    req: Request, pc: Pc, shown: Option<Decision>,
    classAnswer: Option<Answer>, idAnswer: Option<Answer>,
    grant: Option<nat>, last: Option<nat>)

  /** One atomic step, with the thread that took it and positions of earlier steps it rests on. */
  datatype Event =
    | ClassChecked(tid: nat, bucket: Bucket, policy: Policy, answer: Answer)
    | IdentifierChecked(tid: nat, bucket: Bucket, policy: Policy, answer: Answer)
    | OTPSent(tid: nat, body: OTPRequest, grant: Option<nat>)
    | ClockRead(tid: nat, at: int)
    | Saved(tid: nat, email: string, challenge: Challenge, read: nat, grant: Option<nat>)
    | Confirmed(tid: nat, email: string, code: string, at: int, read: nat, ok: bool)
    | Looked(tid: nat, key: string, found: Option<ClaimResult>)
    | Stored(tid: nat, key: string, result: ClaimResult, look: nat)

  datatype State = State(
    now: int, challenges: ChallengeMap, claims: ClaimMap, threads: seq<Thread>, log: seq<Event>)

  /** What the environment answers, should the step ask: limiter, upstream, random source. */
  datatype Input = Input(classAnswer: Answer, identifierAnswer: Answer, upstream: UpstreamAnswer, draw: Draw)

  /** A request arrives, the clock is set, or a request takes its next atomic step. */
  datatype Action = Arrive(req: Request) | Tick(now: int) | Run(tid: nat, input: Input)

  function Fresh(req: Request): Thread {
    Thread(req, AtClass, None, None, None, None, None)
  }

  // ---------- Steps ----------

  /** Decoding and validation: from the wrapped handler's first line to its first atomic step. */
  function Enter(cfg: Config, op: Operation, shown: Option<Decision>): Pc {
    match op
    case RequestOTP(None) => Done(InvalidJSON(shown))
    case RequestOTP(Some(body)) =>
      var identifier := IdentifierOf(body);
      if !cfg.limited || TrimSpace(identifier) == "" then AtUpstream(body) else AtIdentifier(identifier)
    case IssueChallenge(None) => Done(InvalidJSON(shown))
    case IssueChallenge(Some(raw)) =>
      var email := Normalize(raw);
      if !ValidEmail(email) then Done(AppFailure(shown, AppError(InvalidArgument, EmailRequired)))
      else if !cfg.limited || TrimSpace(email) == "" then AtIssue(email)
      else AtIdentifier(email)
    case VerifyChallenge(None) => Done(InvalidJSON(shown))
    case VerifyChallenge(Some(body)) =>
      var email, code := Normalize(body.email), TrimSpace(body.code);
      if email == "" || code == "" then
        Done(AppFailure(shown, AppError(InvalidArgument, EmailAndCodeRequired)))
      else AtClock(email, code)
    case ClaimWorkstation(None, _) => Done(InvalidJSON(shown))
    case ClaimWorkstation(Some(claim), idempotencyKey) =>
      if !Complete(claim) then
        Done(AppFailure(shown, AppError(InvalidArgument, TokenAndUIDRequired)))
      else AtGet(claim, ClaimKey(claim, idempotencyKey))
  }

  function CheckClass(cfg: Config, th: Thread, answer: Answer): Thread {
    var asked := th.(classAnswer := Some(answer));
    match answer
    case Failed => asked.(pc := Done(Unavailable(th.shown)))
    case Decided(d) =>
      var counted := asked.(shown := Some(d));
      if d.allowed then counted.(pc := Enter(cfg, th.req.op, Some(d))) else counted.(pc := Done(Limited(d)))
  }

  function AfterGrant(op: Operation, identifier: string): Pc {
    match op
    case RequestOTP(Some(body)) => AtUpstream(body)
    case _ => AtIssue(identifier)
  }

  function CheckIdentifier(th: Thread, answer: Answer, position: nat): Thread
    requires th.pc.AtIdentifier?
  {
    var asked := th.(idAnswer := Some(answer));
    match answer
    case Failed => asked.(pc := Done(Unavailable(th.shown)))
    case Decided(d) =>
      if !d.allowed then asked.(pc := Done(Limited(d)))
      else asked.(grant := Some(position), pc := AfterGrant(th.req.op, th.pc.identifier))
  }

  /** The headers of a success: the identifier budget replaces the class budget when one was spent. */
  function SuccessShown(th: Thread): Option<Decision> {
    if th.idAnswer.Some? && th.idAnswer.value.Decided? then Some(th.idAnswer.value.decision) else th.shown
  }

  function UpstreamResponse(th: Thread, answer: UpstreamAnswer): Response {
    match answer
    case Accepted(expiresAt) => Response(200, SuccessShown(th), None, OTPExpiry(expiresAt))
    case Refused(error) => AppFailure(th.shown, error)
  }

  function DispatchResponse(th: Thread): Response {
    Response(200, SuccessShown(th), None, Dispatched)
  }

  function ConfirmResponse(cfg: Config, th: Thread, ok: bool): Response
    requires th.pc.AtConfirm?
  {
    if ok then Response(200, th.shown, None, Proof(ProofOf(cfg.prims, th.pc.email, th.pc.code, th.pc.at)))
    else AppFailure(th.shown, AppError(Unauthenticated, InvalidOrExpiredCode))
  }

  function ClaimResponse(th: Thread, result: ClaimResult): Response {
    Response(200, th.shown, None, Claimed(result))
  }

  /** What a step does to the challenge store: Save inserts or replaces, an accepted Confirm removes. */
  function ApplyToChallenges(store: ChallengeMap, event: Event): ChallengeMap {
    match event
    case Saved(_, email, challenge, _, _) => store[email := challenge]
    case Confirmed(_, email, _, _, _, ok) => if ok then store - {email} else store
    case _ => store
  }

  /** What a step does to the claim cache: Put inserts or replaces. */
  function ApplyToClaims(cache: ClaimMap, event: Event): ClaimMap {
    match event
    case Stored(_, key, result, _) => cache[key := result]
    case _ => cache
  }

  /** What one step makes of the request, and the atomic action it takes, if any. */
  datatype Turn = Turn(thread: Thread, event: Option<Event>)

  function Ended(s: State, th: Thread, response: Response): Thread {
    th.(pc := Done(response), last := Some(|s.log|))
  }

  /** The next step of request t. */
  function NextTurn(cfg: Config, s: State, t: nat, input: Input): Turn
    requires t < |s.threads|
  {
    var th := s.threads[t];
    match th.pc
    case AtClass =>
      if !cfg.limited then Turn(th.(pc := Enter(cfg, th.req.op, th.shown)), None)
      else
        var bucket := ClientBucket(th.req.class_, th.req.clientIP);
        Turn(CheckClass(cfg, th, input.classAnswer),
             Some(ClassChecked(t, bucket, PolicyFor(th.req.class_), input.classAnswer)))
    case AtIdentifier(identifier) =>
      var bucket := IdentifierBucketOf(cfg.prims.sha256, identifier);
      Turn(CheckIdentifier(th, input.identifierAnswer, |s.log|),
           Some(IdentifierChecked(t, bucket, OTPRequestIdentifierPolicy(), input.identifierAnswer)))
    case AtUpstream(body) =>
      Turn(Ended(s, th, UpstreamResponse(th, input.upstream)), Some(OTPSent(t, body, th.grant)))
    case AtIssue(email) =>
      var challenge := IssuedAt(CodeOf(input.draw), s.now);
      Turn(th.(pc := AtSave(email, challenge, |s.log|)), Some(ClockRead(t, s.now)))
    case AtSave(email, challenge, read) =>
      Turn(Ended(s, th, DispatchResponse(th)), Some(Saved(t, email, challenge, read, th.grant)))
    case AtClock(email, code) =>
      Turn(th.(pc := AtConfirm(email, code, s.now, |s.log|)), Some(ClockRead(t, s.now)))
    case AtConfirm(email, code, at, read) =>
      var ok := Confirms(s.challenges, email, code, at);
      Turn(Ended(s, th, ConfirmResponse(cfg, th, ok)), Some(Confirmed(t, email, code, at, read, ok)))
    case AtGet(claim, key) =>
      if key in s.claims then
        Turn(Ended(s, th, ClaimResponse(th, Replayed(s.claims[key]))), Some(Looked(t, key, Some(s.claims[key]))))
      else
        Turn(th.(pc := AtPut(key, RecordOf(cfg.prims, claim), |s.log|)), Some(Looked(t, key, None)))
    case AtPut(key, result, look) =>
      Turn(Ended(s, th, ClaimResponse(th, result)), Some(Stored(t, key, result, look)))
    case Done(_) => Turn(th, None)
  }

  /** Request t takes its next step; an atomic action is logged and takes effect on the stores. */
  function Advance(cfg: Config, s: State, t: nat, input: Input): State
    requires t < |s.threads|
  {
    var turn := NextTurn(cfg, s, t, input);
    var threads := s.threads[t := turn.thread];
    match turn.event
    case None => s.(threads := threads)
    case Some(event) =>
      State(s.now, ApplyToChallenges(s.challenges, event), ApplyToClaims(s.claims, event), threads, s.log + [event])
  }

  function Step(cfg: Config, s: State, a: Action): State {
    match a
    case Arrive(req) => s.(threads := s.threads + [Fresh(req)])
    case Tick(now) => s.(now := now)
    case Run(t, input) => if t < |s.threads| then Advance(cfg, s, t, input) else s
  }

  const INITIAL := State(0, map[], map[], [], [])

  /** The state after a run; every interleaving of every set of requests is some action sequence. */
  function Exec(cfg: Config, actions: seq<Action>): State {
    if actions == [] then INITIAL
    else Step(cfg, Exec(cfg, actions[..|actions| - 1]), actions[|actions| - 1])
  }

  /** Atomic steps a request still has ahead of it, at most. */
  function Rank(pc: Pc): nat {
    match pc
    case AtClass => 4
    case AtIdentifier(_) => 3
    case AtIssue(_) => 2
    case AtClock(_, _) => 2
    case AtGet(_, _) => 2
    case AtUpstream(_) => 1
    case AtSave(_, _, _) => 1
    case AtConfirm(_, _, _, _) => 1
    case AtPut(_, _, _) => 1
    case Done(_) => 0
  }

  /** Every step of an unfinished request brings it closer to its response; a finished one stays as it is. */
  lemma StepsAreProgress(cfg: Config, s: State, t: nat, input: Input)
    requires t < |s.threads|
    ensures !s.threads[t].pc.Done? ==> Rank(NextTurn(cfg, s, t, input).thread.pc) < Rank(s.threads[t].pc)
    ensures s.threads[t].pc.Done? ==> Advance(cfg, s, t, input) == s
  {
  }

  /** Request t runs to its response without interference. */
  function Solo(cfg: Config, s: State, t: nat, input: Input): State
    requires t < |s.threads|
    decreases Rank(s.threads[t].pc)
  {
    if s.threads[t].pc.Done? then s
    else
      StepsAreProgress(cfg, s, t, input);
      Solo(cfg, Advance(cfg, s, t, input), t, input)
  }

  lemma SoloStep(cfg: Config, s: State, t: nat, input: Input)
    requires t < |s.threads|
    ensures Solo(cfg, s, t, input) ==
            if s.threads[t].pc.Done? then s else Solo(cfg, Advance(cfg, s, t, input), t, input)
  {
    StepsAreProgress(cfg, s, t, input);
  }

  /** n consecutive steps of request t. */
  function Turns(t: nat, input: Input, n: nat): seq<Action> {
    seq(n, i => Run(t, input))
  }

  lemma ExecAppend(cfg: Config, actions: seq<Action>, a: Action)
    ensures Exec(cfg, actions + [a]) == Step(cfg, Exec(cfg, actions), a)
  {
    assert (actions + [a])[..|actions|] == actions;
  }

  /** Running alone is one of the interleavings, and takes at most four steps. */
  lemma {:induction false} SoloIsARun(cfg: Config, actions: seq<Action>, t: nat, input: Input)
    requires t < |Exec(cfg, actions).threads|
    ensures exists n: nat :: n <= 4 && Solo(cfg, Exec(cfg, actions), t, input) == Exec(cfg, actions + Turns(t, input, n))
  {
    var n := SoloLength(cfg, actions, t, input);
    assert n <= Rank(Exec(cfg, actions).threads[t].pc) <= 4;
  }

  lemma {:induction false} SoloLength(cfg: Config, actions: seq<Action>, t: nat, input: Input) returns (n: nat)
    requires t < |Exec(cfg, actions).threads|
    ensures n <= Rank(Exec(cfg, actions).threads[t].pc)
    ensures Solo(cfg, Exec(cfg, actions), t, input) == Exec(cfg, actions + Turns(t, input, n))
    decreases Rank(Exec(cfg, actions).threads[t].pc)
  {
    var s, run := Exec(cfg, actions), Run(t, input);
    if s.threads[t].pc.Done? {
      n := 0;
      assert actions + Turns(t, input, 0) == actions;
    } else {
      StepsAreProgress(cfg, s, t, input);
      ExecAppend(cfg, actions, run);
      var m := SoloLength(cfg, actions + [run], t, input);
      n := m + 1;
      assert actions + Turns(t, input, n) == actions + [run] + Turns(t, input, m);
    }
  }

  /** Without a limiter, a request arrives and enters its handler. */
  lemma Arrives(cfg: Config, actions: seq<Action>, req: Request, pc: Pc, input: Input)
    requires !cfg.limited && Enter(cfg, req.op, None) == pc
    ensures var s := Exec(cfg, actions);
            Exec(cfg, actions + [Arrive(req), Run(|s.threads|, input)]) ==
            s.(threads := s.threads + [Fresh(req).(pc := pc)])
  {
    var s := Exec(cfg, actions);
    var run := Run(|s.threads|, input);
    ExecAppend(cfg, actions, Arrive(req));
    ExecAppend(cfg, actions + [Arrive(req)], run);
    assert actions + [Arrive(req)] + [run] == actions + [Arrive(req), run];
    assert Step(cfg, Step(cfg, s, Arrive(req)), run).threads == s.threads + [Fresh(req).(pc := pc)];
  }
}
