/** What every reachable state of the edge machine keeps, whatever the interleaving. */
module EdgeInvariant {
  import opened Crypto
  import opened Edge
  import opened Ids
  import opened Logs
  import opened Onboarding
  import opened Ownership
  import opened RateLimit
  import opened Text
  import opened Wrappers

  // ---------- Requests and their progress ----------

  /** The class stage is behind the request: granted if there is a limiter, skipped if not. */
  predicate ClassPassed(cfg: Config, th: Thread) {
    if cfg.limited then th.classAnswer.Some? && th.classAnswer.value.Granted() else th.classAnswer.None?
  }

  function ClassShown(answer: Option<Answer>): Option<Decision> {
    if answer.Some? && answer.value.Decided? then Some(answer.value.decision) else None
  }

  /** The request's own email, in normal form, where it is a well-formed challenge. */
  predicate IsChallengeFor(op: Operation, email: string) {
    op.IssueChallenge? && op.email.Some? && email == Normalize(op.email.value) && ValidEmail(email)
  }

  predicate IsVerifyFor(op: Operation, email: string, code: string) {
    && op.VerifyChallenge? && op.credentials.Some?
    && email == Normalize(op.credentials.value.email) && email != ""
    && code == TrimSpace(op.credentials.value.code) && code != ""
  }

  predicate IsClaimFor(op: Operation, claim: ClaimInput, key: string) {
    op.ClaimWorkstation? && op.claim == Some(claim) && Complete(claim) && key == ClaimKey(claim, op.idempotencyKey)
  }

  /** The request meters this identifier. */
  predicate Meters(op: Operation, identifier: string) {
    || (op.RequestOTP? && op.body.Some? && identifier == IdentifierOf(op.body.value))
    || IsChallengeFor(op, identifier)
  }

  /**
    The identifier stage is behind the request: it holds a grant for exactly this
    identifier, or the identifier was blank or there is no limiter.
   */
  predicate IdentifierPassed(cfg: Config, log: seq<Event>, t: nat, th: Thread, identifier: string) {
    && ClassPassed(cfg, th)
    && if cfg.limited && TrimSpace(identifier) != "" then
         && th.idAnswer.Some? && th.idAnswer.value.Granted()
         && th.grant.Some? && th.grant.value < |log|
         && log[th.grant.value] ==
            IdentifierChecked(t, IdentifierBucketOf(cfg.prims.sha256, identifier), OTPRequestIdentifierPolicy(), th.idAnswer.value)
       else th.idAnswer.None? && th.grant.None?
  }

  predicate NoIdentifier(th: Thread) {
    th.idAnswer.None? && th.grant.None?
  }

  predicate ReadAt(log: seq<Event>, t: nat, read: nat, at: int) {
    read < |log| && log[read] == ClockRead(t, at)
  }

  predicate MissAt(log: seq<Event>, t: nat, look: nat, key: string) {
    look < |log| && log[look] == Looked(t, key, None)
  }

  /** The decision a final response must show, from the limiter's answers alone. */
  function FinalShown(th: Thread, response: Response): Option<Decision> {
    if th.idAnswer.Some? && th.idAnswer.value.Decided? &&
       (!th.idAnswer.value.decision.allowed || response.status == 200)
    then Some(th.idAnswer.value.decision)
    else ClassShown(th.classAnswer)
  }

  /** The limiter denied or failed at one of the two stages. */
  predicate Blocked(th: Thread) {
    || (th.classAnswer.Some? && !th.classAnswer.value.Granted())
    || (th.idAnswer.Some? && !th.idAnswer.value.Granted())
  }

  /** The answer that blocked the request. */
  function Blocker(th: Thread): Answer
    requires Blocked(th)
  {
    if th.idAnswer.Some? then th.idAnswer.value else th.classAnswer.value
  }

  predicate LastIs(log: seq<Event>, th: Thread, event: Event) {
    th.last.Some? && th.last.value < |log| && log[th.last.value] == event
  }

  /** The request names a non-blank identifier. */
  predicate MetersSome(op: Operation) {
    || (op.RequestOTP? && op.body.Some? && TrimSpace(IdentifierOf(op.body.value)) != "")
    || (op.IssueChallenge? && op.email.Some? && ValidEmail(Normalize(op.email.value)))
  }

  /** The one identifier the request meters, if it meters any. */
  function MeteredBy(op: Operation): string {
    match op
    case RequestOTP(Some(body)) => IdentifierOf(body)
    case IssueChallenge(Some(raw)) => Normalize(raw)
    case _ => ""
  }

  /** The event is the effect thread t bought with the grant at this position. */
  predicate Spends(e: Event, t: nat, grant: nat) {
    e.tid == t && ((e.OTPSent? && e.grant == Some(grant)) || (e.Saved? && e.grant == Some(grant)))
  }

  /** The event can end a request. */
  predicate Ends(e: Event) {
    e.OTPSent? || e.Saved? || e.Confirmed? || e.Looked? || e.Stored?
  }

  /** The request gets to read the clock. */
  predicate ReadsClock(op: Operation) {
    || (op.IssueChallenge? && op.email.Some? && IsChallengeFor(op, Normalize(op.email.value)))
    || (op.VerifyChallenge? && op.credentials.Some?
        && IsVerifyFor(op, Normalize(op.credentials.value.email), TrimSpace(op.credentials.value.code)))
  }

  /** A finished request: its response is accounted for by its last event. */
  predicate DoneOk(cfg: Config, log: seq<Event>, t: nat, th: Thread, response: Response) {
    && response.shown == FinalShown(th, response)
    && (th.idAnswer.Some? ==> cfg.limited && ClassPassed(cfg, th) && MetersSome(th.req.op))
    && (th.grant.Some? ==> th.last.Some? && th.last.value < |log| && Spends(log[th.last.value], t, th.grant.value))
    && (!Blocked(th) ==> response.retryAfter.None?)
    && (th.last.Some? ==> th.last.value < |log| && log[th.last.value].tid == t && Ends(log[th.last.value]))
    && (!Blocked(th) && th.last.None? ==>
          Enter(cfg, th.req.op, ClassShown(th.classAnswer)) == Done(response) && th.idAnswer.None?)
    && (cfg.limited ==> th.classAnswer.Some?)
    && (!cfg.limited ==> th.classAnswer.None?)
    && (Blocked(th) ==>
          && th.last.None?
          && if Blocker(th).Failed? then response == Unavailable(ClassShown(th.classAnswer))
             else response == Limited(Blocker(th).decision))
    && match response.payload
       case Problem(_) => response.status != 200
       case OTPExpiry(_) =>
         && response.status == 200 && th.req.op.RequestOTP? && th.req.op.body.Some?
         && IdentifierPassed(cfg, log, t, th, IdentifierOf(th.req.op.body.value))
         && LastIs(log, th, OTPSent(t, th.req.op.body.value, th.grant))
       case Dispatched =>
         && response.status == 200
         && th.last.Some? && th.last.value < |log| && log[th.last.value].Saved? && log[th.last.value].tid == t
         && IsChallengeFor(th.req.op, log[th.last.value].email)
         && IdentifierPassed(cfg, log, t, th, log[th.last.value].email)
       case Proof(proof) =>
         && response.status == 200
         && th.last.Some? && th.last.value < |log|
         && var e := log[th.last.value];
         && e.Confirmed? && e.ok && e.tid == t
         && IsVerifyFor(th.req.op, e.email, e.code)
         && proof == ProofOf(cfg.prims, e.email, e.code, e.at)
       case Claimed(result) =>
         && response.status == 200
         && th.last.Some? && th.last.value < |log|
         && var e := log[th.last.value];
         && ((e.Looked? && e.found.Some? && result == Replayed(e.found.value)) || (e.Stored? && result == e.result))
         && e.tid == t && IsClaim(th.req.op, e.key)
  }

  predicate IsClaim(op: Operation, key: string) {
    op.ClaimWorkstation? && op.claim.Some? && IsClaimFor(op, op.claim.value, key)
  }

  predicate IsCode(code: string) {
    |code| == 6 && AllDigits(code)
  }

  /** The request's local state is justified by its own input and by events of its own. */
  predicate ThreadOk(cfg: Config, log: seq<Event>, t: nat, th: Thread) {
    && th.shown == ClassShown(th.classAnswer)
    && (!th.pc.Done? ==> th.last.None?)
    && match th.pc
       case AtClass => th.classAnswer.None? && NoIdentifier(th)
       case AtIdentifier(identifier) =>
         && cfg.limited && TrimSpace(identifier) != "" && Meters(th.req.op, identifier)
         && ClassPassed(cfg, th) && NoIdentifier(th)
       case AtUpstream(body) =>
         th.req.op == RequestOTP(Some(body)) && IdentifierPassed(cfg, log, t, th, IdentifierOf(body))
       case AtIssue(email) => IsChallengeFor(th.req.op, email) && IdentifierPassed(cfg, log, t, th, email)
       case AtSave(email, challenge, read) =>
         && IsChallengeFor(th.req.op, email) && IdentifierPassed(cfg, log, t, th, email)
         && IsCode(challenge.code) && ReadAt(log, t, read, challenge.expiresAt - CHALLENGE_TTL)
       case AtClock(email, code) => IsVerifyFor(th.req.op, email, code) && ClassPassed(cfg, th) && NoIdentifier(th)
       case AtConfirm(email, code, at, read) =>
         && IsVerifyFor(th.req.op, email, code) && ClassPassed(cfg, th) && NoIdentifier(th)
         && ReadAt(log, t, read, at)
       case AtGet(claim, key) => IsClaimFor(th.req.op, claim, key) && ClassPassed(cfg, th) && NoIdentifier(th)
       case AtPut(key, result, look) =>
         && IsClaim(th.req.op, key) && result == RecordOf(cfg.prims, th.req.op.claim.value)
         && ClassPassed(cfg, th) && NoIdentifier(th) && MissAt(log, t, look, key)
       case Done(response) => DoneOk(cfg, log, t, th, response)
  }

  // ---------- Events and their authors ----------

  /** The event ended its request, with a response of this shape. */
  predicate EndedBy(th: Thread, i: nat) {
    th.pc.Done? && th.last == Some(i)
  }

  /** The request missed at position i and ended by storing its own record. */
  predicate StoredAfter(log: seq<Event>, th: Thread, t: nat, i: nat) {
    && th.pc.Done? && th.last.Some? && i < th.last.value < |log|
    && log[th.last.value].Stored? && log[th.last.value].tid == t && log[th.last.value].look == i
  }

  /** The event is justified by the request that took the step. */
  predicate EventOk(cfg: Config, log: seq<Event>, threads: seq<Thread>, i: nat)
    requires i < |log|
  {
    var e := log[i];
    && e.tid < |threads|
    && var th := threads[e.tid];
    && (!e.ClassChecked? ==> ClassPassed(cfg, th))
    && (!e.ClassChecked? && !e.IdentifierChecked? ==> !Blocked(th))
    && match e
       case ClassChecked(t, bucket, policy, answer) =>
         && th.classAnswer == Some(answer)
         && bucket == ClientBucket(th.req.class_, th.req.clientIP) && policy == PolicyFor(th.req.class_)
       case IdentifierChecked(t, bucket, policy, answer) =>
         && th.idAnswer == Some(answer) && policy == OTPRequestIdentifierPolicy()
         && MetersSome(th.req.op) && bucket == IdentifierBucketOf(cfg.prims.sha256, MeteredBy(th.req.op))
         && (answer.Granted() ==> th.grant == Some(i))
       case OTPSent(t, body, grant) =>
         && EndedBy(th, i) && th.req.op == RequestOTP(Some(body)) && grant == th.grant
         && IdentifierPassed(cfg, log, t, th, IdentifierOf(body)) && (grant.Some? ==> grant.value < i)
       case ClockRead(t, at) => (th.pc.AtSave? || th.pc.AtConfirm? || th.pc.Done?) && ReadsClock(th.req.op)
       case Saved(t, email, challenge, read, grant) =>
         && EndedBy(th, i) && IsChallengeFor(th.req.op, email) && grant == th.grant
         && IdentifierPassed(cfg, log, t, th, email) && (grant.Some? ==> grant.value < i)
         && th.pc.response.status == 200
         && IsCode(challenge.code) && ReadAt(log, t, read, challenge.expiresAt - CHALLENGE_TTL) && read < i
       case Confirmed(t, email, code, at, read, ok) =>
         && EndedBy(th, i) && IsVerifyFor(th.req.op, email, code)
         && ReadAt(log, t, read, at) && read < i
         && (if ok then th.pc.response.payload == Proof(ProofOf(cfg.prims, email, code, at))
             else th.pc.response.status == 401 && th.pc.response.payload == Problem(InvalidOrExpiredCode))
       case Looked(t, key, found) =>
         && IsClaim(th.req.op, key)
         && (found.Some? ==> EndedBy(th, i) && th.pc.response.payload == Claimed(Replayed(found.value)))
         && (found.None? ==> (th.pc.AtPut? && th.pc.look == i) || StoredAfter(log, th, t, i))
       case Stored(t, key, result, look) =>
         && EndedBy(th, i) && IsClaim(th.req.op, key) && result == RecordOf(cfg.prims, th.req.op.claim.value)
         && MissAt(log, t, look, key) && look < i && th.pc.response.payload == Claimed(result)
  }

  predicate StoresOk(s: State) {
    && s.challenges == ReplayChallenges(s.log)
    && s.claims == ReplayClaims(s.log)
    && Faithful(s.log)
  }

  predicate ThreadsOk(cfg: Config, s: State) {
    forall t :: 0 <= t < |s.threads| ==> ThreadOk(cfg, s.log, t, s.threads[t])
  }

  predicate EventsOk(cfg: Config, s: State) {
    forall i :: 0 <= i < |s.log| ==> EventOk(cfg, s.log, s.threads, i)
  }

  predicate Inv(cfg: Config, s: State) {
    StoresOk(s) && ThreadsOk(cfg, s) && EventsOk(cfg, s)
  }

  // ---------- Preservation: the stores ----------

  /** The event tells the truth about the stores it met. */
  predicate Truthful(s: State, e: Event) {
    match e
    case Confirmed(_, email, code, at, _, ok) => ok == Confirms(s.challenges, email, code, at)
    case Looked(_, key, found) => found == if key in s.claims then Some(s.claims[key]) else None
    case _ => true
  }

  lemma TurnsAreTruthful(cfg: Config, s: State, t: nat, input: Input)
    requires t < |s.threads|
    ensures var e := NextTurn(cfg, s, t, input).event;
            e.Some? ==> Truthful(s, e.value)
  {
  }

  lemma StepStores(cfg: Config, s: State, a: Action)
    requires StoresOk(s)
    ensures StoresOk(Step(cfg, s, a))
  {
    if a.Run? && a.tid < |s.threads| {
      TurnsAreTruthful(cfg, s, a.tid, a.input);
      var e := NextTurn(cfg, s, a.tid, a.input).event;
      if e.Some? {
        var log' := s.log + [e.value];
        assert log'[..|s.log|] == s.log;
        assert FaithfulAt(log', |s.log|);
        FaithfulExtend(s.log, e.value);
      }
    }
  }

  // ---------- Preservation: the requests ----------

  lemma ThreadOkFrame(cfg: Config, log: seq<Event>, log': seq<Event>, t: nat, th: Thread)
    requires log <= log' && ThreadOk(cfg, log, t, th)
    ensures ThreadOk(cfg, log', t, th)
  {
  }

  lemma EventOkFrame(cfg: Config, log: seq<Event>, log': seq<Event>, threads: seq<Thread>, threads': seq<Thread>, i: nat)
    requires log <= log' && i < |log| && EventOk(cfg, log, threads, i)
    requires log[i].tid < |threads'| && threads'[log[i].tid] == threads[log[i].tid]
    ensures EventOk(cfg, log', threads', i)
  {
  }

  /** Entering the wrapped handler lands on a justified first step or response. */
  lemma EnterOk(cfg: Config, log: seq<Event>, t: nat, th: Thread)
    requires th.shown == ClassShown(th.classAnswer) && ClassPassed(cfg, th) && NoIdentifier(th) && th.last.None?
    ensures ThreadOk(cfg, log, t, th.(pc := Enter(cfg, th.req.op, th.shown)))
  {
  }

  function LogAfter(s: State, turn: Turn): seq<Event> {
    if turn.event.Some? then s.log + [turn.event.value] else s.log
  }

  /** The next step asks the limiter. */
  predicate AsksLimiter(pc: Pc) {
    pc.AtClass? || pc.AtIdentifier?
  }

  /** The next step reads the clock or the claim cache. */
  predicate Reads(pc: Pc) {
    pc.AtIssue? || pc.AtClock? || pc.AtGet?
  }

  // After its own step a request is still justified.

  lemma ThreadAfterLimiter(cfg: Config, s: State, t: nat, input: Input)
    requires t < |s.threads| && ThreadOk(cfg, s.log, t, s.threads[t]) && AsksLimiter(s.threads[t].pc)
    ensures var turn := NextTurn(cfg, s, t, input);
            ThreadOk(cfg, LogAfter(s, turn), t, turn.thread)
  {
    var th := s.threads[t];
    if th.pc.AtClass? {
      var log' := LogAfter(s, NextTurn(cfg, s, t, input));
      if !cfg.limited {
        EnterOk(cfg, log', t, th);
      } else if input.classAnswer.Granted() {
        var d := input.classAnswer.decision;
        EnterOk(cfg, log', t, th.(classAnswer := Some(input.classAnswer), shown := Some(d)));
      }
    }
  }

  lemma ThreadAfterRead(cfg: Config, s: State, t: nat, input: Input)
    requires t < |s.threads| && ThreadOk(cfg, s.log, t, s.threads[t]) && Reads(s.threads[t].pc)
    ensures var turn := NextTurn(cfg, s, t, input);
            ThreadOk(cfg, LogAfter(s, turn), t, turn.thread)
  {
    CodeMeaning(input.draw, CodeOf(input.draw));
  }

  lemma ThreadAfterEnd(cfg: Config, s: State, t: nat, input: Input)
    requires t < |s.threads| && ThreadOk(cfg, s.log, t, s.threads[t])
    requires !AsksLimiter(s.threads[t].pc) && !Reads(s.threads[t].pc)
    ensures var turn := NextTurn(cfg, s, t, input);
            ThreadOk(cfg, LogAfter(s, turn), t, turn.thread)
  {
    match s.threads[t].pc
    case AtUpstream(_) =>
    case AtSave(_, _, _) =>
    case AtConfirm(_, _, _, _) =>
    case AtPut(_, _, _) =>
    case Done(_) =>
  }

  // The event of a step is justified by the request after the step.

  lemma EventAfterStage(cfg: Config, s: State, t: nat, input: Input)
    requires t < |s.threads| && ThreadOk(cfg, s.log, t, s.threads[t])
    requires NextTurn(cfg, s, t, input).event.Some?
    requires AsksLimiter(s.threads[t].pc) || Reads(s.threads[t].pc)
    ensures var turn := NextTurn(cfg, s, t, input);
            EventOk(cfg, LogAfter(s, turn), s.threads[t := turn.thread], |s.log|)
  {
    match s.threads[t].pc
    case AtClass =>
    case AtIdentifier(_) =>
    case AtIssue(_) =>
    case AtClock(_, _) =>
    case AtGet(_, _) =>
  }

  lemma EventAfterEnd(cfg: Config, s: State, t: nat, input: Input)
    requires t < |s.threads| && ThreadOk(cfg, s.log, t, s.threads[t])
    requires NextTurn(cfg, s, t, input).event.Some?
    requires !AsksLimiter(s.threads[t].pc) && !Reads(s.threads[t].pc)
    ensures var turn := NextTurn(cfg, s, t, input);
            EventOk(cfg, LogAfter(s, turn), s.threads[t := turn.thread], |s.log|)
  {
    match s.threads[t].pc
    case AtUpstream(_) =>
    case AtSave(_, _, _) =>
    case AtConfirm(_, _, _, _) =>
    case AtPut(_, _, _) =>
  }

  // Earlier events of the request stay justified after its next step.

  lemma PastAfterStage(cfg: Config, s: State, t: nat, input: Input, i: nat)
    requires t < |s.threads| && ThreadOk(cfg, s.log, t, s.threads[t])
    requires i < |s.log| && s.log[i].tid == t && EventOk(cfg, s.log, s.threads, i)
    requires AsksLimiter(s.threads[t].pc) || Reads(s.threads[t].pc)
    ensures var turn := NextTurn(cfg, s, t, input);
            EventOk(cfg, LogAfter(s, turn), s.threads[t := turn.thread], i)
  {
    match s.threads[t].pc
    case AtClass =>
    case AtIdentifier(_) =>
    case AtIssue(_) =>
    case AtClock(_, _) =>
    case AtGet(_, _) =>
  }

  lemma PastAfterEnd(cfg: Config, s: State, t: nat, input: Input, i: nat)
    requires t < |s.threads| && ThreadOk(cfg, s.log, t, s.threads[t])
    requires i < |s.log| && s.log[i].tid == t && EventOk(cfg, s.log, s.threads, i)
    requires !AsksLimiter(s.threads[t].pc) && !Reads(s.threads[t].pc)
    ensures var turn := NextTurn(cfg, s, t, input);
            EventOk(cfg, LogAfter(s, turn), s.threads[t := turn.thread], i)
  {
    match s.threads[t].pc
    case AtUpstream(_) =>
    case AtSave(_, _, _) =>
    case AtConfirm(_, _, _, _) =>
    case AtPut(_, _, _) =>
    case Done(_) =>
  }

  // ---------- Preservation: the whole state ----------

  lemma TurnThread(cfg: Config, s: State, t: nat, input: Input)
    requires t < |s.threads| && ThreadOk(cfg, s.log, t, s.threads[t])
    ensures var turn := NextTurn(cfg, s, t, input);
            ThreadOk(cfg, LogAfter(s, turn), t, turn.thread)
  {
    if AsksLimiter(s.threads[t].pc) {
      ThreadAfterLimiter(cfg, s, t, input);
    } else if Reads(s.threads[t].pc) {
      ThreadAfterRead(cfg, s, t, input);
    } else {
      ThreadAfterEnd(cfg, s, t, input);
    }
  }

  lemma TurnEvent(cfg: Config, s: State, t: nat, input: Input, i: nat)
    requires t < |s.threads| && ThreadOk(cfg, s.log, t, s.threads[t])
    requires i < |s.log| ==> s.log[i].tid == t && EventOk(cfg, s.log, s.threads, i)
    requires i < |LogAfter(s, NextTurn(cfg, s, t, input))|
    ensures var turn := NextTurn(cfg, s, t, input);
            EventOk(cfg, LogAfter(s, turn), s.threads[t := turn.thread], i)
  {
    var staged := AsksLimiter(s.threads[t].pc) || Reads(s.threads[t].pc);
    if i < |s.log| {
      if staged {
        PastAfterStage(cfg, s, t, input, i);
      } else {
        PastAfterEnd(cfg, s, t, input, i);
      }
    } else if staged {
      EventAfterStage(cfg, s, t, input);
    } else {
      EventAfterEnd(cfg, s, t, input);
    }
  }

  lemma StepShape(cfg: Config, s: State, a: Action)
    ensures var s' := Step(cfg, s, a);
            && s.log <= s'.log && |s.threads| <= |s'.threads|
            && (forall t :: 0 <= t < |s.threads| && !(a.Run? && a.tid == t) ==> s'.threads[t] == s.threads[t])
            && (a.Run? && a.tid < |s.threads| ==>
                  var turn := NextTurn(cfg, s, a.tid, a.input);
                  s'.log == LogAfter(s, turn) && s'.threads == s.threads[a.tid := turn.thread])
            && (!(a.Run? && a.tid < |s.threads|) ==> s'.log == s.log)
            && (forall t :: |s.threads| <= t < |s'.threads| ==> a.Arrive? && s'.threads[t] == Fresh(a.req))
  {
  }

  lemma StepThreads(cfg: Config, s: State, a: Action)
    requires ThreadsOk(cfg, s)
    ensures ThreadsOk(cfg, Step(cfg, s, a))
  {
    var s' := Step(cfg, s, a);
    StepShape(cfg, s, a);
    forall t | 0 <= t < |s'.threads| ensures ThreadOk(cfg, s'.log, t, s'.threads[t]) {
      if t < |s.threads| {
        assert ThreadOk(cfg, s.log, t, s.threads[t]);
        if a.Run? && a.tid == t {
          TurnThread(cfg, s, t, a.input);
        } else {
          ThreadOkFrame(cfg, s.log, s'.log, t, s.threads[t]);
        }
      }
    }
  }

  lemma StepEvents(cfg: Config, s: State, a: Action)
    requires ThreadsOk(cfg, s) && EventsOk(cfg, s)
    ensures EventsOk(cfg, Step(cfg, s, a))
  {
    var s' := Step(cfg, s, a);
    StepShape(cfg, s, a);
    forall i | 0 <= i < |s'.log| ensures EventOk(cfg, s'.log, s'.threads, i) {
      assert i < |s.log| ==> EventOk(cfg, s.log, s.threads, i);
      if a.Run? && a.tid < |s.threads| && (i == |s.log| || s.log[i].tid == a.tid) {
        TurnEvent(cfg, s, a.tid, a.input, i);
      } else {
        EventOkFrame(cfg, s.log, s'.log, s.threads, s'.threads, i);
      }
    }
  }

  /** Every state any run reaches satisfies the invariant. */
  lemma {:induction false} Reachable(cfg: Config, actions: seq<Action>)
    ensures Inv(cfg, Exec(cfg, actions))
  {
    if actions != [] {
      var k := |actions| - 1;
      Reachable(cfg, actions[..k]);
      var s := Exec(cfg, actions[..k]);
      StepStores(cfg, s, actions[k]);
      StepThreads(cfg, s, actions[k]);
      StepEvents(cfg, s, actions[k]);
    }
  }
}
