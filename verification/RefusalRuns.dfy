/** Which requests are refused before they act, told by what they carry. */
module RefusalRuns {
  import opened ClaimRuns
  import opened Edge
  import opened EdgeInvariant
  import opened LimitRuns
  import opened Onboarding
  import opened Ownership
  import opened RateLimit
  import opened Text
  import opened Wrappers

  /** Not valid JSON, an address without an "@", a blank email or code, a blank invite token or UID. */
  predicate Malformed(op: Operation) {
    match op
    case RequestOTP(body) => body.None?
    case IssueChallenge(email) => email.None? || '@' !in email.value
    case VerifyChallenge(body) => body.None? || AllBlank(body.value.email) || AllBlank(body.value.code)
    case ClaimWorkstation(claim, _) =>
      claim.None? || AllBlank(claim.value.inviteToken) || AllBlank(claim.value.desiredUID)
  }

  /** The text such a request is told. */
  function RefusalText(op: Operation): string {
    match op
    case IssueChallenge(Some(_)) => "valid email is required"
    case VerifyChallenge(Some(_)) => "email and code are required"
    case ClaimWorkstation(Some(_), _) => "invite_token and desired_uid are required"
    case _ => "invalid json"
  }

  /** The response is this refusal, under whatever decision the headers show. */
  predicate Refuses(response: Response, op: Operation, shown: Option<Decision>) {
    && response.status == 400 && response.shown == shown && response.retryAfter.None?
    && response.payload.Problem? && Wire(response.payload.error) == RefusalText(op)
  }

  lemma EnterRefuses(cfg: Config, op: Operation, shown: Option<Decision>)
    ensures Enter(cfg, op, shown).Done? <==> Malformed(op)
    ensures Malformed(op) ==> Refuses(Enter(cfg, op, shown).response, op, shown)
  {
    match op
    case RequestOTP(_) =>
    case IssueChallenge(None) =>
    case IssueChallenge(Some(raw)) => NormalizeKeeps(raw);
    case VerifyChallenge(None) =>
    case VerifyChallenge(Some(body)) =>
      NormalizeKeeps(body.email);
      BlankExactlyWhen(body.code);
    case ClaimWorkstation(None, _) =>
    case ClaimWorkstation(Some(claim), _) => CompleteMeaning(claim);
  }

  /** Only well-formed requests reach the identifier stage, the clock, the upstream or a store. */
  lemma ActsAreWellFormed(cfg: Config, actions: seq<Action>, i: nat)
    requires i < |Exec(cfg, actions).log| && !Exec(cfg, actions).log[i].ClassChecked?
    ensures var s := Exec(cfg, actions);
            s.log[i].tid < |s.threads| && !Malformed(s.threads[s.log[i].tid].req.op)
  {
    Reachable(cfg, actions);
    var s := Exec(cfg, actions);
    WellFormedEvent(cfg, s, i);
  }

  lemma WellFormedEvent(cfg: Config, s: State, i: nat)
    requires Inv(cfg, s) && i < |s.log| && !s.log[i].ClassChecked?
    ensures s.log[i].tid < |s.threads| && !Malformed(s.threads[s.log[i].tid].req.op)
  {
    assert EventOk(cfg, s.log, s.threads, i);
    match s.threads[s.log[i].tid].req.op
    case RequestOTP(_) =>
    case IssueChallenge(Some(raw)) => NormalizeKeeps(raw);
    case VerifyChallenge(Some(body)) =>
      NormalizeKeeps(body.email);
      BlankExactlyWhen(body.code);
    case ClaimWorkstation(Some(claim), _) => CompleteMeaning(claim);
    case _ =>
  }

  /** The class stage let the request through, or there is none. */
  predicate PassedClass(cfg: Config, th: Thread) {
    cfg.limited ==> th.classAnswer.Some? && th.classAnswer.value.Granted()
  }

  /**
    A request that passed the class stage is refused with 400 and its text, having
    asked and touched nothing more, exactly when it is malformed; every other one
    ended by an act of its own, or by a refusal of the identifier budget.
   */
  lemma RefusedExactlyWhen(cfg: Config, actions: seq<Action>, t: nat)
    requires Answered(Exec(cfg, actions), t) && PassedClass(cfg, Exec(cfg, actions).threads[t])
    ensures var s := Exec(cfg, actions);
            var th, response := s.threads[t], ResponseOf(s, t);
            && (Malformed(th.req.op) ==>
                  && Refuses(response, th.req.op, ClassShown(th.classAnswer))
                  && forall i :: 0 <= i < |s.log| && s.log[i].tid == t ==> s.log[i].ClassChecked?)
            && (!Malformed(th.req.op) ==>
                  || (th.idAnswer.Some? && !th.idAnswer.value.Granted())
                  || (exists i :: 0 <= i < |s.log| && s.log[i].tid == t && IsEffect(s.log[i])))
  {
    Reachable(cfg, actions);
    var s := Exec(cfg, actions);
    forall i | 0 <= i < |s.log| && s.log[i].tid == t && !s.log[i].ClassChecked?
      ensures !Malformed(s.threads[t].req.op)
    {
      WellFormedEvent(cfg, s, i);
    }
    EndedAtEntry(cfg, s, t);
    EnterRefuses(cfg, s.threads[t].req.op, ClassShown(s.threads[t].classAnswer));
  }

  /** How a request past the class stage ended: at entry, at the identifier stage, or by its last event. */
  lemma EndedAtEntry(cfg: Config, s: State, t: nat)
    requires Inv(cfg, s) && Answered(s, t) && PassedClass(cfg, s.threads[t])
    ensures var th := s.threads[t];
            || (th.last.Some? && th.last.value < |s.log| && s.log[th.last.value].tid == t && IsEffect(s.log[th.last.value]))
            || (th.idAnswer.Some? && !th.idAnswer.value.Granted() && !Malformed(th.req.op))
            || Enter(cfg, th.req.op, ClassShown(th.classAnswer)) == Done(ResponseOf(s, t))
  {
    assert ThreadOk(cfg, s.log, t, s.threads[t]);
    var op := s.threads[t].req.op;
    if op.IssueChallenge? && op.email.Some? {
      NormalizeKeeps(op.email.value);
    }
  }

  /** Every answered claim came with an invite token and a UID. */
  lemma ClaimsCarryTokenAndUID(cfg: Config, actions: seq<Action>, t: nat)
    requires IsClaimed(Exec(cfg, actions), t)
    ensures var claim := Exec(cfg, actions).threads[t].req.op.claim.value;
            !AllBlank(claim.inviteToken) && !AllBlank(claim.desiredUID)
  {
    AnswersFollowPuts(cfg, actions, t);
    ActsAreWellFormed(cfg, actions, LookOf(Exec(cfg, actions), t).value);
  }
}
