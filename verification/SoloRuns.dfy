/** A request that runs without interference does in small steps what its route does in direct style. */
module SoloRuns {
  import opened Crypto
  import opened Edge
  import opened Ids
  import opened Onboarding
  import opened Ownership
  import opened RateLimit
  import opened Pipeline
  import opened Text
  import opened Wrappers

  /** The limiter calls in a log. */
  function CallsOf(log: seq<Event>): seq<LimiterCall> {
    if log == [] then []
    else
      CallsOf(log[..|log| - 1]) +
      match log[|log| - 1]
      case ClassChecked(_, bucket, policy, answer) => [LimiterCall(bucket, policy, answer)]
      case IdentifierChecked(_, bucket, policy, answer) => [LimiterCall(bucket, policy, answer)]
      case _ => []
  }

  /** The upstream OTP requests in a log. */
  function SentOf(log: seq<Event>): seq<OTPRequest> {
    if log == [] then []
    else
      SentOf(log[..|log| - 1]) +
      match log[|log| - 1]
      case OTPSent(_, body, _) => [body]
      case _ => []
  }

  /** What can be observed of a state once request t is where it is. */
  datatype View = View(
    challenges: ChallengeMap, claims: ClaimMap, calls: seq<LimiterCall>, sent: seq<OTPRequest>, pc: Pc)

  function ViewOf(s: State, t: nat): View
    requires t < |s.threads|
  {
    View(s.challenges, s.claims, CallsOf(s.log), SentOf(s.log), s.threads[t].pc)
  }

  /** One step of request t, as the observer sees it. */
  lemma StepView(cfg: Config, s: State, t: nat, input: Input)
    requires t < |s.threads| && !s.threads[t].pc.Done?
    ensures var s', turn := Advance(cfg, s, t, input), NextTurn(cfg, s, t, input);
            && Solo(cfg, s, t, input) == Solo(cfg, s', t, input)
            && |s'.threads| == |s.threads| && s'.threads[t] == turn.thread && s'.now == s.now
            && ViewOf(s', t) ==
               match turn.event
               case None => ViewOf(s, t).(pc := turn.thread.pc)
               case Some(e) =>
                 View(ApplyToChallenges(s.challenges, e), ApplyToClaims(s.claims, e),
                      CallsOf(s.log) + CallsOf([e]), SentOf(s.log) + SentOf([e]), turn.thread.pc)
  {
    SoloStep(cfg, s, t, input);
    var turn := NextTurn(cfg, s, t, input);
    if turn.event.Some? {
      var e := turn.event.value;
      assert (s.log + [e])[..|s.log|] == s.log;
      assert [e][..0] == [];
    }
  }

  lemma SoloDone(cfg: Config, s: State, t: nat, input: Input)
    requires t < |s.threads| && s.threads[t].pc.Done?
    ensures Solo(cfg, s, t, input) == s
  {
  }

  lemma SoloUpstream(cfg: Config, s: State, t: nat, body: OTPRequest, input: Input)
    requires t < |s.threads| && s.threads[t].pc == AtUpstream(body)
    ensures |Solo(cfg, s, t, input).threads| == |s.threads|
    ensures ViewOf(Solo(cfg, s, t, input), t) ==
            ViewOf(s, t).(sent := SentOf(s.log) + [body], pc := Done(UpstreamResponse(s.threads[t], input.upstream)))
  {
    StepView(cfg, s, t, input);
    SoloDone(cfg, Advance(cfg, s, t, input), t, input);
  }

  lemma SoloSave(cfg: Config, s: State, t: nat, email: string, challenge: Challenge, read: nat, input: Input)
    requires t < |s.threads| && s.threads[t].pc == AtSave(email, challenge, read)
    ensures |Solo(cfg, s, t, input).threads| == |s.threads|
    ensures ViewOf(Solo(cfg, s, t, input), t) ==
            ViewOf(s, t).(challenges := s.challenges[email := challenge], pc := Done(DispatchResponse(s.threads[t])))
  {
    StepView(cfg, s, t, input);
    SoloDone(cfg, Advance(cfg, s, t, input), t, input);
  }

  lemma SoloIssue(cfg: Config, s: State, t: nat, email: string, input: Input)
    requires t < |s.threads| && s.threads[t].pc == AtIssue(email)
    ensures |Solo(cfg, s, t, input).threads| == |s.threads|
    ensures ViewOf(Solo(cfg, s, t, input), t) ==
            ViewOf(s, t).(challenges := s.challenges[email := IssuedAt(CodeOf(input.draw), s.now)],
                          pc := Done(DispatchResponse(s.threads[t])))
  {
    StepView(cfg, s, t, input);
    var s' := Advance(cfg, s, t, input);
    SoloSave(cfg, s', t, email, IssuedAt(CodeOf(input.draw), s.now), |s.log|, input);
  }

  lemma SoloConfirm(cfg: Config, s: State, t: nat, email: string, code: string, at: int, read: nat, input: Input)
    requires t < |s.threads| && s.threads[t].pc == AtConfirm(email, code, at, read)
    ensures |Solo(cfg, s, t, input).threads| == |s.threads|
    ensures ViewOf(Solo(cfg, s, t, input), t) ==
            var ok := Confirms(s.challenges, email, code, at);
            ViewOf(s, t).(challenges := if ok then s.challenges - {email} else s.challenges,
                          pc := Done(ConfirmResponse(cfg, s.threads[t], ok)))
  {
    StepView(cfg, s, t, input);
    SoloDone(cfg, Advance(cfg, s, t, input), t, input);
  }

  lemma SoloClock(cfg: Config, s: State, t: nat, email: string, code: string, input: Input)
    requires t < |s.threads| && s.threads[t].pc == AtClock(email, code)
    ensures |Solo(cfg, s, t, input).threads| == |s.threads|
    ensures ViewOf(Solo(cfg, s, t, input), t) ==
            var ok := Confirms(s.challenges, email, code, s.now);
            var waiting := s.threads[t].(pc := AtConfirm(email, code, s.now, |s.log|));
            ViewOf(s, t).(challenges := if ok then s.challenges - {email} else s.challenges,
                          pc := Done(ConfirmResponse(cfg, waiting, ok)))
  {
    StepView(cfg, s, t, input);
    SoloConfirm(cfg, Advance(cfg, s, t, input), t, email, code, s.now, |s.log|, input);
  }

  lemma SoloPut(cfg: Config, s: State, t: nat, key: string, result: ClaimResult, look: nat, input: Input)
    requires t < |s.threads| && s.threads[t].pc == AtPut(key, result, look)
    ensures |Solo(cfg, s, t, input).threads| == |s.threads|
    ensures ViewOf(Solo(cfg, s, t, input), t) ==
            ViewOf(s, t).(claims := s.claims[key := result], pc := Done(ClaimResponse(s.threads[t], result)))
  {
    StepView(cfg, s, t, input);
    SoloDone(cfg, Advance(cfg, s, t, input), t, input);
  }

  lemma SoloGet(cfg: Config, s: State, t: nat, claim: ClaimInput, key: string, input: Input)
    requires t < |s.threads| && s.threads[t].pc == AtGet(claim, key)
    ensures |Solo(cfg, s, t, input).threads| == |s.threads|
    ensures ViewOf(Solo(cfg, s, t, input), t) ==
            if key in s.claims then
              ViewOf(s, t).(pc := Done(ClaimResponse(s.threads[t], Replayed(s.claims[key]))))
            else
              var record := RecordOf(cfg.prims, claim);
              ViewOf(s, t).(claims := s.claims[key := record], pc := Done(ClaimResponse(s.threads[t], record)))
  {
    StepView(cfg, s, t, input);
    var s' := Advance(cfg, s, t, input);
    if key in s.claims {
      SoloDone(cfg, s', t, input);
    } else {
      SoloPut(cfg, s', t, key, RecordOf(cfg.prims, claim), |s.log|, input);
    }
  }

  /** The view once the identifier stage has asked and been answered. */
  function AskedIdentifier(cfg: Config, s: State, t: nat, identifier: string, input: Input): View
    requires t < |s.threads|
  {
    var call := LimiterCall(IdentifierBucketOf(cfg.prims.sha256, identifier), OTPRequestIdentifierPolicy(), input.identifierAnswer);
    ViewOf(s, t).(calls := CallsOf(s.log) + [call])
  }

  lemma SoloIdentifier(cfg: Config, s: State, t: nat, identifier: string, input: Input)
    requires t < |s.threads| && s.threads[t].pc == AtIdentifier(identifier)
    ensures |Solo(cfg, s, t, input).threads| == |s.threads|
    ensures ViewOf(Solo(cfg, s, t, input), t) ==
            var asked := AskedIdentifier(cfg, s, t, identifier, input);
            var th := s.threads[t].(idAnswer := Some(input.identifierAnswer));
            match input.identifierAnswer
            case Failed => asked.(pc := Done(Unavailable(th.shown)))
            case Decided(d) =>
              if !d.allowed then asked.(pc := Done(Limited(d)))
              else
                match AfterGrant(th.req.op, identifier)
                case AtUpstream(body) =>
                  asked.(sent := SentOf(s.log) + [body], pc := Done(UpstreamResponse(th, input.upstream)))
                case _ =>
                  asked.(challenges := s.challenges[identifier := IssuedAt(CodeOf(input.draw), s.now)],
                         pc := Done(DispatchResponse(th)))
  {
    StepView(cfg, s, t, input);
    var s' := Advance(cfg, s, t, input);
    match s'.threads[t].pc
    case AtUpstream(body) => SoloUpstream(cfg, s', t, body, input);
    case AtIssue(email) => SoloIssue(cfg, s', t, email, input);
    case Done(_) => SoloDone(cfg, s', t, input);
  }

  // ---------- The direct style ----------

  function WorldOf(s: State): World {
    World(s.challenges, s.claims, CallsOf(s.log), SentOf(s.log))
  }

  /** Request t ended with this outcome. */
  predicate EndedWith(s: State, t: nat, outcome: Outcome) {
    t < |s.threads| && s.threads[t].pc == Done(outcome.response) && WorldOf(s) == outcome.world
  }

  /** Request t stands at the first line of its wrapped handler. */
  predicate Entered(cfg: Config, s: State, t: nat, op: Operation, shown: Option<Decision>) {
    && t < |s.threads| && s.threads[t].req.op == op && s.threads[t].pc == Enter(cfg, op, shown)
    && s.threads[t].shown == shown && s.threads[t].idAnswer.None?
  }

  lemma SoloOTP(cfg: Config, s: State, t: nat, shown: Option<Decision>, body: OTPRequest, input: Input)
    requires Entered(cfg, s, t, RequestOTP(Some(body)), shown)
    ensures EndedWith(Solo(cfg, s, t, input), t, HandleOTP(cfg, WorldOf(s), shown, body, input))
  {
    if Consults(cfg.limited, IdentifierOf(body)) {
      SoloIdentifier(cfg, s, t, IdentifierOf(body), input);
    } else {
      SoloUpstream(cfg, s, t, body, input);
    }
  }

  lemma SoloChallenge(cfg: Config, s: State, t: nat, shown: Option<Decision>, raw: string, input: Input)
    requires Entered(cfg, s, t, IssueChallenge(Some(raw)), shown)
    ensures EndedWith(Solo(cfg, s, t, input), t, HandleChallenge(cfg, WorldOf(s), shown, raw, input, s.now))
  {
    var email := Normalize(raw);
    if !ValidEmail(email) {
      SoloDone(cfg, s, t, input);
    } else if Consults(cfg.limited, email) {
      SoloIdentifier(cfg, s, t, email, input);
    } else {
      SoloIssue(cfg, s, t, email, input);
    }
  }

  lemma SoloVerify(cfg: Config, s: State, t: nat, shown: Option<Decision>, body: VerifyBody, input: Input)
    requires Entered(cfg, s, t, VerifyChallenge(Some(body)), shown)
    ensures EndedWith(Solo(cfg, s, t, input), t, HandleVerify(cfg, WorldOf(s), shown, body, s.now))
  {
    var email, code := Normalize(body.email), TrimSpace(body.code);
    if email == "" || code == "" {
      SoloDone(cfg, s, t, input);
    } else {
      SoloClock(cfg, s, t, email, code, input);
    }
  }

  lemma SoloClaim(cfg: Config, s: State, t: nat, shown: Option<Decision>, claim: ClaimInput, key: string, input: Input)
    requires Entered(cfg, s, t, ClaimWorkstation(Some(claim), key), shown)
    ensures EndedWith(Solo(cfg, s, t, input), t, HandleClaim(cfg, WorldOf(s), shown, ClaimCall(claim, key)))
  {
    if Complete(claim) {
      SoloGet(cfg, s, t, claim, ClaimKey(claim, key), input);
    } else {
      SoloDone(cfg, s, t, input);
    }
  }

  lemma SoloHandle(cfg: Config, s: State, t: nat, shown: Option<Decision>, op: Operation, input: Input)
    requires Entered(cfg, s, t, op, shown)
    ensures EndedWith(Solo(cfg, s, t, input), t, Handle(cfg, WorldOf(s), shown, op, input, s.now))
  {
    match op
    case RequestOTP(Some(body)) => SoloOTP(cfg, s, t, shown, body, input);
    case IssueChallenge(Some(raw)) => SoloChallenge(cfg, s, t, shown, raw, input);
    case VerifyChallenge(Some(body)) => SoloVerify(cfg, s, t, shown, body, input);
    case ClaimWorkstation(Some(claim), key) => SoloClaim(cfg, s, t, shown, claim, key, input);
    case _ => SoloDone(cfg, s, t, input);
  }

  /** What the first step of a fresh request does to the observable world. */
  lemma FirstStep(cfg: Config, s: State, t: nat, input: Input)
    requires t < |s.threads| && s.threads[t] == Fresh(s.threads[t].req)
    ensures var s', req := Advance(cfg, s, t, input), s.threads[t].req;
            var call := LimiterCall(ClientBucket(req.class_, req.clientIP), PolicyFor(req.class_), input.classAnswer);
            && Solo(cfg, s, t, input) == Solo(cfg, s', t, input) && s'.now == s.now
            && WorldOf(s') == (if cfg.limited then WorldOf(s).(calls := CallsOf(s.log) + [call]) else WorldOf(s))
            && t < |s'.threads|
            && (!cfg.limited ==> Entered(cfg, s', t, req.op, None))
            && (cfg.limited && input.classAnswer.Granted() ==>
                  Entered(cfg, s', t, req.op, Some(input.classAnswer.decision)))
            && (cfg.limited && input.classAnswer.Failed? ==> s'.threads[t].pc == Done(Unavailable(None)))
            && (cfg.limited && input.classAnswer.Decided? && !input.classAnswer.decision.allowed ==>
                  s'.threads[t].pc == Done(Limited(input.classAnswer.decision)))
  {
    StepView(cfg, s, t, input);
    var s' := Advance(cfg, s, t, input);
    assert WorldOf(s') == World(ViewOf(s', t).challenges, ViewOf(s', t).claims, ViewOf(s', t).calls, ViewOf(s', t).sent);
  }

  lemma BlockedRoute(cfg: Config, s': State, t: nat, w: World, req: Request, input: Input)
    requires cfg.limited && !input.classAnswer.Granted() && t < |s'.threads|
    requires WorldOf(s') ==
             w.(calls := w.calls + [LimiterCall(ClientBucket(req.class_, req.clientIP), PolicyFor(req.class_), input.classAnswer)])
    requires s'.threads[t].pc ==
             Done(if input.classAnswer.Failed? then Unavailable(None) else Limited(input.classAnswer.decision))
    ensures EndedWith(Solo(cfg, s', t, input), t, Route(cfg, w, req, input, s'.now))
  {
    SoloDone(cfg, s', t, input);
  }

  /**
    From any state of the machine, a request that arrives and runs to its response
    without interference leaves the stores, the outside calls and the response that
    its route computes in direct style.
   */
  lemma SoloIsRoute(cfg: Config, s: State, t: nat, input: Input)
    requires t < |s.threads| && s.threads[t] == Fresh(s.threads[t].req)
    ensures EndedWith(Solo(cfg, s, t, input), t, Route(cfg, WorldOf(s), s.threads[t].req, input, s.now))
  {
    FirstStep(cfg, s, t, input);
    var s', req := Advance(cfg, s, t, input), s.threads[t].req;
    if !cfg.limited {
      SoloHandle(cfg, s', t, None, req.op, input);
    } else if input.classAnswer.Granted() {
      SoloHandle(cfg, s', t, Some(input.classAnswer.decision), req.op, input);
    } else {
      BlockedRoute(cfg, s', t, WorldOf(s), req, input);
    }
  }

  // ---------- Requests served one after the other ----------

  /** One request, what the environment answers it, and the clock while it is served. */
  datatype Job = Job(req: Request, input: Input, now: int)

  /** The world after serving the jobs one at a time, from an empty edge. */
  function WorldAfter(cfg: Config, jobs: seq<Job>): World {
    if jobs == [] then World(map[], map[], [], [])
    else
      var k := |jobs| - 1;
      Route(cfg, WorldAfter(cfg, jobs[..k]), jobs[k].req, jobs[k].input, jobs[k].now).world
  }

  /** The clock is set, the request arrives, and it takes all its steps. */
  lemma ServesJob(cfg: Config, actions: seq<Action>, job: Job) returns (more: seq<Action>)
    ensures WorldOf(Exec(cfg, more)) == Route(cfg, WorldOf(Exec(cfg, actions)), job.req, job.input, job.now).world
  {
    var s := Exec(cfg, actions);
    var t := |s.threads|;
    ExecAppend(cfg, actions, Tick(job.now));
    ExecAppend(cfg, actions + [Tick(job.now)], Arrive(job.req));
    var arrived := actions + [Tick(job.now)] + [Arrive(job.req)];
    var s' := s.(now := job.now, threads := s.threads + [Fresh(job.req)]);
    assert Exec(cfg, arrived) == s';
    var n := SoloLength(cfg, arrived, t, job.input);
    SoloIsRoute(cfg, s', t, job.input);
    more := arrived + Turns(t, job.input, n);
  }

  /**
    Requests served one after the other are one of the interleavings, so that every
    theorem about all runs of the machine holds of them.
   */
  lemma {:induction false} ServingIsARun(cfg: Config, jobs: seq<Job>) returns (actions: seq<Action>)
    ensures WorldOf(Exec(cfg, actions)) == WorldAfter(cfg, jobs)
  {
    if jobs == [] {
      actions := [];
    } else {
      var k := |jobs| - 1;
      var before := ServingIsARun(cfg, jobs[..k]);
      actions := ServesJob(cfg, before, jobs[k]);
    }
  }
}
