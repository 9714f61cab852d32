/** Rate limiting under every interleaving and every limiter behaviour. */
module LimitRuns {
  import opened Crypto
  import opened Edge
  import opened EdgeInvariant
  import opened Ownership
  import opened RateLimit
  import opened Text
  import opened Wrappers

  // ---------- One budget for both routes ----------

  /** Positions of the grants of the identifier policy on a bucket, within a window of the log. */
  function GrantsIn(log: seq<Event>, bucket: Bucket, window: set<nat>): set<nat> {
    set g | g in window && IsGrant(log, g, bucket)
  }

  predicate IsGrant(log: seq<Event>, g: nat, bucket: Bucket) {
    && g < |log| && log[g].IdentifierChecked? && log[g].bucket == bucket
    && log[g].policy == OTPRequestIdentifierPolicy() && log[g].answer.Granted()
  }

  /**
    The event is an upstream OTP request or a saved challenge for an identifier with
    this normal form: the request's identifier field, or its email without one.
   */
  predicate ActsFor(e: Event, normal: string) {
    || (e.OTPSent? && e.body.identifier != "" && Normalize(e.body.identifier) == normal)
    || (e.OTPSent? && e.body.identifier == "" && Normalize(e.body.email) == normal)
    || (e.Saved? && Normalize(e.email) == normal)
  }

  function GrantOf(e: Event): Option<nat> {
    match e
    case OTPSent(_, _, grant) => grant
    case Saved(_, _, _, _, grant) => grant
    case _ => None
  }

  /** Positions of the acts for an identifier that spent a grant of the window. */
  function ActsIn(log: seq<Event>, normal: string, window: set<nat>): set<nat> {
    set i: nat | i < |log| && ActsFor(log[i], normal) && GrantOf(log[i]).Some? && GrantOf(log[i]).value in window
  }

  /** With a limiter, every act for a non-blank identifier spends an earlier grant on that identifier's bucket. */
  lemma ActsAreGranted(cfg: Config, actions: seq<Action>, i: nat, identifier: string)
    requires i < |Exec(cfg, actions).log| && ActsFor(Exec(cfg, actions).log[i], Normalize(identifier))
    requires cfg.limited && Normalize(identifier) != ""
    ensures var log := Exec(cfg, actions).log;
            var grant := GrantOf(log[i]);
            && grant.Some? && grant.value < i
            && IsGrant(log, grant.value, IdentifierBucketOf(cfg.prims.sha256, identifier))
            && log[grant.value].tid == log[i].tid
  {
    Reachable(cfg, actions);
    var s := Exec(cfg, actions);
    var metered := if s.log[i].OTPSent? then IdentifierOf(s.log[i].body) else s.log[i].email;
    SameNormalFormSameBucket(cfg.prims.sha256, metered, identifier);
    ActIsGranted(cfg, s, i, metered);
  }

  lemma ActIsGranted(cfg: Config, s: State, i: nat, metered: string)
    requires i < |s.log| && Inv(cfg, s) && cfg.limited && TrimSpace(metered) != ""
    requires (s.log[i].OTPSent? && metered == IdentifierOf(s.log[i].body)) || (s.log[i].Saved? && metered == s.log[i].email)
    ensures var grant := GrantOf(s.log[i]);
            && grant.Some? && grant.value < i
            && IsGrant(s.log, grant.value, IdentifierBucketOf(cfg.prims.sha256, metered))
            && s.log[grant.value].tid == s.log[i].tid
  {
    assert EventOk(cfg, s.log, s.threads, i);
  }

  /**
    Told by the body's own fields: an OTP request that names a non-blank identifier
    spends a grant on that identifier, whatever its email; one without an identifier
    spends a grant on its email, if that is not blank; and none is spent on blanks.
   */
  lemma OTPSpendsItsOwnField(cfg: Config, actions: seq<Action>, i: nat)
    requires i < |Exec(cfg, actions).log| && Exec(cfg, actions).log[i].OTPSent? && cfg.limited
    ensures var log := Exec(cfg, actions).log;
            var body, grant := log[i].body, log[i].grant;
            && (grant.Some? <==> if body.identifier != "" then !AllBlank(body.identifier) else !AllBlank(body.email))
            && (grant.Some? ==>
                  && grant.value < i && log[grant.value].tid == log[i].tid
                  && (body.identifier != "" ==>
                        IsGrant(log, grant.value, IdentifierBucketOf(cfg.prims.sha256, body.identifier)))
                  && (body.identifier == "" ==>
                        IsGrant(log, grant.value, IdentifierBucketOf(cfg.prims.sha256, body.email))))
  {
    Reachable(cfg, actions);
    var s := Exec(cfg, actions);
    var body := s.log[i].body;
    BlankExactlyWhen(body.identifier);
    BlankExactlyWhen(body.email);
    assert EventOk(cfg, s.log, s.threads, i);
  }

  /** The bucket an identifier check asks about, told by the request's own fields; blanks are never asked about. */
  lemma ChecksAskAboutFields(cfg: Config, actions: seq<Action>, i: nat)
    requires i < |Exec(cfg, actions).log| && Exec(cfg, actions).log[i].IdentifierChecked?
    ensures var s := Exec(cfg, actions);
            var e := s.log[i];
            && e.tid < |s.threads|
            && match s.threads[e.tid].req.op
               case RequestOTP(Some(body)) =>
                 var field := if body.identifier != "" then body.identifier else body.email;
                 !AllBlank(field) && e.bucket == IdentifierBucketOf(cfg.prims.sha256, field)
               case IssueChallenge(Some(raw)) => '@' in raw && e.bucket == IdentifierBucketOf(cfg.prims.sha256, raw)
               case _ => false
  {
    Reachable(cfg, actions);
    var s := Exec(cfg, actions);
    assert EventOk(cfg, s.log, s.threads, i);
    match s.threads[s.log[i].tid].req.op
    case RequestOTP(Some(body)) =>
      BlankExactlyWhen(body.identifier);
      BlankExactlyWhen(body.email);
    case IssueChallenge(Some(raw)) =>
      NormalizeKeeps(raw);
      NormalFormBucket(cfg.prims.sha256, raw);
    case _ =>
  }

  /** No grant is spent twice. */
  lemma GrantsAreSpentOnce(cfg: Config, actions: seq<Action>, i: nat, k: nat)
    requires i < |Exec(cfg, actions).log| && k < |Exec(cfg, actions).log|
    requires GrantOf(Exec(cfg, actions).log[i]).Some?
    requires GrantOf(Exec(cfg, actions).log[i]) == GrantOf(Exec(cfg, actions).log[k])
    ensures i == k
  {
    Reachable(cfg, actions);
    var s := Exec(cfg, actions);
    assert EventOk(cfg, s.log, s.threads, i) && EventOk(cfg, s.log, s.threads, k);
  }

  /** An injection bounds the size of its domain. */
  lemma {:induction false} InjectionBounds(a: set<nat>, b: set<nat>, f: nat -> nat)
    requires forall i :: i in a ==> f(i) in b
    requires forall i, k :: i in a && k in a && f(i) == f(k) ==> i == k
    ensures |a| <= |b|
  {
    if i :| i in a {
      InjectionBounds(a - {i}, b - {f(i)}, f);
    }
  }

  /**
    Whatever the limiter and the interleaving: within any window of its decisions,
    the upstream OTP requests and saved challenges for one identifier, however it
    was cased, padded or given, are at most the grants on its one bucket.
   */
  lemma ActsWithinGrants(cfg: Config, actions: seq<Action>, identifier: string, window: set<nat>)
    requires cfg.limited && Normalize(identifier) != ""
    ensures var log := Exec(cfg, actions).log;
            |ActsIn(log, Normalize(identifier), window)| <=
            |GrantsIn(log, IdentifierBucketOf(cfg.prims.sha256, identifier), window)|
  {
    var log := Exec(cfg, actions).log;
    var acts := ActsIn(log, Normalize(identifier), window);
    var grants := GrantsIn(log, IdentifierBucketOf(cfg.prims.sha256, identifier), window);
    var f: nat -> nat := (i: nat) => if i < |log| && GrantOf(log[i]).Some? then GrantOf(log[i]).value else 0;
    forall i | i in acts ensures f(i) in grants {
      ActsAreGranted(cfg, actions, i, identifier);
    }
    forall i, k | i in acts && k in acts && f(i) == f(k) ensures i == k {
      GrantsAreSpentOnce(cfg, actions, i, k);
    }
    InjectionBounds(acts, grants, f);
  }

  /** The limiter keeps the identifier policy on a bucket within a window of its decisions. */
  predicate KeepsIdentifierPolicy(log: seq<Event>, bucket: Bucket, window: set<nat>) {
    |GrantsIn(log, bucket, window)| <= OTPRequestIdentifierPolicy().limit
  }

  /** Given a limiter that keeps the policy, at most three acts per identifier and window. */
  lemma ThreePerWindow(cfg: Config, actions: seq<Action>, identifier: string, window: set<nat>)
    requires cfg.limited && Normalize(identifier) != ""
    requires KeepsIdentifierPolicy(Exec(cfg, actions).log, IdentifierBucketOf(cfg.prims.sha256, identifier), window)
    ensures |ActsIn(Exec(cfg, actions).log, Normalize(identifier), window)| <= 3
  {
    ActsWithinGrants(cfg, actions, identifier, window);
  }

  // ---------- Counting acts where they happen ----------

  /** The positions of an interval. */
  function Between(a: nat, b: nat): (r: set<nat>)
    ensures forall i: nat :: i in r <==> a <= i < b
  {
    if b <= a then {} else Between(a, b - 1) + {b - 1}
  }

  /** Positions in the interval of the acts for an identifier. */
  function ActsBetween(log: seq<Event>, normal: string, a: nat, b: nat): set<nat> {
    set i: nat | a <= i < b && i < |log| && ActsFor(log[i], normal)
  }

  /** The grant was spent before this position. */
  predicate SpentBefore(log: seq<Event>, g: nat, a: nat) {
    exists i :: 0 <= i < a && i < |log| && GrantOf(log[i]) == Some(g)
  }

  /** Grants on the bucket given before this position and not spent before it: budget in flight. */
  function HeldAt(log: seq<Event>, bucket: Bucket, a: nat): set<nat> {
    set g: nat | g < a && IsGrant(log, g, bucket) && !SpentBefore(log, g, a)
  }

  /** Each grant in flight is held by its own request. */
  lemma HeldByDistinctRequests(cfg: Config, actions: seq<Action>, bucket: Bucket, g: nat, h: nat)
    requires IsGrant(Exec(cfg, actions).log, g, bucket) && IsGrant(Exec(cfg, actions).log, h, bucket)
    requires Exec(cfg, actions).log[g].tid == Exec(cfg, actions).log[h].tid
    ensures g == h
  {
    Reachable(cfg, actions);
    var s := Exec(cfg, actions);
    assert EventOk(cfg, s.log, s.threads, g) && EventOk(cfg, s.log, s.threads, h);
  }

  /**
    Counted where they happen: in any interval of the log the acts for an identifier
    are at most the grants given in it plus those in flight at its start.
   */
  lemma ActsWithinInterval(cfg: Config, actions: seq<Action>, identifier: string, a: nat, b: nat)
    requires cfg.limited && Normalize(identifier) != ""
    ensures var log, bucket := Exec(cfg, actions).log, IdentifierBucketOf(cfg.prims.sha256, identifier);
            |ActsBetween(log, Normalize(identifier), a, b)| <=
            |GrantsIn(log, bucket, Between(a, b))| + |HeldAt(log, bucket, a)|
  {
    var log, bucket := Exec(cfg, actions).log, IdentifierBucketOf(cfg.prims.sha256, identifier);
    var acts := ActsBetween(log, Normalize(identifier), a, b);
    var given, held := GrantsIn(log, bucket, Between(a, b)), HeldAt(log, bucket, a);
    var f: nat -> nat := (i: nat) => if i < |log| && GrantOf(log[i]).Some? then GrantOf(log[i]).value else 0;
    forall i | i in acts ensures f(i) in given + held {
      ActSpendsGivenOrHeld(cfg, actions, identifier, a, b, i);
    }
    forall i, k | i in acts && k in acts && f(i) == f(k) ensures i == k {
      ActsAreGranted(cfg, actions, i, identifier);
      ActsAreGranted(cfg, actions, k, identifier);
      GrantsAreSpentOnce(cfg, actions, i, k);
    }
    InjectionBounds(acts, given + held, f);
    assert |given + held| <= |given| + |held|;
  }

  lemma ActSpendsGivenOrHeld(cfg: Config, actions: seq<Action>, identifier: string, a: nat, b: nat, i: nat)
    requires cfg.limited && Normalize(identifier) != ""
    requires i in ActsBetween(Exec(cfg, actions).log, Normalize(identifier), a, b)
    ensures var log, bucket := Exec(cfg, actions).log, IdentifierBucketOf(cfg.prims.sha256, identifier);
            && GrantOf(log[i]).Some?
            && GrantOf(log[i]).value in GrantsIn(log, bucket, Between(a, b)) + HeldAt(log, bucket, a)
  {
    var log, bucket := Exec(cfg, actions).log, IdentifierBucketOf(cfg.prims.sha256, identifier);
    ActsAreGranted(cfg, actions, i, identifier);
    var g := GrantOf(log[i]).value;
    if SpentBefore(log, g, a) {
      var k :| 0 <= k < a && k < |log| && GrantOf(log[k]) == Some(g);
      GrantsAreSpentOnce(cfg, actions, i, k);
    }
    assert g < a ==> g in HeldAt(log, bucket, a);
    assert g >= a ==> g in GrantsIn(log, bucket, Between(a, b));
  }

  /** Given a limiter that keeps the policy there, an interval sees at most three acts and those in flight at its start. */
  lemma ThreePerInterval(cfg: Config, actions: seq<Action>, identifier: string, a: nat, b: nat)
    requires cfg.limited && Normalize(identifier) != ""
    requires KeepsIdentifierPolicy(Exec(cfg, actions).log, IdentifierBucketOf(cfg.prims.sha256, identifier), Between(a, b))
    ensures var log := Exec(cfg, actions).log;
            |ActsBetween(log, Normalize(identifier), a, b)| <=
            3 + |HeldAt(log, IdentifierBucketOf(cfg.prims.sha256, identifier), a)|
  {
    ActsWithinInterval(cfg, actions, identifier, a, b);
  }

  /** No budget is lost: every grant was spent on its request's act, or its request is still in flight towards it. */
  lemma GrantsAreNotLost(cfg: Config, actions: seq<Action>, g: nat, bucket: Bucket)
    requires IsGrant(Exec(cfg, actions).log, g, bucket)
    ensures var s := Exec(cfg, actions);
            var t := s.log[g].tid;
            && t < |s.threads|
            && var th := s.threads[t];
            && th.grant == Some(g)
            && (th.pc.AtUpstream? || th.pc.AtIssue? || th.pc.AtSave? ||
                (th.last.Some? && th.last.value < |s.log| && Spends(s.log[th.last.value], t, g)))
  {
    Reachable(cfg, actions);
    var s := Exec(cfg, actions);
    assert EventOk(cfg, s.log, s.threads, g);
    assert ThreadOk(cfg, s.log, s.log[g].tid, s.threads[s.log[g].tid]);
  }

  // ---------- Denials ----------

  predicate Answered(s: State, t: nat) {
    t < |s.threads| && s.threads[t].pc.Done?
  }

  function ResponseOf(s: State, t: nat): Response
    requires Answered(s, t)
  {
    s.threads[t].pc.response
  }

  /** The event calls upstream or touches a store. */
  predicate IsEffect(e: Event) {
    e.OTPSent? || e.Saved? || e.Confirmed? || e.Looked? || e.Stored?
  }

  /**
    A Retry-After header appears exactly when the limiter denied or failed at the
    class or the identifier stage; then it is at least one second, the status is
    429 or 503, and the request never called upstream nor reached a store.
   */
  lemma DenialsHaveNoEffect(cfg: Config, actions: seq<Action>, t: nat)
    requires Answered(Exec(cfg, actions), t)
    ensures var s := Exec(cfg, actions);
            var th, response := s.threads[t], ResponseOf(s, t);
            && (response.retryAfter.Some? <==> Blocked(th))
            && (Blocked(th) ==>
                  && response.retryAfter.value >= 1
                  && (Blocker(th).Failed? ==> response.retryAfter.value == 5)
                  && response.status == (if Blocker(th).Failed? then 503 else 429)
                  && forall i :: 0 <= i < |s.log| && s.log[i].tid == t ==> !IsEffect(s.log[i]))
  {
    Reachable(cfg, actions);
    var s := Exec(cfg, actions);
    assert ThreadOk(cfg, s.log, t, s.threads[t]);
    forall i | 0 <= i < |s.log| && s.log[i].tid == t && Blocked(s.threads[t]) ensures !IsEffect(s.log[i]) {
      assert EventOk(cfg, s.log, s.threads, i);
    }
  }

  // ---------- Headers ----------

  /**
    The X-RateLimit headers of an answered OTP request or challenge: the identifier
    decision on a success with a non-blank identifier or on an identifier denial;
    otherwise the class decision, granted or denied; otherwise none. In particular
    an upstream failure after an identifier grant shows the class decision.
   */
  lemma HeadersShow(cfg: Config, actions: seq<Action>, t: nat)
    requires Answered(Exec(cfg, actions), t) && cfg.limited
    requires var op := Exec(cfg, actions).threads[t].req.op; op.RequestOTP? || op.IssueChallenge?
    ensures var s := Exec(cfg, actions);
            var th, response := s.threads[t], ResponseOf(s, t);
            var success := response.status == 200 && MetersSome(th.req.op);
            var denial := th.idAnswer.Some? && th.idAnswer.value.Decided? && !th.idAnswer.value.decision.allowed;
            && (success ==> th.idAnswer.Some? && th.idAnswer.value.Granted())
            && response.shown ==
               if success || denial then Some(th.idAnswer.value.decision) else ClassShown(th.classAnswer)
  {
    Reachable(cfg, actions);
    var s := Exec(cfg, actions);
    var th := s.threads[t];
    assert ThreadOk(cfg, s.log, t, th);
    if th.req.op.IssueChallenge? && th.req.op.email.Some? {
      NormalizeLaws(th.req.op.email.value);
    }
  }

  /** The recorded answers are the ones the limiter gave, each asked about its own bucket. */
  lemma AnswersAreTheLimiters(cfg: Config, actions: seq<Action>, i: nat)
    requires i < |Exec(cfg, actions).log|
    ensures var s := Exec(cfg, actions);
            var e := s.log[i];
            && e.tid < |s.threads|
            && var th := s.threads[e.tid];
            && (e.ClassChecked? ==>
                  && th.classAnswer == Some(e.answer) && e.policy == PolicyFor(th.req.class_)
                  && e.bucket == ClientBucket(th.req.class_, th.req.clientIP))
            && (e.IdentifierChecked? ==>
                  && th.idAnswer == Some(e.answer) && e.policy == OTPRequestIdentifierPolicy()
                  && MetersSome(th.req.op) && e.bucket == IdentifierBucketOf(cfg.prims.sha256, MeteredBy(th.req.op))
                  && ClassPassed(cfg, th))
  {
    Reachable(cfg, actions);
    var s := Exec(cfg, actions);
    assert EventOk(cfg, s.log, s.threads, i);
  }

  // ---------- Responses are final ----------

  lemma StepKeepsResponse(cfg: Config, s: State, a: Action, t: nat)
    requires Answered(s, t)
    ensures Answered(Step(cfg, s, a), t) && ResponseOf(Step(cfg, s, a), t) == ResponseOf(s, t)
  {
    StepShape(cfg, s, a);
  }

  /** Once written, a response never changes, whatever else runs. */
  lemma {:induction false} ResponsesAreFinal(cfg: Config, actions: seq<Action>, more: seq<Action>, t: nat)
    requires Answered(Exec(cfg, actions), t)
    ensures Answered(Exec(cfg, actions + more), t)
    ensures ResponseOf(Exec(cfg, actions + more), t) == ResponseOf(Exec(cfg, actions), t)
    decreases |more|
  {
    if more == [] {
      assert actions + more == actions;
    } else {
      var k := |more| - 1;
      ResponsesAreFinal(cfg, actions, more[..k], t);
      StepKeepsResponse(cfg, Exec(cfg, actions + more[..k]), more[k], t);
      ExecAppend(cfg, actions + more[..k], more[k]);
      assert actions + more[..k] + [more[k]] == actions + more;
    }
  }
}
