/** The ownership protocol under every interleaving of concurrent requests. */
module OwnershipRuns {
  import opened Crypto
  import opened Edge
  import opened EdgeInvariant
  import opened Ids
  import opened Logs
  import opened Ownership
  import opened RateLimit
  import opened SoloRuns
  import opened Text
  import opened Wrappers

  // ---------- Soundness: proofs and Saves ----------

  /** Request t was answered with an ownership proof. */
  predicate IsProof(s: State, t: nat) {
    t < |s.threads| && s.threads[t].pc.Done? && s.threads[t].pc.response.payload.Proof?
  }

  function ProofOfThread(s: State, t: nat): OwnershipProof
    requires IsProof(s, t)
  {
    s.threads[t].pc.response.payload.proof
  }

  /** The position of the last Save or success for the proof's email before its Confirm. */
  function BackingSave(s: State, t: nat): Option<nat>
    requires IsProof(s, t)
  {
    var last := s.threads[t].last;
    if last.Some? && last.value < |s.log| then LastTouch(s.log, last.value, ProofOfThread(s, t).email) else None
  }

  /**
    Every proof rests on a Save: for the normal form of the email the caller gave,
    with the code the caller gave, not expired at VerifiedAt, and with no other Save
    or success for that email in between.
   */
  lemma ProofRestsOnSave(cfg: Config, actions: seq<Action>, t: nat)
    requires IsProof(Exec(cfg, actions), t)
    ensures var s := Exec(cfg, actions);
            var th, proof, j := s.threads[t], ProofOfThread(s, t), BackingSave(s, t);
            && th.req.op.VerifyChallenge? && th.req.op.credentials.Some?
            && th.last.Some? && th.last.value < |s.log|
            && j.Some? && j.value < th.last.value && s.log[j.value].Saved?
            && s.log[j.value].email == proof.email == Normalize(th.req.op.credentials.value.email)
            && s.log[j.value].challenge.code == TrimSpace(th.req.op.credentials.value.code)
            && proof.verifiedAt <= s.log[j.value].challenge.expiresAt
            && (forall k :: j.value < k < th.last.value ==> !Touches(s.log[k], proof.email))
            && IsSuccess(s.log, th.last.value) && s.log[th.last.value].at == proof.verifiedAt
            && proof == ProofOf(cfg.prims, proof.email, s.log[j.value].challenge.code, proof.verifiedAt)
  {
    Reachable(cfg, actions);
    var s := Exec(cfg, actions);
    assert ThreadOk(cfg, s.log, t, s.threads[t]);
    ConfirmedExactlyWhen(s.log, s.threads[t].last.value);
  }

  /** No two proofs rest on the same Save: a code is consumed at most once. */
  lemma ProofsUseDistinctSaves(cfg: Config, actions: seq<Action>, t: nat, u: nat)
    requires IsProof(Exec(cfg, actions), t) && IsProof(Exec(cfg, actions), u) && t != u
    ensures BackingSave(Exec(cfg, actions), t) != BackingSave(Exec(cfg, actions), u)
  {
    Reachable(cfg, actions);
    ProofRestsOnSave(cfg, actions, t);
    ProofRestsOnSave(cfg, actions, u);
    var s := Exec(cfg, actions);
    assert ThreadOk(cfg, s.log, t, s.threads[t]) && ThreadOk(cfg, s.log, u, s.threads[u]);
    var i, k := s.threads[t].last.value, s.threads[u].last.value;
    assert s.log[i].tid == t && s.log[k].tid == u;
    SavesAreSingleUse(s.log, i, k);
  }

  /** Every accepted Confirm was answered with its proof, and every Save with its receipt. */
  lemma StoreEventsAreAnswered(cfg: Config, actions: seq<Action>, i: nat)
    requires i < |Exec(cfg, actions).log|
    ensures var s := Exec(cfg, actions);
            var e := s.log[i];
            && e.tid < |s.threads|
            && (IsSuccess(s.log, i) ==>
                  IsProof(s, e.tid) && s.threads[e.tid].last == Some(i) && ProofOfThread(s, e.tid).email == e.email)
            && (e.Saved? ==>
                  var th := s.threads[e.tid];
                  && th.pc.Done? && th.last == Some(i) && th.pc.response.status == 200
                  && th.req.op.IssueChallenge? && th.req.op.email.Some? && e.email == Normalize(th.req.op.email.value))
  {
    Reachable(cfg, actions);
    var s := Exec(cfg, actions);
    assert EventOk(cfg, s.log, s.threads, i);
  }

  /** Per email, every Save is consumed by one success, overwritten by a newer Save, or still stored. */
  lemma SavesAreConserved(cfg: Config, actions: seq<Action>, email: string)
    ensures var s := Exec(cfg, actions);
            SaveCount(s.log, email) ==
            SuccessCount(s.log, email) + OverwriteCount(s.log, email) + if email in s.challenges then 1 else 0
  {
    Reachable(cfg, actions);
    ChallengeConservation(Exec(cfg, actions).log, email);
  }

  /** Per email, the store holds the last Save not followed by a success. */
  lemma StoreMatchesHistory(cfg: Config, actions: seq<Action>, email: string)
    ensures var s := Exec(cfg, actions);
            var j := LastTouch(s.log, |s.log|, email);
            && (email in s.challenges <==> j.Some? && s.log[j.value].Saved?)
            && (email in s.challenges ==> s.challenges[email] == s.log[j.value].challenge)
  {
    Reachable(cfg, actions);
    var s := Exec(cfg, actions);
    assert s.log[..|s.log|] == s.log;
    StoreIsLastTouch(s.log, |s.log|, email);
  }

  /** Every stored key is a non-empty address in its own normal form, with a six-digit code. */
  lemma StoredKeysAreNormal(cfg: Config, actions: seq<Action>, email: string)
    requires email in Exec(cfg, actions).challenges
    ensures email != "" && '@' in email && Normalize(email) == email
    ensures var code := Exec(cfg, actions).challenges[email].code; |code| == 6 && AllDigits(code)
  {
    Reachable(cfg, actions);
    StoreMatchesHistory(cfg, actions, email);
    var s := Exec(cfg, actions);
    var j := LastTouch(s.log, |s.log|, email).value;
    assert EventOk(cfg, s.log, s.threads, j);
    NormalizeLaws(s.threads[s.log[j].tid].req.op.email.value);
  }

  // ---------- Completeness: when a verification succeeds ----------

  /** The last thing that happened to the email is a Save of this code, good at this instant. */
  predicate Redeemable(log: seq<Event>, email: string, code: string, at: int) {
    var j := LastTouch(log, |log|, email);
    && j.Some? && log[j.value].Saved?
    && log[j.value].challenge.code == code && at <= log[j.value].challenge.expiresAt
  }

  /** What a Confirm step does: success removes exactly its challenge, failure answers 401 and changes none. */
  lemma ConfirmStep(cfg: Config, s: State, t: nat, input: Input)
    requires t < |s.threads| && s.threads[t].pc.AtConfirm?
    ensures var pc, s' := s.threads[t].pc, Step(cfg, s, Run(t, input));
            && (IsProof(s', t) <==> Confirms(s.challenges, pc.email, pc.code, pc.at))
            && (IsProof(s', t) ==> s'.challenges == s.challenges - {pc.email})
            && (!IsProof(s', t) ==> Refused(s', t) && s'.challenges == s.challenges)
  {
  }

  predicate Refused(s: State, t: nat) {
    t < |s.threads| && s.threads[t].pc.Done? && s.threads[t].pc.response.status == 401
  }

  /**
    The Confirm step of a verification succeeds if and only if its email's last
    Save is unconsumed, carries the code and had not expired at the reading; a
    failure changes no challenge, a success removes exactly this one.
   */
  lemma VerifySucceedsExactlyWhen(cfg: Config, actions: seq<Action>, t: nat, input: Input)
    requires t < |Exec(cfg, actions).threads| && Exec(cfg, actions).threads[t].pc.AtConfirm?
    ensures var s := Exec(cfg, actions);
            var pc := s.threads[t].pc;
            var s' := Exec(cfg, actions + [Run(t, input)]);
            && (IsProof(s', t) <==> Redeemable(s.log, pc.email, pc.code, pc.at))
            && (IsProof(s', t) ==> s'.challenges == s.challenges - {pc.email})
            && (!IsProof(s', t) ==> Refused(s', t) && s'.challenges == s.challenges)
  {
    StoreMatchesHistory(cfg, actions, Exec(cfg, actions).threads[t].pc.email);
    ConfirmStep(cfg, Exec(cfg, actions), t, input);
    ExecAppend(cfg, actions, Run(t, input));
  }

  /** A request that has not taken its first step is as it arrived. */
  lemma ArrivesFresh(cfg: Config, actions: seq<Action>, t: nat)
    requires t < |Exec(cfg, actions).threads| && Exec(cfg, actions).threads[t].pc.AtClass?
    ensures Exec(cfg, actions).threads[t] == Fresh(Exec(cfg, actions).threads[t].req)
  {
    Reachable(cfg, actions);
    var s := Exec(cfg, actions);
    assert ThreadOk(cfg, s.log, t, s.threads[t]);
  }

  /**
    An issued code stays good: after any history, with any wrong codes and calls for
    other emails in it, a verification that spells the email in any case and padding
    and pads the code succeeds up to and including the expiry instant.
   */
  lemma IssuedCodeVerifies(cfg: Config, actions: seq<Action>, t: nat, j: nat, before: string, after: string, input: Input)
    requires var s := Exec(cfg, actions);
             && j < |s.log| && s.log[j].Saved? && LastTouch(s.log, |s.log|, s.log[j].email) == Some(j)
             && s.now <= s.log[j].challenge.expiresAt
             && t < |s.threads| && s.threads[t].pc.AtClass?
             && s.threads[t].req.op.VerifyChallenge? && s.threads[t].req.op.credentials.Some?
             && Normalize(s.threads[t].req.op.credentials.value.email) == s.log[j].email
             && s.threads[t].req.op.credentials.value.code == before + s.log[j].challenge.code + after
    requires AllBlank(before) && AllBlank(after)
    requires cfg.limited ==> input.classAnswer.Granted()
    ensures var s := Exec(cfg, actions);
            var s' := Solo(cfg, s, t, input);
            && IsProof(s', t) && s'.threads[t].pc.response.status == 200
            && ProofOfThread(s', t) == ProofOf(cfg.prims, s.log[j].email, s.log[j].challenge.code, s.now)
            && s'.challenges == s.challenges - {s.log[j].email}
  {
    var s := Exec(cfg, actions);
    var email, code := s.log[j].email, s.log[j].challenge.code;
    StoreMatchesHistory(cfg, actions, email);
    StoredKeysAreNormal(cfg, actions, email);
    TrimPadded(before, code, after);
    ArrivesFresh(cfg, actions, t);
    SoloIsRoute(cfg, s, t, input);
  }

  /** The address a Save's request gave, as it spelled it. */
  function RequestedBy(s: State, j: nat): string
    requires j < |s.log|
  {
    var e := s.log[j];
    if e.tid < |s.threads| && s.threads[e.tid].req.op.IssueChallenge? && s.threads[e.tid].req.op.email.Some?
    then s.threads[e.tid].req.op.email.value else ""
  }

  lemma SavedUnderRequest(cfg: Config, actions: seq<Action>, j: nat)
    requires j < |Exec(cfg, actions).log| && Exec(cfg, actions).log[j].Saved?
    ensures Exec(cfg, actions).log[j].email == Normalize(RequestedBy(Exec(cfg, actions), j))
  {
    StoreEventsAreAnswered(cfg, actions, j);
  }

  /**
    The two addresses as their requests spelled them: an issued code stays good for
    every spelling that differs from the challenge's in case and blank padding only.
   */
  lemma AnySpellingVerifies(cfg: Config, actions: seq<Action>, t: nat, j: nat, before: string, after: string, input: Input)
    requires var s := Exec(cfg, actions);
             && j < |s.log| && s.log[j].Saved? && LastTouch(s.log, |s.log|, s.log[j].email) == Some(j)
             && s.now <= s.log[j].challenge.expiresAt
             && t < |s.threads| && s.threads[t].pc.AtClass?
             && s.threads[t].req.op.VerifyChallenge? && s.threads[t].req.op.credentials.Some?
             && Alike(RequestedBy(s, j), s.threads[t].req.op.credentials.value.email)
             && s.threads[t].req.op.credentials.value.code == before + s.log[j].challenge.code + after
    requires AllBlank(before) && AllBlank(after)
    requires cfg.limited ==> input.classAnswer.Granted()
    ensures var s' := Solo(cfg, Exec(cfg, actions), t, input);
            IsProof(s', t) && s'.threads[t].pc.response.status == 200
  {
    SavedUnderRequest(cfg, actions, j);
    NormalizeMeaning(RequestedBy(Exec(cfg, actions), j), Exec(cfg, actions).threads[t].req.op.credentials.value.email);
    IssuedCodeVerifies(cfg, actions, t, j, before, after, input);
  }

  /** And only for those: in every interleaving a proof's request spells the address of the challenge it rests on. */
  lemma ProofSpellsItsChallenge(cfg: Config, actions: seq<Action>, t: nat)
    requires IsProof(Exec(cfg, actions), t)
    ensures var s := Exec(cfg, actions);
            var op, j := s.threads[t].req.op, BackingSave(s, t);
            && op.VerifyChallenge? && op.credentials.Some? && j.Some? && j.value < |s.log| && s.log[j.value].Saved?
            && Alike(RequestedBy(s, j.value), op.credentials.value.email)
            && IsCore(op.credentials.value.code, s.log[j.value].challenge.code)
  {
    ProofRestsOnSave(cfg, actions, t);
    var s := Exec(cfg, actions);
    var j, body := BackingSave(s, t).value, s.threads[t].req.op.credentials.value;
    SavedUnderRequest(cfg, actions, j);
    NormalizeMeaning(RequestedBy(s, j), body.email);
    TrimSpaceMeaning(body.code, s.log[j].challenge.code);
  }

  // ---------- Time ----------

  /** The clock starts at zero and never runs backwards. */
  predicate Monotone(actions: seq<Action>) {
    forall i, k :: 0 <= i <= k < |actions| && actions[i].Tick? && actions[k].Tick? ==> 0 <= actions[i].now <= actions[k].now
  }

  lemma {:induction false} NowIsATick(cfg: Config, actions: seq<Action>)
    ensures Exec(cfg, actions).now == 0 ||
            exists i :: 0 <= i < |actions| && actions[i].Tick? && actions[i].now == Exec(cfg, actions).now
  {
    if actions != [] {
      var n := |actions| - 1;
      NowIsATick(cfg, actions[..n]);
      if actions[n].Tick? {
        assert actions[n].now == Exec(cfg, actions).now;
      }
    }
  }

  lemma {:induction false} ReadingsAreOrdered(cfg: Config, actions: seq<Action>, i: nat, k: nat)
    requires Monotone(actions)
    requires i <= k < |Exec(cfg, actions).log|
    requires Exec(cfg, actions).log[i].ClockRead? && Exec(cfg, actions).log[k].ClockRead?
    ensures Exec(cfg, actions).log[i].at <= Exec(cfg, actions).log[k].at <= Exec(cfg, actions).now
  {
    var n := |actions| - 1;
    var before, a := Exec(cfg, actions[..n]), actions[n];
    StepShape(cfg, before, a);
    NowIsATick(cfg, actions[..n]);
    if k < |before.log| {
      ReadingsAreOrdered(cfg, actions[..n], i, k);
    } else if i < k {
      ReadingsAreOrdered(cfg, actions[..n], i, i);
    }
  }

  /** One evaluation of an email met an expired challenge. */
  predicate FoundExpired(log: seq<Event>, p: nat) {
    && p < |log| && log[p].Confirmed?
    && var j := LastTouch(log, p, log[p].email);
    && j.Some? && log[j.value].Saved? && log[p].at > log[j.value].challenge.expiresAt
  }

  /**
    Under a clock that never runs backwards, after an evaluation found the challenge
    expired, every verification that read the clock no earlier fails until the next
    Save for that email.
   */
  lemma ExpiryIsFinal(cfg: Config, actions: seq<Action>, p: nat, q: nat)
    requires Monotone(actions)
    requires var log := Exec(cfg, actions).log;
             && p < q < |log| && FoundExpired(log, p)
             && log[q].Confirmed? && log[q].email == log[p].email
             && log[p].read <= log[q].read
             && (forall k :: p < k < q ==> !(log[k].Saved? && log[k].email == log[p].email))
    ensures !Exec(cfg, actions).log[q].ok
  {
    Reachable(cfg, actions);
    var s := Exec(cfg, actions);
    assert EventOk(cfg, s.log, s.threads, p) && EventOk(cfg, s.log, s.threads, q);
    ReadingsAreOrdered(cfg, actions, s.log[p].read, s.log[q].read);
    ExpiredStaysExpired(s.log, p, q);
  }

  /** The proof is dated before the challenge it rests on was issued. */
  predicate PredatesChallenge(s: State, t: nat) {
    && IsProof(s, t)
    && var j := BackingSave(s, t);
    && j.Some? && s.log[j.value].Saved?
    && ProofOfThread(s, t).verifiedAt < s.log[j.value].challenge.expiresAt - CHALLENGE_TTL
  }

  /** The verification behind the proof read the clock before the challenge it rests on did, and the clock moved in between. */
  predicate ReadEarlier(s: State, t: nat) {
    && IsProof(s, t)
    && var j, i := BackingSave(s, t), s.threads[t].last;
    && j.Some? && i.Some? && i.value < |s.log| && s.log[j.value].Saved? && s.log[i.value].Confirmed?
    && var issue, check := s.log[j.value].read, s.log[i.value].read;
    && check < issue < |s.log| && s.log[issue].ClockRead? && s.log[check].ClockRead?
    && s.log[check].at != s.log[issue].at
  }

  /**
    Under a clock that never runs backwards, a proof is dated before its challenge
    exactly when the verification read the clock first and the clock then moved.
   */
  lemma ProofPredatesExactlyWhen(cfg: Config, actions: seq<Action>, t: nat)
    requires Monotone(actions) && IsProof(Exec(cfg, actions), t)
    ensures PredatesChallenge(Exec(cfg, actions), t) <==> ReadEarlier(Exec(cfg, actions), t)
  {
    Reachable(cfg, actions);
    ProofRestsOnSave(cfg, actions, t);
    var s := Exec(cfg, actions);
    var j, i := BackingSave(s, t).value, s.threads[t].last.value;
    assert EventOk(cfg, s.log, s.threads, j) && EventOk(cfg, s.log, s.threads, i);
    var issue, check := s.log[j].read, s.log[i].read;
    if check < issue {
      ReadingsAreOrdered(cfg, actions, check, issue);
    } else {
      ReadingsAreOrdered(cfg, actions, issue, check);
    }
  }

  /**
    So a proof is dated within the ten minutes of its challenge whenever the
    verification read the clock no earlier than the challenge did.
   */
  lemma ProofIsDatedWithinLifetime(cfg: Config, actions: seq<Action>, t: nat)
    requires Monotone(actions) && IsProof(Exec(cfg, actions), t)
    requires var s := Exec(cfg, actions);
             var j, i := BackingSave(s, t), s.threads[t].last;
             && j.Some? && i.Some? && i.value < |s.log| && s.log[j.value].Saved? && s.log[i.value].Confirmed?
             && s.log[j.value].read <= s.log[i.value].read
    ensures var s := Exec(cfg, actions);
            var expiresAt := s.log[BackingSave(s, t).value].challenge.expiresAt;
            expiresAt - CHALLENGE_TTL <= ProofOfThread(s, t).verifiedAt <= expiresAt
  {
    ProofPredatesExactlyWhen(cfg, actions, t);
    ProofRestsOnSave(cfg, actions, t);
  }

  // ---------- What interleaving costs: two families of runs ----------

  /** An address and a code with which an unlimited edge is exercised. */
  datatype Sample = Sample(email: string, draw: Draw) {
    predicate Valid() {
      ValidEmail(email) && Normalize(email) == email
    }

    function Code(): string {
      CodeOf(draw)
    }

    function Challenge(): Request {
      Request(AdminChallenge, "", IssueChallenge(Some(email)))
    }

    function Verification(): Request {
      Request(AdminVerify, "", VerifyChallenge(Some(VerifyBody(email, Code()))))
    }

    /** The next step of request t; no limiter and no upstream is asked. */
    function Next(t: nat): Action {
      Run(t, Input(Failed, Failed, Refused(Opaque), draw))
    }
  }

  lemma SampleEntry(cfg: Config, x: Sample)
    requires !cfg.limited && x.Valid()
    ensures Enter(cfg, x.Challenge().op, None) == AtIssue(x.email)
    ensures Enter(cfg, x.Verification().op, None) == AtClock(x.email, x.Code())
  {
    CodesAreTrimmed(x.draw);
    TrimPadded("", x.Code(), "");
    assert "" + x.Code() + "" == x.Code();
  }

  /** As thread n, a verification arrives and reads the clock. */
  function OpenVerification(n: nat, x: Sample): seq<Action> {
    [Arrive(x.Verification()), x.Next(n)] + [x.Next(n)]
  }

  function WaitingToConfirm(s: State, x: Sample): Thread {
    Fresh(x.Verification()).(pc := AtConfirm(x.email, x.Code(), s.now, |s.log|))
  }

  lemma OpensVerification(cfg: Config, actions: seq<Action>, n: nat, x: Sample)
    requires !cfg.limited && x.Valid() && n == |Exec(cfg, actions).threads|
    ensures var s := Exec(cfg, actions);
            Exec(cfg, actions + OpenVerification(n, x)) ==
            s.(threads := s.threads + [WaitingToConfirm(s, x)], log := s.log + [ClockRead(n, s.now)])
  {
    SampleEntry(cfg, x);
    Arrives(cfg, actions, x.Verification(), AtClock(x.email, x.Code()), x.Next(n).input);
    var arrived := actions + [Arrive(x.Verification()), x.Next(n)];
    ExecAppend(cfg, arrived, x.Next(n));
    assert arrived + [x.Next(n)] == actions + OpenVerification(n, x);
    var s := Exec(cfg, actions);
    assert Exec(cfg, arrived + [x.Next(n)]).threads == s.threads + [WaitingToConfirm(s, x)];
  }

  /** As thread n, a challenge arrives and reads the clock. */
  function OpenChallenge(n: nat, x: Sample): seq<Action> {
    [Arrive(x.Challenge()), x.Next(n)] + [x.Next(n)]
  }

  function Issued(s: State, x: Sample): Challenge {
    IssuedAt(x.Code(), s.now)
  }

  function WaitingToSave(s: State, x: Sample): Thread {
    Fresh(x.Challenge()).(pc := AtSave(x.email, Issued(s, x), |s.log|))
  }

  lemma OpensChallenge(cfg: Config, actions: seq<Action>, n: nat, x: Sample)
    requires !cfg.limited && x.Valid() && n == |Exec(cfg, actions).threads|
    ensures var s := Exec(cfg, actions);
            Exec(cfg, actions + OpenChallenge(n, x)) ==
            s.(threads := s.threads + [WaitingToSave(s, x)], log := s.log + [ClockRead(n, s.now)])
  {
    SampleEntry(cfg, x);
    Arrives(cfg, actions, x.Challenge(), AtIssue(x.email), x.Next(n).input);
    var arrived := actions + [Arrive(x.Challenge()), x.Next(n)];
    ExecAppend(cfg, arrived, x.Next(n));
    assert arrived + [x.Next(n)] == actions + OpenChallenge(n, x);
    var s := Exec(cfg, actions);
    assert Exec(cfg, arrived + [x.Next(n)]).threads == s.threads + [WaitingToSave(s, x)];
  }

  /** As thread n, a challenge arrives, reads the clock and is saved. */
  function WholeChallenge(n: nat, x: Sample): seq<Action> {
    OpenChallenge(n, x) + [x.Next(n)]
  }

  lemma IssuesChallenge(cfg: Config, actions: seq<Action>, n: nat, x: Sample)
    requires !cfg.limited && x.Valid() && n == |Exec(cfg, actions).threads|
    ensures var s := Exec(cfg, actions);
            var s' := Exec(cfg, actions + WholeChallenge(n, x));
            && s'.now == s.now && |s'.threads| == n + 1 && s'.threads[..n] == s.threads
            && s'.challenges == s.challenges[x.email := Issued(s, x)]
            && s'.log == s.log + [ClockRead(n, s.now)] + [Saved(n, x.email, Issued(s, x), |s.log|, None)]
  {
    var ready := actions + OpenChallenge(n, x);
    OpensChallenge(cfg, actions, n, x);
    ExecAppend(cfg, ready, x.Next(n));
    assert ready + [x.Next(n)] == actions + WholeChallenge(n, x);
  }

  /** A waiting verification takes its Confirm step. */
  lemma TakesConfirm(cfg: Config, actions: seq<Action>, t: nat, x: Sample, at: int, read: nat)
    requires t < |Exec(cfg, actions).threads|
    requires Exec(cfg, actions).threads[t].pc == AtConfirm(x.email, x.Code(), at, read)
    ensures var s := Exec(cfg, actions);
            var s' := Exec(cfg, actions + [x.Next(t)]);
            var ok := Confirms(s.challenges, x.email, x.Code(), at);
            && s'.log == s.log + [Confirmed(t, x.email, x.Code(), at, read, ok)]
            && s'.challenges == (if ok then s.challenges - {x.email} else s.challenges)
            && |s'.threads| == |s.threads|
            && (forall u :: 0 <= u < |s.threads| && u != t ==> s'.threads[u] == s.threads[u])
            && s'.threads[t].last == Some(|s.log|)
            && (ok ==> IsProof(s', t) && ProofOfThread(s', t) == ProofOf(cfg.prims, x.email, x.Code(), at))
  {
    ExecAppend(cfg, actions, x.Next(t));
  }

  lemma {:induction false} LastTouchPrefix(log: seq<Event>, longer: seq<Event>, n: nat, email: string)
    requires n <= |log| && log <= longer
    ensures LastTouch(longer, n, email) == LastTouch(log, n, email)
  {
    if n > 0 {
      LastTouchPrefix(log, longer, n - 1, email);
    }
  }

  lemma OneTick(before: seq<Action>, tick: Action, after: seq<Action>)
    requires tick.Tick? && tick.now >= 0
    requires forall i :: 0 <= i < |before| ==> !before[i].Tick?
    requires forall i :: 0 <= i < |after| ==> !after[i].Tick?
    ensures Monotone(before + [tick] + after)
  {
  }

  // ---------- A proof dated before its challenge ----------

  lemma PredatesAtConfirm(cfg: Config, actions: seq<Action>, t: nat, x: Sample, at: int, read: nat)
    requires var s := Exec(cfg, actions);
             && t < |s.threads| && s.threads[t].pc == AtConfirm(x.email, x.Code(), at, read)
             && s.log != [] && s.log[|s.log| - 1].Saved? && s.log[|s.log| - 1].email == x.email
             && s.log[|s.log| - 1].challenge.expiresAt == at + 5 + CHALLENGE_TTL
             && Confirms(s.challenges, x.email, x.Code(), at)
    ensures PredatesChallenge(Exec(cfg, actions + [x.Next(t)]), t)
  {
    TakesConfirm(cfg, actions, t, x, at, read);
    var log, log' := Exec(cfg, actions).log, Exec(cfg, actions + [x.Next(t)]).log;
    LastTouchPrefix(log, log', |log|, x.email);
  }

  lemma PredatesAtChallenge(cfg: Config, actions: seq<Action>, n: nat, t: nat, x: Sample, at: int, read: nat)
    requires !cfg.limited && x.Valid()
    requires var s := Exec(cfg, actions);
             && n == |s.threads| && t < n && s.threads[t].pc == AtConfirm(x.email, x.Code(), at, read)
             && s.now == at + 5
    ensures PredatesChallenge(Exec(cfg, actions + WholeChallenge(n, x) + [x.Next(t)]), t)
  {
    IssuesChallenge(cfg, actions, n, x);
    var s' := Exec(cfg, actions + WholeChallenge(n, x));
    assert s'.threads[t] == s'.threads[..n][t];
    PredatesAtConfirm(cfg, actions + WholeChallenge(n, x), t, x, at, read);
  }

  function EarlyReader(x: Sample): seq<Action> {
    OpenVerification(0, x) + [Tick(5)] + WholeChallenge(1, x) + [x.Next(0)]
  }

  /**
    A verification that read the clock before its challenge was issued can still
    confirm it, so that the proof is dated before the challenge.
   */
  lemma ProofMayPredateChallenge(prims: Primitives, x: Sample)
    requires x.Valid()
    ensures Monotone(EarlyReader(x))
    ensures PredatesChallenge(Exec(Config(false, prims), EarlyReader(x)), 0)
  {
    var cfg := Config(false, prims);
    OpensVerification(cfg, [], 0, x);
    assert [] + OpenVerification(0, x) == OpenVerification(0, x);
    ExecAppend(cfg, OpenVerification(0, x), Tick(5));
    PredatesAtChallenge(cfg, OpenVerification(0, x) + [Tick(5)], 1, 0, x, 0, 0);
    OneTick(OpenVerification(0, x), Tick(5), WholeChallenge(1, x) + [x.Next(0)]);
    assert EarlyReader(x) == OpenVerification(0, x) + [Tick(5)] + (WholeChallenge(1, x) + [x.Next(0)]);
  }

  // ---------- A success after an expiry was seen ----------

  /** An evaluation at p found the challenge expired, yet one at q succeeds with no Save in between. */
  predicate RevivedAfterExpiry(log: seq<Event>, p: nat, q: nat) {
    && p < q < |log| && FoundExpired(log, p) && IsSuccess(log, q) && log[p].email == log[q].email
    && forall k :: p < k < q ==> !(log[k].Saved? && log[k].email == log[p].email)
  }

  /** The email's current challenge is the sample code, stored and last saved with this expiry. */
  predicate Holds(s: State, x: Sample, expiresAt: int) {
    && x.email in s.challenges && s.challenges[x.email] == Challenge.Challenge(x.Code(), expiresAt)
    && var j := LastTouch(s.log, |s.log|, x.email);
    && j.Some? && s.log[j.value].Saved? && s.log[j.value].challenge == Challenge.Challenge(x.Code(), expiresAt)
  }

  lemma RevivesAtConfirm(cfg: Config, actions: seq<Action>, t: nat, u: nat, x: Sample, at: int, late: int, read: nat, read': nat)
    requires var s := Exec(cfg, actions);
             && t < |s.threads| && s.threads[t].pc == AtConfirm(x.email, x.Code(), at, read)
             && u < |s.threads| && s.threads[u].pc == AtConfirm(x.email, x.Code(), late, read')
             && Holds(s, x, late - 1) && at < late
    ensures var n := |Exec(cfg, actions).log|;
            RevivedAfterExpiry(Exec(cfg, actions + [x.Next(u)] + [x.Next(t)]).log, n, n + 1)
  {
    var s := Exec(cfg, actions);
    TakesConfirm(cfg, actions, u, x, late, read');
    TakesConfirm(cfg, actions + [x.Next(u)], t, x, at, read);
    LastTouchPrefix(s.log, Exec(cfg, actions + [x.Next(u)] + [x.Next(t)]).log, |s.log|, x.email);
  }

  lemma RevivesAtVerification(cfg: Config, actions: seq<Action>, t: nat, u: nat, x: Sample, at: int, read: nat)
    requires !cfg.limited && x.Valid()
    requires var s := Exec(cfg, actions);
             && t < u == |s.threads| && s.threads[t].pc == AtConfirm(x.email, x.Code(), at, read)
             && Holds(s, x, s.now - 1) && at < s.now
    ensures var n := |Exec(cfg, actions).log|;
            RevivedAfterExpiry(Exec(cfg, actions + OpenVerification(u, x) + [x.Next(u)] + [x.Next(t)]).log, n + 1, n + 2)
  {
    var s := Exec(cfg, actions);
    OpensVerification(cfg, actions, u, x);
    LastTouchPrefix(s.log, s.log + [ClockRead(u, s.now)], |s.log|, x.email);
    RevivesAtConfirm(cfg, actions + OpenVerification(u, x), t, u, x, at, s.now, read, |s.log|);
  }

  lemma FirstChallenge(cfg: Config, x: Sample)
    requires !cfg.limited && x.Valid()
    ensures var s := Exec(cfg, WholeChallenge(0, x));
            var issued := Challenge.Challenge(x.Code(), CHALLENGE_TTL);
            && |s.threads| == 1 && s.now == 0 && s.challenges == map[x.email := issued]
            && s.log == [ClockRead(0, 0), Saved(0, x.email, issued, 0, None)]
  {
    IssuesChallenge(cfg, [], 0, x);
    assert [] + WholeChallenge(0, x) == WholeChallenge(0, x);
  }

  /** A challenge is issued and a first verification reads the clock. */
  lemma ReaderWaits(cfg: Config, x: Sample)
    requires !cfg.limited && x.Valid()
    ensures var s := Exec(cfg, WholeChallenge(0, x) + OpenVerification(1, x));
            && |s.threads| == 2 && |s.log| == 3 && s.now == 0
            && s.threads[1].pc == AtConfirm(x.email, x.Code(), 0, 2)
            && Holds(s, x, CHALLENGE_TTL)
  {
    FirstChallenge(cfg, x);
    OpensVerification(cfg, WholeChallenge(0, x), 1, x);
    SecondTouches(Exec(cfg, WholeChallenge(0, x) + OpenVerification(1, x)).log, x.email);
  }

  lemma SecondTouches(log: seq<Event>, email: string)
    requires |log| == 3 && Touches(log[1], email) && log[2].ClockRead?
    ensures LastTouch(log, 3, email) == Some(1)
  {
    assert LastTouch(log, 2, email) == Some(1);
  }

  function StaleReader(x: Sample): seq<Action> {
    WholeChallenge(0, x) + OpenVerification(1, x) + [Tick(CHALLENGE_TTL + 1)]
    + OpenVerification(2, x) + [x.Next(2)] + [x.Next(1)]
  }

  /**
    A verification that read the clock before the expiry can still confirm after
    another one found the challenge expired: ExpiryIsFinal needs its reading order.
   */
  lemma StaleReadingMayConfirm(prims: Primitives, x: Sample)
    requires x.Valid()
    ensures Monotone(StaleReader(x))
    ensures RevivedAfterExpiry(Exec(Config(false, prims), StaleReader(x)).log, 4, 5)
  {
    StaleReaderRevives(Config(false, prims), x);
    var first, tick := WholeChallenge(0, x) + OpenVerification(1, x), Tick(CHALLENGE_TTL + 1);
    OneTick(first, tick, OpenVerification(2, x) + [x.Next(2)] + [x.Next(1)]);
    assert StaleReader(x) == first + [tick] + (OpenVerification(2, x) + [x.Next(2)] + [x.Next(1)]);
  }

  lemma StaleReaderRevives(cfg: Config, x: Sample)
    requires !cfg.limited && x.Valid()
    ensures RevivedAfterExpiry(Exec(cfg, StaleReader(x)).log, 4, 5)
  {
    var first, tick := WholeChallenge(0, x) + OpenVerification(1, x), Tick(CHALLENGE_TTL + 1);
    ReaderWaits(cfg, x);
    ExecAppend(cfg, first, tick);
    RevivesAtVerification(cfg, first + [tick], 1, 2, x, 0, 2);
  }
}
