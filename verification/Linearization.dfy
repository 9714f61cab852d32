/**
  What concurrency can and cannot do to the two stores together: every run against
  the same requests served one after the other, in the order of their last store
  operations, each with its own clock reading.
 */
module Linearization {
  import opened ClaimRuns
  import opened Crypto
  import opened Edge
  import opened EdgeInvariant
  import opened Ids
  import opened Logs
  import opened Onboarding
  import opened Ownership
  import opened Pipeline
  import opened RateLimit
  import opened SoloRuns
  import opened Text
  import opened Wrappers

  // ---------- Commit order ----------

  /** The store operation that decides its request's response: a Save, a Confirm, a Get that hits, a Put. */
  predicate Commits(e: Event) {
    e.Saved? || e.Confirmed? || (e.Looked? && e.found.Some?) || e.Stored?
  }

  function AnswerOr(answer: Option<Answer>): Answer {
    if answer.Some? then answer.value else Failed
  }

  /** The clock reading a committed request acted on. */
  function ReadingOf(e: Event): int {
    match e
    case Saved(_, _, challenge, _, _) => challenge.expiresAt - CHALLENGE_TTL
    case Confirmed(_, _, _, at, _, _) => at
    case _ => 0
  }

  function DrawFor(e: Event): Draw {
    if e.Saved? && IsCode(e.challenge.code) && ValueOf(e.challenge.code) < 1000000
    then DrawOf(ValueOf(e.challenge.code)) else Draw(0, 0, 0)
  }

  /** The request as one to be served alone: what the limiter and the random source answered it, and its own reading. */
  function JobOf(th: Thread, e: Event): Job {
    Job(th.req, Input(AnswerOr(th.classAnswer), AnswerOr(th.idAnswer), Refused(Opaque), DrawFor(e)), ReadingOf(e))
  }

  /** The committed requests among the first n events, in commit order. */
  function Committed(s: State, n: nat): seq<Job>
    requires n <= |s.log|
  {
    if n == 0 then []
    else
      var e := s.log[n - 1];
      Committed(s, n - 1) + if Commits(e) && e.tid < |s.threads| then [JobOf(s.threads[e.tid], e)] else []
  }

  /** The world after serving them one after the other. */
  function Sequential(cfg: Config, s: State, n: nat): World
    requires n <= |s.log|
  {
    WorldAfter(cfg, Committed(s, n))
  }

  function Serve(cfg: Config, w: World, job: Job): Outcome {
    Route(cfg, w, job.req, job.input, job.now)
  }

  /** Served at its turn, the request that committed here would get the response it got. */
  predicate Agrees(cfg: Config, s: State, i: nat)
    requires i < |s.log| && s.log[i].tid < |s.threads|
  {
    var th := s.threads[s.log[i].tid];
    th.pc == Done(Serve(cfg, Sequential(cfg, s, i), JobOf(th, s.log[i])).response)
  }

  /** Serving one more committed request. */
  lemma SequentialStep(cfg: Config, s: State, n: nat)
    requires n < |s.log|
    ensures Sequential(cfg, s, n + 1) ==
            if Commits(s.log[n]) && s.log[n].tid < |s.threads|
            then Serve(cfg, Sequential(cfg, s, n), JobOf(s.threads[s.log[n].tid], s.log[n])).world
            else Sequential(cfg, s, n)
  {
    var before, jobs, e := Committed(s, n), Committed(s, n + 1), s.log[n];
    if Commits(e) && e.tid < |s.threads| {
      assert jobs == before + [JobOf(s.threads[e.tid], e)];
      assert jobs[..|jobs| - 1] == before && jobs[|jobs| - 1] == JobOf(s.threads[e.tid], e);
    } else {
      assert jobs == before;
    }
  }

  // ---------- One committed request, served alone ----------

  function AfterClass(cfg: Config, w: World, job: Job): World {
    if !cfg.limited then w
    else
      var req := job.req;
      w.(calls := w.calls + [LimiterCall(ClientBucket(req.class_, req.clientIP), PolicyFor(req.class_), job.input.classAnswer)])
  }

  /** Past the class stage, serving is handling. */
  lemma PassesClass(cfg: Config, w: World, th: Thread, e: Event)
    requires ClassPassed(cfg, th)
    ensures var job := JobOf(th, e);
            Serve(cfg, w, job) ==
            Handle(cfg, AfterClass(cfg, w, job), ClassShown(th.classAnswer), th.req.op, job.input, job.now)
  {
  }

  lemma SaveFacts(cfg: Config, s: State, i: nat)
    requires Inv(cfg, s) && i < |s.log| && s.log[i].Saved?
    ensures var e := s.log[i];
            && e.tid < |s.threads|
            && var th := s.threads[e.tid];
            && ClassPassed(cfg, th) && IsChallengeFor(th.req.op, e.email) && IsCode(e.challenge.code)
            && (if Consults(cfg.limited, e.email) then th.idAnswer.Some? && th.idAnswer.value.Granted() else th.idAnswer.None?)
            && th.pc == Done(Response(200, if th.idAnswer.Some? then Some(th.idAnswer.value.decision) else ClassShown(th.classAnswer), None, Dispatched))
  {
    assert EventOk(cfg, s.log, s.threads, i);
    var t := s.log[i].tid;
    assert ThreadOk(cfg, s.log, t, s.threads[t]);
  }

  lemma ServesSave(cfg: Config, s: State, i: nat, w: World)
    requires Inv(cfg, s) && i < |s.log| && s.log[i].Saved?
    ensures s.log[i].tid < |s.threads|
    ensures var e := s.log[i];
            var th := s.threads[e.tid];
            var outcome := Serve(cfg, w, JobOf(th, e));
            && outcome.world.challenges == w.challenges[e.email := e.challenge] && outcome.world.claims == w.claims
            && th.pc == Done(outcome.response)
  {
    SaveFacts(cfg, s, i);
    var e := s.log[i];
    PassesClass(cfg, w, s.threads[e.tid], e);
    EveryCodeIsDrawn(e.challenge.code);
  }

  lemma ConfirmFacts(cfg: Config, s: State, i: nat)
    requires Inv(cfg, s) && i < |s.log| && s.log[i].Confirmed?
    ensures var e := s.log[i];
            && e.tid < |s.threads|
            && var th := s.threads[e.tid];
            && ClassPassed(cfg, th) && IsVerifyFor(th.req.op, e.email, e.code)
            && th.pc == Done(
                 if e.ok then Response(200, ClassShown(th.classAnswer), None, Proof(ProofOf(cfg.prims, e.email, e.code, e.at)))
                 else AppFailure(ClassShown(th.classAnswer), AppError(Unauthenticated, InvalidOrExpiredCode)))
  {
    assert EventOk(cfg, s.log, s.threads, i);
    var t := s.log[i].tid;
    assert ThreadOk(cfg, s.log, t, s.threads[t]);
  }

  lemma ServesConfirm(cfg: Config, s: State, i: nat, w: World)
    requires Inv(cfg, s) && i < |s.log| && s.log[i].Confirmed?
    requires var e := s.log[i]; e.ok == Confirms(w.challenges, e.email, e.code, e.at)
    ensures s.log[i].tid < |s.threads|
    ensures var e := s.log[i];
            var th := s.threads[e.tid];
            var outcome := Serve(cfg, w, JobOf(th, e));
            && outcome.world.challenges == (if e.ok then w.challenges - {e.email} else w.challenges)
            && outcome.world.claims == w.claims
            && th.pc == Done(outcome.response)
  {
    ConfirmFacts(cfg, s, i);
    PassesClass(cfg, w, s.threads[s.log[i].tid], s.log[i]);
  }

  /** The answer of a claim that committed with this event. */
  function AnswerOf(e: Event): ClaimResult
    requires (e.Looked? && e.found.Some?) || e.Stored?
  {
    if e.Looked? then Replayed(e.found.value) else e.result
  }

  lemma ClaimFacts(cfg: Config, s: State, i: nat)
    requires Inv(cfg, s) && i < |s.log| && Commits(s.log[i]) && !s.log[i].Saved? && !s.log[i].Confirmed?
    ensures var e := s.log[i];
            && e.tid < |s.threads|
            && var th := s.threads[e.tid];
            && ClassPassed(cfg, th) && IsClaim(th.req.op, e.key)
            && th.pc == Done(Response(200, ClassShown(th.classAnswer), None, Claimed(AnswerOf(e))))
            && (e.Stored? ==> e.result == RecordOf(cfg.prims, th.req.op.claim.value))
  {
    assert EventOk(cfg, s.log, s.threads, i);
    var t := s.log[i].tid;
    assert ThreadOk(cfg, s.log, t, s.threads[t]);
  }

  /** Served alone, a committed claim replays a bound key and otherwise binds it to its own record. */
  lemma ServesClaim(cfg: Config, s: State, i: nat, w: World)
    requires Inv(cfg, s) && i < |s.log| && Commits(s.log[i]) && !s.log[i].Saved? && !s.log[i].Confirmed?
    ensures s.log[i].tid < |s.threads| && s.threads[s.log[i].tid].req.op.ClaimWorkstation?
    ensures s.threads[s.log[i].tid].req.op.claim.Some?
    ensures var e := s.log[i];
            var th := s.threads[e.tid];
            var outcome := Serve(cfg, w, JobOf(th, e));
            && outcome.world.challenges == w.challenges
            && outcome.world.claims ==
               (if e.key in w.claims then w.claims else w.claims[e.key := RecordOf(cfg.prims, th.req.op.claim.value)])
            && (th.pc == Done(outcome.response) <==>
                AnswerOf(e) == if e.key in w.claims then Replayed(w.claims[e.key]) else RecordOf(cfg.prims, th.req.op.claim.value))
  {
    ClaimFacts(cfg, s, i);
    PassesClass(cfg, w, s.threads[s.log[i].tid], s.log[i]);
  }

  // ---------- What commit order leaves ----------

  /** A Put on an unbound key binds it; nothing else changes a first-writer-wins cache. */
  function BindFirst(cache: ClaimMap, e: Event): ClaimMap {
    match e
    case Stored(_, key, result, _) => if key in cache then cache else cache[key := result]
    case _ => cache
  }

  /** The first record put under each key by the first n events. */
  function FirstWriters(log: seq<Event>, n: nat): ClaimMap
    requires n <= |log|
  {
    if n == 0 then map[] else BindFirst(FirstWriters(log, n - 1), log[n - 1])
  }

  lemma {:induction false} FirstWritersKeys(log: seq<Event>, n: nat, key: string)
    requires n <= |log|
    ensures key in FirstWriters(log, n) <==> LastPut(log, n, key).Some?
  {
    if n > 0 {
      FirstWritersKeys(log, n - 1, key);
    }
  }

  /** The store outcomes this event reports are those of the given stores. */
  predicate Reports(e: Event, challenges: ChallengeMap, claims: ClaimMap) {
    && (e.Confirmed? ==> e.ok == Confirms(challenges, e.email, e.code, e.at))
    && (e.Looked? && e.found.Some? ==> e.key in claims)
  }

  /** Served alone in a world that agrees with its event, a committed request does to the stores what its event says. */
  lemma ServesCommit(cfg: Config, s: State, n: nat, w: World)
    requires Inv(cfg, s) && n < |s.log| && Commits(s.log[n]) && Reports(s.log[n], w.challenges, w.claims)
    ensures s.log[n].tid < |s.threads|
    ensures var e := s.log[n];
            var w' := Serve(cfg, w, JobOf(s.threads[e.tid], e)).world;
            w'.challenges == ApplyToChallenges(w.challenges, e) && w'.claims == BindFirst(w.claims, e)
  {
    if s.log[n].Saved? {
      ServesSave(cfg, s, n, w);
    } else if s.log[n].Confirmed? {
      ServesConfirm(cfg, s, n, w);
    } else {
      ClaimFacts(cfg, s, n);
      ServesClaim(cfg, s, n, w);
    }
  }

  lemma SequentialStores(cfg: Config, s: State, n: nat)
    requires Inv(cfg, s) && n < |s.log|
    requires Reports(s.log[n], Sequential(cfg, s, n).challenges, Sequential(cfg, s, n).claims)
    ensures var w, w' := Sequential(cfg, s, n), Sequential(cfg, s, n + 1);
            w'.challenges == ApplyToChallenges(w.challenges, s.log[n]) && w'.claims == BindFirst(w.claims, s.log[n])
  {
    SequentialStep(cfg, s, n);
    if Commits(s.log[n]) {
      ServesCommit(cfg, s, n, Sequential(cfg, s, n));
    }
  }

  /** The two stores that commit order leaves after n events. */
  predicate Leaves(cfg: Config, s: State, n: nat)
    requires n <= |s.log|
  {
    var w := Sequential(cfg, s, n);
    w.challenges == ReplayChallenges(s.log[..n]) && w.claims == FirstWriters(s.log, n)
  }

  lemma HistoryReports(log: seq<Event>, n: nat)
    requires Faithful(log) && n < |log|
    ensures Reports(log[n], ReplayChallenges(log[..n]), FirstWriters(log, n))
  {
    assert FaithfulAt(log, n);
    if log[n].Looked? {
      LookedExactlyWhen(log, n);
      FirstWritersKeys(log, n, log[n].key);
    }
  }

  lemma HistoryStep(log: seq<Event>, n: nat)
    requires n < |log|
    ensures ReplayChallenges(log[..n + 1]) == ApplyToChallenges(ReplayChallenges(log[..n]), log[n])
    ensures FirstWriters(log, n + 1) == BindFirst(FirstWriters(log, n), log[n])
  {
    assert log[..n + 1][..n] == log[..n];
  }

  lemma LeavesStep(cfg: Config, s: State, n: nat)
    requires Inv(cfg, s) && n < |s.log| && Leaves(cfg, s, n)
    ensures Leaves(cfg, s, n + 1)
  {
    HistoryReports(s.log, n);
    HistoryStep(s.log, n);
    SequentialStores(cfg, s, n);
  }

  /**
    In every run, commit order leaves the run's own challenge store, and the cache
    that keeps the first Put for each key.
   */
  lemma {:induction false} CommitOrderLeaves(cfg: Config, s: State, n: nat)
    requires Inv(cfg, s) && n <= |s.log|
    ensures Leaves(cfg, s, n)
  {
    if n > 0 {
      CommitOrderLeaves(cfg, s, n - 1);
      LeavesStep(cfg, s, n - 1);
    }
  }

  // ---------- The ownership store ----------

  lemma OwnershipAgrees(cfg: Config, s: State, i: nat)
    requires Inv(cfg, s) && i < |s.log| && (s.log[i].Saved? || s.log[i].Confirmed?)
    ensures s.log[i].tid < |s.threads| && Agrees(cfg, s, i)
  {
    CommitOrderLeaves(cfg, s, i);
    HistoryReports(s.log, i);
    if s.log[i].Saved? {
      ServesSave(cfg, s, i, Sequential(cfg, s, i));
    } else {
      ServesConfirm(cfg, s, i, Sequential(cfg, s, i));
    }
  }

  /**
    The ownership routes are linearizable without condition: every challenge and
    every verification that reached the store got the response it would have got
    served alone at its turn, and the store is the one that order leaves.
   */
  lemma OwnershipIsLinearizable(cfg: Config, actions: seq<Action>, i: nat)
    requires i < |Exec(cfg, actions).log|
    requires Exec(cfg, actions).log[i].Saved? || Exec(cfg, actions).log[i].Confirmed?
    ensures var s := Exec(cfg, actions);
            && Sequential(cfg, s, |s.log|).challenges == s.challenges
            && s.log[i].tid < |s.threads| && Agrees(cfg, s, i)
  {
    Reachable(cfg, actions);
    var s := Exec(cfg, actions);
    assert s.log[..|s.log|] == s.log;
    CommitOrderLeaves(cfg, s, |s.log|);
    OwnershipAgrees(cfg, s, i);
  }

  // ---------- The claim cache ----------

  /** No Put among the first n events was overtaken. */
  ghost predicate NoneOvertakenBefore(log: seq<Event>, n: nat)
    requires n <= |log|
  {
    forall p :: 0 <= p < n && log[p].Stored? ==> !Overtaken(log, p)
  }

  /** Until a Put is overtaken, first and last writers coincide. */
  lemma {:induction false} FirstWritersAreLast(cfg: Config, s: State, n: nat)
    requires Inv(cfg, s) && n <= |s.log| && NoneOvertakenBefore(s.log, n)
    ensures FirstWriters(s.log, n) == ReplayClaims(s.log[..n])
  {
    if n > 0 {
      FirstWritersAreLast(cfg, s, n - 1);
      assert s.log[..n][..n - 1] == s.log[..n - 1];
      if s.log[n - 1].Stored? {
        RebindsExactlyWhen(cfg, s, n - 1);
        FirstWritersKeys(s.log, n - 1, s.log[n - 1].key);
      }
    }
  }

  /** A committed claim agrees unless it is an overtaken Put. */
  lemma ClaimAgrees(cfg: Config, s: State, i: nat)
    requires Inv(cfg, s) && i < |s.log| && Commits(s.log[i]) && !s.log[i].Saved? && !s.log[i].Confirmed?
    requires NoneOvertakenBefore(s.log, i) && (s.log[i].Stored? ==> !Overtaken(s.log, i))
    ensures s.log[i].tid < |s.threads| && Agrees(cfg, s, i)
  {
    CommitOrderLeaves(cfg, s, i);
    FirstWritersAreLast(cfg, s, i);
    FirstWritersKeys(s.log, i, s.log[i].key);
    ClaimFacts(cfg, s, i);
    ServesClaim(cfg, s, i, Sequential(cfg, s, i));
    if s.log[i].Looked? {
      assert FaithfulAt(s.log, i);
    } else {
      RebindsExactlyWhen(cfg, s, i);
    }
  }

  /** An overtaken Put was answered as fresh, where its turn would have made it a replay. */
  lemma OvertakenDisagrees(cfg: Config, s: State, p: nat)
    requires Inv(cfg, s) && p < |s.log| && s.log[p].Stored? && Overtaken(s.log, p)
    ensures s.log[p].tid < |s.threads| && !Agrees(cfg, s, p)
  {
    RebindsExactlyWhen(cfg, s, p);
    FirstWritersKeys(s.log, p, s.log[p].key);
    CommitOrderLeaves(cfg, s, p);
    ClaimFacts(cfg, s, p);
    ServesClaim(cfg, s, p, Sequential(cfg, s, p));
  }

  /** Every request that committed agrees with its turn. */
  ghost predicate AllAgree(cfg: Config, s: State) {
    forall i :: 0 <= i < |s.log| && Commits(s.log[i]) ==> s.log[i].tid < |s.threads| && Agrees(cfg, s, i)
  }

  /**
    A run is linearizable in its commit order if and only if no Put in it was
    overtaken: then, and only then, every request that committed got the response it
    would have got served alone at its turn; and both stores are those that serving
    the requests one after the other leaves.
   */
  lemma LinearizableExactlyWhen(cfg: Config, actions: seq<Action>)
    ensures var s := Exec(cfg, actions);
            && (AllAgree(cfg, s) <==> NoneOvertakenBefore(s.log, |s.log|))
            && (AllAgree(cfg, s) ==>
                  var w := Sequential(cfg, s, |s.log|);
                  w.challenges == s.challenges && w.claims == s.claims)
  {
    Reachable(cfg, actions);
    AgreeExactlyWhen(cfg, Exec(cfg, actions));
    StoresAgree(cfg, Exec(cfg, actions));
  }

  lemma StoresAgree(cfg: Config, s: State)
    requires Inv(cfg, s)
    ensures var w := Sequential(cfg, s, |s.log|);
            NoneOvertakenBefore(s.log, |s.log|) ==> w.challenges == s.challenges && w.claims == s.claims
  {
    if NoneOvertakenBefore(s.log, |s.log|) {
      assert s.log[..|s.log|] == s.log;
      CommitOrderLeaves(cfg, s, |s.log|);
      FirstWritersAreLast(cfg, s, |s.log|);
    }
  }

  lemma AgreeExactlyWhen(cfg: Config, s: State)
    requires Inv(cfg, s)
    ensures AllAgree(cfg, s) <==> NoneOvertakenBefore(s.log, |s.log|)
  {
    if NoneOvertakenBefore(s.log, |s.log|) {
      forall i | 0 <= i < |s.log| && Commits(s.log[i]) ensures s.log[i].tid < |s.threads| && Agrees(cfg, s, i) {
        if s.log[i].Saved? || s.log[i].Confirmed? {
          OwnershipAgrees(cfg, s, i);
        } else {
          ClaimAgrees(cfg, s, i);
        }
      }
    }
    if p :| 0 <= p < |s.log| && s.log[p].Stored? && Overtaken(s.log, p) {
      OvertakenDisagrees(cfg, s, p);
      assert Commits(s.log[p]);
    }
  }

  // ---------- Commit order covers the answers ----------

  predicate IsCommitOf(s: State, i: nat, t: nat) {
    i < |s.log| && s.log[i].tid == t && Commits(s.log[i])
  }

  /** A request commits at most once, by its own step, and every answer from a store was committed. */
  lemma AnswersCommit(cfg: Config, actions: seq<Action>, t: nat)
    requires var s := Exec(cfg, actions);
             && t < |s.threads| && s.threads[t].pc.Done?
             && var payload := s.threads[t].pc.response.payload;
             payload.Dispatched? || payload.Proof? || payload.Claimed?
    ensures var s := Exec(cfg, actions);
            && (exists i :: IsCommitOf(s, i, t))
            && (forall i, k :: IsCommitOf(s, i, t) && IsCommitOf(s, k, t) ==> i == k)
  {
    Reachable(cfg, actions);
    var s := Exec(cfg, actions);
    assert ThreadOk(cfg, s.log, t, s.threads[t]);
    forall i: nat | IsCommitOf(s, i, t) ensures s.threads[t].last == Some(i) {
      CommitEnds(cfg, s, i);
    }
    assert IsCommitOf(s, s.threads[t].last.value, t);
  }

  lemma CommitEnds(cfg: Config, s: State, i: nat)
    requires Inv(cfg, s) && i < |s.log| && Commits(s.log[i])
    ensures s.log[i].tid < |s.threads| && s.threads[s.log[i].tid].last == Some(i)
  {
    assert EventOk(cfg, s.log, s.threads, i);
  }
}
