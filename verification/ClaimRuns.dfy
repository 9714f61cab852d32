/** Onboarding claims under every interleaving of concurrent requests. */
module ClaimRuns {
  import opened Crypto
  import opened Edge
  import opened EdgeInvariant
  import opened Logs
  import opened Onboarding
  import opened RateLimit
  import opened Text
  import opened Wrappers

  // ---------- Responses and the cache ----------

  /** Request t was answered with a claim. */
  predicate IsClaimed(s: State, t: nat) {
    && t < |s.threads| && s.threads[t].pc.Done? && s.threads[t].pc.response.payload.Claimed?
    && s.threads[t].req.op.ClaimWorkstation? && s.threads[t].req.op.claim.Some?
  }

  function ResultOf(s: State, t: nat): ClaimResult
    requires IsClaimed(s, t)
  {
    s.threads[t].pc.response.payload.result
  }

  function KeyOfThread(s: State, t: nat): string
    requires IsClaimed(s, t)
  {
    ClaimKey(s.threads[t].req.op.claim.value, s.threads[t].req.op.idempotencyKey)
  }

  /** The position of the request's Get. */
  function LookOf(s: State, t: nat): Option<nat>
    requires IsClaimed(s, t)
  {
    var last := s.threads[t].last;
    if last.None? || last.value >= |s.log| then None
    else if s.log[last.value].Stored? then Some(s.log[last.value].look)
    else last
  }

  /**
    A response is fresh exactly when its Get precedes the first Put for its key; a
    fresh response is the caller's own record, and a replay is the record of the
    last Put before the Get with only the replay flag set.
   */
  lemma AnswersFollowPuts(cfg: Config, actions: seq<Action>, t: nat)
    requires IsClaimed(Exec(cfg, actions), t)
    ensures var s := Exec(cfg, actions);
            var look, key, result := LookOf(s, t), KeyOfThread(s, t), ResultOf(s, t);
            && look.Some? && look.value < |s.log|
            && s.log[look.value].Looked? && s.log[look.value].tid == t && s.log[look.value].key == key
            && var put := LastPut(s.log, look.value, key);
            && (!result.idempotentReplay <==> put.None?)
            && (put.None? ==> result == RecordOf(cfg.prims, s.threads[t].req.op.claim.value))
            && (put.Some? ==> s.log[put.value].Stored? && result == Replayed(s.log[put.value].result))
  {
    Reachable(cfg, actions);
    var s := Exec(cfg, actions);
    assert ThreadOk(cfg, s.log, t, s.threads[t]);
    var last := s.threads[t].last.value;
    assert EventOk(cfg, s.log, s.threads, last);
    var look := LookOf(s, t).value;
    LookedExactlyWhen(s.log, look);
    var put := LastPut(s.log, look, KeyOfThread(s, t));
    if put.Some? {
      assert EventOk(cfg, s.log, s.threads, put.value);
    }
  }

  /** The record under a key is the last one put there, made by a caller on that key, never a replay. */
  lemma CacheMatchesHistory(cfg: Config, actions: seq<Action>, key: string)
    ensures var s := Exec(cfg, actions);
            var put := LastPut(s.log, |s.log|, key);
            && (key in s.claims <==> put.Some?)
            && (key in s.claims ==>
                  && s.claims[key] == s.log[put.value].result
                  && !s.claims[key].idempotentReplay
                  && s.claims[key].user.uid == s.claims[key].credentials.forgejoUsername != "")
  {
    Reachable(cfg, actions);
    var s := Exec(cfg, actions);
    assert s.log[..|s.log|] == s.log;
    CacheIsLastPut(s.log, |s.log|, key);
    if key in s.claims {
      assert EventOk(cfg, s.log, s.threads, LastPut(s.log, |s.log|, key).value);
    }
  }

  /** Every answered claim names one user in its identity and in its credentials. */
  lemma AnswersNameOneUser(cfg: Config, actions: seq<Action>, t: nat)
    requires IsClaimed(Exec(cfg, actions), t)
    ensures var result := ResultOf(Exec(cfg, actions), t);
            result.user.uid == result.credentials.forgejoUsername != ""
  {
    Reachable(cfg, actions);
    AnswersFollowPuts(cfg, actions, t);
    var s := Exec(cfg, actions);
    assert ThreadOk(cfg, s.log, t, s.threads[t]);
    assert EventOk(cfg, s.log, s.threads, s.threads[t].last.value);
    var put := LastPut(s.log, LookOf(s, t).value, KeyOfThread(s, t));
    if put.Some? {
      assert EventOk(cfg, s.log, s.threads, put.value);
    }
  }

  lemma StepKeepsKeys(cfg: Config, s: State, a: Action, key: string)
    requires key in s.claims
    ensures key in Step(cfg, s, a).claims
  {
  }

  /** No run unbinds a key. */
  lemma {:induction false} KeysStayBound(cfg: Config, actions: seq<Action>, more: seq<Action>, key: string)
    requires key in Exec(cfg, actions).claims
    ensures key in Exec(cfg, actions + more).claims
    decreases |more|
  {
    if more == [] {
      assert actions + more == actions;
    } else {
      var k := |more| - 1;
      KeysStayBound(cfg, actions, more[..k], key);
      ExecAppend(cfg, actions + more[..k], more[k]);
      StepKeepsKeys(cfg, Exec(cfg, actions + more[..k]), more[k], key);
      assert actions + more[..k] + [more[k]] == actions + more;
    }
  }

  // ---------- Same claimant, same credentials ----------

  /** Every claim made on the key comes from this token and UID. */
  predicate OnlyClaimant(s: State, key: string, token: string, uid: string) {
    forall t :: 0 <= t < |s.threads| && IsClaim(s.threads[t].req.op, key) ==>
      Token(s.threads[t].req.op.claim.value) == token && UID(s.threads[t].req.op.claim.value) == uid
  }

  /**
    When all claims on a key share token and UID, every response on it, fresh or
    replayed, in whatever order the claims ran, carries the same credentials.
   */
  lemma OneClaimantOneCredential(cfg: Config, actions: seq<Action>, t: nat, token: string, uid: string)
    requires IsClaimed(Exec(cfg, actions), t)
    requires OnlyClaimant(Exec(cfg, actions), KeyOfThread(Exec(cfg, actions), t), token, uid)
    ensures ResultOf(Exec(cfg, actions), t).credentials == ClaimCredentialsFor(cfg.prims, token, uid)
  {
    Reachable(cfg, actions);
    AnswersFollowPuts(cfg, actions, t);
    var s := Exec(cfg, actions);
    assert ThreadOk(cfg, s.log, t, s.threads[t]);
    var look, key := LookOf(s, t).value, KeyOfThread(s, t);
    assert EventOk(cfg, s.log, s.threads, look);
    assert IsClaim(s.threads[t].req.op, key);
    var put := LastPut(s.log, look, key);
    if put.Some? {
      assert EventOk(cfg, s.log, s.threads, put.value);
      assert IsClaim(s.threads[s.log[put.value].tid].req.op, key);
    }
  }

  // ---------- Where concurrency differs from first-writer-wins ----------

  /** Another claim put a record under the key between this Put's Get and the Put itself. */
  predicate Overtaken(log: seq<Event>, p: nat)
    requires p < |log| && log[p].Stored?
  {
    exists k :: log[p].look < k < p && Binds(log[k], log[p].key)
  }

  /** A Put rebinds a bound key exactly when it was overtaken. */
  lemma PutRebindsExactlyWhen(cfg: Config, actions: seq<Action>, p: nat)
    requires p < |Exec(cfg, actions).log| && Exec(cfg, actions).log[p].Stored?
    ensures var log := Exec(cfg, actions).log;
            LastPut(log, p, log[p].key).Some? <==> Overtaken(log, p)
  {
    Reachable(cfg, actions);
    RebindsExactlyWhen(cfg, Exec(cfg, actions), p);
  }

  lemma RebindsExactlyWhen(cfg: Config, s: State, p: nat)
    requires Inv(cfg, s) && p < |s.log| && s.log[p].Stored?
    ensures LastPut(s.log, p, s.log[p].key).Some? <==> Overtaken(s.log, p)
  {
    PutFollowsMiss(cfg, s, p);
    var look, key := s.log[p].look, s.log[p].key;
    LookedExactlyWhen(s.log, look);
    var put := LastPut(s.log, p, key);
    if put.Some? {
      assert Binds(s.log[put.value], key);
      assert Overtaken(s.log, p);
    }
  }

  /** Request t got a fresh, not replayed, response on the key. */
  predicate IsFreshOn(s: State, t: nat, key: string) {
    IsClaimed(s, t) && KeyOfThread(s, t) == key && !ResultOf(s, t).idempotentReplay
  }

  predicate OnePut(log: seq<Event>, key: string) {
    forall p, q :: 0 <= p < |log| && 0 <= q < |log| && Binds(log[p], key) && Binds(log[q], key) ==> p == q
  }

  predicate NoneOvertaken(log: seq<Event>, key: string) {
    forall p :: 0 <= p < |log| && Binds(log[p], key) ==> !Overtaken(log, p)
  }

  ghost predicate OneFresh(s: State, key: string) {
    forall t, u :: IsFreshOn(s, t, key) && IsFreshOn(s, u, key) ==> t == u
  }

  lemma OnePutExactlyWhen(cfg: Config, actions: seq<Action>, key: string)
    ensures var log := Exec(cfg, actions).log;
            OnePut(log, key) <==> NoneOvertaken(log, key)
  {
    var log := Exec(cfg, actions).log;
    if NoneOvertaken(log, key) {
      forall p, q | 0 <= p < q < |log| && Binds(log[p], key) && Binds(log[q], key) ensures false {
        PutRebindsExactlyWhen(cfg, actions, q);
      }
    }
  }

  /**
    First writer wins on a key exactly when no Put on it was overtaken: that is the
    exact condition both for a single Put and for a single fresh response.
   */
  lemma FirstWriterWinsExactlyWhen(cfg: Config, actions: seq<Action>, key: string)
    ensures var s := Exec(cfg, actions);
            && (OnePut(s.log, key) <==> NoneOvertaken(s.log, key))
            && (OneFresh(s, key) <==> NoneOvertaken(s.log, key))
  {
    var s := Exec(cfg, actions);
    OnePutExactlyWhen(cfg, actions, key);
    if OnePut(s.log, key) {
      forall t, u | IsFreshOn(s, t, key) && IsFreshOn(s, u, key) ensures t == u {
        FreshMeansPut(cfg, actions, t);
        FreshMeansPut(cfg, actions, u);
      }
    }
    if OneFresh(s, key) {
      forall p, q | 0 <= p < |s.log| && 0 <= q < |s.log| && Binds(s.log[p], key) && Binds(s.log[q], key) ensures p == q {
        PutMeansFresh(cfg, actions, p);
        PutMeansFresh(cfg, actions, q);
      }
    }
  }

  /** Every Put was answered as fresh, and ended its request. */
  lemma PutMeansFresh(cfg: Config, actions: seq<Action>, p: nat)
    requires p < |Exec(cfg, actions).log| && Exec(cfg, actions).log[p].Stored?
    ensures var s := Exec(cfg, actions);
            var e := s.log[p];
            && IsFreshOn(s, e.tid, e.key) && s.threads[e.tid].last == Some(p) && ResultOf(s, e.tid) == e.result
  {
    Reachable(cfg, actions);
    var s := Exec(cfg, actions);
    assert EventOk(cfg, s.log, s.threads, p);
  }

  /**
    Idempotency at the level of runs: unless a Put on the key was overtaken, every
    answered claim on it carries the record of the one Put, flagged as a replay
    exactly when another request made that Put.
   */
  lemma ReplaysAreExact(cfg: Config, actions: seq<Action>, key: string, p: nat, t: nat)
    requires NoneOvertaken(Exec(cfg, actions).log, key)
    requires p < |Exec(cfg, actions).log| && Binds(Exec(cfg, actions).log[p], key)
    requires IsClaimed(Exec(cfg, actions), t) && KeyOfThread(Exec(cfg, actions), t) == key
    ensures var s := Exec(cfg, actions);
            ResultOf(s, t) == s.log[p].result.(idempotentReplay := s.log[p].tid != t)
  {
    var s := Exec(cfg, actions);
    OnePutExactlyWhen(cfg, actions, key);
    AnswersFollowPuts(cfg, actions, t);
    PutMeansFresh(cfg, actions, p);
    if !ResultOf(s, t).idempotentReplay {
      FreshMeansPut(cfg, actions, t);
    }
  }

  /** A claim's Get on the key falls strictly between another claim's Get and its Put. */
  ghost predicate GetsOverlap(log: seq<Event>, key: string) {
    exists p, g :: 0 <= p < |log| && Binds(log[p], key) && IsGetWithin(log, g, p)
  }

  predicate IsGetWithin(log: seq<Event>, g: nat, p: nat)
    requires p < |log| && log[p].Stored?
  {
    log[p].look < g < p && log[g].Looked? && log[g].key == log[p].key
  }

  /** A claim on the key has looked and not put yet. */
  predicate PutPending(s: State, key: string) {
    exists t :: 0 <= t < |s.threads| && s.threads[t].pc.AtPut? && s.threads[t].pc.key == key
  }

  /**
    The condition in terms of overlapping claims: without a Get between another
    claim's Get and its Put there is one Put, and once every claim on the key that
    missed has put, there is one Put only without such a Get.
   */
  lemma FirstWriterWinsWithoutOverlap(cfg: Config, actions: seq<Action>, key: string)
    ensures var s := Exec(cfg, actions);
            && (!GetsOverlap(s.log, key) ==> OnePut(s.log, key))
            && (!PutPending(s, key) ==> (OnePut(s.log, key) <==> !GetsOverlap(s.log, key)))
  {
    var s := Exec(cfg, actions);
    if !OnePut(s.log, key) {
      var p, q :| 0 <= p < q < |s.log| && Binds(s.log[p], key) && Binds(s.log[q], key);
      Reachable(cfg, actions);
      TwoPutsOverlap(cfg, s, p, q);
    }
    if !PutPending(s, key) && GetsOverlap(s.log, key) {
      var p, g :| 0 <= p < |s.log| && Binds(s.log[p], key) && IsGetWithin(s.log, g, p);
      OverlapPutsTwice(cfg, actions, p, g);
    }
  }

  lemma TwoPutsOverlap(cfg: Config, s: State, p: nat, q: nat)
    requires Inv(cfg, s) && p < q < |s.log| && s.log[p].Stored? && Binds(s.log[q], s.log[p].key)
    ensures IsGetWithin(s.log, s.log[q].look, p) || IsGetWithin(s.log, s.log[p].look, q)
  {
    PutFollowsMiss(cfg, s, p);
    PutFollowsMiss(cfg, s, q);
    LookedExactlyWhen(s.log, s.log[q].look);
    assert Binds(s.log[p], s.log[q].key);
  }

  /** A Put ended its request, which had missed on the key. */
  lemma PutFollowsMiss(cfg: Config, s: State, p: nat)
    requires Inv(cfg, s) && p < |s.log| && s.log[p].Stored?
    ensures var e := s.log[p];
            && e.look < p && s.log[e.look] == Looked(e.tid, e.key, None)
            && e.tid < |s.threads| && s.threads[e.tid].last == Some(p)
  {
    assert EventOk(cfg, s.log, s.threads, p);
  }

  lemma OverlapPutsTwice(cfg: Config, actions: seq<Action>, p: nat, g: nat)
    requires var s := Exec(cfg, actions);
             && p < |s.log| && s.log[p].Stored? && IsGetWithin(s.log, g, p)
             && !PutPending(s, s.log[p].key)
    ensures !OnePut(Exec(cfg, actions).log, Exec(cfg, actions).log[p].key)
  {
    Reachable(cfg, actions);
    var s := Exec(cfg, actions);
    var key := s.log[p].key;
    LookedExactlyWhen(s.log, g);
    var put := LastPut(s.log, g, key);
    if put.Some? {
      assert Binds(s.log[put.value], key) && Binds(s.log[p], key);
    } else {
      MissPuts(cfg, s, g);
      var q := s.threads[s.log[g].tid].last.value;
      assert Binds(s.log[q], key) && Binds(s.log[p], key) && s.log[q].look == g;
    }
  }

  /** A request that missed and is not about to put has put its record. */
  lemma MissPuts(cfg: Config, s: State, g: nat)
    requires Inv(cfg, s) && g < |s.log| && s.log[g].Looked? && s.log[g].found.None?
    requires !PutPending(s, s.log[g].key)
    ensures s.log[g].tid < |s.threads|
    ensures var last := s.threads[s.log[g].tid].last;
            && last.Some? && last.value < |s.log|
            && Binds(s.log[last.value], s.log[g].key) && s.log[last.value].look == g
  {
    assert EventOk(cfg, s.log, s.threads, g);
    var t := s.log[g].tid;
    assert ThreadOk(cfg, s.log, t, s.threads[t]);
    if !s.threads[t].pc.AtPut? {
      assert EventOk(cfg, s.log, s.threads, s.threads[t].last.value);
    }
  }

  /** A fresh response was put under its key by its own request. */
  lemma FreshMeansPut(cfg: Config, actions: seq<Action>, t: nat)
    requires IsClaimed(Exec(cfg, actions), t) && !ResultOf(Exec(cfg, actions), t).idempotentReplay
    ensures var s := Exec(cfg, actions);
            && s.threads[t].last.Some? && s.threads[t].last.value < |s.log|
            && Binds(s.log[s.threads[t].last.value], KeyOfThread(s, t)) && s.log[s.threads[t].last.value].tid == t
  {
    Reachable(cfg, actions);
    var s := Exec(cfg, actions);
    assert ThreadOk(cfg, s.log, t, s.threads[t]);
  }

  // ---------- Two overlapping claims ----------

  function NoInput(): Input {
    Input(Failed, Failed, Refused(Opaque), Ids.Draw(0, 0, 0))
  }

  /** Claim i of two on one idempotency key. */
  function ClaimRequest(claim: ClaimInput, key: string): Request {
    Request(OnboardClaim, "", ClaimWorkstation(Some(claim), key))
  }

  /** Both claims look before either puts. */
  function Overlap(a: ClaimInput, b: ClaimInput, key: string): seq<Action> {
    [Arrive(ClaimRequest(a, key)), Run(0, NoInput()), Run(0, NoInput())]
    + [Arrive(ClaimRequest(b, key)), Run(1, NoInput()), Run(1, NoInput())]
    + [Run(0, NoInput())] + [Run(1, NoInput())]
  }

  /** As thread n, a claim arrives and misses. */
  lemma Misses(cfg: Config, actions: seq<Action>, n: nat, claim: ClaimInput, key: string)
    requires !cfg.limited && Complete(claim) && key != "" && n == |Exec(cfg, actions).threads|
    requires key !in Exec(cfg, actions).claims
    ensures var s := Exec(cfg, actions);
            var waiting := Fresh(ClaimRequest(claim, key)).(pc := AtPut(key, RecordOf(cfg.prims, claim), |s.log|));
            Exec(cfg, actions + [Arrive(ClaimRequest(claim, key)), Run(n, NoInput()), Run(n, NoInput())]) ==
            s.(threads := s.threads + [waiting], log := s.log + [Looked(n, key, None)])
  {
    var s := Exec(cfg, actions);
    var req, run := ClaimRequest(claim, key), Run(n, NoInput());
    Arrives(cfg, actions, req, AtGet(claim, key), NoInput());
    ExecAppend(cfg, actions + [Arrive(req), run], run);
    assert actions + [Arrive(req), run] + [run] == actions + [Arrive(req), run, run];
    assert Exec(cfg, actions + [Arrive(req), run, run]).threads ==
           s.threads + [Fresh(req).(pc := AtPut(key, RecordOf(cfg.prims, claim), |s.log|))];
  }

  lemma Puts(cfg: Config, actions: seq<Action>, t: nat, key: string, result: ClaimResult, look: nat)
    requires t < |Exec(cfg, actions).threads| && Exec(cfg, actions).threads[t].pc == AtPut(key, result, look)
    ensures var s := Exec(cfg, actions);
            var s' := Exec(cfg, actions + [Run(t, NoInput())]);
            && s'.claims == s.claims[key := result] && |s'.threads| == |s.threads|
            && s'.threads[t].pc.Done? && s'.threads[t].pc.response.payload == Claimed(result)
            && (forall u :: 0 <= u < |s.threads| && u != t ==> s'.threads[u] == s.threads[u])
  {
    ExecAppend(cfg, actions, Run(t, NoInput()));
  }

  /**
    Two overlapping claims on one key are both answered as fresh, each with its own
    record, and the second Put replaces what the first caller was told.
   */
  lemma OverlappingClaimsRebind(prims: Primitives, a: ClaimInput, b: ClaimInput, key: string)
    requires Complete(a) && Complete(b) && key != ""
    ensures var s := Exec(Config(false, prims), Overlap(a, b, key));
            && |s.threads| == 2 && s.threads[0].pc.Done? && s.threads[1].pc.Done?
            && s.threads[0].pc.response.payload == Claimed(RecordOf(prims, a))
            && s.threads[1].pc.response.payload == Claimed(RecordOf(prims, b))
            && s.claims == map[key := RecordOf(prims, b)]
  {
    var cfg := Config(false, prims);
    var a1 := [Arrive(ClaimRequest(a, key)), Run(0, NoInput()), Run(0, NoInput())];
    Misses(cfg, [], 0, a, key);
    assert [] + a1 == a1;
    var a2 := a1 + [Arrive(ClaimRequest(b, key)), Run(1, NoInput()), Run(1, NoInput())];
    Misses(cfg, a1, 1, b, key);
    BothPut(cfg, a2, a, b, key);
  }

  lemma BothPut(cfg: Config, actions: seq<Action>, a: ClaimInput, b: ClaimInput, key: string)
    requires var s := Exec(cfg, actions);
             && |s.threads| == 2 && s.claims == map[]
             && s.threads[0].pc == AtPut(key, RecordOf(cfg.prims, a), 0)
             && s.threads[1].pc == AtPut(key, RecordOf(cfg.prims, b), 1)
    ensures var s := Exec(cfg, actions + [Run(0, NoInput())] + [Run(1, NoInput())]);
            && |s.threads| == 2 && s.threads[0].pc.Done? && s.threads[1].pc.Done?
            && s.threads[0].pc.response.payload == Claimed(RecordOf(cfg.prims, a))
            && s.threads[1].pc.response.payload == Claimed(RecordOf(cfg.prims, b))
            && s.claims == map[key := RecordOf(cfg.prims, b)]
  {
    Puts(cfg, actions, 0, key, RecordOf(cfg.prims, a), 0);
    Puts(cfg, actions + [Run(0, NoInput())], 1, key, RecordOf(cfg.prims, b), 1);
  }
}
