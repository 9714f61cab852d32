/**
  What an event log says about the two stores: the stores are replays of the log,
  and every compare or look-up is decided by the last event that touched its key.
 */
module Logs {
  import opened Edge
  import opened Onboarding
  import opened Ownership
  import opened Wrappers

  // ---------- Replaying ----------

  function ReplayChallenges(log: seq<Event>): ChallengeMap {
    if log == [] then map[]
    else ApplyToChallenges(ReplayChallenges(log[..|log| - 1]), log[|log| - 1])
  }

  function ReplayClaims(log: seq<Event>): ClaimMap {
    if log == [] then map[]
    else ApplyToClaims(ReplayClaims(log[..|log| - 1]), log[|log| - 1])
  }

  /** Every outcome in the log is the one the store gave at that moment. */
  predicate Faithful(log: seq<Event>) {
    forall i :: 0 <= i < |log| ==> FaithfulAt(log, i)
  }

  predicate FaithfulAt(log: seq<Event>, i: nat)
    requires i < |log|
  {
    match log[i]
    case Confirmed(_, email, code, at, _, ok) => ok == Confirms(ReplayChallenges(log[..i]), email, code, at)
    case Looked(_, key, found) =>
      var cache := ReplayClaims(log[..i]);
      found == if key in cache then Some(cache[key]) else None
    case _ => true
  }

  lemma FaithfulExtend(log: seq<Event>, event: Event)
    requires Faithful(log) && FaithfulAt(log + [event], |log|)
    ensures Faithful(log + [event])
  {
    forall i | 0 <= i < |log| ensures FaithfulAt(log + [event], i) {
      assert FaithfulAt(log, i);
      assert (log + [event])[..i] == log[..i];
    }
  }

  // ---------- The last touch of an email ----------

  predicate Touches(event: Event, email: string) {
    (event.Saved? && event.email == email) || (event.Confirmed? && event.ok && event.email == email)
  }

  /** The last of the first n events that saved or consumed a challenge for the email. */
  function LastTouch(log: seq<Event>, n: nat, email: string): (j: Option<nat>)
    requires n <= |log|
    ensures j.Some? ==> j.value < n && Touches(log[j.value], email)
    ensures j.Some? ==> forall k :: j.value < k < n ==> !Touches(log[k], email)
    ensures j.None? ==> forall k :: 0 <= k < n ==> !Touches(log[k], email)
  {
    if n == 0 then None
    else if Touches(log[n - 1], email) then Some(n - 1)
    else LastTouch(log, n - 1, email)
  }

  /** Per email, the store holds the last Save not followed by a success, and nothing else. */
  lemma {:induction false} StoreIsLastTouch(log: seq<Event>, n: nat, email: string)
    requires n <= |log|
    ensures var j := LastTouch(log, n, email);
            var store := ReplayChallenges(log[..n]);
            && (email in store <==> j.Some? && log[j.value].Saved?)
            && (email in store ==> store[email] == log[j.value].challenge)
  {
    if n > 0 {
      assert log[..n][..n - 1] == log[..n - 1];
      StoreIsLastTouch(log, n - 1, email);
    }
  }

  /**
    A verification succeeds exactly when the last event that touched its email is a
    Save of the same code that has not expired at the instant the caller read.
   */
  lemma ConfirmedExactlyWhen(log: seq<Event>, i: nat)
    requires Faithful(log) && i < |log| && log[i].Confirmed?
    ensures log[i].ok <==>
            var j := LastTouch(log, i, log[i].email);
            && j.Some? && log[j.value].Saved?
            && log[j.value].challenge.code == log[i].code
            && log[i].at <= log[j.value].challenge.expiresAt
  {
    assert FaithfulAt(log, i);
    StoreIsLastTouch(log, i, log[i].email);
  }

  predicate IsSuccess(log: seq<Event>, i: nat) {
    i < |log| && log[i].Confirmed? && log[i].ok
  }

  /** Distinct successes consume distinct Saves. */
  lemma SavesAreSingleUse(log: seq<Event>, i: nat, k: nat)
    requires IsSuccess(log, i) && IsSuccess(log, k) && i != k
    ensures log[i].email == log[k].email ==>
              LastTouch(log, i, log[i].email) != LastTouch(log, k, log[k].email)
  {
    assert Touches(log[i], log[i].email) && Touches(log[k], log[k].email);
  }

  // ---------- Conservation of challenges ----------

  function SaveCount(log: seq<Event>, email: string): nat {
    if log == [] then 0
    else
      var last := log[|log| - 1];
      SaveCount(log[..|log| - 1], email) + if last.Saved? && last.email == email then 1 else 0
  }

  function SuccessCount(log: seq<Event>, email: string): nat {
    if log == [] then 0
    else
      var last := log[|log| - 1];
      SuccessCount(log[..|log| - 1], email) + if last.Confirmed? && last.ok && last.email == email then 1 else 0
  }

  /** Saves that a newer Save overwrote before anyone confirmed them. */
  function OverwriteCount(log: seq<Event>, email: string): nat {
    if log == [] then 0
    else
      var k := |log| - 1;
      var overwrites := log[k].Saved? && log[k].email == email && email in ReplayChallenges(log[..k]);
      OverwriteCount(log[..k], email) + if overwrites then 1 else 0
  }

  /** Every Save is in exactly one place: consumed by one success, overwritten, or still stored. */
  lemma {:induction false} ChallengeConservation(log: seq<Event>, email: string)
    requires Faithful(log)
    ensures SaveCount(log, email) ==
            SuccessCount(log, email) + OverwriteCount(log, email) + if email in ReplayChallenges(log) then 1 else 0
  {
    if log != [] {
      var k := |log| - 1;
      forall i | 0 <= i < k ensures FaithfulAt(log[..k], i) {
        assert FaithfulAt(log, i);
        assert log[..k][..i] == log[..i];
      }
      assert FaithfulAt(log, k);
      ChallengeConservation(log[..k], email);
    }
  }

  // ---------- Expiry ----------

  /**
    Once one evaluation of an email came after the stored expiry, no evaluation that
    read the clock no earlier succeeds before the next Save for that email.
   */
  lemma ExpiredStaysExpired(log: seq<Event>, p: nat, q: nat)
    requires Faithful(log) && p < q < |log|
    requires log[p].Confirmed? && log[q].Confirmed? && log[p].email == log[q].email
    requires var j := LastTouch(log, p, log[p].email);
             j.Some? && log[j.value].Saved? && log[p].at > log[j.value].challenge.expiresAt
    requires log[q].at >= log[p].at
    requires forall k :: p < k < q ==> !(log[k].Saved? && log[k].email == log[p].email)
    ensures !log[q].ok
  {
    var email := log[p].email;
    ConfirmedExactlyWhen(log, p);
    ConfirmedExactlyWhen(log, q);
  }

  // ---------- Claims ----------

  predicate Binds(event: Event, key: string) {
    event.Stored? && event.key == key
  }

  /** The last of the first n events that stored a record under the key. */
  function LastPut(log: seq<Event>, n: nat, key: string): (j: Option<nat>)
    requires n <= |log|
    ensures j.Some? ==> j.value < n && Binds(log[j.value], key)
    ensures j.Some? ==> forall k :: j.value < k < n ==> !Binds(log[k], key)
    ensures j.None? ==> forall k :: 0 <= k < n ==> !Binds(log[k], key)
  {
    if n == 0 then None
    else if Binds(log[n - 1], key) then Some(n - 1)
    else LastPut(log, n - 1, key)
  }

  /** Per key, the cache holds the last Put. */
  lemma {:induction false} CacheIsLastPut(log: seq<Event>, n: nat, key: string)
    requires n <= |log|
    ensures var j := LastPut(log, n, key);
            var cache := ReplayClaims(log[..n]);
            && (key in cache <==> j.Some?)
            && (key in cache ==> cache[key] == log[j.value].result)
  {
    if n > 0 {
      assert log[..n][..n - 1] == log[..n - 1];
      CacheIsLastPut(log, n - 1, key);
    }
  }

  /** A look-up misses exactly when no Put for its key came before it, and hits the last one otherwise. */
  lemma LookedExactlyWhen(log: seq<Event>, i: nat)
    requires Faithful(log) && i < |log| && log[i].Looked?
    ensures var j := LastPut(log, i, log[i].key);
            log[i].found == if j.Some? then Some(log[j.value].result) else None
  {
    assert FaithfulAt(log, i);
    CacheIsLastPut(log, i, log[i].key);
  }
}
