/** Workstation onboarding claims (internal/domain/onboarding.go, internal/application/onboarding.go). */
module Onboarding {
  import opened Crypto
  import opened Text
  import opened Wrappers

  /** The part of a claim the use case reads. */
  datatype ClaimInput = ClaimInput(inviteToken: string, desiredUID: string, email: string, displayName: string)

  datatype ClaimUser = ClaimUser(uid: string, email: string, displayName: string)

  /** A client profile, fixed up to its host octet. */
  datatype WireGuardProfile = WireGuardProfile(hostOctet: int)

  datatype ClaimCredentials = ClaimCredentials(
    forgejoUsername: string, forgejoMCPToken: string, wireGuard: WireGuardProfile)

  /** The variable part of a claim result; status, groups and workspace are constants. */
  datatype ClaimResult = ClaimResult(idempotentReplay: bool, user: ClaimUser, credentials: ClaimCredentials)

  type ClaimMap = map<string, ClaimResult>

  // ---------- Derivation ----------

  function DefaultDomain(): string {
    "@manova.space"
  }

  function NormalizeUID(uid: string): string {
    ToLower(TrimSpace(uid))
  }

  function Token(input: ClaimInput): string {
    TrimSpace(input.inviteToken)
  }

  function UID(input: ClaimInput): string {
    NormalizeUID(input.desiredUID)
  }

  predicate Complete(input: ClaimInput) {
    Token(input) != "" && UID(input) != ""
  }

  /** The cache key: the caller's, or one derived from token and UID. */
  function ClaimKey(input: ClaimInput, idempotencyKey: string): string {
    if idempotencyKey == "" then Join(Token(input), UID(input)) else idempotencyKey
  }

  function HostOctet(sum: Digest): int {
    sum[0] % 200 + 10
  }

  function ClaimCredentialsFor(prims: Primitives, inviteToken: string, uid: string): ClaimCredentials {
    var sum := prims.sha256(Join(inviteToken, uid));
    ClaimCredentials(uid, "mcp_" + Hex(sum[..16]), WireGuardProfile(HostOctet(sum)))
  }

  /** The record a completed claim stores and returns. */
  function RecordOf(prims: Primitives, input: ClaimInput): ClaimResult {
    var uid := UID(input);
    var email := if TrimSpace(input.email) == "" then uid + DefaultDomain() else TrimSpace(input.email);
    var displayName := if TrimSpace(input.displayName) == "" then prims.title(uid) else TrimSpace(input.displayName);
    ClaimResult(false, ClaimUser(uid, email, displayName), ClaimCredentialsFor(prims, Token(input), uid))
  }

  function Replayed(result: ClaimResult): ClaimResult {
    result.(idempotentReplay := true)
  }

  /** The given text is the kept one, non-empty and trimmed, between blanks. */
  ghost predicate KeptUpToPadding(given: string, kept: string) {
    && Trimmed(kept) && kept != ""
    && exists a: string, b: string :: AllBlank(a) && AllBlank(b) && given == a + kept + b
  }

  /**
    A record keeps what the caller supplied up to padding, fills what was blank from
    the UID, and names one trimmed, lower-case, non-empty user throughout.
   */
  lemma RecordKeepsSupplied(prims: Primitives, input: ClaimInput)
    requires Complete(input)
    ensures var r := RecordOf(prims, input);
            && r.user.uid == r.credentials.forgejoUsername == Normalize(input.desiredUID) != ""
            && !r.idempotentReplay
            && (AllBlank(input.email) ==> r.user.email == r.user.uid + "@manova.space")
            && (AllBlank(input.displayName) ==> r.user.displayName == prims.title(r.user.uid))
            && (!AllBlank(input.email) ==> KeptUpToPadding(input.email, r.user.email))
            && (!AllBlank(input.displayName) ==> KeptUpToPadding(input.displayName, r.user.displayName))
  {
    NormalizeLaws(input.desiredUID);
    BlankExactlyWhen(input.email);
    BlankExactlyWhen(input.displayName);
    TrimSpaceMeaning(input.email, TrimSpace(input.email));
    TrimSpaceMeaning(input.displayName, TrimSpace(input.displayName));
  }

  /** A claim is complete exactly when neither its invite token nor its UID is blank. */
  lemma CompleteMeaning(input: ClaimInput)
    ensures Complete(input) <==> !AllBlank(input.inviteToken) && !AllBlank(input.desiredUID)
  {
    BlankExactlyWhen(input.inviteToken);
    NormalizeKeeps(input.desiredUID);
    NormalizeLaws(input.desiredUID);
  }

  /**
    What a claimant's secrets are made of: the digest of the trimmed token, a colon
    and the UID gives the MCP token from its first sixteen bytes, and the host octet
    from its first.
   */
  lemma CredentialsMeaning(prims: Primitives, input: ClaimInput, token: string)
    requires IsCore(input.inviteToken, token)
    ensures var r := RecordOf(prims, input);
            var digest := prims.sha256(token + ":" + r.user.uid);
            && |r.credentials.forgejoMCPToken| == 36 && r.credentials.forgejoMCPToken[..4] == "mcp_"
            && Spells(r.credentials.forgejoMCPToken[4..], digest[..16])
            && r.credentials.wireGuard.hostOctet == 10 + digest[0] % 200
  {
    TrimSpaceMeaning(input.inviteToken, token);
    HexSpells(prims.sha256(Join(token, UID(input)))[..16]);
  }

  /** The caller's key is used as it is; without one the key is the trimmed token, a colon and the UID of the record. */
  lemma KeyMeaning(prims: Primitives, input: ClaimInput, idempotencyKey: string, token: string)
    requires IsCore(input.inviteToken, token)
    ensures ClaimKey(input, idempotencyKey) ==
            if idempotencyKey != "" then idempotencyKey else token + ":" + RecordOf(prims, input).user.uid
  {
    TrimSpaceMeaning(input.inviteToken, token);
  }

  // ---------- Derived keys ----------

  /**
    Derived keys separate different claimants except across a shifted colon, and a
    collision always hands the second claimant the same secrets under another
    username.
   */
  lemma DerivedKeyCollision(prims: Primitives, a: ClaimInput, b: ClaimInput)
    requires Token(a) != Token(b) || UID(a) != UID(b)
    ensures ClaimKey(a, "") == ClaimKey(b, "") <==>
            || (exists w: string :: Token(a) == Join(Token(b), w) && UID(b) == Join(w, UID(a)))
            || (exists w: string :: Token(b) == Join(Token(a), w) && UID(a) == Join(w, UID(b)))
    ensures ClaimKey(a, "") == ClaimKey(b, "") ==>
              var ca, cb := RecordOf(prims, a).credentials, RecordOf(prims, b).credentials;
              && ca.forgejoMCPToken == cb.forgejoMCPToken
              && ca.wireGuard == cb.wireGuard
              && ca.forgejoUsername != cb.forgejoUsername
  {
    JoinCollision(Token(a), UID(a), Token(b), UID(b));
    if UID(a) == UID(b) {
      JoinSameRight(Token(a), Token(b), UID(a));
    }
  }

  /** Where no UID holds a colon, a derived key identifies its claimant. */
  lemma DerivedKeyInjective(a: ClaimInput, b: ClaimInput)
    requires ':' !in UID(a) && ':' !in UID(b)
    ensures ClaimKey(a, "") == ClaimKey(b, "") <==> Token(a) == Token(b) && UID(a) == UID(b)
  {
    JoinInjective(Token(a), UID(a), Token(b), UID(b));
  }

  /** The client profile, as the response carries it. */
  function WireGuardConfig(profile: WireGuardProfile): string {
    "[Interface]\nPrivateKey = <generated-client-key>\nAddress = 10.42.0." + WireGuardTail(profile)
  }

  function WireGuardTail(profile: WireGuardProfile): string {
    Itoa(profile.hostOctet) +
    "/32\nDNS = 10.42.0.1\n\n[Peer]\nPublicKey = 4gZ+examplePublicKeyOrbitGatewayVPNControllerKey=\nEndpoint = vpn.internal.manova.space:51820\nAllowedIPs = 10.42.0.0/16, 172.28.0.0/16\nPersistentKeepalive = 25"
  }

  lemma SuffixedItoa(m: int, n: int, tail: string)
    ensures Itoa(m) + tail == Itoa(n) + tail ==> m == n
  {
    if Itoa(m) + tail == Itoa(n) + tail {
      var s := Itoa(m) + tail;
      assert s[..|s| - |tail|] == Itoa(m) && s[..|s| - |tail|] == Itoa(n);
      ItoaInjective(m, n);
    }
  }

  /** The rendered profile reveals exactly its host octet. */
  lemma ProfileRevealsOctet(a: WireGuardProfile, b: WireGuardProfile)
    ensures WireGuardConfig(a) == WireGuardConfig(b) <==> a == b
  {
    if WireGuardConfig(a) == WireGuardConfig(b) {
      var k := |WireGuardConfig(a)| - |WireGuardTail(a)|;
      assert WireGuardConfig(a)[k..] == WireGuardTail(a);
      assert WireGuardConfig(b)[k..] == WireGuardTail(b);
      SuffixedItoa(a.hostOctet, b.hostOctet, WireGuardTail(a)[|Itoa(a.hostOctet)|..]);
    }
  }

  /** The profile opens with the address line: 10.42.0 and the host octet. */
  lemma ProfileAddress(profile: WireGuardProfile)
    ensures "[Interface]\nPrivateKey = <generated-client-key>\nAddress = 10.42.0." + Itoa(profile.hostOctet) <= WireGuardConfig(profile)
  {
  }

  /** The client address of every claimant stays in 10.42.0.10 .. 10.42.0.209. */
  lemma HostOctetRange(prims: Primitives, token: string, uid: string)
    ensures 10 <= ClaimCredentialsFor(prims, token, uid).wireGuard.hostOctet <= 209
  {
  }

  // ---------- Sequential claims ----------

  /** One call of the use case. */
  datatype ClaimCall = ClaimCall(input: ClaimInput, idempotencyKey: string) {
    function Key(): string {
      ClaimKey(input, idempotencyKey)
    }
  }

  /** Claim run without interference: the new cache, and the answer unless the input is incomplete. */
  function ClaimOnce(prims: Primitives, cache: ClaimMap, call: ClaimCall): (ClaimMap, Option<ClaimResult>) {
    if !Complete(call.input) then (cache, None)
    else if call.Key() in cache then (cache, Some(Replayed(cache[call.Key()])))
    else
      var record := RecordOf(prims, call.input);
      (cache[call.Key() := record], Some(record))
  }

  /** A call is refused exactly when its invite token or its UID is blank, and then it changes nothing. */
  lemma RefusedExactlyWhen(prims: Primitives, cache: ClaimMap, call: ClaimCall)
    ensures ClaimOnce(prims, cache, call).1.None? <==>
            AllBlank(call.input.inviteToken) || AllBlank(call.input.desiredUID)
    ensures ClaimOnce(prims, cache, call).1.None? ==> ClaimOnce(prims, cache, call).0 == cache
  {
    CompleteMeaning(call.input);
  }

  /** The cache after a sequence of calls, from empty. */
  function CacheAfter(prims: Primitives, calls: seq<ClaimCall>): ClaimMap {
    if calls == [] then map[]
    else
      var k := |calls| - 1;
      ClaimOnce(prims, CacheAfter(prims, calls[..k]), calls[k]).0
  }

  /** What the i-th call of a sequence is answered. */
  function AnswerTo(prims: Primitives, calls: seq<ClaimCall>, i: nat): Option<ClaimResult>
    requires i < |calls|
  {
    ClaimOnce(prims, CacheAfter(prims, calls[..i]), calls[i]).1
  }

  predicate Claims(call: ClaimCall, key: string) {
    Complete(call.input) && call.Key() == key
  }

  /** The position of the first complete call on the key among the first n. */
  function FirstOn(calls: seq<ClaimCall>, n: nat, key: string): (f: Option<nat>)
    requires n <= |calls|
    ensures f.None? <==> forall j :: 0 <= j < n ==> !Claims(calls[j], key)
    ensures f.Some? ==> f.value < n && Claims(calls[f.value], key)
    ensures f.Some? ==> forall j :: 0 <= j < f.value ==> !Claims(calls[j], key)
  {
    if n == 0 then None
    else
      var f := FirstOn(calls, n - 1, key);
      if f.Some? then f else if Claims(calls[n - 1], key) then Some(n - 1) else None
  }

  /** One call binds its own key if nothing did, and leaves every other key alone. */
  lemma ClaimOnceEffect(prims: Primitives, cache: ClaimMap, call: ClaimCall, key: string)
    ensures var cache' := ClaimOnce(prims, cache, call).0;
            && (key in cache' <==> key in cache || Claims(call, key))
            && (key in cache ==> cache'[key] == cache[key])
            && (key !in cache && Claims(call, key) ==> cache'[key] == RecordOf(prims, call.input))
  {
  }

  /** The cache is exactly the first complete call's record for each key: it is never rebound. */
  lemma {:induction false} CacheHoldsFirstWriters(prims: Primitives, calls: seq<ClaimCall>, n: nat, key: string)
    requires n <= |calls|
    ensures var f, cache := FirstOn(calls, n, key), CacheAfter(prims, calls[..n]);
            && (key in cache <==> f.Some?)
            && (f.Some? ==> cache[key] == RecordOf(prims, calls[f.value].input))
  {
    if n > 0 {
      CacheHoldsFirstWriters(prims, calls, n - 1, key);
      assert calls[..n][..n - 1] == calls[..n - 1];
      ClaimOnceEffect(prims, CacheAfter(prims, calls[..n - 1]), calls[n - 1], key);
    }
  }

  /**
    Idempotency of sequential claims: every complete call is answered with the
    record of the first complete call on its key, flagged as a replay exactly when
    it is not that first call; its own inputs do not matter beyond the key.
   */
  lemma FirstWriterWins(prims: Primitives, calls: seq<ClaimCall>, i: nat)
    requires i < |calls| && Complete(calls[i].input)
    ensures var f := FirstOn(calls, |calls|, calls[i].Key());
            && f.Some? && f.value <= i
            && AnswerTo(prims, calls, i) ==
               Some(RecordOf(prims, calls[f.value].input).(idempotentReplay := f.value != i))
  {
    var key := calls[i].Key();
    assert Claims(calls[i], key);
    FirstOnStable(calls, i + 1, |calls|, key);
    CacheHoldsFirstWriters(prims, calls, i, key);
  }

  /** Later calls do not change who came first. */
  lemma FirstOnStable(calls: seq<ClaimCall>, n: nat, m: nat, key: string)
    requires n <= m <= |calls| && FirstOn(calls, n, key).Some?
    ensures FirstOn(calls, m, key) == FirstOn(calls, n, key)
  {
    assert Claims(calls[FirstOn(calls, n, key).value], key);
  }

  /** Whatever the order of sequential claims, at most one on a key is answered as fresh. */
  lemma OneFreshInAnyOrder(prims: Primitives, calls: seq<ClaimCall>, i: nat, j: nat)
    requires i < |calls| && j < |calls| && Complete(calls[i].input) && Complete(calls[j].input)
    requires calls[i].Key() == calls[j].Key()
    requires var a, b := AnswerTo(prims, calls, i), AnswerTo(prims, calls, j);
             a.Some? && b.Some? && !a.value.idempotentReplay && !b.value.idempotentReplay
    ensures i == j
  {
    FirstWriterWins(prims, calls, i);
    FirstWriterWins(prims, calls, j);
  }

  // ---------- What a key collision does ----------

  /**
    Whenever two different claimants share a derived key, the second is answered as
    a replay of the first: under the first one's user name, with exactly the secrets
    of the record it would have got for itself.
   */
  lemma CollisionReplaysFirst(prims: Primitives, a: ClaimInput, b: ClaimInput)
    requires Complete(a) && Complete(b) && (Token(a) != Token(b) || UID(a) != UID(b))
    requires ClaimKey(a, "") == ClaimKey(b, "")
    ensures AnswerTo(prims, [ClaimCall(a, ""), ClaimCall(b, "")], 1) == Some(Replayed(RecordOf(prims, a)))
    ensures var own, given := RecordOf(prims, b), RecordOf(prims, a);
            && given.user.uid == UID(a) != UID(b) == own.user.uid
            && given.credentials.forgejoMCPToken == own.credentials.forgejoMCPToken
            && given.credentials.wireGuard == own.credentials.wireGuard
  {
    var calls := [ClaimCall(a, ""), ClaimCall(b, "")];
    assert Claims(calls[0], calls[1].Key());
    FirstWriterWins(prims, calls, 1);
    DerivedKeyCollision(prims, a, b);
  }

  /** Text that trimming and folding leave alone. */
  predicate Plain(s: string) {
    s != "" && Trimmed(s) && ToLower(s) == s
  }

  function Claimant(token: string, uid: string): ClaimInput {
    ClaimInput(token, uid, "", "")
  }

  lemma PlainClaimant(token: string, uid: string)
    requires Plain(token) && Plain(uid)
    ensures Token(Claimant(token, uid)) == token && UID(Claimant(token, uid)) == uid
  {
    PlainText(token);
    PlainText(uid);
  }

  lemma PlainText(s: string)
    requires Plain(s)
    ensures TrimSpace(s) == s
  {
    TrimPadded("", s, "");
    assert "" + s + "" == s;
  }

  /** Such claimants exist for any three plain words: the middle one can end the token or begin the UID. */
  lemma ShiftedColonCollides(prims: Primitives, t: string, w: string, u: string)
    requires Plain(t) && Plain(w) && Plain(u)
    ensures var a, b := Claimant(Join(t, w), u), Claimant(t, Join(w, u));
            && Complete(a) && Complete(b) && Token(a) != Token(b) && ClaimKey(a, "") == ClaimKey(b, "")
            && AnswerTo(prims, [ClaimCall(a, ""), ClaimCall(b, "")], 1) == Some(Replayed(RecordOf(prims, a)))
  {
    PlainJoin(t, w);
    PlainJoin(w, u);
    PlainClaimant(Join(t, w), u);
    PlainClaimant(t, Join(w, u));
    assert Join(Join(t, w), u) == Join(t, Join(w, u));
    CollisionReplaysFirst(prims, Claimant(Join(t, w), u), Claimant(t, Join(w, u)));
  }

  lemma PlainJoin(a: string, b: string)
    requires Plain(a) && Plain(b)
    ensures Plain(Join(a, b))
  {
    ToLowerConcat(a + ":", b);
    ToLowerConcat(a, ":");
  }

  /** One of them: token "t:x" with UID "y", against token "t" with UID "x:y". */
  lemma CollidingClaimants(prims: Primitives)
    ensures var a, b := Claimant("t:x", "y"), Claimant("t", "x:y");
            && Complete(a) && Complete(b) && ClaimKey(a, "") == ClaimKey(b, "") == "t:x:y"
            && AnswerTo(prims, [ClaimCall(a, ""), ClaimCall(b, "")], 1) == Some(Replayed(RecordOf(prims, a)))
  {
    PlainWords();
    ShiftedColonCollides(prims, "t", "x", "y");
    PlainClaimant("t:x", "y");
    PlainClaimant("t", "x:y");
  }

  lemma PlainWords()
    ensures Plain("t") && Plain("x") && Plain("y") && Plain("t:x") && Plain("x:y")
    ensures Join("t", "x") == "t:x" && Join("x", "y") == "x:y" && Join("t:x", "y") == Join("t", "x:y") == "t:x:y"
  {
  }
}
