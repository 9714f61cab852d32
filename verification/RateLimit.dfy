/** Rate-limit policies, bucket keys and outcomes (internal/domain/ratelimit.go). */
module RateLimit {
  import opened Crypto
  import opened Text
  import opened Wrappers

  // ---------- Policies ----------

  const SECOND: int := 1000000000
  const MINUTE: int := 60 * SECOND

  const OTP_IDENTIFIER_WINDOW_LIMIT: nat := 3

  /** One class per limited route. */
  datatype RouteClass =
    | AuthOTPRequest | AuthOTPVerify | AuthPassword | AuthRefresh
    | OwnershipChallenge | OwnershipVerify | DevOnboardClaim
    | AdminChallenge | AdminVerify | OnboardClaim

  function ClassName(class_: RouteClass): string {
    match class_
    case AuthOTPRequest => "auth_otp_request"
    case AuthOTPVerify => "auth_otp_verify"
    case AuthPassword => "auth_password"
    case AuthRefresh => "auth_refresh"
    case OwnershipChallenge => "system_ownership_challenge"
    case OwnershipVerify => "system_ownership_verify"
    case DevOnboardClaim => "dev_onboard_claim"
    case AdminChallenge => "admin_challenge"
    case AdminVerify => "admin_verify"
    case OnboardClaim => "onboard_claim"
  }

  /** The zero policy names no class. */
  datatype Policy = Policy(class_: Option<RouteClass>, limit: int, window: int)

  /** A class without an entry gets the zero policy. */
  function PolicyFor(class_: RouteClass): Policy {
    match class_
    case AuthOTPRequest => Policy(Some(class_), 5, MINUTE)
    case AuthOTPVerify => Policy(Some(class_), 20, MINUTE)
    case AuthPassword => Policy(Some(class_), 10, MINUTE)
    case AuthRefresh => Policy(Some(class_), 30, MINUTE)
    case _ => Policy(None, 0, 0)
  }

  function OTPRequestIdentifierPolicy(): Policy {
    Policy(Some(AuthOTPRequest), OTP_IDENTIFIER_WINDOW_LIMIT, MINUTE)
  }

  /** Grants per window of one minute, in nanoseconds; the classes without an entry grant none by policy. */
  lemma Budgets()
    ensures OTPRequestIdentifierPolicy() == Policy(Some(AuthOTPRequest), 3, 60_000_000_000)
    ensures PolicyFor(AuthOTPRequest) == Policy(Some(AuthOTPRequest), 5, 60_000_000_000)
    ensures PolicyFor(AuthOTPVerify) == Policy(Some(AuthOTPVerify), 20, 60_000_000_000)
    ensures PolicyFor(AuthPassword) == Policy(Some(AuthPassword), 10, 60_000_000_000)
    ensures PolicyFor(AuthRefresh) == Policy(Some(AuthRefresh), 30, 60_000_000_000)
    ensures forall c :: c !in {AuthOTPRequest, AuthOTPVerify, AuthPassword, AuthRefresh} ==> PolicyFor(c) == Policy(None, 0, 0)
  {
  }

  // ---------- Buckets ----------

  function HashIdentifier(sha256: string -> Digest, identifier: string): string {
    Hex(sha256(ToLower(TrimSpace(identifier))))[..16]
  }

  /** What a limiter key names: a client within a class, or a hashed identifier. */
  datatype Bucket = ClientBucket(class_: RouteClass, clientIP: string) | IdentifierBucket(hash: string)

  function IdentifierBucketOf(sha256: string -> Digest, identifier: string): Bucket {
    IdentifierBucket(HashIdentifier(sha256, identifier))
  }

  /** The key string the limiter is given: ClientKey and IdentifierKey of the source. */
  function KeyOf(bucket: Bucket): string {
    match bucket
    case ClientBucket(class_, clientIP) => "rl:" + Join(ClassName(class_), clientIP)
    case IdentifierBucket(hash) => "rl:" + Join(ClassName(AuthOTPRequest), "id:" + hash)
  }

  /** The class names are part of the keys, which other gateways sharing the limiter's storage see. */
  lemma ClassTexts()
    ensures ClassName(AuthOTPRequest) == "auth_otp_request" && ClassName(AuthOTPVerify) == "auth_otp_verify"
    ensures ClassName(AuthPassword) == "auth_password" && ClassName(AuthRefresh) == "auth_refresh"
    ensures ClassName(OwnershipChallenge) == "system_ownership_challenge"
    ensures ClassName(OwnershipVerify) == "system_ownership_verify"
    ensures ClassName(DevOnboardClaim) == "dev_onboard_claim" && ClassName(OnboardClaim) == "onboard_claim"
    ensures ClassName(AdminChallenge) == "admin_challenge" && ClassName(AdminVerify) == "admin_verify"
  {
  }

  lemma ClientKeyText(class_: RouteClass, clientIP: string)
    ensures KeyOf(ClientBucket(class_, clientIP)) == "rl:" + ClassName(class_) + ":" + clientIP
  {
    JoinAfter("rl:", ClassName(class_), clientIP);
  }

  lemma IdentifierKeyText(hash: string)
    ensures KeyOf(IdentifierBucket(hash)) == "rl:auth_otp_request:id:" + hash
  {
    JoinAfter("rl:", "auth_otp_request", "id:" + hash);
    IdentifierPrefix();
    Regroup("rl:" + "auth_otp_request" + ":", "id:", hash);
  }

  lemma IdentifierPrefix()
    ensures "rl:" + "auth_otp_request" + ":" + "id:" == "rl:auth_otp_request:id:"
  {
  }

  /** An identifier's hash is the first eight digest bytes of its normal form, in sixteen hexadecimal digits. */
  lemma HashMeaning(sha256: string -> Digest, identifier: string)
    ensures Spells(HashIdentifier(sha256, identifier), sha256(Normalize(identifier))[..8])
  {
    NormalizeLaws(identifier);
    HexPrefix(sha256(Normalize(identifier)), 8);
    HexSpells(sha256(Normalize(identifier))[..8]);
  }

  lemma ClassNames(a: RouteClass, b: RouteClass)
    ensures ':' !in ClassName(a)
    ensures ClassName(a) == ClassName(b) <==> a == b
  {
    var x, y := ClassName(a), ClassName(b);
    if x == y {
      assert |x| == |y| && x[0] == y[0] && x[|x| - 1] == y[|y| - 1];
      assert |x| == 13 ==> x[5] == y[5];
    }
  }

  /**
    Distinct buckets have distinct keys, except that a client of the OTP request
    class whose address is literally "id:" and a hash shares that identifier's key.
   */
  lemma BucketKeys(a: Bucket, b: Bucket)
    ensures KeyOf(a) == KeyOf(b) <==>
            || a == b
            || (a.ClientBucket? && b.IdentifierBucket? && a.class_ == AuthOTPRequest && a.clientIP == "id:" + b.hash)
            || (b.ClientBucket? && a.IdentifierBucket? && b.class_ == AuthOTPRequest && b.clientIP == "id:" + a.hash)
  {
    var (ca, ra) := Parts(a);
    var (cb, rb) := Parts(b);
    ClassNames(ca, cb);
    ClassNames(cb, ca);
    JoinInjectiveLeft(ClassName(ca), ra, ClassName(cb), rb);
    assert KeyOf(a)[3..] == Join(ClassName(ca), ra) && KeyOf(b)[3..] == Join(ClassName(cb), rb);
    if a.IdentifierBucket? && b.IdentifierBucket? && ra == rb {
      assert ra[3..] == a.hash && rb[3..] == b.hash;
    }
  }

  // ---------- The client address ----------

  /** The text before the first comma. */
  function FirstEntry(s: string): string {
    if s == "" || s[0] == ',' then "" else [s[0]] + FirstEntry(s[1..])
  }

  /** The address the class limit buckets on; the host is the socket's, however it was split from its port. */
  function ClientIP(trustProxy: bool, forwarded: string, host: string): string {
    if trustProxy && forwarded != "" then TrimSpace(FirstEntry(forwarded)) else host
  }

  /** Without a trusted proxy or a forwarded list it is the socket's host, otherwise the trimmed first entry of the list. */
  lemma ClientIPMeaning(trustProxy: bool, first: string, rest: string, host: string)
    requires ',' !in first
    ensures ClientIP(false, first + rest, host) == ClientIP(trustProxy, "", host) == host
    ensures first != "" ==> ClientIP(true, first, host) == TrimSpace(first)
    ensures ClientIP(true, first + "," + rest, host) == TrimSpace(first)
  {
    NoComma(first);
    EntryEnds(first, rest);
  }

  lemma {:induction false} EntryEnds(first: string, rest: string)
    requires ',' !in first
    ensures FirstEntry(first + "," + rest) == first
  {
    if first != "" {
      EntryEnds(first[1..], rest);
      assert (first + "," + rest)[1..] == first[1..] + "," + rest;
    }
  }

  lemma {:induction false} NoComma(s: string)
    requires ',' !in s
    ensures FirstEntry(s) == s
  {
    if s != "" {
      NoComma(s[1..]);
    }
  }

  lemma {:induction false} HexIsPlain(bytes: seq<int>)
    requires forall i :: 0 <= i < |bytes| ==> 0 <= bytes[i] < 256
    ensures forall i :: 0 <= i < |Hex(bytes)| ==> !IsBlank(Hex(bytes)[i]) && Hex(bytes)[i] != ','
  {
    if bytes != [] {
      HexIsPlain(bytes[1..]);
    }
  }

  /**
    The exception is reachable: behind a trusted proxy, a forwarded address spelling
    an identifier's hash puts its client on that identifier's key.
   */
  lemma ForwardedClientSharesKey(sha256: string -> Digest, identifier: string, host: string)
    ensures var forwarded := "id:" + HashIdentifier(sha256, identifier);
            && KeyOf(ClientBucket(AuthOTPRequest, ClientIP(true, forwarded, host))) ==
               KeyOf(IdentifierBucketOf(sha256, identifier))
            && ClientBucket(AuthOTPRequest, ClientIP(true, forwarded, host)) != IdentifierBucketOf(sha256, identifier)
  {
    var hash := HashIdentifier(sha256, identifier);
    HexIsPlain(sha256(ToLower(TrimSpace(identifier))));
    NoComma("id:" + hash);
    TrimPadded("", "id:" + hash, "");
    assert "" + ("id:" + hash) + "" == "id:" + hash;
    BucketKeys(ClientBucket(AuthOTPRequest, "id:" + hash), IdentifierBucket(hash));
  }

  /** The class and the remainder a key joins. */
  function Parts(bucket: Bucket): (RouteClass, string) {
    match bucket
    case ClientBucket(class_, clientIP) => (class_, clientIP)
    case IdentifierBucket(hash) => (AuthOTPRequest, "id:" + hash)
  }

  /**
    Two identifiers share a bucket exactly when the digests of their normal forms
    agree on the first eight bytes; case and padding never separate them.
   */
  lemma SharedBucket(sha256: string -> Digest, a: string, b: string)
    ensures IdentifierBucketOf(sha256, a) == IdentifierBucketOf(sha256, b) <==>
            sha256(Normalize(a))[..8] == sha256(Normalize(b))[..8]
    ensures Alike(a, b) ==> IdentifierBucketOf(sha256, a) == IdentifierBucketOf(sha256, b)
  {
    NormalizeMeaning(a, b);
    NormalizeLaws(a);
    NormalizeLaws(b);
    var da, db := sha256(Normalize(a)), sha256(Normalize(b));
    HexPrefix(da, 8);
    HexPrefix(db, 8);
    HexInjective(da[..8], db[..8]);
  }

  /** Identifiers with one normal form share a bucket, and are blank together. */
  lemma SameNormalFormSameBucket(sha256: string -> Digest, a: string, b: string)
    requires Normalize(a) == Normalize(b)
    ensures IdentifierBucketOf(sha256, a) == IdentifierBucketOf(sha256, b)
    ensures TrimSpace(a) == "" <==> Normalize(b) == ""
  {
    NormalizeLaws(a);
    NormalizeLaws(b);
    assert |ToLower(TrimSpace(a))| == |TrimSpace(a)|;
  }

  /** The bucket of an address is the bucket of its normal form. */
  lemma NormalFormBucket(sha256: string -> Digest, a: string)
    ensures IdentifierBucketOf(sha256, Normalize(a)) == IdentifierBucketOf(sha256, a)
  {
    NormalizeLaws(a);
  }

  // ---------- Outcomes ----------

  /** One decision; resetAt and retryAfter are in nanoseconds. */
  datatype Decision = Decision(allowed: bool, limit: int, remaining: int, resetAt: int, retryAfter: int)

  /** What the limiter port returns: an error, or a decision. */
  datatype Answer = Failed | Decided(decision: Decision) {
    predicate Granted() {
      Decided? && decision.allowed
    }
  }

  /** Duration.Seconds truncated to an int, as writeLimitError computes it. */
  function WholeSeconds(duration: int): int {
    if duration >= 0 then duration / SECOND else -((-duration) / SECOND)
  }

  function RetrySeconds(decision: Decision): (seconds: int)
    ensures seconds >= 1
    ensures decision.retryAfter < 1_000_000_000 ==> seconds == 1
    ensures decision.retryAfter >= 1_000_000_000 ==>
              seconds * 1_000_000_000 <= decision.retryAfter < (seconds + 1) * 1_000_000_000
  {
    var seconds := WholeSeconds(decision.retryAfter);
    if seconds < 1 then 1 else seconds
  }
}
