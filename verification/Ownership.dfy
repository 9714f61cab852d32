/** Ownership challenges: entities and rules (internal/domain/ownership.go). */
module Ownership {
  import opened Crypto
  import opened RateLimit
  import opened Text

  const CHALLENGE_TTL: int := 10 * MINUTE

  /** One in-flight code; times are in nanoseconds. */
  datatype Challenge = Challenge(code: string, expiresAt: int)

  /** The variable part of a proof; its status is constant and its display name never set. */
  datatype OwnershipProof = OwnershipProof(email: string, keyFingerprint: string, verifiedAt: int)

  /** A challenge issued at this instant. */
  function IssuedAt(code: string, now: int): Challenge {
    Challenge(code, now + CHALLENGE_TTL)
  }

  /** The store under its mutex: challenges by normalized email. */
  type ChallengeMap = map<string, Challenge>

  predicate ValidEmail(email: string) {
    email != "" && '@' in email
  }

  /** The acceptance rule VerifyChallenge hands to the store. */
  predicate Accepts(candidate: Challenge, code: string, now: int) {
    candidate.code == code && now <= candidate.expiresAt
  }

  /** Whether a compare-and-remove of this code at this instant succeeds. */
  predicate Confirms(store: ChallengeMap, email: string, code: string, now: int) {
    email in store && Accepts(store[email], code, now)
  }

  function KeyFingerprint(prims: Primitives, email: string, code: string, at: int): string {
    Hex(prims.sha256(Join(Join(email, code), prims.timeString(at)))[..16])
  }

  function ProofOf(prims: Primitives, email: string, code: string, now: int): OwnershipProof {
    OwnershipProof(email, KeyFingerprint(prims, email, code, now), now)
  }

  /** A challenge lives for ten minutes. */
  lemma ChallengeLifetime(code: string, now: int)
    ensures IssuedAt(code, now) == Challenge(code, now + 600_000_000_000)
  {
  }

  /** A proof's fingerprint is the first sixteen digest bytes of email, code and time joined by colons, in hexadecimal. */
  lemma ProofMeaning(prims: Primitives, email: string, code: string, now: int)
    ensures var proof := ProofOf(prims, email, code, now);
            && proof.email == email && proof.verifiedAt == now
            && Spells(proof.keyFingerprint, prims.sha256(email + ":" + code + ":" + prims.timeString(now))[..16])
  {
    assert Join(Join(email, code), prims.timeString(now)) == email + ":" + code + ":" + prims.timeString(now);
    HexSpells(prims.sha256(email + ":" + code + ":" + prims.timeString(now))[..16]);
  }
}
