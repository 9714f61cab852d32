/** The in-memory stores (internal/infrastructure/memory/memory.go) and the recorded outside ports. */
module Stores {
  import opened Edge
  import opened Onboarding
  import opened Ownership
  import opened Pipeline
  import opened RateLimit
  import opened Wrappers

  class Challenges {
    var items: ChallengeMap

    constructor ()
      ensures items == map[]
    {
      items := map[];
    }

    method Save(email: string, challenge: Challenge)
      modifies this
      ensures items == old(items)[email := challenge]
    {
      items := items[email := challenge];
    }

    /** Compare and remove: a rejected challenge stays stored. */
    method Confirm(email: string, accept: Challenge -> bool) returns (confirmed: Option<Challenge>)
      modifies this
      ensures confirmed.Some? <==> email in old(items) && accept(old(items)[email])
      ensures confirmed.Some? ==> confirmed.value == old(items)[email] && items == old(items) - {email}
      ensures confirmed.None? ==> items == old(items)
    {
      if email !in items || !accept(items[email]) {
        return None;
      }
      var challenge := items[email];
      items := items - {email};
      return Some(challenge);
    }
  }

  class Claims {
    var items: ClaimMap

    constructor ()
      ensures items == map[]
    {
      items := map[];
    }

    method Get(key: string) returns (found: Option<ClaimResult>)
      ensures found == if key in items then Some(items[key]) else None
    {
      if key in items {
        return Some(items[key]);
      }
      return None;
    }

    method Put(key: string, result: ClaimResult)
      modifies this
      ensures items == old(items)[key := result]
    {
      items := items[key := result];
    }
  }

  /** The limiter port: it may answer anything, and every call is recorded. */
  class Limiter {
    var calls: seq<LimiterCall>

    constructor ()
      ensures calls == []
    {
      calls := [];
    }

    method Allow(bucket: Bucket, policy: Policy, answer: Answer) returns (given: Answer)
      modifies this
      ensures given == answer && calls == old(calls) + [LimiterCall(bucket, policy, answer)]
    {
      calls := calls + [LimiterCall(bucket, policy, answer)];
      given := answer;
    }
  }

  /** The upstream OTP call: it may answer anything, and every call is recorded. */
  class Upstream {
    var sent: seq<OTPRequest>

    constructor ()
      ensures sent == []
    {
      sent := [];
    }

    method RequestOTP(body: OTPRequest, answer: UpstreamAnswer) returns (given: UpstreamAnswer)
      modifies this
      ensures given == answer && sent == old(sent) + [body]
    {
      sent := sent + [body];
      given := answer;
    }
  }
}
