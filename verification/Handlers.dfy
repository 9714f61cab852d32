/** The request pipelines (internal/infrastructure/httpapi/handlers.go and response.go). */
module Handlers {
  import opened Edge
  import opened Onboarding
  import opened Ownership
  import opened RateLimit
  import opened Pipeline
  import opened Service
  import opened Stores
  import opened Text
  import opened Wrappers

  // ---------- The response ----------

  datatype HeaderName = ContentType | RateLimitLimit | RateLimitRemaining | RateLimitReset | RetryAfter

  function WireName(name: HeaderName): string {
    match name
    case ContentType => "Content-Type"
    case RateLimitLimit => "X-RateLimit-Limit"
    case RateLimitRemaining => "X-RateLimit-Remaining"
    case RateLimitReset => "X-RateLimit-Reset"
    case RetryAfter => "Retry-After"
  }

  /** Distinct names are distinct headers, so that a map by name is the header map. */
  lemma HeaderNames(a: HeaderName, b: HeaderName)
    ensures WireName(a) == WireName(b) <==> a == b
  {
  }

  function JSONType(): string {
    "application/json"
  }

  type Header = map<HeaderName, string>

  /** The three X-RateLimit headers of a decision; the reset instant is in whole seconds. */
  function RateHeaders(shown: Option<Decision>): Header {
    match shown
    case None => map[]
    case Some(d) =>
      map[RateLimitLimit := Itoa(d.limit), RateLimitRemaining := Itoa(d.remaining), RateLimitReset := Itoa(d.resetAt / SECOND)]
  }

  function RetryHeader(seconds: Option<int>): Header {
    match seconds
    case None => map[]
    case Some(n) => map[RetryAfter := Itoa(n)]
  }

  function HeadersOf(response: Response): Header {
    (RateHeaders(response.shown) + RetryHeader(response.retryAfter))[ContentType := JSONType()]
  }

  /** The header names of the contract. */
  lemma HeaderTexts()
    ensures WireName(ContentType) == "Content-Type" && WireName(RetryAfter) == "Retry-After"
    ensures WireName(RateLimitLimit) == "X-RateLimit-Limit" && WireName(RateLimitRemaining) == "X-RateLimit-Remaining"
    ensures WireName(RateLimitReset) == "X-RateLimit-Reset"
  {
  }

  /**
    What a response's headers are: JSON always, the three X-RateLimit headers exactly
    for a shown decision, with the reset instant in whole seconds, and Retry-After
    exactly when one is set.
   */
  lemma HeadersTell(response: Response)
    ensures var h := HeadersOf(response);
            && ContentType in h && h[ContentType] == "application/json"
            && (response.shown.None? ==> h.Keys !! {RateLimitLimit, RateLimitRemaining, RateLimitReset})
            && (response.shown.Some? ==>
                  var d := response.shown.value;
                  && {RateLimitLimit, RateLimitRemaining, RateLimitReset} <= h.Keys
                  && h[RateLimitLimit] == Itoa(d.limit) && h[RateLimitRemaining] == Itoa(d.remaining)
                  && exists seconds: int ::
                       && h[RateLimitReset] == Itoa(seconds)
                       && seconds * 1_000_000_000 <= d.resetAt < (seconds + 1) * 1_000_000_000)
            && (RetryAfter in h <==> response.retryAfter.Some?)
            && (RetryAfter in h ==> h[RetryAfter] == Itoa(response.retryAfter.value))
  {
    if response.shown.Some? {
      var seconds := response.shown.value.resetAt / SECOND;
      assert HeadersOf(response)[RateLimitReset] == Itoa(seconds);
    }
  }

  /** The headers reveal the shown decision's limit, remainder and reset second. */
  lemma HeadersReveal(a: Response, b: Response)
    requires HeadersOf(a) == HeadersOf(b)
    ensures a.shown.Some? <==> b.shown.Some?
    ensures a.shown.Some? ==>
              && a.shown.value.limit == b.shown.value.limit
              && a.shown.value.remaining == b.shown.value.remaining
              && a.shown.value.resetAt / SECOND == b.shown.value.resetAt / SECOND
    ensures a.retryAfter == b.retryAfter
  {
    var ha, hb := HeadersOf(a), HeadersOf(b);
    assert RateLimitLimit in ha <==> RateLimitLimit in hb;
    assert RetryAfter in ha <==> RetryAfter in hb;
    if a.shown.Some? {
      ItoaInjective(a.shown.value.limit, b.shown.value.limit);
      ItoaInjective(a.shown.value.remaining, b.shown.value.remaining);
      ItoaInjective(a.shown.value.resetAt / SECOND, b.shown.value.resetAt / SECOND);
      assert ha[RateLimitLimit] == hb[RateLimitLimit] && ha[RateLimitRemaining] == hb[RateLimitRemaining];
      assert ha[RateLimitReset] == hb[RateLimitReset];
    }
    if a.retryAfter.Some? {
      ItoaInjective(a.retryAfter.value, b.retryAfter.value);
      assert ha[RetryAfter] == hb[RetryAfter];
    }
  }

  class ResponseWriter {
    var header: Header
    var statuses: seq<int>
    var payload: Option<Payload>

    constructor ()
      ensures Prepared(None, None)
    {
      header, statuses, payload := map[], [], None;
    }

    /** No status is written yet; the header shows this decision and this Retry-After. */
    predicate Prepared(shown: Option<Decision>, retryAfter: Option<int>)
      reads this
    {
      header == RateHeaders(shown) + RetryHeader(retryAfter) && statuses == [] && payload == None
    }

    /** Exactly this response was written: one status, these headers, this body. */
    predicate Holds(response: Response)
      reads this
    {
      header == HeadersOf(response) && statuses == [response.status] && payload == Some(response.payload)
    }

    method WriteJSON(status: int, body: Payload, ghost shown: Option<Decision>, ghost retryAfter: Option<int>)
      requires Prepared(shown, retryAfter)
      modifies this
      ensures Holds(Response(status, shown, retryAfter, body))
    {
      header := header[ContentType := JSONType()];
      statuses := statuses + [status];
      payload := Some(body);
    }

    method SetRateLimitHeaders(decision: Decision, ghost shown: Option<Decision>)
      requires Prepared(shown, None)
      modifies this
      ensures Prepared(Some(decision), None)
    {
      header := header[RateLimitLimit := Itoa(decision.limit)];
      header := header[RateLimitRemaining := Itoa(decision.remaining)];
      header := header[RateLimitReset := Itoa(decision.resetAt / SECOND)];
      assert header == RateHeaders(Some(decision));
    }

    method SetRetryAfter(seconds: int, ghost shown: Option<Decision>)
      requires Prepared(shown, None)
      modifies this
      ensures Prepared(shown, Some(seconds))
    {
      header := header[RetryAfter := Itoa(seconds)];
    }

    method WriteAppError(error: AppError, ghost shown: Option<Decision>)
      requires Prepared(shown, None)
      modifies this
      ensures Holds(AppFailure(shown, error))
    {
      var status, text := 500, UpstreamError;
      if error.AppError? {
        text := error.text;
        status := StatusOf(error.kind);
      }
      WriteJSON(status, Problem(text), shown, None);
    }

    /** A denied request still carries the remaining budget, and waits at least a second. */
    method WriteLimitError(error: Failure, ghost shown: Option<Decision>)
      requires Prepared(shown, None)
      modifies this
      ensures Holds(FailureResponse(shown, error))
    {
      match error
      case Application(e) => WriteAppError(e, shown);
      case LimiterDown =>
        SetRetryAfter(5, shown);
        WriteJSON(503, Problem(LimiterUnavailable), shown, Some(5));
      case Denied(decision) =>
        SetRateLimitHeaders(decision, shown);
        var seconds := WholeSeconds(decision.retryAfter);
        if seconds < 1 {
          seconds := 1;
        }
        SetRetryAfter(seconds, Some(decision));
        WriteJSON(429, Problem(LimitExceeded), Some(decision), Some(seconds));
    }
  }

  // ---------- The handlers ----------

  class Handlers {
    const app: Application

    constructor (app: Application)
      ensures this.app == app
    {
      this.app := app;
    }

    /** The handler left the service and the response as this outcome says. */
    ghost predicate Reached(outcome: Outcome, w: ResponseWriter)
      reads app.challenges, app.claims, app.limiter, app.upstream, w
    {
      app.Observed() == outcome.world && w.Holds(outcome.response)
    }

    method RequestOTP(body: Option<OTPRequest>, input: Input, w: ResponseWriter, ghost shown: Option<Decision>)
      requires app.Valid() && w.Prepared(shown, None)
      modifies app.limiter, app.upstream, w
      ensures Reached(Handle(app.cfg, old(app.Observed()), shown, Operation.RequestOTP(body), input, 0), w)
    {
      if body.None? {
        w.WriteJSON(400, Problem(InvalidJSONText), shown, None);
        return;
      }
      var receipt := app.RequestOTP(body.value, input);
      match receipt
      case Failure(error) => w.WriteLimitError(error, shown);
      case Success(value) =>
        if value.identifierLimit.Some? {
          w.SetRateLimitHeaders(value.identifierLimit.value, shown);
        }
        w.WriteJSON(200, OTPExpiry(value.expiresAt), Spent(shown, value.identifierLimit), None);
    }

    method Challenge(email: Option<string>, input: Input, now: int, w: ResponseWriter, ghost shown: Option<Decision>)
      requires app.Valid() && w.Prepared(shown, None)
      modifies app.limiter, app.challenges, w
      ensures Reached(Handle(app.cfg, old(app.Observed()), shown, IssueChallenge(email), input, now), w)
    {
      if email.None? {
        w.WriteJSON(400, Problem(InvalidJSONText), shown, None);
        return;
      }
      var receipt := app.Challenge(email.value, input, now);
      match receipt
      case Failure(error) => w.WriteLimitError(error, shown);
      case Success(value) =>
        if value.identifierLimit.Some? {
          w.SetRateLimitHeaders(value.identifierLimit.value, shown);
        }
        w.WriteJSON(200, Dispatched, Spent(shown, value.identifierLimit), None);
    }

    method VerifyChallenge(body: Option<VerifyBody>, ghost input: Input, now: int, w: ResponseWriter, ghost shown: Option<Decision>)
      requires w.Prepared(shown, None)
      modifies app.challenges, w
      ensures Reached(Handle(app.cfg, old(app.Observed()), shown, Operation.VerifyChallenge(body), input, now), w)
    {
      if body.None? {
        w.WriteJSON(400, Problem(InvalidJSONText), shown, None);
        return;
      }
      var proof := app.VerifyChallenge(body.value.email, body.value.code, now);
      match proof
      case Failure(Application(error)) => w.WriteAppError(error, shown);
      case Success(value) => w.WriteJSON(200, Proof(value), shown, None);
    }

    method Claim(claim: Option<ClaimInput>, idempotencyKey: string, ghost input: Input, ghost now: int, w: ResponseWriter, ghost shown: Option<Decision>)
      requires w.Prepared(shown, None)
      modifies app.claims, w
      ensures Reached(Handle(app.cfg, old(app.Observed()), shown, ClaimWorkstation(claim, idempotencyKey), input, now), w)
    {
      if claim.None? {
        w.WriteJSON(400, Problem(InvalidJSONText), shown, None);
        return;
      }
      var result := app.Claim(claim.value, idempotencyKey);
      match result
      case Failure(Application(error)) => w.WriteAppError(error, shown);
      case Success(value) => w.WriteJSON(200, Claimed(value), shown, None);
    }

    method Dispatch(op: Operation, input: Input, now: int, w: ResponseWriter, ghost shown: Option<Decision>)
      requires app.Valid() && w.Prepared(shown, None)
      modifies app.limiter, app.upstream, app.challenges, app.claims, w
      ensures Reached(Handle(app.cfg, old(app.Observed()), shown, op, input, now), w)
    {
      match op
      case RequestOTP(body) => RequestOTP(body, input, w, shown);
      case IssueChallenge(email) => Challenge(email, input, now, w, shown);
      case VerifyChallenge(body) => VerifyChallenge(body, input, now, w, shown);
      case ClaimWorkstation(claim, key) => Claim(claim, key, input, now, w, shown);
    }

    /**
      The wrapped route, from arrival to response: the stores, the outside calls and
      the one response are those of the direct style, for every limiter behaviour.
     */
    method Serve(req: Request, input: Input, now: int, w: ResponseWriter)
      requires app.Valid() && w.Prepared(None, None)
      modifies app.limiter, app.upstream, app.challenges, app.claims, w
      ensures Reached(Route(app.cfg, old(app.Observed()), req, input, now), w)
    {
      if app.limiter == null {
        Dispatch(req.op, input, now, w, None);
        return;
      }
      var decision := app.CheckClassLimit(req.class_, req.clientIP, input.classAnswer);
      match decision
      case Failure(error) => w.WriteLimitError(error, None);
      case Success(d) =>
        w.SetRateLimitHeaders(d, None);
        Dispatch(req.op, input, now, w, Some(d));
    }
  }
}
