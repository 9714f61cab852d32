/** Theorems about every stack of token layers and every request through it. */
module StackTheorems {
  import opened Audit
  import opened Middleware
  import opened Text
  import opened Wrappers

  // ---------- Enrichment ----------

  /** Where claims make their bearer staff, the two subject fallbacks agree. */
  lemma SubjectsAgree(claims: Claims)
    requires StaffClaims(claims)
    ensures StaffGateSubject(claims) == Subject(claims)
  {
  }

  /** Enriching twice with one token is enriching once. */
  lemma EnrichIdempotent(ctx: Context, claims: Claims, subject: string)
    ensures Enrich(Enrich(ctx, claims, subject), claims, subject) == Enrich(ctx, claims, subject)
  {
  }

  /** The context every layer agrees on for these claims. */
  function Enriched(claims: Claims): Context {
    Enrich(EMPTY, claims, Subject(claims))
  }

  /**
    What the context readers return for verified claims: the subject for everyone,
    and the staff values for staff only.
   */
  lemma EnrichedReveals(claims: Claims)
    ensures var ctx := Enriched(claims);
            && OrEmpty(ctx.userID) == (if StrClaim(claims, Sub) != "" then StrClaim(claims, Sub) else StrClaim(claims, StaffSubject))
            && (IsTrue(ctx.isStaff) <==> StrClaim(claims, StaffSubject) != "" || FlagClaim(claims, IsStaff))
            && (!IsTrue(ctx.isStaff) ==> ctx == EMPTY.(userID := ctx.userID, isStaff := Some(false)))
            && (IsTrue(ctx.isStaff) ==>
                  && OrEmpty(ctx.staffSubject) ==
                     (if StrClaim(claims, StaffSubject) != "" then StrClaim(claims, StaffSubject) else StrClaim(claims, Sub))
                  && (IsTrue(ctx.breakGlass) <==> FlagClaim(claims, BreakGlass))
                  && OrEmpty(ctx.reason) == StrClaim(claims, Reason)
                  && ctx.identity == Some(StaffOf(claims)))
            && (ActorOf(ctx) == "" <==> StrClaim(claims, Sub) == "" && StrClaim(claims, StaffSubject) == "")
  {
  }

  predicate IsAuth(layer: Layer) {
    !layer.AuditHook?
  }

  predicate HasLayer(stack: seq<Layer>, layer: Layer) {
    layer in stack
  }

  predicate HasAuth(stack: seq<Layer>) {
    exists i :: 0 <= i < |stack| && IsAuth(stack[i])
  }

  /** The request carries a bearer token that is not an API token, and these are its verified claims. */
  predicate Verified(cfg: Config, o: Oracle, req: Request, claims: Claims) {
    && Configured(cfg) && Bearer(req.authorization).Some? && !IsAPIToken(Bearer(req.authorization).value)
    && ParseToken(cfg, o, Bearer(req.authorization).value) == Some(claims)
  }

  /** The request carries a bearer token that is not an API token. */
  predicate CarriesJWT(req: Request) {
    Bearer(req.authorization).Some? && !IsAPIToken(Bearer(req.authorization).value)
  }

  /** One layer's decision on a verified request, from the empty or the enriched context. */
  lemma VerifiedAdmission(cfg: Config, o: Oracle, layer: Layer, below: nat, ctx: Context, req: Request, h: string, claims: Claims)
    requires Verified(cfg, o, req, claims) && (ctx == EMPTY || ctx == Enriched(claims))
    ensures Admit(cfg, o, layer, below, ctx, req, h) ==
            if layer.AuditHook? then Pass(ctx, h)
            else if layer.RequireStaff? && !StaffClaims(claims) then Reject(403)
            else Pass(Enriched(claims), if layer.Dual? then Subject(claims) else h)
  {
    EnrichIdempotent(EMPTY, claims, Subject(claims));
    if StaffClaims(claims) {
      SubjectsAgree(claims);
    }
  }

  // ---------- What the endpoint sees ----------

  predicate Blocks(stack: seq<Layer>, claims: Claims) {
    HasLayer(stack, RequireStaff) && !StaffClaims(claims)
  }

  /** A verified request, from either context: reached or not, and with what. */
  lemma {:induction false} VerifiedServe(cfg: Config, o: Oracle, stack: seq<Layer>, end: Endpoint, ctx: Context, req: Request, h: string, claims: Claims)
    requires Verified(cfg, o, req, claims) && (ctx == EMPTY || ctx == Enriched(claims))
    ensures Serve(cfg, o, stack, end, ctx, req, h).seen ==
            if Blocks(stack, claims) then None
            else Some(Seen(if HasAuth(stack) then Enriched(claims) else ctx,
                           if HasLayer(stack, Dual) then Subject(claims) else h))
    ensures Blocks(stack, claims) ==> Serve(cfg, o, stack, end, ctx, req, h).status == 403
  {
    if stack != [] {
      VerifiedAdmission(cfg, o, stack[0], |stack| - 1, ctx, req, h, claims);
      assert stack == [stack[0]] + stack[1..];
      assert HasAuth(stack) <==> IsAuth(stack[0]) || HasAuth(stack[1..]) by {
        if HasAuth(stack[1..]) {
          var i :| 0 <= i < |stack[1..]| && IsAuth(stack[1..][i]);
          assert IsAuth(stack[i + 1]);
        }
        if i :| 0 <= i < |stack| && IsAuth(stack[i]) && !IsAuth(stack[0]) {
          assert IsAuth(stack[1..][i - 1]);
        }
      }
      match Admit(cfg, o, stack[0], |stack| - 1, ctx, req, h)
      case Reject(_) =>
      case Pass(ctx', h') => VerifiedServe(cfg, o, stack[1..], end, ctx', req, h', claims);
    }
  }

  /** Without verified claims, no JWT request gets past an authenticating layer. */
  lemma {:induction false} UnverifiedServe(cfg: Config, o: Oracle, stack: seq<Layer>, end: Endpoint, req: Request, h: string)
    requires IsRefused(cfg, o, req)
    ensures var served := Serve(cfg, o, stack, end, EMPTY, req, h);
            && served.seen == (if HasAuth(stack) then None else Some(Seen(EMPTY, h)))
            && served.written == []
            && (HasAuth(stack) ==> served.status == if Configured(cfg) then 401 else 500)
  {
    if stack != [] {
      if IsAuth(stack[0]) {
        assert HasAuth(stack);
      } else {
        UnverifiedServe(cfg, o, stack[1..], end, req, h);
        if HasAuth(stack[1..]) {
          var i :| 0 <= i < |stack[1..]| && IsAuth(stack[1..][i]);
          assert IsAuth(stack[i + 1]);
        }
        if i :| 0 <= i < |stack| && IsAuth(stack[i]) {
          assert IsAuth(stack[1..][i - 1]);
        }
      }
    }
  }

  /** The request can pass no authenticating layer: no secret, no bearer token, or one that nothing verifies. */
  predicate IsRefused(cfg: Config, o: Oracle, req: Request) {
    || !Configured(cfg)
    || Bearer(req.authorization).None?
    || (CarriesJWT(req) && ParseToken(cfg, o, Bearer(req.authorization).value).None?)
  }

  /**
    Whatever the stack's depth and order, an endpoint that is reached with a JWT
    request sees the context of exactly one enrichment, or the empty one if nothing
    in the stack authenticates; and below a Dual its X-User-Id names that user.
   */
  lemma EndpointSeesOneEnrichment(cfg: Config, o: Oracle, stack: seq<Layer>, end: Endpoint, req: Request)
    requires CarriesJWT(req) && Arriving(cfg, o, stack, end, req).seen.Some?
    ensures var seen := Arriving(cfg, o, stack, end, req).seen.value;
            var claims := ParseToken(cfg, o, Bearer(req.authorization).value);
            && (HasAuth(stack) ==> claims.Some? && seen.ctx == Enriched(claims.value))
            && (!HasAuth(stack) ==> seen.ctx == EMPTY)
            && seen.userHeader == if HasLayer(stack, Dual) then OrEmpty(seen.ctx.userID) else req.userHeader
  {
    var claims := ParseToken(cfg, o, Bearer(req.authorization).value);
    if IsRefused(cfg, o, req) {
      UnverifiedServe(cfg, o, stack, end, req, req.userHeader);
    } else {
      VerifiedServe(cfg, o, stack, end, EMPTY, req, req.userHeader, claims.value);
    }
    if HasLayer(stack, Dual) {
      var i :| 0 <= i < |stack| && stack[i] == Dual;
      assert IsAuth(stack[i]);
    }
  }

  // ---------- Staff-only endpoints ----------

  /**
    Behind at least one RequireStaff, a JWT request reaches the endpoint if and only
    if some secret is configured, a configured secret verifies the token, and its
    claims report staff; otherwise it is answered 500, 401 or 403 in that order.
   */
  lemma StaffReachedExactlyWhen(cfg: Config, o: Oracle, stack: seq<Layer>, end: Endpoint, req: Request)
    requires HasLayer(stack, RequireStaff)
    requires Bearer(req.authorization).Some? ==> !IsAPIToken(Bearer(req.authorization).value)
    ensures Arriving(cfg, o, stack, end, req).seen.Some? <==>
            && Configured(cfg) && Bearer(req.authorization).Some?
            && var claims := ParseToken(cfg, o, Bearer(req.authorization).value);
            && claims.Some? && StaffOf(claims.value).isStaff
    ensures var served := Arriving(cfg, o, stack, end, req);
            served.seen.None? ==>
              served.status ==
              if !Configured(cfg) then 500
              else if Bearer(req.authorization).None? || ParseToken(cfg, o, Bearer(req.authorization).value).None? then 401
              else 403
  {
    var i :| 0 <= i < |stack| && stack[i] == RequireStaff;
    assert IsAuth(stack[i]);
    if IsRefused(cfg, o, req) {
      UnverifiedServe(cfg, o, stack, end, req, req.userHeader);
    } else {
      var claims := ParseToken(cfg, o, Bearer(req.authorization).value);
      VerifiedServe(cfg, o, stack, end, EMPTY, req, req.userHeader, claims.value);
    }
  }

  /** An API token never gets past a RequireStaff, wherever it stands, from any context that is not staff. */
  lemma {:induction false} APITokenNeverReachesStaff(cfg: Config, o: Oracle, stack: seq<Layer>, end: Endpoint, ctx: Context, req: Request, h: string)
    requires RejectsAPITokens(o) && !IsTrue(ctx.isStaff)
    requires Bearer(req.authorization).Some? && IsAPIToken(Bearer(req.authorization).value)
    requires HasLayer(stack, RequireStaff)
    ensures Serve(cfg, o, stack, end, ctx, req, h).seen.None?
  {
    var token := Bearer(req.authorization).value;
    assert o.verify(cfg.secret, token).None? && o.verify(cfg.staffSecret, token).None?;
    assert ParseToken(cfg, o, token).None?;
    assert stack == [stack[0]] + stack[1..];
    match Admit(cfg, o, stack[0], |stack| - 1, ctx, req, h)
    case Reject(_) =>
    case Pass(ctx', h') => APITokenNeverReachesStaff(cfg, o, stack[1..], end, ctx', req, h');
  }

  // ---------- Audit conservation ----------

  function CountHooks(stack: seq<Layer>): nat {
    if stack == [] then 0 else (if stack[0].AuditHook? then 1 else 0) + CountHooks(stack[1..])
  }

  /** The layers inside the outermost authenticating one. */
  function AfterAuth(stack: seq<Layer>): seq<Layer> {
    if stack == [] then [] else if IsAuth(stack[0]) then stack[1..] else AfterAuth(stack[1..])
  }

  /** The outermost authenticating layer. */
  function FirstAuth(stack: seq<Layer>): Option<Layer> {
    if stack == [] then None else if IsAuth(stack[0]) then Some(stack[0]) else FirstAuth(stack[1..])
  }

  /** The layers outside the outermost RequireStaff. */
  function UpToGate(stack: seq<Layer>): seq<Layer> {
    if stack == [] || stack[0].RequireStaff? then [] else [stack[0]] + UpToGate(stack[1..])
  }

  /**
    The layers entered with the bearer's identity in the context: those inside the
    outermost authenticating layer and, for anyone but staff, outside the next
    RequireStaff.
   */
  function Identified(stack: seq<Layer>, claims: Claims): seq<Layer> {
    if StaffClaims(claims) then AfterAuth(stack)
    else if FirstAuth(stack) == Some(RequireStaff) then []
    else UpToGate(AfterAuth(stack))
  }

  function Repeat(entries: seq<AuditEntry>, n: nat): seq<AuditEntry> {
    if n == 0 then [] else Repeat(entries, n - 1) + entries
  }

  /** What the endpoint writes, if the request gets to it. */
  function EndWrites(cfg: Config, stack: seq<Layer>, end: Endpoint, req: Request, claims: Claims): seq<AuditEntry> {
    if Blocks(stack, claims) then [] else EndpointWrites(cfg, end, Enriched(claims), req)
  }

  lemma {:induction false} EnrichedWrites(cfg: Config, o: Oracle, stack: seq<Layer>, end: Endpoint, req: Request, h: string, claims: Claims)
    requires Verified(cfg, o, req, claims)
    ensures Serve(cfg, o, stack, end, Enriched(claims), req, h).written ==
            EndWrites(cfg, stack, end, req, claims) +
            Repeat(HookWrites(cfg, Enriched(claims), req), CountHooks(if StaffClaims(claims) then stack else UpToGate(stack)))
  {
    if stack != [] {
      var ctx, rest := Enriched(claims), stack[1..];
      VerifiedAdmission(cfg, o, stack[0], |stack| - 1, ctx, req, h, claims);
      assert stack == [stack[0]] + rest;
      if !(stack[0].RequireStaff? && !StaffClaims(claims)) {
        assert Blocks(stack, claims) == Blocks(rest, claims);
        if !StaffClaims(claims) {
          assert UpToGate(stack)[1..] == UpToGate(rest);
        }
        EnrichedWrites(cfg, o, rest, end, req, if stack[0].Dual? then Subject(claims) else h, claims);
      }
    }
  }

  lemma {:induction false} EmptyWrites(cfg: Config, o: Oracle, stack: seq<Layer>, end: Endpoint, req: Request, h: string, claims: Claims)
    requires Verified(cfg, o, req, claims)
    ensures Serve(cfg, o, stack, end, EMPTY, req, h).written ==
            (if FirstAuth(stack).Some? then EndWrites(cfg, stack, end, req, claims) else []) +
            Repeat(HookWrites(cfg, Enriched(claims), req), CountHooks(Identified(stack, claims)))
  {
    if stack != [] {
      var rest := stack[1..];
      VerifiedAdmission(cfg, o, stack[0], |stack| - 1, EMPTY, req, h, claims);
      assert stack == [stack[0]] + rest;
      if stack[0].AuditHook? {
        assert Blocks(stack, claims) == Blocks(rest, claims);
        EmptyWrites(cfg, o, rest, end, req, h, claims);
      } else if !(stack[0].RequireStaff? && !StaffClaims(claims)) {
        assert Blocks(stack, claims) == Blocks(rest, claims);
        EnrichedWrites(cfg, o, rest, end, req, if stack[0].Dual? then Subject(claims) else h, claims);
      }
    }
  }

  /**
    Conservation of audit entries for a verified request through any stack: first
    the break-glass entry, exactly if break-glass was granted at the endpoint; then
    one identical entry for each AuditHook the request entered with its identity in
    the context, provided that identity names an actor; and nothing else.
   */
  lemma AuditConservation(cfg: Config, o: Oracle, stack: seq<Layer>, end: Endpoint, req: Request, claims: Claims)
    requires Verified(cfg, o, req, claims) && cfg.audited
    ensures var written, ctx := Arriving(cfg, o, stack, end, req).written, Enriched(claims);
            var granted := end.StaffBreakGlass? && FirstAuth(stack).Some? && !Blocks(stack, claims) && BreakGlassGranted(ctx);
            var hooks := if ActorOf(ctx) == "" then 0 else CountHooks(Identified(stack, claims));
            && |written| == (if granted then 1 else 0) + hooks
            && (granted ==> written[0] == BreakGlassEntry(ctx, req))
            && forall i :: |written| - hooks <= i < |written| ==> written[i] == HookEntry(ctx, req)
  {
    var ctx := Enriched(claims);
    var n := CountHooks(Identified(stack, claims));
    EmptyWrites(cfg, o, stack, end, req, req.userHeader, claims);
    RepeatShape(HookWrites(cfg, ctx, req), n);
    assert |HookWrites(cfg, ctx, req)| * n == if ActorOf(ctx) == "" then 0 else n;
  }

  lemma {:induction false} RepeatShape(entries: seq<AuditEntry>, n: nat)
    requires |entries| <= 1
    ensures |Repeat(entries, n)| == |entries| * n
    ensures forall i :: 0 <= i < |Repeat(entries, n)| ==> entries != [] && Repeat(entries, n)[i] == entries[0]
  {
    if n > 0 {
      RepeatShape(entries, n - 1);
    }
  }

  /** The layers a request enters, outermost first, each with the context around it. */
  function Entered(cfg: Config, o: Oracle, stack: seq<Layer>, ctx: Context, req: Request, h: string): seq<(Layer, Context)> {
    if stack == [] then []
    else
      [(stack[0], ctx)] +
      match Admit(cfg, o, stack[0], |stack| - 1, ctx, req, h)
      case Reject(_) => []
      case Pass(ctx', h') => Entered(cfg, o, stack[1..], ctx', req, h')
  }

  /** The hooks among entered layers write on the way out: the last entered first. */
  function OnTheWayOut(cfg: Config, entered: seq<(Layer, Context)>, req: Request): seq<AuditEntry> {
    if entered == [] then []
    else
      var (layer, ctx) := entered[|entered| - 1];
      (if layer.AuditHook? then HookWrites(cfg, ctx, req) else []) + OnTheWayOut(cfg, entered[..|entered| - 1], req)
  }

  lemma {:induction false} OnTheWayOutFirst(cfg: Config, first: (Layer, Context), rest: seq<(Layer, Context)>, req: Request)
    ensures OnTheWayOut(cfg, [first] + rest, req) ==
            OnTheWayOut(cfg, rest, req) + if first.0.AuditHook? then HookWrites(cfg, first.1, req) else []
  {
    var all := [first] + rest;
    if rest == [] {
      assert all[..|all| - 1] == [];
    } else {
      var k := |rest| - 1;
      assert all[..|all| - 1] == [first] + rest[..k];
      OnTheWayOutFirst(cfg, first, rest[..k], req);
    }
  }

  /**
    For any token and any context: the endpoint writes first, then the hooks the
    request entered, inner before outer, each from the context around it.
   */
  lemma {:induction false} InnerHooksWriteFirst(cfg: Config, o: Oracle, stack: seq<Layer>, end: Endpoint, ctx: Context, req: Request, h: string)
    ensures var served := Serve(cfg, o, stack, end, ctx, req, h);
            served.written ==
            (if served.seen.Some? then EndpointWrites(cfg, end, served.seen.value.ctx, req) else []) +
            OnTheWayOut(cfg, Entered(cfg, o, stack, ctx, req, h), req)
  {
    if stack != [] {
      match Admit(cfg, o, stack[0], |stack| - 1, ctx, req, h)
      case Reject(_) => OnTheWayOutFirst(cfg, (stack[0], ctx), [], req);
      case Pass(ctx', h') =>
        InnerHooksWriteFirst(cfg, o, stack[1..], end, ctx', req, h');
        OnTheWayOutFirst(cfg, (stack[0], ctx), Entered(cfg, o, stack[1..], ctx', req, h'), req);
    }
  }

  // ---------- Coherence of entries ----------

  predicate Coherent(e: AuditEntry) {
    && (e.actorType == StaffActor <==> e.isStaff)
    && (e.breakGlass ==> e.isStaff)
    && (e.reason != "" ==> e.isStaff)
    && (e.action.Requested? ==> e.actor != "")
    && (e.action == BreakGlassAccess ==> e.isStaff && e.breakGlass && e.reason != "")
  }

  predicate AllCoherent(entries: seq<AuditEntry>) {
    forall i :: 0 <= i < |entries| ==> Coherent(entries[i])
  }

  /** No staff values in the context. */
  predicate StaffFree(ctx: Context) {
    !IsTrue(ctx.isStaff) && ctx.breakGlass.None? && ctx.reason.None?
  }

  lemma {:induction false} APITokenEntries(cfg: Config, o: Oracle, stack: seq<Layer>, end: Endpoint, ctx: Context, req: Request, h: string)
    requires RejectsAPITokens(o) && StaffFree(ctx)
    requires Bearer(req.authorization).Some? && IsAPIToken(Bearer(req.authorization).value)
    ensures AllCoherent(Serve(cfg, o, stack, end, ctx, req, h).written)
  {
    if stack != [] {
      var token := Bearer(req.authorization).value;
      assert o.verify(cfg.secret, token).None? && o.verify(cfg.staffSecret, token).None?;
      assert ParseToken(cfg, o, token).None?;
      match Admit(cfg, o, stack[0], |stack| - 1, ctx, req, h)
      case Reject(_) =>
      case Pass(ctx', h') => APITokenEntries(cfg, o, stack[1..], end, ctx', req, h');
    }
  }

  /** Every entry any request writes through any stack is coherent. */
  lemma EntriesAreCoherent(cfg: Config, o: Oracle, stack: seq<Layer>, end: Endpoint, req: Request)
    requires RejectsAPITokens(o)
    ensures AllCoherent(Arriving(cfg, o, stack, end, req).written)
  {
    if IsRefused(cfg, o, req) {
      UnverifiedServe(cfg, o, stack, end, req, req.userHeader);
    } else if IsAPIToken(Bearer(req.authorization).value) {
      APITokenEntries(cfg, o, stack, end, EMPTY, req, req.userHeader);
    } else {
      var claims := ParseToken(cfg, o, Bearer(req.authorization).value).value;
      EmptyWrites(cfg, o, stack, end, req, req.userHeader, claims);
      RepeatShape(HookWrites(cfg, Enriched(claims), req), CountHooks(Identified(stack, claims)));
    }
  }

  /**
    A granted break-glass access is recorded without an actor, and by no AuditHook,
    exactly when the token names its bearer by neither claim.
   */
  lemma UnnamedBreakGlassExactlyWhen(cfg: Config, o: Oracle, stack: seq<Layer>, req: Request, claims: Claims)
    requires Verified(cfg, o, req, claims) && cfg.audited && FirstAuth(stack).Some?
    requires StaffClaims(claims) && StrClaim(claims, Reason) != ""
    ensures var written := Arriving(cfg, o, stack, StaffBreakGlass, req).written;
            && |written| >= 1 && written[0].action == BreakGlassAccess
            && (written[0].actor == "" <==> StrClaim(claims, StaffSubject) == "" && StrClaim(claims, Sub) == "")
            && (written[0].actor == "" ==> |written| == 1)
  {
    AuditConservation(cfg, o, stack, StaffBreakGlass, req, claims);
  }

  /** A token that claims only staff status and a reason does leave such a record. */
  lemma UnnamedBreakGlass(cfg: Config, o: Oracle, req: Request)
    requires Verified(cfg, o, req, map[IsStaff := Flag(true), Reason := Str("r")]) && cfg.audited
    ensures var served := Arriving(cfg, o, [RequireStaff, AuditHook], StaffBreakGlass, req);
            && served.status == 200 && |served.written| == 1
            && served.written[0].action == BreakGlassAccess && served.written[0].actor == ""
            && served.written[0].isStaff && served.written[0].reason == "r"
  {
    var claims := map[IsStaff := Flag(true), Reason := Str("r")];
    var stack := [RequireStaff, AuditHook];
    assert StrClaim(claims, Reason) == "r";
    var ctx := Enriched(claims);
    VerifiedAdmission(cfg, o, RequireStaff, 1, EMPTY, req, req.userHeader, claims);
    assert stack[1..] == [AuditHook] && stack[1..][1..] == [];
    assert BreakGlassGranted(ctx) && ActorOf(ctx) == "";
    assert Serve(cfg, o, [], StaffBreakGlass, ctx, req, req.userHeader).status == 200;
    assert Serve(cfg, o, [AuditHook], StaffBreakGlass, ctx, req, req.userHeader).written == [BreakGlassEntry(ctx, req)];
  }

  // ---------- Runs ----------

  /** One request to one mounted stack. */
  datatype Visit = Visit(cfg: Config, o: Oracle, stack: seq<Layer>, end: Endpoint, req: Request) {
    function Written(): seq<AuditEntry> {
      Arriving(cfg, o, stack, end, req).written
    }
  }

  /** The log after serving the visits one after the other. */
  function LogAfter(visits: seq<Visit>, stamps: nat -> Stamp): seq<AuditEntry> {
    if visits == [] then []
    else
      var k := |visits| - 1;
      var before := LogAfter(visits[..k], stamps);
      before + FilledAll(visits[k].Written(), stamps, |before|)
  }

  /** Every entry carries an ID and a time. */
  predicate AllComplete(entries: seq<AuditEntry>) {
    forall i :: 0 <= i < |entries| ==> entries[i].id != "" && entries[i].timestamp.Some?
  }

  /** Recording completes entries and leaves them coherent. */
  lemma StampedAreCoherent(entries: seq<AuditEntry>, stamps: nat -> Stamp, base: nat)
    requires AllCoherent(entries)
    ensures AllCoherent(FilledAll(entries, stamps, base)) && AllComplete(FilledAll(entries, stamps, base))
  {
    forall i | 0 <= i < |entries|
      ensures var e := FilledAll(entries, stamps, base)[i];
              Coherent(e) && e.id != "" && e.timestamp.Some?
    {
      FilledIsComplete(entries[i], stamps(base + i), stamps(base + i));
    }
  }

  /** Every entry of every reachable log is coherent and complete, and no visit alters what was there. */
  lemma {:induction false} ReachableLogs(visits: seq<Visit>, stamps: nat -> Stamp, k: nat)
    requires forall i :: 0 <= i < |visits| ==> RejectsAPITokens(visits[i].o)
    requires k <= |visits|
    ensures AllCoherent(LogAfter(visits, stamps)) && AllComplete(LogAfter(visits, stamps))
    ensures LogAfter(visits[..k], stamps) <= LogAfter(visits, stamps)
  {
    if visits != [] {
      var n := |visits| - 1;
      ReachableLogs(visits[..n], stamps, if k <= n then k else n);
      EntriesAreCoherent(visits[n].cfg, visits[n].o, visits[n].stack, visits[n].end, visits[n].req);
      StampedAreCoherent(visits[n].Written(), stamps, |LogAfter(visits[..n], stamps)|);
      if k <= n {
        assert visits[..n][..k] == visits[..k];
      } else {
        assert visits[..k] == visits;
      }
    }
  }

  // ---------- Concurrent requests ----------

  /** A log entry with the visit that wrote it. */
  datatype Tagged = Tagged(visit: nat, entry: AuditEntry)

  /** The entries of one visit, in log order. */
  function OfVisit(log: seq<Tagged>, v: nat): seq<AuditEntry> {
    if log == [] then []
    else
      var k := |log| - 1;
      OfVisit(log[..k], v) + if log[k].visit == v then [log[k].entry] else []
  }

  /** The log is some interleaving of what the visits write, each keeping its own order. */
  predicate Interleaves(log: seq<Tagged>, visits: seq<Visit>) {
    && (forall i :: 0 <= i < |log| ==> log[i].visit < |visits|)
    && forall v :: 0 <= v < |visits| ==> OfVisit(log, v) == visits[v].Written()
  }

  lemma {:induction false} EntryIsOfItsVisit(log: seq<Tagged>, i: nat)
    requires i < |log|
    ensures log[i].entry in OfVisit(log, log[i].visit)
  {
    var k := |log| - 1;
    if i < k {
      EntryIsOfItsVisit(log[..k], i);
    }
  }

  function Untagged(log: seq<Tagged>): (r: seq<AuditEntry>)
    ensures |r| == |log| && forall i :: 0 <= i < |r| ==> r[i] == log[i].entry
  {
    seq(|log|, i requires 0 <= i < |log| => log[i].entry)
  }

  /**
    The store after any interleaving of concurrent requests: its entries, stamped as
    they were recorded, are coherent and complete, and every earlier state of it is
    a prefix.
   */
  lemma InterleavedLogsAreCoherent(log: seq<Tagged>, visits: seq<Visit>, stamps: nat -> Stamp, k: nat)
    requires Interleaves(log, visits) && k <= |log|
    requires forall v :: 0 <= v < |visits| ==> RejectsAPITokens(visits[v].o)
    ensures var entries := FilledAll(Untagged(log), stamps, 0);
            && AllCoherent(entries) && AllComplete(entries)
            && FilledAll(Untagged(log[..k]), stamps, 0) <= entries
  {
    forall i | 0 <= i < |log| ensures Coherent(log[i].entry) {
      EntryIsOfItsVisit(log, i);
      var v := visits[log[i].visit];
      EntriesAreCoherent(v.cfg, v.o, v.stack, v.end, v.req);
    }
    StampedAreCoherent(Untagged(log), stamps, 0);
  }

  // ---------- Scopes ----------

  /** Whoever may write may read. */
  lemma WriteImpliesRead(write: Method, read: Method, scopes: seq<string>)
    requires NeedsWrite(write) && ScopesAllow(write, scopes)
    ensures ScopesAllow(read, scopes)
  {
    if scopes != [] {
      var i :| 0 <= i < |scopes| && Grants(scopes[i], write);
      assert Grants(scopes[i], read);
    }
  }

  /** Every scope of the first list appears in the second up to case and padding. */
  predicate Covered(a: seq<string>, b: seq<string>) {
    forall i :: 0 <= i < |a| ==> exists j :: 0 <= j < |b| && Normalize(a[i]) == Normalize(b[j])
  }

  /** Adding scopes to a non-empty list, in any order and spelling, never revokes a permission. */
  lemma MoreScopesAllowMore(m: Method, scopes: seq<string>, more: seq<string>)
    requires scopes != [] && ScopesAllow(m, scopes) && Covered(scopes, more)
    ensures ScopesAllow(m, more)
  {
    var i :| 0 <= i < |scopes| && Grants(scopes[i], m);
    var j :| 0 <= j < |more| && Normalize(scopes[i]) == Normalize(more[j]);
    SameNormalFormSameGrant(scopes[i], more[j], m);
  }

  /** Only the set of normal forms matters: order, repetition, case and padding do not. */
  lemma ScopesUpToNormalForm(m: Method, a: seq<string>, b: seq<string>)
    requires a != [] && b != [] && Covered(a, b) && Covered(b, a)
    ensures ScopesAllow(m, a) <==> ScopesAllow(m, b)
  {
    if ScopesAllow(m, a) {
      MoreScopesAllowMore(m, a, b);
    }
    if ScopesAllow(m, b) {
      MoreScopesAllowMore(m, b, a);
    }
  }

  lemma SameNormalFormSameGrant(a: string, b: string, m: Method)
    requires Normalize(a) == Normalize(b)
    ensures Grants(a, m) <==> Grants(b, m)
  {
    NormalizeLaws(a);
    NormalizeLaws(b);
  }
}
