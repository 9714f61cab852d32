/** The token layers told by the request's own header, the claims and the scopes. */
module TokenTheorems {
  import opened Audit
  import opened Middleware
  import opened StackTheorems
  import opened Text
  import opened Wrappers

  // ---------- Credentials ----------

  /** A bearer credential is what follows "Bearer " in the header. */
  lemma BearerMeaning(authorization: string, token: string)
    ensures Bearer(authorization) == Some(token) <==> authorization == "Bearer " + token
  {
    PrefixMeaning(authorization, "Bearer ", token);
    PrefixMeaning(authorization, "Bearer ", TrimPrefix(authorization, "Bearer "));
  }

  lemma APITokenMeaning(token: string)
    ensures IsAPIToken(token) <==> exists rest: string :: token == "oat_" + rest
  {
    if IsAPIToken(token) {
      assert token == "oat_" + token[4..];
    }
  }

  /** The secret is configured and verifies the token with these claims. */
  predicate VerifiedBy(o: Oracle, secret: string, token: string, claims: Claims) {
    secret != "" && o.verify(secret, token) == Some(claims)
  }

  /** The claims are those of this token under the configured secrets, the tenant secret first. */
  ghost predicate ClaimsOf(cfg: Config, o: Oracle, token: string, claims: Claims) {
    || VerifiedBy(o, cfg.secret, token, claims)
    || (VerifiedBy(o, cfg.staffSecret, token, claims) && forall c :: !VerifiedBy(o, cfg.secret, token, c))
  }

  /** No configured secret is left out, none is tried that is not configured, and the tenant secret goes first. */
  lemma ParseTokenMeaning(cfg: Config, o: Oracle, token: string, claims: Claims)
    ensures ParseToken(cfg, o, token) == Some(claims) <==> ClaimsOf(cfg, o, token, claims)
  {
    if cfg.secret != "" && o.verify(cfg.secret, token).Some? {
      assert VerifiedBy(o, cfg.secret, token, o.verify(cfg.secret, token).value);
    }
  }

  /** A verified request, told by its header: one configured secret is enough. */
  lemma VerifiedMeaning(cfg: Config, o: Oracle, req: Request, token: string, claims: Claims)
    requires req.authorization == "Bearer " + token
    ensures Verified(cfg, o, req, claims) <==> !("oat_" <= token) && ClaimsOf(cfg, o, token, claims)
  {
    BearerMeaning(req.authorization, token);
    ParseTokenMeaning(cfg, o, token, claims);
  }

  /** Without a bearer credential an authenticating stack answers 401, or 500 exactly when neither secret is set. */
  lemma MissingBearer(cfg: Config, o: Oracle, stack: seq<Layer>, end: Endpoint, req: Request)
    requires HasAuth(stack) && forall token: string :: req.authorization != "Bearer " + token
    ensures Arriving(cfg, o, stack, end, req) ==
            Served(if cfg.secret == "" && cfg.staffSecret == "" then 500 else 401, None, [])
  {
    if Bearer(req.authorization).Some? {
      BearerMeaning(req.authorization, Bearer(req.authorization).value);
    }
    UnverifiedServe(cfg, o, stack, end, req, req.userHeader);
  }

  // ---------- Scopes ----------

  /** One of the scopes is this word, in any case and padding. */
  ghost predicate Holds(scopes: seq<string>, word: string) {
    exists i :: 0 <= i < |scopes| && Alike(scopes[i], word)
  }

  predicate Reads(m: Method) {
    m.GET? || m.HEAD? || m.OPTIONS?
  }

  /** No scopes allow everything; otherwise "write" allows every method and "read" the reading ones. */
  ghost predicate Permits(scopes: seq<string>, m: Method) {
    scopes == [] || Holds(scopes, "write") || (Reads(m) && Holds(scopes, "read"))
  }

  lemma PlainWord(word: string)
    requires NoCapitals(word) && Trimmed(word)
    ensures Normalize(word) == word
  {
    ToLowerMeaning(word, word);
    assert "" + word + "" == word;
    TrimPadded("", word, "");
  }

  lemma ScopeMeaning(scope: string, word: string)
    requires NoCapitals(word) && Trimmed(word)
    ensures ToLower(TrimSpace(scope)) == word <==> Alike(scope, word)
  {
    PlainWord(word);
    NormalizeLaws(scope);
    NormalizeMeaning(scope, word);
  }

  /** The scope rule, for every list and method. */
  lemma ScopesMeaning(m: Method, scopes: seq<string>)
    ensures ScopesAllow(m, scopes) <==> Permits(scopes, m)
  {
    forall i | 0 <= i < |scopes|
      ensures Grants(scopes[i], m) <==> Alike(scopes[i], "write") || (Reads(m) && Alike(scopes[i], "read"))
    {
      ScopeMeaning(scopes[i], "read");
      ScopeMeaning(scopes[i], "write");
    }
  }

  /** A list that holds only "read" permits nothing but reading. */
  lemma ReadOnlyScopes(m: Method, scopes: seq<string>)
    requires scopes != [] && forall i :: 0 <= i < |scopes| ==> Alike(scopes[i], "read")
    ensures ScopesAllow(m, scopes) <==> Reads(m)
  {
    ScopesMeaning(m, scopes);
    PlainWord("read");
    PlainWord("write");
    forall i | 0 <= i < |scopes| ensures !Alike(scopes[i], "write") {
      NormalizeMeaning(scopes[i], "read");
      NormalizeMeaning(scopes[i], "write");
    }
    assert Alike(scopes[0], "read");
  }

  // ---------- API tokens ----------

  /** The request carries an API token. */
  predicate CarriesAPIToken(req: Request) {
    Bearer(req.authorization).Some? && IsAPIToken(Bearer(req.authorization).value)
  }

  /** The upstream knows the token, and its scopes permit the method. */
  ghost predicate Accredited(o: Oracle, below: nat, m: Method) {
    o.validate(below).Some? && Permits(o.validate(below).value.scopes, m)
  }

  /** A Dual hands a known and permitted API token on as its user with its scopes, and answers the others 401 or 403. */
  lemma DualOnAPIToken(cfg: Config, o: Oracle, rest: seq<Layer>, end: Endpoint, ctx: Context, req: Request, h: string)
    requires Configured(cfg) && CarriesAPIToken(req)
    ensures var served, id := Serve(cfg, o, [Dual] + rest, end, ctx, req, h), o.validate(|rest|);
            && (id.None? ==> served == Served(401, None, []))
            && (id.Some? && !Permits(id.value.scopes, req.method_) ==> served == Served(403, None, []))
            && (id.Some? && Permits(id.value.scopes, req.method_) ==>
                  served == Serve(cfg, o, rest, end,
                                  ctx.(userID := Some(id.value.userID), isStaff := Some(false), scopes := Some(id.value.scopes)),
                                  req, id.value.userID))
  {
    if o.validate(|rest|).Some? {
      ScopesMeaning(req.method_, o.validate(|rest|).value.scopes);
    }
    assert ([Dual] + rest)[1..] == rest;
  }

  /** Every Dual of the stack accredits the token. */
  ghost predicate AllAccredit(o: Oracle, stack: seq<Layer>, m: Method) {
    forall i :: 0 <= i < |stack| && stack[i] == Dual ==> Accredited(o, |stack| - 1 - i, m)
  }

  /** The number of layers below the innermost Dual. */
  function BelowLastDual(stack: seq<Layer>): (below: Option<nat>)
    ensures below.Some? ==> below.value < |stack| && stack[|stack| - 1 - below.value] == Dual
    ensures below.None? ==> Dual !in stack
  {
    if stack == [] then None
    else if BelowLastDual(stack[1..]).Some? then BelowLastDual(stack[1..])
    else if stack[0] == Dual then Some(|stack| - 1) else None
  }

  /** What the context and the header hold once the innermost Dual has seen the token. */
  function AsIdentity(ctx: Context, h: string, id: Option<APIIdentity>): Seen {
    match id
    case None => Seen(ctx, h)
    case Some(id) =>
      Seen(ctx.(userID := Some(id.userID), isStaff := Some(false), scopes := Some(id.scopes)), id.userID)
  }

  function LastIdentity(o: Oracle, stack: seq<Layer>): Option<APIIdentity> {
    match BelowLastDual(stack)
    case None => None
    case Some(below) => o.validate(below)
  }

  /** The outermost layer of an accredited stack leaves the rest to settle the identity. */
  lemma InnermostIdentity(o: Oracle, stack: seq<Layer>, ctx: Context, ctx': Context, h: string, h': string, m: Method)
    requires stack != [] && (stack[0] == Dual || stack[0] == AuditHook)
    requires Seen(ctx', h') == if stack[0] == Dual then AsIdentity(ctx, h, o.validate(|stack| - 1)) else Seen(ctx, h)
    ensures AllAccredit(o, stack, m) ==>
              AsIdentity(ctx', h', LastIdentity(o, stack[1..])) == AsIdentity(ctx, h, LastIdentity(o, stack))
  {
    var rest := stack[1..];
    if AllAccredit(o, stack, m) {
      AllAccreditFirst(o, stack, m);
      if BelowLastDual(rest).Some? {
        assert rest[|rest| - 1 - BelowLastDual(rest).value] == Dual;
        assert Accredited(o, BelowLastDual(rest).value, m);
      }
    }
  }

  lemma AllAccreditFirst(o: Oracle, stack: seq<Layer>, m: Method)
    requires stack != []
    ensures AllAccredit(o, stack, m) <==>
            (stack[0] == Dual ==> Accredited(o, |stack| - 1, m)) && AllAccredit(o, stack[1..], m)
  {
    if AllAccredit(o, stack, m) {
      forall i | 0 <= i < |stack[1..]| && stack[1..][i] == Dual ensures Accredited(o, |stack[1..]| - 1 - i, m) {
        assert stack[i + 1] == Dual;
      }
    }
    if (stack[0] == Dual ==> Accredited(o, |stack| - 1, m)) && AllAccredit(o, stack[1..], m) {
      forall i | 0 <= i < |stack| && stack[i] == Dual ensures Accredited(o, |stack| - 1 - i, m) {
        if i > 0 {
          assert stack[1..][i - 1] == Dual;
        }
      }
    }
  }

  /**
    Whatever the stack, a request with an API token reaches the endpoint if and only
    if no JWT or RequireStaff stands in its way, a secret is configured wherever a
    Dual stands, and every Dual's validation knows the token and permits the method;
    then the endpoint sees the identity the innermost Dual was given.
   */
  lemma {:induction false} APITokenReachesExactlyWhen(cfg: Config, o: Oracle, stack: seq<Layer>, end: Endpoint, ctx: Context, req: Request, h: string)
    requires RejectsAPITokens(o) && !IsTrue(ctx.isStaff) && CarriesAPIToken(req)
    ensures var served := Serve(cfg, o, stack, end, ctx, req, h);
            && (served.seen.Some? <==>
                  && !HasLayer(stack, JWT) && !HasLayer(stack, RequireStaff)
                  && (HasLayer(stack, Dual) ==> Configured(cfg)) && AllAccredit(o, stack, req.method_))
            && (served.seen.Some? ==> served.seen.value == AsIdentity(ctx, h, LastIdentity(o, stack)))
  {
    if stack != [] {
      var token := Bearer(req.authorization).value;
      assert o.verify(cfg.secret, token).None? && o.verify(cfg.staffSecret, token).None?;
      assert ParseToken(cfg, o, token).None?;
      assert stack == [stack[0]] + stack[1..];
      AllAccreditFirst(o, stack, req.method_);
      if o.validate(|stack| - 1).Some? {
        ScopesMeaning(req.method_, o.validate(|stack| - 1).value.scopes);
      }
      match Admit(cfg, o, stack[0], |stack| - 1, ctx, req, h)
      case Reject(_) =>
      case Pass(ctx', h') =>
        APITokenReachesExactlyWhen(cfg, o, stack[1..], end, ctx', req, h');
        InnermostIdentity(o, stack, ctx, ctx', h, h', req.method_);
    }
  }

  // ---------- The staff gate and the identity already in the context ----------

  /** RequireStaff lets a staff context through as it is, and answers an identified one that is not staff 403. */
  lemma GateTrustsContext(cfg: Config, o: Oracle, rest: seq<Layer>, end: Endpoint, ctx: Context, req: Request, h: string)
    requires Configured(cfg)
    ensures var served := Serve(cfg, o, [RequireStaff] + rest, end, ctx, req, h);
            && (ctx.isStaff == Some(true) ==> served == Serve(cfg, o, rest, end, ctx, req, h))
            && (ctx.isStaff != Some(true) && ctx.userID.Some? && ctx.userID.value != "" ==> served == Served(403, None, []))
  {
    assert ([RequireStaff] + rest)[1..] == rest;
  }

  // ---------- Statuses ----------

  /** A request that is reached is answered by its endpoint, and only by it. */
  lemma {:induction false} EndpointAnswers(cfg: Config, o: Oracle, stack: seq<Layer>, end: Endpoint, ctx: Context, req: Request, h: string)
    ensures var served := Serve(cfg, o, stack, end, ctx, req, h);
            served.seen.Some? ==> served.status == EndpointStatus(end, served.seen.value.ctx)
  {
    if stack != [] {
      match Admit(cfg, o, stack[0], |stack| - 1, ctx, req, h)
      case Reject(_) =>
      case Pass(ctx', h') => EndpointAnswers(cfg, o, stack[1..], end, ctx', req, h');
    }
  }

  /** The bearer is staff: the token says so, or names a staff subject. */
  predicate IsStaffToken(claims: Claims) {
    StrClaim(claims, StaffSubject) != "" || (IsStaff in claims && claims[IsStaff] == Flag(true))
  }

  /**
    The status a verified token gets through any authenticating stack: 403 without
    staff claims where staff is required, the mounted handler's own otherwise; and at
    the break-glass endpoint 200 exactly for staff with a reason, 400 for staff
    without, 403 for anyone else.
   */
  lemma VerifiedStatus(cfg: Config, o: Oracle, stack: seq<Layer>, end: Endpoint, req: Request, claims: Claims)
    requires Verified(cfg, o, req, claims) && HasAuth(stack)
    ensures Arriving(cfg, o, stack, end, req).status ==
            if HasLayer(stack, RequireStaff) && !IsStaffToken(claims) then 403
            else
              match end
              case Mounted(status) => status
              case StaffBreakGlass =>
                if !IsStaffToken(claims) then 403 else if StrClaim(claims, Reason) == "" then 400 else 200
  {
    VerifiedServe(cfg, o, stack, end, EMPTY, req, req.userHeader, claims);
    EndpointAnswers(cfg, o, stack, end, EMPTY, req, req.userHeader);
    EnrichedReveals(claims);
  }

  // ---------- Without an audit store ----------

  /** Without an audit store nothing is written, whatever the stack, the token and the endpoint. */
  lemma {:induction false} UnauditedWritesNothing(cfg: Config, o: Oracle, stack: seq<Layer>, end: Endpoint, ctx: Context, req: Request, h: string)
    requires !cfg.audited
    ensures Serve(cfg, o, stack, end, ctx, req, h).written == []
  {
    if stack != [] {
      match Admit(cfg, o, stack[0], |stack| - 1, ctx, req, h)
      case Reject(_) =>
      case Pass(ctx', h') => UnauditedWritesNothing(cfg, o, stack[1..], end, ctx', req, h');
    }
  }

  // ---------- What an entry says ----------

  /** The value is the first non-empty one of the list, or empty if all are. */
  predicate IsFirstOf(value: string, list: seq<string>) {
    || (value == "" && forall i :: 0 <= i < |list| ==> list[i] == "")
    || (value != "" && exists i :: 0 <= i < |list| && list[i] == value && forall k :: 0 <= k < i ==> list[k] == "")
  }

  lemma FirstOfThree(a: string, b: string, c: string)
    ensures IsFirstOf(FirstNonEmpty(a, b, c), [a, b, c])
  {
    var list := [a, b, c];
    if a != "" {
      assert list[0] == a;
    } else if b != "" {
      assert list[1] == b;
    } else if c != "" {
      assert list[2] == c;
    }
  }

  /** The staff identity a token yields, field by field; the context holds it for staff only. */
  lemma StaffIdentityTells(claims: Claims)
    ensures var id, staff := StaffOf(claims), IsStaffToken(claims);
            && id.isStaff == staff
            && IsFirstOf(id.staffSubject, if staff then [StrClaim(claims, StaffSubject), StrClaim(claims, Sub)] else [])
            && id.breakGlass == (BreakGlass in claims && claims[BreakGlass] == Flag(true))
            && id.reason == StrClaim(claims, Reason)
            && IsFirstOf(id.targetOrgID, [StrClaim(claims, Org), StrClaim(claims, OrgID), StrClaim(claims, TargetOrg)])
            && Enriched(claims).identity == if staff then Some(id) else None
  {
    FirstOfThree(StrClaim(claims, Org), StrClaim(claims, OrgID), StrClaim(claims, TargetOrg));
    if IsStaffToken(claims) {
      var names := [StrClaim(claims, StaffSubject), StrClaim(claims, Sub)];
      var subject := StaffOf(claims).staffSubject;
      assert subject == names[0] || (names[0] == "" && subject == names[1]);
    }
  }

  /** The organizations an entry can name, in order of preference: the token's for staff, the path's, the header's. */
  lemma OrgMeaning(claims: Claims, req: Request)
    ensures var org, target := OrgOf(Enriched(claims), req), StaffOf(claims).targetOrgID;
            && IsFirstOf(target, [StrClaim(claims, Org), StrClaim(claims, OrgID), StrClaim(claims, TargetOrg)])
            && IsFirstOf(org, [if IsStaffToken(claims) then target else "", req.pathOrg, req.headerOrg])
  {
    FirstOfThree(StrClaim(claims, Org), StrClaim(claims, OrgID), StrClaim(claims, TargetOrg));
    FirstOfThree(if IsStaffToken(claims) then StaffOf(claims).targetOrgID else "", req.pathOrg, req.headerOrg);
  }

  /** What an AuditHook's entry says of a verified request, told by its claims and the request line. */
  lemma HookEntryTells(claims: Claims, req: Request)
    ensures var e, staff := HookEntry(Enriched(claims), req), IsStaffToken(claims);
            && e.orgID == OrgOf(Enriched(claims), req)
            && IsFirstOf(e.actor, if staff then [StrClaim(claims, StaffSubject), StrClaim(claims, Sub)]
                                  else [StrClaim(claims, Sub)])
            && e.actorType == (if staff then StaffActor else UserActor) && e.isStaff == staff
            && e.breakGlass == (staff && BreakGlass in claims && claims[BreakGlass] == Flag(true))
            && e.reason == (if staff then StrClaim(claims, Reason) else "")
            && e.action == Requested(WireMethod(req.method_), req.path) && e.resource == req.path
            && e.id == "" && e.timestamp.None?
  {
    var names := if IsStaffToken(claims) then [StrClaim(claims, StaffSubject), StrClaim(claims, Sub)] else [StrClaim(claims, Sub)];
    var actor := HookEntry(Enriched(claims), req).actor;
    assert actor == names[0] || (names[0] == "" && |names| == 2 && actor == names[1]);
  }

  /** What a granted break-glass access leaves on record. */
  lemma BreakGlassEntryTells(claims: Claims, req: Request)
    requires IsStaffToken(claims) && StrClaim(claims, Reason) != ""
    ensures var e := BreakGlassEntry(Enriched(claims), req);
            && e.orgID == OrgOf(Enriched(claims), req)
            && IsFirstOf(e.actor, [StrClaim(claims, StaffSubject), StrClaim(claims, Sub)])
            && e.actorType == StaffActor && e.isStaff && e.breakGlass && e.reason == StrClaim(claims, Reason)
            && e.action == BreakGlassAccess && e.resource == req.path && e.id == "" && e.timestamp.None?
  {
    var names := [StrClaim(claims, StaffSubject), StrClaim(claims, Sub)];
    var actor := BreakGlassEntry(Enriched(claims), req).actor;
    assert actor == names[0] || (names[0] == "" && actor == names[1]);
  }
}
