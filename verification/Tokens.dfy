/** TokenAuth as the source runs it: handlers that set headers, write responses and append audit entries. */
module Tokens {
  import opened Audit
  import opened Middleware
  import opened Text
  import opened Wrappers

  /** The response so far: every status written. */
  class Response {
    var statuses: seq<int>

    constructor ()
      ensures statuses == []
    {
      statuses := [];
    }

    method Write(status: int)
      modifies this
      ensures statuses == old(statuses) + [status]
    {
      statuses := statuses + [status];
    }
  }

  /** The request's headers are shared by every copy of it: X-User-Id is the one the layers set. */
  class Headers {
    var userID: string

    constructor (userID: string)
      ensures this.userID == userID
    {
      this.userID := userID;
    }
  }

  class TokenAuth {
    const cfg: Config
    const store: AuditStore
    const stamps: nat -> Stamp

    /** NewTokenAuth and WithStaffSecret: an empty staff secret falls back to the tenant secret. */
    constructor (secret: string, staffSecret: string, audited: bool, stamps: nat -> Stamp)
      ensures cfg == Config(secret, if staffSecret == "" then secret else staffSecret, audited)
      ensures this.stamps == stamps && fresh(store) && store.entries == []
    {
      cfg := Config(secret, if staffSecret == "" then secret else staffSecret, audited);
      this.stamps := stamps;
      store := new AuditStore();
    }

    method ParseToken(o: Oracle, token: string) returns (claims: Option<Claims>)
      ensures claims == Middleware.ParseToken(cfg, o, token)
    {
      var secrets := [cfg.secret];
      if cfg.staffSecret != "" && cfg.staffSecret != cfg.secret {
        secrets := secrets + [cfg.staffSecret];
      }
      assert secrets[0] == cfg.secret && (|secrets| == 2 ==> secrets[1] == cfg.staffSecret);
      for i := 0 to |secrets|
        invariant forall j :: 0 <= j < i && secrets[j] != "" ==> o.verify(secrets[j], token).None?
      {
        if secrets[i] != "" {
          var verified := o.verify(secrets[i], token);
          if verified.Some? {
            assert i == 1 ==> secrets[0] == "" || o.verify(secrets[0], token).None?;
            return verified;
          }
        }
      }
      return None;
    }

    /** The first non-empty of the three organization claims. */
    method ExtractTargetOrg(claims: Claims) returns (org: string)
      ensures org == StaffOf(claims).targetOrgID
    {
      if Org in claims && claims[Org].Str? && claims[Org].text != "" {
        return claims[Org].text;
      } else if OrgID in claims && claims[OrgID].Str? && claims[OrgID].text != "" {
        return claims[OrgID].text;
      } else if TargetOrg in claims && claims[TargetOrg].Str? && claims[TargetOrg].text != "" {
        return claims[TargetOrg].text;
      }
      return "";
    }

    method ExtractStaffIdentity(claims: Claims) returns (staff: StaffIdentity)
      ensures staff == StaffOf(claims)
    {
      staff := StaffIdentity("", false, false, "", "");
      if StaffSubject in claims && claims[StaffSubject].Str? && claims[StaffSubject].text != "" {
        staff := staff.(staffSubject := claims[StaffSubject].text, isStaff := true);
      }
      if IsStaff in claims && claims[IsStaff].Flag? && claims[IsStaff].flag {
        staff := staff.(isStaff := true);
      }
      if BreakGlass in claims && claims[BreakGlass].Flag? {
        staff := staff.(breakGlass := claims[BreakGlass].flag);
      }
      if Reason in claims && claims[Reason].Str? {
        staff := staff.(reason := claims[Reason].text);
      }
      var org := ExtractTargetOrg(claims);
      staff := staff.(targetOrgID := org);
      if staff.isStaff && staff.staffSubject == "" && Sub in claims && claims[Sub].Str? {
        staff := staff.(staffSubject := claims[Sub].text);
      }
    }

    /** The loop decides the declarative rule. */
    method AllowedByScopes(m: Method, scopes: seq<string>) returns (allowed: bool)
      ensures allowed == ScopesAllow(m, scopes)
    {
      if |scopes| == 0 {
        return true;
      }
      var needWrite := NeedsWrite(m);
      for i := 0 to |scopes|
        invariant forall j :: 0 <= j < i ==> !Grants(scopes[j], m)
      {
        var scope := ToLower(TrimSpace(scopes[i]));
        if needWrite && scope == "write" {
          assert Grants(scopes[i], m);
          return true;
        }
        if !needWrite && (scope == "read" || scope == "write") {
          assert Grants(scopes[i], m);
          return true;
        }
      }
      return false;
    }

    /** The new entries are those of the served request, recorded in order after the old ones. */
    ghost predicate Appended(before: seq<AuditEntry>, written: seq<AuditEntry>)
      reads store
    {
      store.entries == before + FilledAll(written, stamps, |before|)
    }

    /** What serving the rest of a stack leaves behind, and what the endpoint saw. */
    twostate predicate Left(served: Served, w: Response, new seen: Option<Seen>)
      reads store, w
    {
      && Appended(old(store.entries), served.written)
      && w.statuses == old(w.statuses) + [served.status]
      && seen == served.seen
    }

    method HandleStaffBreakGlass(ctx: Context, req: Request, w: Response)
      modifies store, w
      ensures Appended(old(store.entries), EndpointWrites(cfg, StaffBreakGlass, ctx, req))
      ensures w.statuses == old(w.statuses) + [EndpointStatus(StaffBreakGlass, ctx)]
    {
      if !IsTrue(ctx.isStaff) {
        w.Write(403);
        return;
      }
      var reason := OrEmpty(ctx.reason);
      if reason == "" {
        w.Write(400);
        return;
      }
      var staffSubject := OrEmpty(ctx.staffSubject);
      var orgID := OrEmpty(ctx.targetOrg);
      if orgID == "" {
        orgID := req.pathOrg;
      }
      if orgID == "" {
        orgID := req.headerOrg;
      }
      if cfg.audited {
        var entry := AuditEntry("", orgID, staffSubject, StaffActor, true, true, reason, BreakGlassAccess, req.path, None);
        store.RecordAudit(entry, stamps(|store.entries|));
      }
      w.Write(200);
    }

    /** AuditHook's part on the way out. */
    method RecordOnTheWayOut(ctx: Context, req: Request)
      modifies store
      ensures Appended(old(store.entries), HookWrites(cfg, ctx, req))
    {
      if !cfg.audited {
        return;
      }
      var actor, actorType := OrEmpty(ctx.userID), UserActor;
      if IsTrue(ctx.isStaff) {
        actor := OrEmpty(ctx.staffSubject);
        if actor == "" {
          actor := OrEmpty(ctx.userID);
        }
        actorType := StaffActor;
      }
      if actor == "" {
        return;
      }
      var orgID := OrEmpty(ctx.targetOrg);
      if orgID == "" {
        orgID := req.pathOrg;
      }
      if orgID == "" {
        orgID := req.headerOrg;
      }
      var entry := AuditEntry("", orgID, actor, actorType, IsTrue(ctx.isStaff), IsTrue(ctx.breakGlass), OrEmpty(ctx.reason),
                              Requested(WireMethod(req.method_), req.path), req.path, None);
      store.RecordAudit(entry, stamps(|store.entries|));
    }

    /** Serve the rest of the stack; every layer below calls this for its next handler. */
    method ServeHTTP(o: Oracle, stack: seq<Layer>, end: Endpoint, ctx: Context, req: Request, headers: Headers, w: Response)
      returns (seen: Option<Seen>)
      modifies store, headers, w
      ensures Left(Serve(cfg, o, stack, end, ctx, req, old(headers.userID)), w, seen)
      decreases |stack|, 1
    {
      if stack == [] {
        seen := Some(Seen(ctx, headers.userID));
        match end {
          case Mounted(status) => w.Write(status);
          case StaffBreakGlass => HandleStaffBreakGlass(ctx, req, w);
        }
        return;
      }
      match stack[0]
      case Dual => seen := ServeDual(o, stack, end, ctx, req, headers, w);
      case JWT => seen := ServeJWT(o, stack, end, ctx, req, headers, w);
      case RequireStaff => seen := ServeRequireStaff(o, stack, end, ctx, req, headers, w);
      case AuditHook => seen := ServeAuditHook(o, stack, end, ctx, req, headers, w);
    }

    method ServeDual(o: Oracle, stack: seq<Layer>, end: Endpoint, ctx: Context, req: Request, headers: Headers, w: Response)
      returns (seen: Option<Seen>)
      requires stack != [] && stack[0] == Dual
      modifies store, headers, w
      ensures Left(Serve(cfg, o, stack, end, ctx, req, old(headers.userID)), w, seen)
      decreases |stack|, 0
    {
      if cfg.secret == "" && cfg.staffSecret == "" {
        w.Write(500);
        return None;
      }
      if !HasPrefix(req.authorization, "Bearer ") {
        w.Write(401);
        return None;
      }
      var token := TrimPrefix(req.authorization, "Bearer ");
      if IsAPIToken(token) {
        var identity := o.validate(|stack| - 1);
        if identity.None? {
          w.Write(401);
          return None;
        }
        var allowed := AllowedByScopes(req.method_, identity.value.scopes);
        if !allowed {
          w.Write(403);
          return None;
        }
        headers.userID := identity.value.userID;
        var named := ctx.(userID := Some(identity.value.userID));
        named := named.(isStaff := Some(false));
        named := named.(scopes := Some(identity.value.scopes));
        seen := ServeHTTP(o, stack[1..], end, named, req, headers, w);
        return;
      }
      var claims := ParseToken(o, token);
      if claims.None? {
        w.Write(401);
        return None;
      }
      headers.userID := Subject(claims.value);
      seen := ServeHTTP(o, stack[1..], end, Enrich(ctx, claims.value, Subject(claims.value)), req, headers, w);
    }

    method ServeJWT(o: Oracle, stack: seq<Layer>, end: Endpoint, ctx: Context, req: Request, headers: Headers, w: Response)
      returns (seen: Option<Seen>)
      requires stack != [] && stack[0] == JWT
      modifies store, headers, w
      ensures Left(Serve(cfg, o, stack, end, ctx, req, old(headers.userID)), w, seen)
      decreases |stack|, 0
    {
      if cfg.secret == "" && cfg.staffSecret == "" {
        w.Write(500);
        return None;
      }
      if !HasPrefix(req.authorization, "Bearer ") {
        w.Write(401);
        return None;
      }
      var claims := ParseToken(o, TrimPrefix(req.authorization, "Bearer "));
      if claims.None? {
        w.Write(401);
        return None;
      }
      seen := ServeHTTP(o, stack[1..], end, Enrich(ctx, claims.value, Subject(claims.value)), req, headers, w);
    }

    method ServeRequireStaff(o: Oracle, stack: seq<Layer>, end: Endpoint, ctx: Context, req: Request, headers: Headers, w: Response)
      returns (seen: Option<Seen>)
      requires stack != [] && stack[0] == RequireStaff
      modifies store, headers, w
      ensures Left(Serve(cfg, o, stack, end, ctx, req, old(headers.userID)), w, seen)
      decreases |stack|, 0
    {
      if cfg.secret == "" && cfg.staffSecret == "" {
        w.Write(500);
        return None;
      }
      if IsTrue(ctx.isStaff) {
        seen := ServeHTTP(o, stack[1..], end, ctx, req, headers, w);
        return;
      }
      if OrEmpty(ctx.userID) != "" {
        w.Write(403);
        return None;
      }
      if !HasPrefix(req.authorization, "Bearer ") {
        w.Write(401);
        return None;
      }
      var claims := ParseToken(o, TrimPrefix(req.authorization, "Bearer "));
      if claims.None? {
        w.Write(401);
        return None;
      }
      var staff := ExtractStaffIdentity(claims.value);
      if !staff.isStaff {
        w.Write(403);
        return None;
      }
      var subject := StrClaim(claims.value, Sub);
      if subject == "" {
        subject := staff.staffSubject;
      }
      seen := ServeHTTP(o, stack[1..], end, Enrich(ctx, claims.value, subject), req, headers, w);
    }

    method ServeAuditHook(o: Oracle, stack: seq<Layer>, end: Endpoint, ctx: Context, req: Request, headers: Headers, w: Response)
      returns (seen: Option<Seen>)
      requires stack != [] && stack[0] == AuditHook
      modifies store, headers, w
      ensures Left(Serve(cfg, o, stack, end, ctx, req, old(headers.userID)), w, seen)
      decreases |stack|, 0
    {
      ghost var before := store.entries;
      ghost var inner := Serve(cfg, o, stack[1..], end, ctx, req, headers.userID);
      seen := ServeHTTP(o, stack[1..], end, ctx, req, headers, w);
      RecordOnTheWayOut(ctx, req);
      FilledAllConcat(inner.written, HookWrites(cfg, ctx, req), stamps, |before|);
    }
  }
}
