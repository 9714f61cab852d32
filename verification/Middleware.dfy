/**
  The bearer-token and staff layers (internal/infrastructure/httpapi/middleware.go):
  any stack of them around an endpoint, interpreted for one request.
 */
module Middleware {
  import opened Audit
  import opened Text
  import opened Wrappers

  // ---------- Claims and staff identity ----------

  datatype ClaimName =
    | Sub | StaffSubject | IsStaff | BreakGlass | Reason | Org | OrgID | TargetOrg
    | OtherClaim(name: string)

  datatype ClaimValue = Str(text: string) | Flag(flag: bool) | OtherValue

  type Claims = map<ClaimName, ClaimValue>

  function WireClaim(name: ClaimName): string {
    match name
    case Sub => "sub"
    case StaffSubject => "staff_subject"
    case IsStaff => "is_staff"
    case BreakGlass => "break_glass"
    case Reason => "reason"
    case Org => "org"
    case OrgID => "org_id"
    case TargetOrg => "target_org"
    case OtherClaim(other) => other
  }

  /** Distinct names are distinct JSON members, apart from the open-ended constructor spelling a named one. */
  lemma ClaimNames(a: ClaimName, b: ClaimName)
    requires !a.OtherClaim? && !b.OtherClaim?
    ensures WireClaim(a) == WireClaim(b) <==> a == b
    ensures WireClaim(Sub) == "sub" && WireClaim(StaffSubject) == "staff_subject" && WireClaim(IsStaff) == "is_staff"
    ensures WireClaim(BreakGlass) == "break_glass" && WireClaim(Reason) == "reason" && WireClaim(Org) == "org"
    ensures WireClaim(OrgID) == "org_id" && WireClaim(TargetOrg) == "target_org"
  {
  }

  /** The string value of a claim, empty when it is absent or not a string. */
  function StrClaim(claims: Claims, name: ClaimName): string {
    if name in claims && claims[name].Str? then claims[name].text else ""
  }

  /** A claim reads as its text exactly when it is a string, and as empty otherwise. */
  lemma StringClaims(claims: Claims, name: ClaimName, text: string)
    ensures StrClaim(claims, name) == text <==>
            || (name in claims && claims[name] == Str(text))
            || (text == "" && (name !in claims || !claims[name].Str?))
  {
  }

  predicate FlagClaim(claims: Claims, name: ClaimName) {
    name in claims && claims[name] == Flag(true)
  }

  datatype StaffIdentity = StaffIdentity(
    staffSubject: string, isStaff: bool, breakGlass: bool, reason: string, targetOrgID: string)

  /** Claims that make their bearer staff. */
  predicate StaffClaims(claims: Claims) {
    StrClaim(claims, StaffSubject) != "" || FlagClaim(claims, IsStaff)
  }

  function FirstNonEmpty(a: string, b: string, c: string): string {
    if a != "" then a else if b != "" then b else c
  }

  function StaffOf(claims: Claims): StaffIdentity {
    StaffIdentity(
      FirstNonEmpty(StrClaim(claims, StaffSubject), if StaffClaims(claims) then StrClaim(claims, Sub) else "", ""),
      StaffClaims(claims),
      FlagClaim(claims, BreakGlass),
      StrClaim(claims, Reason),
      FirstNonEmpty(StrClaim(claims, Org), StrClaim(claims, OrgID), StrClaim(claims, TargetOrg)))
  }

  /** The subject Dual and JWT attach. */
  function Subject(claims: Claims): string {
    FirstNonEmpty(StrClaim(claims, Sub), StrClaim(claims, StaffSubject), "")
  }

  /** The subject RequireStaff attaches. */
  function StaffGateSubject(claims: Claims): string {
    FirstNonEmpty(StrClaim(claims, Sub), StaffOf(claims).staffSubject, "")
  }

  // ---------- Contexts ----------

  /** The values a request context holds under the package's keys; None is an absent key. */
  datatype Context = Context(
    userID: Option<string>, isStaff: Option<bool>, staffSubject: Option<string>,
    breakGlass: Option<bool>, reason: Option<string>, identity: Option<StaffIdentity>,
    targetOrg: Option<string>, scopes: Option<seq<string>>)

  const EMPTY := Context(None, None, None, None, None, None, None, None)

  function OrEmpty(value: Option<string>): string {
    if value.Some? then value.value else ""
  }

  predicate IsTrue(value: Option<bool>) {
    value == Some(true)
  }

  function Enrich(ctx: Context, claims: Claims, subject: string): Context {
    var staff := StaffOf(claims);
    var named := ctx.(userID := Some(subject), isStaff := Some(staff.isStaff));
    if !staff.isStaff then named
    else
      var identified := named.(
        staffSubject := Some(if staff.staffSubject != "" then staff.staffSubject else subject),
        breakGlass := Some(staff.breakGlass), reason := Some(staff.reason), identity := Some(staff));
      if staff.targetOrgID != "" then identified.(targetOrg := Some(staff.targetOrgID)) else identified
  }

  // ---------- Requests, configuration and outside verdicts ----------

  /** OtherMethod names a method other than the first three. */
  datatype Method = GET | HEAD | OPTIONS | OtherMethod(name: string)

  function WireMethod(m: Method): string {
    match m
    case GET => "GET"
    case HEAD => "HEAD"
    case OPTIONS => "OPTIONS"
    case OtherMethod(name) => name
  }

  /** The reading methods; every other method is spelled by its own name. */
  lemma MethodNames(name: string)
    ensures WireMethod(GET) == "GET" && WireMethod(HEAD) == "HEAD" && WireMethod(OPTIONS) == "OPTIONS"
    ensures WireMethod(OtherMethod(name)) == name
  {
  }

  /** The parts of a request the layers read; userHeader is the X-User-Id it arrived with. */
  datatype Request = Request(
    authorization: string, method_: Method, path: string, pathOrg: string, headerOrg: string, userHeader: string)

  /** The two signing secrets, and whether an audit store is wired. */
  datatype Config = Config(secret: string, staffSecret: string, audited: bool)

  datatype APIIdentity = APIIdentity(userID: string, scopes: seq<string>)

  /**
    JWT verification under a secret, deterministic within one request, and the
    upstream's answer to the API-token validation of the layer with that many layers
    below it.
   */
  datatype Oracle = Oracle(verify: (string, string) -> Option<Claims>, validate: nat -> Option<APIIdentity>)

  predicate Configured(cfg: Config) {
    cfg.secret != "" || cfg.staffSecret != ""
  }

  predicate IsAPIToken(token: string) {
    HasPrefix(token, "oat_")
  }

  /** No secret verifies an API token: its first bytes are not the start of a JWT header. */
  ghost predicate RejectsAPITokens(o: Oracle) {
    forall secret, token :: IsAPIToken(token) ==> o.verify(secret, token).None?
  }

  /** The bearer credential, per section 2.1 of RFC 6750. */
  function Bearer(authorization: string): Option<string> {
    if HasPrefix(authorization, "Bearer ") then Some(TrimPrefix(authorization, "Bearer ")) else None
  }

  /** The claims of a token that a configured secret verifies, the tenant secret first. */
  function ParseToken(cfg: Config, o: Oracle, token: string): Option<Claims> {
    if cfg.secret != "" && o.verify(cfg.secret, token).Some? then o.verify(cfg.secret, token)
    else if cfg.staffSecret != "" then o.verify(cfg.staffSecret, token)
    else None
  }

  // ---------- Scopes ----------

  predicate NeedsWrite(m: Method) {
    !m.GET? && !m.HEAD? && !m.OPTIONS?
  }

  predicate Grants(scope: string, m: Method) {
    var normal := ToLower(TrimSpace(scope));
    normal == "write" || (!NeedsWrite(m) && normal == "read")
  }

  predicate ScopesAllow(m: Method, scopes: seq<string>) {
    |scopes| == 0 || exists i :: 0 <= i < |scopes| && Grants(scopes[i], m)
  }

  // ---------- Layers ----------

  datatype Layer = Dual | JWT | RequireStaff | AuditHook

  /** A handler the deployment mounts, answering with this status; or the break-glass handler. */
  datatype Endpoint = Mounted(status: int) | StaffBreakGlass

  /** A layer's decision: hand the request on with this context and X-User-Id, or answer it. */
  datatype Admission = Pass(ctx: Context, userHeader: string) | Reject(status: int)

  function ThroughJWT(cfg: Config, o: Oracle, token: string, ctx: Context, userHeader: string, setsHeader: bool): Admission {
    match ParseToken(cfg, o, token)
    case None => Reject(401)
    case Some(claims) =>
      Pass(Enrich(ctx, claims, Subject(claims)), if setsHeader then Subject(claims) else userHeader)
  }

  function ThroughAPIToken(o: Oracle, below: nat, ctx: Context, req: Request): Admission {
    match o.validate(below)
    case None => Reject(401)
    case Some(id) =>
      if !ScopesAllow(req.method_, id.scopes) then Reject(403)
      else Pass(ctx.(userID := Some(id.userID), isStaff := Some(false), scopes := Some(id.scopes)), id.userID)
  }

  function ThroughStaffGate(cfg: Config, o: Oracle, ctx: Context, req: Request, userHeader: string): Admission {
    if IsTrue(ctx.isStaff) then Pass(ctx, userHeader)
    else if OrEmpty(ctx.userID) != "" then Reject(403)
    else
      match Bearer(req.authorization)
      case None => Reject(401)
      case Some(token) =>
        match ParseToken(cfg, o, token)
        case None => Reject(401)
        case Some(claims) =>
          if !StaffOf(claims).isStaff then Reject(403)
          else Pass(Enrich(ctx, claims, StaffGateSubject(claims)), userHeader)
  }

  /** What one layer, with this many layers below it, does with the request on its way in. */
  function Admit(cfg: Config, o: Oracle, layer: Layer, below: nat, ctx: Context, req: Request, userHeader: string): Admission {
    if layer.AuditHook? then Pass(ctx, userHeader)
    else if !Configured(cfg) then Reject(500)
    else if layer.RequireStaff? then ThroughStaffGate(cfg, o, ctx, req, userHeader)
    else
      match Bearer(req.authorization)
      case None => Reject(401)
      case Some(token) =>
        if layer.Dual? && IsAPIToken(token) then ThroughAPIToken(o, below, ctx, req)
        else ThroughJWT(cfg, o, token, ctx, userHeader, layer.Dual?)
  }

  // ---------- Entries ----------

  function OrgOf(ctx: Context, req: Request): string {
    FirstNonEmpty(OrEmpty(ctx.targetOrg), req.pathOrg, req.headerOrg)
  }

  /** Whom an AuditHook entry names. */
  function ActorOf(ctx: Context): string {
    if IsTrue(ctx.isStaff) then FirstNonEmpty(OrEmpty(ctx.staffSubject), OrEmpty(ctx.userID), "") else OrEmpty(ctx.userID)
  }

  function HookEntry(ctx: Context, req: Request): AuditEntry {
    AuditEntry("", OrgOf(ctx, req), ActorOf(ctx), if IsTrue(ctx.isStaff) then StaffActor else UserActor,
               IsTrue(ctx.isStaff), IsTrue(ctx.breakGlass), OrEmpty(ctx.reason),
               Requested(WireMethod(req.method_), req.path), req.path, None)
  }

  /** What an AuditHook around this context writes on the way out. */
  function HookWrites(cfg: Config, ctx: Context, req: Request): seq<AuditEntry> {
    if cfg.audited && ActorOf(ctx) != "" then [HookEntry(ctx, req)] else []
  }

  function BreakGlassEntry(ctx: Context, req: Request): AuditEntry {
    AuditEntry("", OrgOf(ctx, req), OrEmpty(ctx.staffSubject), StaffActor, true, true, OrEmpty(ctx.reason),
               BreakGlassAccess, req.path, None)
  }

  predicate BreakGlassGranted(ctx: Context) {
    IsTrue(ctx.isStaff) && OrEmpty(ctx.reason) != ""
  }

  function EndpointStatus(end: Endpoint, ctx: Context): int {
    match end
    case Mounted(status) => status
    case StaffBreakGlass => if !IsTrue(ctx.isStaff) then 403 else if OrEmpty(ctx.reason) == "" then 400 else 200
  }

  function EndpointWrites(cfg: Config, end: Endpoint, ctx: Context, req: Request): seq<AuditEntry> {
    if end.StaffBreakGlass? && BreakGlassGranted(ctx) && cfg.audited then [BreakGlassEntry(ctx, req)] else []
  }

  // ---------- Running a stack ----------

  /** What the endpoint was given. */
  datatype Seen = Seen(ctx: Context, userHeader: string)

  /** The one status written, what the endpoint saw if it ran, and the entries in the order they were written. */
  datatype Served = Served(status: int, seen: Option<Seen>, written: seq<AuditEntry>)

  /** The stack is listed outermost layer first. */
  function Serve(cfg: Config, o: Oracle, stack: seq<Layer>, end: Endpoint, ctx: Context, req: Request, userHeader: string): Served {
    if stack == [] then
      Served(EndpointStatus(end, ctx), Some(Seen(ctx, userHeader)), EndpointWrites(cfg, end, ctx, req))
    else
      match Admit(cfg, o, stack[0], |stack| - 1, ctx, req, userHeader)
      case Reject(status) => Served(status, None, [])
      case Pass(ctx', userHeader') =>
        var inner := Serve(cfg, o, stack[1..], end, ctx', req, userHeader');
        if stack[0].AuditHook? then inner.(written := inner.written + HookWrites(cfg, ctx, req)) else inner
  }

  /** A request as it arrives: nothing in its context yet. */
  function Arriving(cfg: Config, o: Oracle, stack: seq<Layer>, end: Endpoint, req: Request): Served {
    Serve(cfg, o, stack, end, EMPTY, req, req.userHeader)
  }
}
