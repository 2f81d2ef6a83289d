/**
 * The route guard: from the cached profile, the stored token's decoded
 * claims, the current time and the role a route requires, decide between
 * a redirect to the login page, a redirect home, and rendering the page;
 * and whether the cached profile is discarded as unreadable.
 */
module ProtectedRoute {
  import opened JsSemantics

  const USER_ROLE := "USER"
  const ADMIN_ROLE := "ADMIN"

  /** The `user` entry of local storage; "" stands for a missing or empty field. */
  datatype CachedProfile =
    | Absent                                        // no entry, an empty one, or the JSON `null`
    | Corrupt                                       // an entry JSON.parse rejects
    | Profile(name: string, email: string, role: string)

  /** One role claim of a decoded token. */
  datatype Claim =
    | Missing                  // absent, null or ""
    | Text(s: string)          // a non-empty string
    | NonText                  // a truthy non-string, such as an array of authorities

  /** The stored token, after `jwtDecode`. `exp` is in seconds; None or
      Some(0) is an absent expiry. */
  datatype Token =
    | NoToken
    | Undecodable
    | Decoded(exp: Option<int>, role: Claim, authorities: Claim, roles: Claim)

  /** A role as the guard compares it. */
  datatype Role = NoRole | RoleText(s: string) | RoleOther

  datatype Outcome = ToLogin | ToHome | Render

  datatype Decision = Decision(outcome: Outcome, removesProfile: bool)

  /** The profile after the parse: a corrupt entry reads as no profile. */
  function ParsedProfile(p: CachedProfile): (r: CachedProfile)
    ensures r.Corrupt? == false
    ensures p.Profile? ==> r == p
    ensures !p.Profile? ==> r == Absent
  {
    if p.Corrupt? then Absent else p
  }

  /** The token is valid when present, decodable, and not past its expiry
      (`exp * 1000 > now`, with `now` in milliseconds). */
  predicate TokenValid(t: Token, now: int): (valid: bool)
    ensures valid ==> t.Decoded?
    ensures t.Decoded? && (t.exp.None? || t.exp == Some(0)) ==> valid
    ensures t.Decoded? && t.exp.Some? && t.exp.value != 0 ==> (valid <==> now < t.exp.value * 1000)
  {
    t.Decoded? && (t.exp.None? || t.exp.value == 0 || t.exp.value * 1000 > now)
  }

  function ClaimRole(c: Claim): Role
  {
    match c
    case Missing => NoRole
    case Text(s) => RoleText(s)
    case NonText => RoleOther
  }

  /** `decoded.role || decoded.authorities || decoded.roles || null`, read only
      from a valid token. */
  function TokenRole(t: Token, now: int): (r: Role)
    ensures !TokenValid(t, now) ==> r == NoRole
    ensures TokenValid(t, now) && !t.role.Missing? ==> r == ClaimRole(t.role)
    ensures TokenValid(t, now) && t.role.Missing? && !t.authorities.Missing? ==> r == ClaimRole(t.authorities)
    ensures TokenValid(t, now) && t.role.Missing? && t.authorities.Missing? ==> r == ClaimRole(t.roles)
  {
    if !TokenValid(t, now) then NoRole
    else if !t.role.Missing? then ClaimRole(t.role)
    else if !t.authorities.Missing? then ClaimRole(t.authorities)
    else ClaimRole(t.roles)
  }

  /** A profile that names its user by name or e-mail. */
  predicate HasIdentity(p: CachedProfile)
  {
    p.Profile? && (p.name != "" || p.email != "")
  }

  /** `user?.role || tokenRole`. */
  function EffectiveRole(p: CachedProfile, t: Token, now: int): (r: Role)
    ensures p.Profile? && p.role != "" ==> r == RoleText(p.role)
    ensures !(p.Profile? && p.role != "") ==> r == TokenRole(t, now)
    ensures !(p.Profile? && p.role != "") && !TokenValid(t, now) ==> r == NoRole
  {
    if p.Profile? && p.role != "" then RoleText(p.role) else TokenRole(t, now)
  }

  /** The guard. `roleRequired` is None for a route open to any signed-in user. */
  function Guard(p: CachedProfile, t: Token, now: int, roleRequired: Option<string>): (d: Decision)
    ensures d.removesProfile <==> p.Corrupt?
    ensures d.outcome == ToLogin <==> !HasIdentity(p) && !TokenValid(t, now)
    ensures d.outcome == ToHome <==>
      (HasIdentity(p) || TokenValid(t, now))
      && roleRequired.Some? && roleRequired.value != ""
      && EffectiveRole(ParsedProfile(p), t, now) != RoleText(roleRequired.value)
  {
    var user := ParsedProfile(p);
    var outcome :=
      if !HasIdentity(user) && !TokenValid(t, now) then ToLogin
      else if roleRequired.Some? && roleRequired.value != ""
              && EffectiveRole(user, t, now) != RoleText(roleRequired.value) then ToHome
      else Render;
    Decision(outcome, p.Corrupt?)
  }

  /** Neither a profile nor a token: to the login page. */
  lemma NothingStoredGoesToLogin(now: int, roleRequired: Option<string>)
    ensures Guard(Absent, NoToken, now, roleRequired) == Decision(ToLogin, false)
  {
  }

  /** An unreadable profile is discarded and then treated as no profile at all. */
  lemma CorruptProfileActsAsAbsent(t: Token, now: int, roleRequired: Option<string>)
    ensures Guard(Corrupt, t, now, roleRequired).removesProfile
    ensures Guard(Corrupt, t, now, roleRequired).outcome == Guard(Absent, t, now, roleRequired).outcome
    ensures !Guard(Absent, t, now, roleRequired).removesProfile
  {
  }

  /** A token expiring exactly now is no longer valid; one millisecond
      earlier it still is. */
  lemma ExpiryIsStrict(exp: int, role: Claim, authorities: Claim, roles: Claim)
    requires exp != 0
    ensures !TokenValid(Decoded(Some(exp), role, authorities, roles), exp * 1000)
    ensures TokenValid(Decoded(Some(exp), role, authorities, roles), exp * 1000 - 1)
  {
  }

  /** A signed-in USER never reaches an ADMIN route, whatever the token claims. */
  lemma UserProfileBarredFromAdmin(p: CachedProfile, t: Token, now: int)
    requires HasIdentity(p) && p.role == USER_ROLE
    ensures Guard(p, t, now, Some(ADMIN_ROLE)).outcome == ToHome
  {
  }

  /** Without a profile role, a valid token's role decides; an array of
      authorities never matches a required role. */
  lemma TokenRoleDecides(t: Token, now: int, required: string)
    requires TokenValid(t, now) && required != ""
    requires t.role.Missing? && t.authorities.NonText?
    ensures Guard(Absent, t, now, Some(required)).outcome == ToHome
  {
  }

  /** With an identity and no required role, the page renders. */
  lemma IdentityWithoutRoleRenders(p: CachedProfile, t: Token, now: int)
    requires HasIdentity(p) || TokenValid(t, now)
    ensures Guard(p, t, now, None).outcome == Render
    ensures Guard(p, t, now, Some("")).outcome == Render
  {
  }

  /** Rendering a role-restricted page means the effective role is exactly the required one. */
  lemma RenderMeansRoleMatches(p: CachedProfile, t: Token, now: int, required: string)
    requires required != ""
    requires Guard(p, t, now, Some(required)).outcome == Render
    ensures EffectiveRole(ParsedProfile(p), t, now) == RoleText(required)
  {
  }

  /** The application's routes: the loan form and the user dashboard need
      USER, the admin dashboard ADMIN, the dashboard and documents pages only
      a signed-in user. */
  function RouteRole(path: string): (r: Option<string>)
    ensures path == "/apply-loan" || path == "/user-dashboard" ==> r == Some(USER_ROLE)
    ensures path == "/admin-dashboard" ==> r == Some(ADMIN_ROLE)
    ensures path == "/dashboard" || path == "/documents" ==> r == None
  {
    if path == "/apply-loan" || path == "/user-dashboard" then Some(USER_ROLE)
    else if path == "/admin-dashboard" then Some(ADMIN_ROLE)
    else None
  }

  /** An admin profile opens the admin dashboard and is sent home from the loan form. */
  lemma AdminRoutes(p: CachedProfile, t: Token, now: int)
    requires HasIdentity(p) && p.role == ADMIN_ROLE
    ensures Guard(p, t, now, RouteRole("/admin-dashboard")).outcome == Render
    ensures Guard(p, t, now, RouteRole("/apply-loan")).outcome == ToHome
    ensures Guard(p, t, now, RouteRole("/dashboard")).outcome == Render
  {
    assert ADMIN_ROLE != USER_ROLE;
  }
}
