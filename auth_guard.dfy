/** `AuthorizedGuard.canActivate`, the guard registered for every route. The JWT
    check (`super.canActivate`) is an input: it either fails, or succeeds and leaves
    whatever user the strategy attached to the request. */
module AuthGuard {
  import opened Domain
  import opened AuthorizedDecorator

  /** What the reflector reads for a handler: `get('authorization')` and
      `getAllAndOverride(ROLES_KEY)`, each undefined when never set. */
  datatype Reflected = Reflected(authorization: Option<bool>, roles: Option<seq<Role>>)

  /** The outcome of the passport JWT check. */
  datatype JwtResult = JwtRejected | JwtAccepted(user: Option<Identity>)

  /** Allow, or the exception the guard throws. */
  datatype Decision = Allow | Unauthorized(message: string) | Forbidden(message: string)

  /** The metadata of a handler that carries `@Authorized(...)`, or of one that carries nothing. */
  function Reflect(decorator: Option<AuthMetadata>): Reflected
  {
    if decorator.Some? then Reflected(Some(decorator.value.authorization), Some(decorator.value.roles))
    else Reflected(None, None)
  }

  /** The route demands authentication: the 'authorization' entry is truthy. */
  predicate Protected(meta: Reflected)
  {
    meta.authorization == Some(true)
  }

  /** The caller the guard sees after the JWT check, if any. */
  function Caller(jwt: JwtResult): Option<Identity>
  {
    if jwt.JwtAccepted? then jwt.user else None
  }

  /** A role satisfies a role requirement that is missing or empty, or that lists it. */
  predicate RoleAdmitted(roles: Option<seq<Role>>, r: Role)
  {
    roles.None? || |roles.value| == 0 || r in roles.value
  }

  /** `canActivate`. Authentication is decided before roles, so a caller without a
      verified identity gets 401 and never 403. */
  function CanActivate(meta: Reflected, jwt: JwtResult): (d: Decision)
    ensures d == Allow <==>
              !Protected(meta) || (Caller(jwt).Some? && RoleAdmitted(meta.roles, Caller(jwt).value.role))
    ensures d.Unauthorized? <==> Protected(meta) && Caller(jwt).None?
    ensures d.Forbidden? <==>
              Protected(meta) && Caller(jwt).Some? && !RoleAdmitted(meta.roles, Caller(jwt).value.role)
    ensures d.Unauthorized? && jwt.JwtRejected? ==> d.message == "Authentication required"
    ensures d.Unauthorized? && jwt.JwtAccepted? ==> d.message == "User not found"
    ensures d.Forbidden? ==> d.message == "Insufficient permissions"
  {
    if meta.authorization != Some(true) then Allow
    else if jwt.JwtRejected? then Unauthorized("Authentication required")
    else if jwt.user.None? then Unauthorized("User not found")
    else if meta.roles.None? || |meta.roles.value| == 0 then Allow
    else if jwt.user.value.role in meta.roles.value then Allow
    else Forbidden("Insufficient permissions")
  }

  // ----- The intended access policy, as an independent reference -----

  /** Per-operation requirement: none, any authenticated caller, or a set of roles. */
  datatype Requirement = Public | AuthenticatedOnly | RoleRestricted(allowed: set<Role>)

  datatype DenyKind = Unauthenticated | InsufficientRole
  datatype Verdict = Granted | Refused(kind: DenyKind)

  /** `decide(requirement, caller)`; an empty role set admits any authenticated caller. */
  function Decide(req: Requirement, caller: Option<Identity>): Verdict
  {
    match req
    case Public => Granted
    case AuthenticatedOnly => if caller.None? then Refused(Unauthenticated) else Granted
    case RoleRestricted(allowed) =>
      if caller.None? then Refused(Unauthenticated)
      else if allowed == {} || caller.value.role in allowed then Granted
      else Refused(InsufficientRole)
  }

  /** The requirement a handler's decorator declares. */
  function RequirementOf(decorator: Option<AuthMetadata>): Requirement
  {
    if decorator.None? || !decorator.value.authorization then Public
    else if |decorator.value.roles| == 0 then AuthenticatedOnly
    else RoleRestricted(set r | r in decorator.value.roles)
  }

  function VerdictOf(d: Decision): Verdict
  {
    match d
    case Allow => Granted
    case Unauthorized(_) => Refused(Unauthenticated)
    case Forbidden(_) => Refused(InsufficientRole)
  }

  /** The guard computes the policy's decision for every decorator and every JWT outcome. */
  lemma GuardMatchesDecide(decorator: Option<AuthMetadata>, jwt: JwtResult)
    ensures VerdictOf(CanActivate(Reflect(decorator), jwt)) == Decide(RequirementOf(decorator), Caller(jwt))
  {
    if decorator.Some? && decorator.value.authorization && |decorator.value.roles| > 0 && Caller(jwt).Some? {
      var rs := decorator.value.roles;
      var allowed := set r | r in rs;
      assert rs[0] in allowed;
      assert Caller(jwt).value.role in rs <==> Caller(jwt).value.role in allowed;
    }
  }

  /** An empty role set is the same requirement as "authenticated only". */
  lemma EmptyRoleSetIsAuthenticatedOnly(caller: Option<Identity>)
    ensures Decide(RoleRestricted({}), caller) == Decide(AuthenticatedOnly, caller)
  {
  }

  /** `@Authorized()` with no roles lets in exactly the authenticated callers. */
  lemma AuthorizedWithoutRolesMeansAuthenticated(jwt: JwtResult)
    ensures CanActivate(Reflect(Some(Authorized(NoRoles))), jwt) == Allow <==> Caller(jwt).Some?
    ensures RequirementOf(Some(Authorized(NoRoles))) == AuthenticatedOnly
  {
  }

  /** A handler without the decorator is open to anyone, whatever the JWT check says. */
  lemma UndecoratedRouteIsPublic(jwt: JwtResult)
    ensures CanActivate(Reflect(None), jwt) == Allow
  {
  }

  /** On a role-restricted route an authenticated caller is let in exactly when its role is listed. */
  lemma ListedRoleDecides(roles: seq<Role>, caller: Identity)
    requires |roles| > 0
    ensures CanActivate(Reflect(Some(Authorized(RoleList(roles)))), JwtAccepted(Some(caller))) ==
            (if caller.role in roles then Allow else Forbidden("Insufficient permissions"))
  {
  }
}
