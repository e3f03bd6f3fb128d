/** The two controllers: the static table of which route carries which `@Authorized`
    requirement, and what each handler hands to its service.

    The permit-application handlers as written pass the whole `user` object where the
    service expects `(userId?, userRole?)`: `findAll(user)`, `findOne(id, user)`,
    `update(id, dto, user)`, `remove(id, user)`. The lemmas under "As written" show the
    consequence; `Dispatch` passes the caller's id and role, as the service evidently
    intends. */
module Controllers {
  import opened Domain
  import opened AuthorizedDecorator
  import opened AuthGuard
  import opened PermitDto
  import opened PermitService
  import opened AuthService

  datatype Route =
    | Register | Login | Profile
    | CreateApplication | ListApplications | GetApplication
    | UpdateApplication | UpdateApplicationStatus | DeleteApplication

  /** The decorator each handler carries (register and login carry none). */
  function Decorator(route: Route): (r: Option<AuthMetadata>)
    ensures r.None? <==> route == Register || route == Login
    ensures r.Some? ==> r.value.authorization && |r.value.roles| > 0
    ensures r.Some? ==> (USER in r.value.roles <==> route != UpdateApplicationStatus)
    ensures r.Some? ==> (ADMIN in r.value.roles <==> route != CreateApplication)
  {
    match route
    case Register => None
    case Login => None
    case Profile => Some(Authorized(RoleList([USER, ADMIN])))
    case CreateApplication => Some(Authorized(RoleList([USER])))
    case ListApplications => Some(Authorized(RoleList([USER, ADMIN])))
    case GetApplication => Some(Authorized(RoleList([USER, ADMIN])))
    case UpdateApplication => Some(Authorized(RoleList([USER, ADMIN])))
    case UpdateApplicationStatus => Some(Authorized(RoleList([ADMIN])))
    case DeleteApplication => Some(Authorized(RoleList([USER, ADMIN])))
  }

  /** The global guard's answer for a route. */
  function Admit(route: Route, jwt: JwtResult): Decision
  {
    CanActivate(Reflect(Decorator(route)), jwt)
  }

  predicate IsPublic(route: Route)
  {
    route == Register || route == Login
  }

  /** The intended access policy per route: register and login public, profile for any
      authenticated caller, create for USER, status for ADMIN, the rest for USER or ADMIN. */
  function PolicyRequirement(route: Route): Requirement
  {
    match route
    case Register => Public
    case Login => Public
    case Profile => AuthenticatedOnly
    case CreateApplication => RoleRestricted({USER})
    case UpdateApplicationStatus => RoleRestricted({ADMIN})
    case _ => RoleRestricted({USER, ADMIN})
  }

  /** The decorators and the guard give every route exactly the policy's decision. Profile
      lists both roles where the policy says "any authenticated caller": with only two
      roles, the two are the same. */
  lemma RouteTableMatchesPolicy(route: Route, jwt: JwtResult)
    ensures VerdictOf(Admit(route, jwt)) == Decide(PolicyRequirement(route), Caller(jwt))
  {
    GuardMatchesDecide(Decorator(route), jwt);
    var req := RequirementOf(Decorator(route));
    if Caller(jwt).Some? {
      var role := Caller(jwt).value.role;
      match route
      case Profile =>
        assert req == RoleRestricted({USER, ADMIN}) by {
          assert [USER, ADMIN][0] == USER && [USER, ADMIN][1] == ADMIN;
          assert (set r | r in [USER, ADMIN]) == {USER, ADMIN};
        }
        assert role.USER? || role.ADMIN?;
      case CreateApplication =>
        assert (set r | r in [USER]) == {USER};
      case UpdateApplicationStatus =>
        assert (set r | r in [ADMIN]) == {ADMIN};
      case Register =>
      case Login =>
      case _ =>
        assert (set r | r in [USER, ADMIN]) == {USER, ADMIN};
    }
  }

  /** Register and login are open to anyone, with or without a token. */
  lemma AuthRoutesArePublic(route: Route, jwt: JwtResult)
    requires IsPublic(route)
    ensures Admit(route, jwt) == Allow
  {
  }

  /** Every other route answers 401 to a caller without a verified identity, never 403. */
  lemma ProtectedRoutesNeedIdentity(route: Route, jwt: JwtResult)
    requires !IsPublic(route) && Caller(jwt).None?
    ensures Admit(route, jwt).Unauthorized?
  {
  }

  /** Creating an application is for USER only: an ADMIN is refused with 403. */
  lemma CreateIsUserOnly(caller: Identity)
    ensures Admit(CreateApplication, JwtAccepted(Some(caller))) == Allow <==> caller.role == USER
    ensures caller.role == ADMIN ==> Admit(CreateApplication, JwtAccepted(Some(caller))).Forbidden?
  {
  }

  /** Changing the status is for ADMIN only. */
  lemma StatusChangeIsAdminOnly(caller: Identity)
    ensures Admit(UpdateApplicationStatus, JwtAccepted(Some(caller))) == Allow <==> caller.role == ADMIN
  {
  }

  /** Profile, list, get, update and delete let in every authenticated caller. */
  lemma SharedRoutesAdmitBothRoles(route: Route, caller: Identity)
    requires route in {Profile, ListApplications, GetApplication, UpdateApplication, DeleteApplication}
    ensures Admit(route, JwtAccepted(Some(caller))) == Allow
  {
    var both := [USER, ADMIN];
    if caller.role == USER {
      assert both[0] == caller.role;
    } else {
      assert both[1] == caller.role;
    }
  }

  // ----- What the handlers pass on -----

  /** A request to a handler, with its validated body and its path id. */
  datatype Request =
    | RegisterRequest(registerDto: RegisterDto)
    | LoginRequest(loginDto: LoginDto)
    | ProfileRequest
    | CreateRequest(createDto: CreatePermitApplicationDto)
    | ListRequest
    | GetRequest(id: string)
    | UpdateRequest(id: string, patch: UpdatePermitApplicationDto)
    | StatusRequest(id: string, statusDto: UpdateApplicationStatusDto)
    | DeleteRequest(id: string)

  function RouteOf(req: Request): Route
  {
    match req
    case RegisterRequest(_) => Register
    case LoginRequest(_) => Login
    case ProfileRequest => Profile
    case CreateRequest(_) => CreateApplication
    case ListRequest => ListApplications
    case GetRequest(_) => GetApplication
    case UpdateRequest(_, _) => UpdateApplication
    case StatusRequest(_, _) => UpdateApplicationStatus
    case DeleteRequest(_) => DeleteApplication
  }

  /** A service method and its arguments. */
  datatype ServiceCall =
    | CallRegister(registerDto: RegisterDto)
    | CallLogin(loginDto: LoginDto)
    | CallGetProfile(profileId: string)
    | CallCreate(createDto: CreatePermitApplicationDto, ownerId: string)
    | CallFindAll(userId: Option<string>, userRole: Option<Role>)
    | CallFindOne(id: string, userId: Option<string>, userRole: Option<Role>)
    | CallUpdate(id: string, patch: UpdatePermitApplicationDto, userId: Option<string>, userRole: Option<Role>)
    | CallUpdateStatus(id: string, statusDto: UpdateApplicationStatusDto)
    | CallRemove(id: string, userId: Option<string>, userRole: Option<Role>)

  /** The arguments the service's ownership test expects for a caller. */
  function CallerArgs(user: Identity): (Option<string>, Option<Role>)
  {
    (Some(user.id), Some(user.role))
  }

  /** The handlers, with the caller passed as the service declares it. The guard has run, so a
      protected route always has a caller. */
  function Dispatch(req: Request, caller: Option<Identity>): (call: ServiceCall)
    requires IsPublic(RouteOf(req)) || caller.Some?
    ensures req.RegisterRequest? ==> call == CallRegister(req.registerDto)
    ensures req.LoginRequest? ==> call == CallLogin(req.loginDto)
    ensures req.ProfileRequest? ==> call == CallGetProfile(caller.value.id)
    ensures req.CreateRequest? ==> call == CallCreate(req.createDto, caller.value.id)
    ensures req.StatusRequest? ==> call == CallUpdateStatus(req.id, req.statusDto)
    ensures call.CallFindAll? || call.CallFindOne? || call.CallUpdate? || call.CallRemove? ==>
              caller.Some? && call.userId == Some(caller.value.id) && call.userRole == Some(caller.value.role)
    ensures req.GetRequest? ==> call.CallFindOne? && call.id == req.id
    ensures req.UpdateRequest? ==> call.CallUpdate? && call.id == req.id && call.patch == req.patch
    ensures req.DeleteRequest? ==> call.CallRemove? && call.id == req.id
    ensures req.ListRequest? ==> call.CallFindAll?
  {
    match req
    case RegisterRequest(dto) => CallRegister(dto)
    case LoginRequest(dto) => CallLogin(dto)
    case ProfileRequest => CallGetProfile(caller.value.id)
    case CreateRequest(dto) => CallCreate(dto, caller.value.id)
    case ListRequest => var (u, r) := CallerArgs(caller.value); CallFindAll(u, r)
    case GetRequest(id) => var (u, r) := CallerArgs(caller.value); CallFindOne(id, u, r)
    case UpdateRequest(id, patch) => var (u, r) := CallerArgs(caller.value); CallUpdate(id, patch, u, r)
    case StatusRequest(id, dto) => CallUpdateStatus(id, dto)
    case DeleteRequest(id) => var (u, r) := CallerArgs(caller.value); CallRemove(id, u, r)
  }

  /** With the caller's id and role passed on, the owner of a row and every ADMIN pass the
      ownership test, and nobody else does. */
  lemma DispatchedCallerDecidesByOwnership(owner: Option<string>, user: Identity)
    ensures var (u, r) := CallerArgs(user);
            !Denied(owner, u, r) <==> user.role == ADMIN || owner == Some(user.id)
  {
  }

  // ----- As written -----

  /** The JavaScript values that can reach the service's `userId` and `userRole` parameters
      or the row's `userId` column. */
  datatype JsValue = Undefined | Null | Str(s: string) | UserObject(user: Identity)

  function OwnerValue(owner: Option<string>): JsValue
  {
    if owner.Some? then Str(owner.value) else Null
  }

  function IdValue(userId: Option<string>): JsValue
  {
    if userId.Some? then Str(userId.value) else Undefined
  }

  function RoleValue(userRole: Option<Role>): JsValue
  {
    if userRole.Some? then Str(RoleName(userRole.value)) else Undefined
  }

  /** `userRole !== Role.ADMIN && application.userId !== userId` on JavaScript values: strict
      inequality of strings, null, undefined and an object reference. */
  predicate DeniedOnValues(owner: JsValue, userId: JsValue, userRole: JsValue)
  {
    userRole != Str("ADMIN") && owner != userId
  }

  /** On the values the service's signature admits, the JavaScript test is `Denied`. */
  lemma DeniedOnValuesAgrees(owner: Option<string>, userId: Option<string>, userRole: Option<Role>)
    ensures DeniedOnValues(OwnerValue(owner), IdValue(userId), RoleValue(userRole)) == Denied(owner, userId, userRole)
  {
  }

  /** `findOne(id, user)`, `update(id, dto, user)`, `remove(id, user)`, `findAll(user)`: the user
      object lands in the `userId` slot and the `userRole` slot stays undefined. */
  function CallerArgsAsWritten(user: Identity): (args: (JsValue, JsValue))
    ensures args.0.UserObject? && args.1 == Undefined
  {
    (UserObject(user), Undefined)
  }

  /** As written, every caller, the row's owner and every ADMIN included, is denied every
      existing row: findOne, update and remove can only answer 404 or 403. */
  lemma AsWrittenEveryoneIsDenied(owner: Option<string>, user: Identity)
    ensures var (u, r) := CallerArgsAsWritten(user); DeniedOnValues(OwnerValue(owner), u, r)
  {
  }

  /** `userId || undefined` on JavaScript values: the falsy ones (undefined, null and the
      empty string) become undefined, everything else is kept. */
  function OrUndefinedOnValues(v: JsValue): (r: JsValue)
    ensures r == Undefined <==> v == Undefined || v == Null || v == Str("")
    ensures r != Undefined ==> r == v
  {
    if v == Null || v == Str("") then Undefined else v
  }

  /** On an id the service's signature admits, the JavaScript filter value is `OrUndefined`. */
  lemma OrUndefinedOnValuesAgrees(userId: Option<string>)
    ensures OrUndefinedOnValues(IdValue(userId)) == IdValue(OrUndefined(userId))
  {
  }

  /** As written, findAll never takes its ADMIN branch (`userRole === Role.ADMIN`); with the
      role passed on it would. */
  lemma AsWrittenListingIgnoresAdmin(user: Identity)
    requires user.role == ADMIN
    ensures CallerArgsAsWritten(user).1 != RoleValue(Some(ADMIN))
    ensures RoleValue(CallerArgs(user).1) == Str("ADMIN")
  {
  }

  /** As written, the owner filter of findAll is `{ userId: user || undefined }`: its value is
      the user object, not an id, for a USER and an ADMIN alike, so no caller is filtered by
      its own id. */
  lemma AsWrittenListingFiltersByObject(user: Identity)
    ensures OrUndefinedOnValues(CallerArgsAsWritten(user).0) == UserObject(user)
    ensures user.id != "" ==> OrUndefinedOnValues(IdValue(CallerArgs(user).0)) == Str(user.id)
  {
  }
}
