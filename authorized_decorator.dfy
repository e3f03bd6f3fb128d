/** The `@Authorized(roleOrRoles?)` decorator: it marks a route as needing
    authorization and records the roles it admits. */
module AuthorizedDecorator {
  import opened Domain

  /** The decorator's argument: nothing, one role, or an array of roles. */
  datatype RoleArgument = NoRoles | SingleRole(role: Role) | RoleList(roles: seq<Role>)

  /** The two metadata entries the decorator sets on a handler:
      'authorization' and 'roles'. */
  datatype AuthMetadata = AuthMetadata(authorization: bool, roles: seq<Role>)

  /** The roles an argument names. */
  predicate Names(arg: RoleArgument, r: Role)
  {
    match arg
    case NoRoles => false
    case SingleRole(x) => x == r
    case RoleList(rs) => r in rs
  }

  /** `Authorized(roleOrRoles)`: the flag is always true; the role list holds exactly the
      roles the argument names, a single role becoming a one-element list and an array
      being kept as it is. */
  function Authorized(arg: RoleArgument): (m: AuthMetadata)
    ensures m.authorization
    ensures forall r :: r in m.roles <==> Names(arg, r)
    ensures arg.NoRoles? ==> m.roles == []
    ensures arg.SingleRole? ==> m.roles == [arg.role]
    ensures arg.RoleList? ==> m.roles == arg.roles
  {
    var authorizedRoles :=
      match arg
      case NoRoles => []
      case SingleRole(r) => [r]
      case RoleList(rs) => rs;
    AuthMetadata(true, authorizedRoles)
  }
}
