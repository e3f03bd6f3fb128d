/** `AuthService`: registration, login and profile lookup over the user table. The
    table is the map `users` from email (unique) to row. bcrypt's hash and compare and
    the JWT signer are opaque functions fixed when the service is built; what the
    database generates (id, default role, default `isActive`, timestamps) is passed in. */
module AuthService {
  import opened Domain
  import opened ResponseHelper
  import opened ExceptionFilter

  datatype UserRow = UserRow(
    id: string, email: string, passwordHash: string, name: Option<string>,
    role: Role, isActive: bool, createdAt: int, updatedAt: int)

  datatype RegisterDto = RegisterDto(email: string, password: string, name: Option<string>)
  datatype LoginDto = LoginDto(email: string, password: string)

  /** The `user` member of `AuthResponse`. */
  datatype PublicUser = PublicUser(id: string, email: string, name: Option<string>, role: Role)
  datatype AuthResponse = AuthResponse(user: PublicUser, accessToken: string)
  datatype UserProfile = UserProfile(id: string, email: string, name: Option<string>, role: Role,
                                     createdAt: int, updatedAt: int)

  /** The signed JWT payload `{ sub, email, role }`. */
  datatype TokenPayload = TokenPayload(sub: string, email: string, role: Role)

  const InvalidCredentials := "Invalid credentials"

  /** The user as the client sees it: the name is `user.name || undefined`. */
  function PublicView(u: UserRow): (v: PublicUser)
    ensures v.id == u.id && v.email == u.email && v.role == u.role
    ensures v.name.Some? <==> u.name.Some? && u.name.value != ""
    ensures v.name.Some? ==> v.name == u.name
  {
    PublicUser(u.id, u.email, OrUndefined(u.name), u.role)
  }

  function PayloadOf(u: UserRow): (p: TokenPayload)
    ensures p.sub == u.id && p.email == u.email && p.role == u.role
  {
    TokenPayload(u.id, u.email, u.role)
  }

  function ProfileOf(u: UserRow): (p: UserProfile)
    ensures p.id == u.id && p.email == u.email && p.role == u.role
    ensures p.createdAt == u.createdAt && p.updatedAt == u.updatedAt
    ensures p.name.Some? <==> u.name.Some? && u.name.value != ""
    ensures p.name.Some? ==> p.name == u.name
  {
    UserProfile(u.id, u.email, OrUndefined(u.name), u.role, u.createdAt, u.updatedAt)
  }

  /** The token payload and the returned user both describe the stored row. */
  lemma TokenDescribesUser(u: UserRow)
    ensures PayloadOf(u).sub == PublicView(u).id && PayloadOf(u).email == PublicView(u).email
    ensures PayloadOf(u).role == PublicView(u).role
  {
  }

  class AuthService {
    var users: map<string, UserRow>
    const hash: string -> string
    const compare: (string, string) -> bool
    const sign: TokenPayload -> string

    /** Each row is stored under its own email, and ids are unique. */
    ghost predicate Valid()
      reads this
    {
      && (forall e :: e in users ==> users[e].email == e)
      && (forall e1, e2 :: e1 in users && e2 in users && users[e1].id == users[e2].id ==> e1 == e2)
    }

    /** Login succeeds for this body: the user exists, is active and the password matches. */
    predicate Accepts(dto: LoginDto)
      reads this
    {
      dto.email in users && users[dto.email].isActive && compare(dto.password, users[dto.email].passwordHash)
    }

    constructor (hash: string -> string, compare: (string, string) -> bool, sign: TokenPayload -> string)
      ensures Valid() && users == map[]
      ensures this.hash == hash && this.compare == compare && this.sign == sign
    {
      users := map[];
      this.hash := hash;
      this.compare := compare;
      this.sign := sign;
    }

    /** `register`: a taken email is a Conflict and adds nobody; otherwise the row stores the
        hash of the password, and the caller gets 201 with the user and a token for it. */
    method Register(dto: RegisterDto, newId: string, defaultRole: Role, defaultActive: bool, now: int)
      returns (r: Outcome<AuthResponse>)
      requires Valid()
      requires forall e :: e in users ==> users[e].id != newId
      modifies this
      ensures Valid()
      ensures dto.email in old(users) ==>
                r == Thrown(Throw(ConflictException, "User with this email already exists")) && users == old(users)
      ensures dto.email !in old(users) ==>
                var u := UserRow(newId, dto.email, hash(dto.password), dto.name, defaultRole, defaultActive, now, now);
                && users == old(users)[dto.email := u]
                && r.Ok? && IsSuccessResponse(r.response) && r.response.statusCode == 201
                && r.response.data == Some(AuthResponse(PublicView(u), sign(PayloadOf(u))))
                && r.response.message == "User registered successfully"
    {
      if dto.email in users {
        return Thrown(Throw(ConflictException, "User with this email already exists"));
      }
      var hashedPassword := hash(dto.password);
      var user := UserRow(newId, dto.email, hashedPassword, dto.name, defaultRole, defaultActive, now, now);
      users := users[dto.email := user];
      var accessToken := sign(PayloadOf(user));
      r := Ok(Success(Some(AuthResponse(PublicView(user), accessToken)), Some("User registered successfully"), Some(201), None));
    }

    /** `login`: a missing user, an inactive user and a wrong password all give the same
        Unauthorized 'Invalid credentials'; otherwise 200 with the stored user and its token. */
    method Login(dto: LoginDto) returns (r: Outcome<AuthResponse>)
      ensures !Accepts(dto) ==> r == Thrown(Throw(UnauthorizedException, InvalidCredentials))
      ensures Accepts(dto) ==>
                r.Ok? && IsSuccessResponse(r.response) && r.response.statusCode == 200
                && r.response.data == Some(AuthResponse(PublicView(users[dto.email]), sign(PayloadOf(users[dto.email]))))
                && r.response.message == "Login successful"
    {
      if dto.email !in users || !users[dto.email].isActive {
        return Thrown(Throw(UnauthorizedException, InvalidCredentials));
      }
      var user := users[dto.email];
      var isPasswordValid := compare(dto.password, user.passwordHash);
      if !isPasswordValid {
        return Thrown(Throw(UnauthorizedException, InvalidCredentials));
      }
      var accessToken := sign(PayloadOf(user));
      r := Ok(Success(Some(AuthResponse(PublicView(user), accessToken)), Some("Login successful"), None, None));
    }

    /** `getProfile`: the row with this id, without its password; an unknown id is
        Unauthorized 'User not found'. */
    method GetProfile(userId: string) returns (r: Outcome<UserProfile>)
      requires Valid()
      ensures r.Ok? <==> exists e :: e in users && users[e].id == userId
      ensures r.Thrown? ==> r.exception == Throw(UnauthorizedException, "User not found")
      ensures forall e :: e in users && users[e].id == userId ==>
                r.Ok? && IsSuccessResponse(r.response) && r.response.statusCode == 200
                && r.response.data == Some(ProfileOf(users[e]))
                && r.response.message == "Profile retrieved successfully"
    {
      if e :| e in users && users[e].id == userId {
        r := Ok(Success(Some(ProfileOf(users[e])), Some("Profile retrieved successfully"), None, None));
      } else {
        r := Thrown(Throw(UnauthorizedException, "User not found"));
      }
    }
  }

  /** Registering and then logging in with the same password succeeds for the same user,
      provided bcrypt's compare accepts the hash of the password and new users are active;
      a password whose comparison fails is refused like any bad credential. */
  method RegisterThenLogin(s: AuthService, dto: RegisterDto, wrongPassword: string,
                           newId: string, defaultRole: Role, now: int)
    returns (good: Outcome<AuthResponse>, bad: Outcome<AuthResponse>)
    requires s.Valid() && dto.email !in s.users
    requires forall e :: e in s.users ==> s.users[e].id != newId
    requires s.compare(dto.password, s.hash(dto.password))
    requires !s.compare(wrongPassword, s.hash(dto.password))
    modifies s
    ensures good.Ok? && good.response.data.Some? && good.response.data.value.user.id == newId
    ensures bad == Thrown(Throw(UnauthorizedException, InvalidCredentials))
  {
    var registered := s.Register(dto, newId, defaultRole, true, now);
    good := s.Login(LoginDto(dto.email, dto.password));
    bad := s.Login(LoginDto(dto.email, wrongPassword));
  }
}
