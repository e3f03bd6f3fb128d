/** The front-end session store: the `token`, `user`, `isLoading` and `error` state of the
    Pinia store, and the two `localStorage` entries it mirrors the session into. The browser
    is reduced to what the store touches: `localStorage` is the map `storage`, `JSON.stringify`
    and `JSON.parse` are functions fixed when the store is built, `import.meta.client` is the
    flag `isClient`, and each `$fetch` call is an input to the action that awaits it. */
module AuthStore {
  import opened Domain

  const TokenKey := "auth_token"
  const UserKey := "auth_user"

  /** The `User` the store keeps. */
  datatype User = User(id: string, email: string, name: Option<string>, role: Role)

  /** What the profile endpoint returns: a user with its timestamps. */
  datatype Profile = Profile(id: string, email: string, name: Option<string>, role: Role,
                             createdAt: int, updatedAt: int)

  /** What a login or registration returns on success. */
  datatype AuthData = AuthData(accessToken: string, user: User)

  /** The outcome of `JSON.parse` on the stored user: a syntax error, or a value (`null` when
      the stored text is "null"). */
  datatype Parsed = Malformed | Value(user: Option<User>)

  /** What an awaited `$fetch` gives: an envelope `{ success, data, message }`, or a thrown
      `FetchError` with the server's envelope message (`e.data?.message`), its own message and
      its HTTP status. */
  datatype Reply<D> =
    | Responded(success: bool, data: Option<D>, message: string)
    | Failed(dataMessage: Option<string>, message: string, statusCode: Option<int>)

  /** What an action does for its caller: returns the envelope, or throws an `Error`. */
  datatype ActionResult<D> = Returned(data: D, message: string) | Raised(message: string)

  /** The reply carries a session: `response.success && response.data`. */
  predicate Accepted<D>(reply: Reply<D>)
  {
    reply.Responded? && reply.success && reply.data.Some?
  }

  /** `e.data?.message || e.message || fallback`, where a refused envelope was rethrown as
      `new Error(response.message || fallback)`: the first non-empty message wins. */
  function FailureMessage<D>(reply: Reply<D>, fallback: string): (m: string)
    requires !Accepted(reply) && fallback != ""
    ensures m != ""
    ensures reply.Responded? ==> m == (if reply.message != "" then reply.message else fallback)
    ensures reply.Failed? && reply.dataMessage.Some? && reply.dataMessage.value != "" ==> m == reply.dataMessage.value
    ensures reply.Failed? && (reply.dataMessage.None? || reply.dataMessage.value == "") ==>
              m == (if reply.message != "" then reply.message else fallback)
  {
    match reply
    case Responded(_, _, message) => if message != "" then message else fallback
    case Failed(dataMessage, message, _) =>
      if dataMessage.Some? && dataMessage.value != "" then dataMessage.value
      else if message != "" then message
      else fallback
  }

  /** Only a thrown `FetchError` carries a status; the `Error` rethrown for a refused envelope
      has none, so only a 401 from the server clears the session. */
  predicate IsUnauthorized<D>(reply: Reply<D>)
  {
    reply.Failed? && reply.statusCode == Some(401)
  }

  // ----- The two storage entries -----

  /** `setItem` of both entries. */
  function StoreAuth(storage: map<string, string>, token: string, userText: string): (s: map<string, string>)
    ensures TokenKey in s && s[TokenKey] == token
    ensures UserKey in s && s[UserKey] == userText
    ensures forall k :: k != TokenKey && k != UserKey ==> (k in s <==> k in storage)
    ensures forall k :: k != TokenKey && k != UserKey && k in s ==> s[k] == storage[k]
  {
    storage[TokenKey := token][UserKey := userText]
  }

  /** `removeItem` of both entries. */
  function RemoveAuth(storage: map<string, string>): (s: map<string, string>)
    ensures TokenKey !in s && UserKey !in s
    ensures forall k :: k != TokenKey && k != UserKey ==> (k in s <==> k in storage)
    ensures forall k :: k != TokenKey && k != UserKey && k in s ==> s[k] == storage[k]
  {
    storage - {TokenKey, UserKey}
  }

  /** Both entries are present and non-empty (`storedToken && storedUser`). */
  predicate BothStored(storage: map<string, string>)
  {
    TokenKey in storage && storage[TokenKey] != "" && UserKey in storage && storage[UserKey] != ""
  }

  /** What `initializeAuth` finds: nothing to restore, a session, or a user entry that fails
      to parse. */
  datatype Restored = NothingStored | Loaded(token: string, user: Option<User>) | Corrupt

  function Restore(storage: map<string, string>, parse: string -> Parsed): (r: Restored)
    ensures r.NothingStored? <==> !BothStored(storage)
    ensures r.Corrupt? <==> BothStored(storage) && parse(storage[UserKey]).Malformed?
    ensures r.Loaded? ==> r.token == storage[TokenKey] && parse(storage[UserKey]) == Value(r.user)
  {
    if !BothStored(storage) then NothingStored
    else match parse(storage[UserKey])
      case Malformed => Corrupt
      case Value(u) => Loaded(storage[TokenKey], u)
  }

  /** Clearing twice is clearing once. */
  lemma RemoveAuthIsIdempotent(storage: map<string, string>)
    ensures RemoveAuth(RemoveAuth(storage)) == RemoveAuth(storage)
  {
  }

  /** After a clear there is nothing to restore. */
  lemma ClearedStorageRestoresNothing(storage: map<string, string>, parse: string -> Parsed)
    ensures Restore(RemoveAuth(storage), parse) == NothingStored
  {
  }

  /** A session saved by `setAuth` is restored by `initializeAuth`, provided the token is
      non-empty and `JSON.parse` inverts `JSON.stringify` on the user. */
  lemma StoredSessionIsRestored(storage: map<string, string>, token: string, u: User,
                                stringify: User -> string, parse: string -> Parsed)
    requires token != "" && stringify(u) != ""
    requires parse(stringify(u)) == Value(Some(u))
    ensures Restore(StoreAuth(storage, token, stringify(u)), parse) == Loaded(token, Some(u))
  {
  }

  /** The profile as the store keeps it: the timestamps are dropped. */
  function UserOfProfile(p: Profile): (u: User)
    ensures u.id == p.id && u.email == p.email && u.name == p.name && u.role == p.role
  {
    User(p.id, p.email, p.name, p.role)
  }

  class AuthStore {
    var token: Option<string>
    var user: Option<User>
    var isLoading: bool
    var error: Option<string>
    var storage: map<string, string>
    const isClient: bool
    const stringify: User -> string
    const parse: string -> Parsed

    /** `isAuthenticated`: a non-empty token and a user. */
    function IsAuthenticated(): (b: bool)
      reads this
      ensures b ==> user.Some?
      ensures token.None? || token == Some("") ==> !b
      ensures token.Some? && token.value != "" && user.Some? ==> b
    {
      token.Some? && token.value != "" && user.Some?
    }

    /** The store as a page load creates it, over whatever the browser has stored. */
    constructor (storage: map<string, string>, isClient: bool,
                 stringify: User -> string, parse: string -> Parsed)
      ensures token == None && user == None && !isLoading && error == None
      ensures this.storage == storage && this.isClient == isClient
      ensures this.stringify == stringify && this.parse == parse
      ensures !IsAuthenticated()
    {
      token := None;
      user := None;
      isLoading := false;
      error := None;
      this.storage := storage;
      this.isClient := isClient;
      this.stringify := stringify;
      this.parse := parse;
    }

    /** `setAuth`: both fields are set and, on the client, both entries are written. */
    method SetAuth(accessToken: string, userData: User)
      modifies this
      ensures token == Some(accessToken) && user == Some(userData)
      ensures storage == if isClient then StoreAuth(old(storage), accessToken, stringify(userData)) else old(storage)
      ensures isLoading == old(isLoading) && error == old(error)
      ensures IsAuthenticated() <==> accessToken != ""
    {
      token := Some(accessToken);
      user := Some(userData);
      if isClient {
        storage := StoreAuth(storage, accessToken, stringify(userData));
      }
    }

    /** `clearAuth`: both fields are nulled and, on the client, both entries are removed. */
    method ClearAuth()
      modifies this
      ensures token == None && user == None
      ensures storage == if isClient then RemoveAuth(old(storage)) else old(storage)
      ensures isLoading == old(isLoading) && error == old(error)
      ensures !IsAuthenticated()
    {
      token := None;
      user := None;
      if isClient {
        storage := RemoveAuth(storage);
      }
    }

    /** `initializeAuth`: on the client, a stored session is loaded when both entries are
        present; an unparsable user entry clears everything. Otherwise nothing changes. */
    method InitializeAuth()
      modifies this
      ensures isLoading == old(isLoading) && error == old(error)
      ensures !isClient || Restore(old(storage), parse).NothingStored? ==>
                token == old(token) && user == old(user) && storage == old(storage)
      ensures isClient && Restore(old(storage), parse).Loaded? ==>
                token == Some(Restore(old(storage), parse).token) && user == Restore(old(storage), parse).user
                && storage == old(storage)
      ensures isClient && Restore(old(storage), parse).Corrupt? ==>
                token == None && user == None && storage == RemoveAuth(old(storage))
    {
      if isClient {
        if TokenKey in storage && storage[TokenKey] != "" && UserKey in storage && storage[UserKey] != "" {
          token := Some(storage[TokenKey]);
          var parsed := parse(storage[UserKey]);
          if parsed.Malformed? {
            ClearAuth();
          } else {
            user := parsed.user;
          }
        }
      }
    }

    /** The shared body of `login` and `register`: an accepted reply starts the session; any
        other reply or a thrown error leaves the session alone, records the message and
        rethrows it. Loading is over either way. */
    method Authenticate(reply: Reply<AuthData>, fallback: string) returns (r: ActionResult<AuthData>)
      requires fallback != ""
      modifies this
      ensures !isLoading
      ensures Accepted(reply) ==>
                var d := reply.data.value;
                && r == Returned(d, reply.message)
                && token == Some(d.accessToken) && user == Some(d.user) && error == None
                && storage == if isClient then StoreAuth(old(storage), d.accessToken, stringify(d.user)) else old(storage)
      ensures !Accepted(reply) ==>
                var m := FailureMessage(reply, fallback);
                && r == Raised(m) && error == Some(m)
                && token == old(token) && user == old(user) && storage == old(storage)
    {
      isLoading := true;
      error := None;
      if reply.Responded? && reply.success && reply.data.Some? {
        SetAuth(reply.data.value.accessToken, reply.data.value.user);
        r := Returned(reply.data.value, reply.message);
      } else {
        var errorMessage := FailureMessage(reply, fallback);
        error := Some(errorMessage);
        r := Raised(errorMessage);
      }
      isLoading := false;
    }

    /** `login`, with the awaited reply of POST /api/auth/login. */
    method Login(reply: Reply<AuthData>) returns (r: ActionResult<AuthData>)
      modifies this
      ensures !isLoading
      ensures Accepted(reply) ==>
                r == Returned(reply.data.value, reply.message) && error == None
                && token == Some(reply.data.value.accessToken) && user == Some(reply.data.value.user)
                && storage == if isClient then StoreAuth(old(storage), reply.data.value.accessToken, stringify(reply.data.value.user)) else old(storage)
      ensures !Accepted(reply) ==>
                r == Raised(FailureMessage(reply, "Login failed")) && error == Some(r.message)
                && token == old(token) && user == old(user) && storage == old(storage)
    {
      r := Authenticate(reply, "Login failed");
    }

    /** `register`, with the awaited reply of POST /api/auth/register. */
    method Register(reply: Reply<AuthData>) returns (r: ActionResult<AuthData>)
      modifies this
      ensures !isLoading
      ensures Accepted(reply) ==>
                r == Returned(reply.data.value, reply.message) && error == None
                && token == Some(reply.data.value.accessToken) && user == Some(reply.data.value.user)
                && storage == if isClient then StoreAuth(old(storage), reply.data.value.accessToken, stringify(reply.data.value.user)) else old(storage)
      ensures !Accepted(reply) ==>
                r == Raised(FailureMessage(reply, "Registration failed")) && error == Some(r.message)
                && token == old(token) && user == old(user) && storage == old(storage)
    {
      r := Authenticate(reply, "Registration failed");
    }

    /** `logout`: the session is cleared and the error reset. The navigation is not modelled. */
    method Logout()
      modifies this
      ensures token == None && user == None && error == None
      ensures storage == if isClient then RemoveAuth(old(storage)) else old(storage)
      ensures isLoading == old(isLoading)
      ensures !IsAuthenticated()
    {
      ClearAuth();
      error := None;
    }

    /** `fetchProfile`, with the awaited reply of GET /api/auth/profile. Without a token it
        throws before touching anything. An accepted reply replaces the user, keeps the token
        and, on the client, rewrites the user entry; a 401 from the server ends the session;
        any other failure only records the message. */
    method FetchProfile(reply: Reply<Profile>) returns (r: ActionResult<Profile>)
      modifies this
      ensures old(token).None? || old(token).value == "" ==>
                r == Raised("No authentication token")
                && token == old(token) && user == old(user) && storage == old(storage)
                && isLoading == old(isLoading) && error == old(error)
      ensures old(token).Some? && old(token).value != "" ==> !isLoading
      ensures old(token).Some? && old(token).value != "" && Accepted(reply) ==>
                var u := UserOfProfile(reply.data.value);
                && r == Returned(reply.data.value, reply.message) && error == None
                && token == old(token) && user == Some(u) && IsAuthenticated()
                && storage == if isClient then old(storage)[UserKey := stringify(u)] else old(storage)
      ensures old(token).Some? && old(token).value != "" && !Accepted(reply) ==>
                var m := FailureMessage(reply, "Failed to fetch profile");
                && r == Raised(m) && error == Some(m)
                && (IsUnauthorized(reply) ==>
                      token == None && user == None
                      && storage == if isClient then RemoveAuth(old(storage)) else old(storage))
                && (!IsUnauthorized(reply) ==>
                      token == old(token) && user == old(user) && storage == old(storage))
    {
      if token.None? || token.value == "" {
        return Raised("No authentication token");
      }
      isLoading := true;
      error := None;
      if reply.Responded? && reply.success && reply.data.Some? {
        var u := UserOfProfile(reply.data.value);
        user := Some(u);
        if isClient {
          storage := storage[UserKey := stringify(u)];
        }
        r := Returned(reply.data.value, reply.message);
      } else {
        var errorMessage := FailureMessage(reply, "Failed to fetch profile");
        error := Some(errorMessage);
        if reply.Failed? && reply.statusCode == Some(401) {
          ClearAuth();
        }
        r := Raised(errorMessage);
      }
      isLoading := false;
    }
  }

  /** Clearing an already cleared store changes nothing. */
  method ClearAuthIsIdempotent(s: AuthStore)
    modifies s
    ensures s.token == None && s.user == None
    ensures s.storage == if s.isClient then RemoveAuth(old(s.storage)) else old(s.storage)
  {
    s.ClearAuth();
    ghost var once := s.storage;
    s.ClearAuth();
    RemoveAuthIsIdempotent(old(s.storage));
    assert s.storage == once;
  }

  /** On the client, a session started by login survives a page reload: a fresh store over
      the same storage restores the same token and user, provided `JSON.parse` inverts
      `JSON.stringify` on the user. */
  method LoginSurvivesReload(s: AuthStore, reply: Reply<AuthData>)
    returns (reloaded: AuthStore)
    requires s.isClient && Accepted(reply) && reply.data.value.accessToken != ""
    requires s.stringify(reply.data.value.user) != ""
    requires s.parse(s.stringify(reply.data.value.user)) == Value(Some(reply.data.value.user))
    modifies s
    ensures reloaded.token == Some(reply.data.value.accessToken)
    ensures reloaded.user == Some(reply.data.value.user)
    ensures reloaded.IsAuthenticated()
  {
    var _ := s.Login(reply);
    reloaded := new AuthStore(s.storage, s.isClient, s.stringify, s.parse);
    StoredSessionIsRestored(old(s.storage), reply.data.value.accessToken, reply.data.value.user, s.stringify, s.parse);
    reloaded.InitializeAuth();
  }
}
