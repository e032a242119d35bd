/**
  The profile endpoints: reading the signed-in user's Clerk record beside the local row that
  `syncUser` attached, and renaming the local row.
*/
module AuthController {
  import opened Wrappers
  import opened Text
  import opened Http
  import opened UserTable
  import opened Auth

  const NotAuthenticated := ErrorReply(401, "User not authenticated", None)
  const UsernameTooShort := ErrorReply(400, "Username must be at least 3 characters", None)

  /** The `clerk` part of the profile response. */
  datatype ClerkView = ClerkView(
    id: string,
    email: Option<string>,
    username: Option<string>,
    firstName: Option<string>,
    lastName: Option<string>)

  /** The profile response: the Clerk view and the `req.user` the sync step set, if any. */
  datatype Profile = Profile(clerk: ClerkView, database: Option<User>)

  /**
    `getProfile`: 401 without a signed-in user and 500 when Clerk or `getAuth` throws; otherwise
    the Clerk fields and, unchanged, the request's local user.
  */
  function GetProfile(auth: AuthState, clerk: Option<ClerkUser>, reqUser: Option<User>): (r: Result<Profile, ErrorReply>)
    ensures auth.AuthThrew? ==> r == Err(InternalError)
    ensures auth.Session? && !Truthy(auth.userId) ==> r == Err(NotAuthenticated)
    ensures SignedIn(auth) && clerk.None? ==> r == Err(InternalError)
    ensures r.Ok? <==> SignedIn(auth) && clerk.Some?
    ensures r.Ok? ==> r.value.database == reqUser
    ensures r.Ok? ==> r.value.clerk == ClerkView(clerk.value.id, clerk.value.email, clerk.value.username,
                                                 clerk.value.firstName, clerk.value.lastName)
  {
    match auth
    case AuthThrew => Err(InternalError)
    case Session(userId) =>
      if !Truthy(userId) then Err(NotAuthenticated)
      else if clerk.None? then Err(InternalError)
      else
        var c := clerk.value;
        Ok(Profile(ClerkView(c.id, c.email, c.username, c.firstName, c.lastName), reqUser))
  }

  /** The body's username is acceptable when present and at least three characters long once trimmed. */
  predicate ValidUsername(username: Option<string>) {
    Truthy(username) && |Trim(username.value)| >= 3
  }

  /**
    `updateProfile` on a snapshot of the user table: the response and the table afterwards.
    Only a valid username for a signed-in user with a row changes anything, and then only that
    row's username, to the trimmed name.
  */
  function Update(t: Table, auth: AuthState, username: Option<string>): (r: (Result<User, ErrorReply>, Table))
    ensures auth.AuthThrew? ==> r == (Err(InternalError), t)
    ensures auth.Session? && !Truthy(auth.userId) ==> r == (Err(NotAuthenticated), t)
    ensures SignedIn(auth) && !ValidUsername(username) ==> r == (Err(UsernameTooShort), t)
    ensures SignedIn(auth) && ValidUsername(username) && auth.userId.value !in t.rows ==> r == (Err(InternalError), t)
    ensures r.0.Ok? <==> SignedIn(auth) && ValidUsername(username) && auth.userId.value in t.rows
    ensures r.0.Ok? ==> r.1 == Rename(t, auth.userId.value, Trim(username.value)).value
    ensures r.0.Ok? ==> r.0.value == t.rows[auth.userId.value].(username := Trim(username.value))
    ensures r.0.Err? ==> r.1 == t
  {
    match auth
    case AuthThrew => (Err(InternalError), t)
    case Session(userId) =>
      if !Truthy(userId) then (Err(NotAuthenticated), t)
      else if !ValidUsername(username) then (Err(UsernameTooShort), t)
      else
        match Rename(t, userId.value, Trim(username.value))
        case None => (Err(InternalError), t)
        case Some(t') => (Ok(t'.rows[userId.value]), t')
  }

  /** `updateProfile`: validates the request and renames the caller's row in place. */
  method UpdateProfile(users: Users, auth: AuthState, username: Option<string>) returns (reply: Result<User, ErrorReply>)
    requires users.Valid()
    modifies users
    ensures users.Valid()
    ensures (reply, users.Snapshot()) == Update(old(users.Snapshot()), auth, username)
  {
    if auth.AuthThrew? {
      return Err(InternalError);
    }
    var userId := auth.userId;
    if !Truthy(userId) {
      return Err(NotAuthenticated);
    }
    if !Truthy(username) || |Trim(username.value)| < 3 {
      return Err(UsernameTooShort);
    }
    var updated := users.UpdateUsername(userId.value, Trim(username.value));
    if updated.None? {
      return Err(InternalError);
    }
    reply := Ok(updated.value);
  }

  /** A clean username: at least three characters, no white space at either end, its own trim. */
  predicate CleanName(name: string) {
    |name| >= 3 && !IsSpace(name[0]) && !IsSpace(name[|name| - 1]) && Trim(name) == name
  }

  /** A stored username is clean. */
  lemma StoredUsernameIsClean(t: Table, auth: AuthState, username: Option<string>)
    requires Update(t, auth, username).0.Ok?
    ensures CleanName(Update(t, auth, username).0.value.username)
  {
    UpdatedName(t, auth, username);
    TrimmedNameIsClean(username.value);
  }

  /** A successful update stores the trimmed name. */
  lemma UpdatedName(t: Table, auth: AuthState, username: Option<string>)
    requires Update(t, auth, username).0.Ok?
    ensures ValidUsername(username) && Update(t, auth, username).0.value.username == Trim(username.value)
  {
    assert SignedIn(auth) && ValidUsername(username);
  }

  /** A trim of three or more characters is clean. */
  lemma TrimmedNameIsClean(s: string)
    requires |Trim(s)| >= 3
    ensures CleanName(Trim(s))
  {
    TrimIdempotent(s);
  }

  /** Trimming twice is trimming once. */
  lemma TrimIdempotent(s: string)
    ensures Trim(Trim(s)) == Trim(s)
  {
    var r := Trim(s);
    assert TrimStart(r) == r;
    assert TrimEnd(r) == r;
  }

  /** Repeating a successful rename leaves the table as the first rename left it. */
  lemma UpdateIdempotent(t: Table, auth: AuthState, username: Option<string>)
    requires Update(t, auth, username).0.Ok?
    ensures Update(Update(t, auth, username).1, auth, username).1 == Update(t, auth, username).1
  {
    var (r1, t1) := Update(t, auth, username);
    var id := auth.userId.value;
    var name := Trim(username.value);
    assert t1.rows[id].username == name;
    assert t1.rows[id].(username := name) == t1.rows[id];
    assert t1.rows[id := t1.rows[id]] == t1.rows;
  }
}
