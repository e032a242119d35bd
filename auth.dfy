/**
  The authentication middleware: the guard on API routes and the step that mirrors the
  signed-in Clerk user into the local user table. Clerk's `getAuth` and `users.getUser`
  are inputs: `AuthState` is what `getAuth` did, `Option<ClerkUser>` what `getUser` returned
  (`None` when it threw), and `now` stands for `Date.now()`.
*/
module Auth {
  import opened Wrappers
  import opened Text
  import opened Http
  import opened UserTable

  /** `getAuth(req)`: it throws, or yields a session whose `userId` may be missing. */
  datatype AuthState = AuthThrew | Session(userId: Option<string>)

  /** The fields of a Clerk user the core reads; `email` is the first email address, if any. */
  datatype ClerkUser = ClerkUser(
    id: string,
    email: Option<string>,
    username: Option<string>,
    firstName: Option<string>,
    lastName: Option<string>)

  /** A request carries a signed-in user when `getAuth` succeeds with a non-empty `userId`. */
  predicate SignedIn(auth: AuthState) {
    auth.Session? && Truthy(auth.userId)
  }

  // ---------------------------------------------------------------------------
  // requireApiAuth
  // ---------------------------------------------------------------------------

  const AuthRequired := ErrorReply(401, "Authentication required", Some("Please provide a valid JWT token"))
  const AuthFailed := ErrorReply(401, "Authentication failed", Some("Invalid or expired token"))

  /** `requireApiAuth()`: the request passes exactly when it is signed in; every refusal is a 401. */
  function RequireApiAuth(auth: AuthState): (g: Guard)
    ensures g == Next <==> SignedIn(auth)
    ensures auth.AuthThrew? ==> g == Respond(AuthFailed)
    ensures auth.Session? && !Truthy(auth.userId) ==> g == Respond(AuthRequired)
    ensures g.Respond? ==> g.reply.status == 401
  {
    match auth
    case AuthThrew => Respond(AuthFailed)
    case Session(userId) => if Truthy(userId) then Next else Respond(AuthRequired)
  }

  // ---------------------------------------------------------------------------
  // Username derivation
  // ---------------------------------------------------------------------------

  /** `email.split('@')[0]`: the text before the first `@`, or all of it when there is none. */
  function LocalPart(email: string): (r: string)
    ensures '@' !in r
    ensures StartsWith(email, r)
    ensures r == email <==> '@' !in email
    ensures r != email ==> email[|r|] == '@'
  {
    LocalPartFacts(email);
    Split(email, '@')[0]
  }

  lemma LocalPartFacts(email: string)
    ensures var r := Split(email, '@')[0];
      && '@' !in r
      && StartsWith(email, r)
      && (r == email <==> '@' !in email)
      && (r != email ==> email[|r|] == '@')
  {
    var parts := Split(email, '@');
    JoinStartsWith(parts, '@');
    if '@' !in email {
      CountAbsent(email, '@');
    } else {
      var k :| 0 <= k < |email| && email[k] == '@';
      CountPresent(email, '@', k);
    }
  }

  /** A character that does not occur is counted zero times. */
  lemma {:induction false} CountAbsent(s: string, c: char)
    requires c !in s
    ensures Count(s, c) == 0
    decreases |s|
  {
    if s != [] {
      assert c !in s[1..] by {
        forall k | 0 <= k < |s[1..]| ensures s[1..][k] != c { assert s[1..][k] == s[k + 1]; }
      }
      CountAbsent(s[1..], c);
    }
  }

  /** A character that occurs is counted at least once. */
  lemma {:induction false} CountPresent(s: string, c: char, k: nat)
    requires k < |s| && s[k] == c
    ensures Count(s, c) >= 1
    decreases k
  {
    if k > 0 {
      assert s[1..][k - 1] == c;
      CountPresent(s[1..], c, k - 1);
    }
  }

  /** A joined text begins with its first piece, followed by the separator when there are more. */
  lemma JoinStartsWith(parts: seq<string>, c: char)
    requires |parts| >= 1
    ensures StartsWith(Join(parts, c), parts[0])
    ensures |parts| > 1 ==> |Join(parts, c)| > |parts[0]| && Join(parts, c)[|parts[0]|] == c
  {
    if |parts| > 1 {
      var j := Join(parts, c);
      assert j == parts[0] + [c] + Join(parts[1..], c);
      assert j[..|parts[0]|] == parts[0];
    }
  }

  /**
    `clerkUser.username || userEmail?.split('@')[0] || \`user_${Date.now()}\``. Each fallback is
    taken when the previous value is missing or empty, so the result is never empty.
  */
  function DeriveUsername(username: Option<string>, email: Option<string>, now: int): (r: string)
    ensures r != ""
    ensures Truthy(username) ==> r == username.value
    ensures !Truthy(username) && email.Some? && LocalPart(email.value) != "" ==>
      r == LocalPart(email.value) && StartsWith(email.value, r) && '@' !in r
    ensures !Truthy(username) && (email.None? || LocalPart(email.value) == "") ==>
      r == "user_" + IntToString(now)
  {
    if Truthy(username) then username.value
    else if email.Some? && LocalPart(email.value) != "" then LocalPart(email.value)
    else "user_" + IntToString(now)
  }

  /** An email that begins with `@` (or is empty) never supplies the username. */
  lemma EmptyLocalPartFallsThrough(email: string, now: int)
    requires email == [] || email[0] == '@'
    ensures DeriveUsername(None, Some(email), now) == "user_" + IntToString(now)
  {
  }

  // ---------------------------------------------------------------------------
  // syncUser
  // ---------------------------------------------------------------------------

  /** What `syncUser` does with the request: `next()` with `req.user` set or not, or `next(error)`. */
  datatype SyncOutcome = Continue(reqUser: Option<User>) | PassError

  /**
    `syncUser` on a snapshot of the user table: the outcome and the table afterwards. A row is
    inserted only for a signed-in user who has none and whose Clerk record has an email.
  */
  function Sync(t: Table, auth: AuthState, clerk: Option<ClerkUser>, now: int): (r: (SyncOutcome, Table))
    ensures auth.AuthThrew? ==> r == (PassError, t)
    ensures auth.Session? && !Truthy(auth.userId) ==> r == (Continue(None), t)
    ensures SignedIn(auth) && clerk.None? ==> r == (PassError, t)
    ensures SignedIn(auth) && clerk.Some? && auth.userId.value in t.rows ==>
      r == (Continue(Some(t.rows[auth.userId.value])), t)
    ensures SignedIn(auth) && clerk.Some? && auth.userId.value !in t.rows && !Truthy(clerk.value.email) ==>
      r == (Continue(None), t)
    ensures SignedIn(auth) && clerk.Some? && auth.userId.value !in t.rows && Truthy(clerk.value.email) ==>
      && r.1 == Insert(t, auth.userId.value, clerk.value.email.value,
                       DeriveUsername(clerk.value.username, clerk.value.email, now))
      && r.0 == Continue(Some(r.1.rows[auth.userId.value]))
    ensures r.0.Continue? && r.0.reqUser.Some? ==>
      SignedIn(auth) && Find(r.1, auth.userId.value) == r.0.reqUser
    ensures Keyed(t) ==> Keyed(r.1)
  {
    match auth
    case AuthThrew => (PassError, t)
    case Session(userId) =>
      if !Truthy(userId) then (Continue(None), t)
      else if clerk.None? then (PassError, t)
      else
        var id, c := userId.value, clerk.value;
        var username := DeriveUsername(c.username, c.email, now);
        var user := Find(t, id);
        if user.None? && Truthy(c.email) then
          var t' := Insert(t, id, c.email.value, username);
          (Continue(Some(t'.rows[id])), t')
        else
          (Continue(user), t)
  }

  /** `syncUser`: reads and possibly extends the user table, and says what becomes of the request. */
  method SyncUser(users: Users, auth: AuthState, clerk: Option<ClerkUser>, now: int) returns (out: SyncOutcome)
    requires users.Valid()
    modifies users
    ensures users.Valid()
    ensures (out, users.Snapshot()) == Sync(old(users.Snapshot()), auth, clerk, now)
  {
    if auth.AuthThrew? {
      return PassError;
    }
    var userId := auth.userId;
    if !Truthy(userId) {
      return Continue(None);
    }
    if clerk.None? {
      return PassError;
    }
    var userEmail := clerk.value.email;
    var username := DeriveUsername(clerk.value.username, userEmail, now);
    var user := Find(users.Snapshot(), userId.value);
    if user.None? && Truthy(userEmail) {
      var created := users.Create(userId.value, userEmail.value, username);
      user := Some(created);
    }
    out := Continue(user);
  }

  /**
    Syncing is idempotent: a second run with the same inputs changes nothing and sets the same
    `req.user` as the first.
  */
  lemma {:induction false} SyncIdempotent(t: Table, auth: AuthState, clerk: Option<ClerkUser>, now: int, later: int)
    requires Keyed(t)
    ensures Sync(Sync(t, auth, clerk, now).1, auth, clerk, later).1 == Sync(t, auth, clerk, now).1
    ensures Sync(Sync(t, auth, clerk, now).1, auth, clerk, later).0 == Sync(t, auth, clerk, now).0
  {
    var (o1, t1) := Sync(t, auth, clerk, now);
    if SignedIn(auth) && clerk.Some? {
      var id := auth.userId.value;
      if id !in t.rows && Truthy(clerk.value.email) {
        assert id in t1.rows;
      }
    }
  }
}
