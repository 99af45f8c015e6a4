/** The server-side identity helpers: the current user is the `users` row of
    the session's user, and the role checks and guards are built on it. */
module AuthHelpers {

  import opened Types

  const MSG_UNAUTHORIZED := "Unauthorized"
  const MSG_FORBIDDEN := "Forbidden"

  /** The reply to `auth.getUser()`: an error, no session user, or its id. */
  datatype SessionReply = SessionError | NoSessionUser | SessionUser(id: string)

  /** `.eq('id', id)`: the rows with that id, in table order. */
  function RowsWithId(users: seq<User>, id: string): (rows: seq<User>)
    ensures |rows| <= |users|
    ensures forall u | u in rows :: u in users && u.id == id
    ensures forall u | u in users && u.id == id :: u in rows
  {
    if users == [] then []
    else if users[0].id == id then [users[0]] + RowsWithId(users[1..], id)
    else RowsWithId(users[1..], id)
  }

  /** A row whose id no other row shares is the only row `.eq` selects. */
  lemma {:induction false} UniqueRowSelected(users: seq<User>, id: string, k: nat)
    requires k < |users| && users[k].id == id
    requires forall j | 0 <= j < |users| && j != k :: users[j].id != id
    ensures RowsWithId(users, id) == [users[k]]
  {
    if k == 0 {
      NoRowSelected(users[1..], id);
    } else {
      assert users[0].id != id;
      forall j | 0 <= j < |users[1..]| && j != k - 1
        ensures users[1..][j].id != id
      {
        assert users[1..][j] == users[j + 1];
      }
      UniqueRowSelected(users[1..], id, k - 1);
    }
  }

  lemma NoRowSelected(users: seq<User>, id: string)
    requires forall j | 0 <= j < |users| :: users[j].id != id
    ensures RowsWithId(users, id) == []
  {
    if users != [] {
      assert users[0].id != id;
      assert RowsWithId(users, id) == RowsWithId(users[1..], id);
    }
  }

  /** `getCurrentUser`: null on a session error or without a session user;
      otherwise what `.single()` gives, the one row with that id, or null when
      there is none or more than one. */
  function GetCurrentUser(session: SessionReply, users: seq<User>): (user: Option<User>)
    ensures !session.SessionUser? ==> user.None?
    ensures user.Some? ==> user.value in users && user.value.id == session.id
    ensures user.Some? ==> forall u | u in users && u.id == session.id :: u == user.value
  {
    if !session.SessionUser? then None
    else
      var rows := RowsWithId(users, session.id);
      if |rows| == 1 then
        assert rows[0] in rows;
        forall u | u in users && u.id == session.id
          ensures u == rows[0]
        {
          assert u in rows;
        }
        Some(rows[0])
      else None
  }

  /** A session user with exactly one row is the current user. */
  lemma UniqueRowIsCurrentUser(session: SessionReply, users: seq<User>, k: nat)
    requires session.SessionUser?
    requires k < |users| && users[k].id == session.id
    requires forall j | 0 <= j < |users| && j != k :: users[j].id != session.id
    ensures GetCurrentUser(session, users) == Some(users[k])
  {
    UniqueRowSelected(users, session.id, k);
  }

  /** Two rows with the session user's id leave no current user. */
  lemma DuplicateRowsGiveNoUser(session: SessionReply, users: seq<User>, i: nat, j: nat)
    requires session.SessionUser?
    requires i < j < |users| && users[i].id == session.id && users[j].id == session.id
    ensures GetCurrentUser(session, users).None?
  {
    var (a, b) := (users[..j], users[j..]);
    assert users == a + b;
    RowsWithIdAppend(a, b, session.id);
    assert users[i] == a[i];
    assert users[i] in a && users[j] == b[0] && users[j] in b;
    assert |RowsWithId(a, session.id)| >= 1 && |RowsWithId(b, session.id)| >= 1;
  }

  lemma {:induction false} RowsWithIdAppend(a: seq<User>, b: seq<User>, id: string)
    ensures RowsWithId(a + b, id) == RowsWithId(a, id) + RowsWithId(b, id)
  {
    if a == [] {
      assert a + b == b;
    } else {
      assert (a + b)[1..] == a[1..] + b;
      RowsWithIdAppend(a[1..], b, id);
    }
  }

  /** `getUserRole`: the current user's role, or null; no role name is empty. */
  function GetUserRole(session: SessionReply, users: seq<User>): (role: Option<UserRole>)
    ensures role.None? <==> GetCurrentUser(session, users).None?
    ensures role.Some? ==> role.value == GetCurrentUser(session, users).value.role
  {
    match GetCurrentUser(session, users)
    case None => None
    case Some(u) => Some(u.role)
  }

  /** `isAuthenticated`: signed in exactly when the session has a user and
      that user has exactly one `users` row. */
  function IsAuthenticated(session: SessionReply, users: seq<User>): (signedIn: bool)
    ensures signedIn <==> session.SessionUser? && |RowsWithId(users, session.id)| == 1
    ensures signedIn ==> exists u | u in users :: u.id == session.id
  {
    GetCurrentUser(session, users).Some?
  }

  /** `isAdmin`: the current user's row carries the admin role. */
  function IsAdmin(session: SessionReply, users: seq<User>): (admin: bool)
    ensures admin <==> IsAuthenticated(session, users) && GetCurrentUser(session, users).value.role == Admin
  {
    GetUserRole(session, users) == Some(Admin)
  }

  /** `isArtist`: the current user's row carries the artist role. */
  function IsArtist(session: SessionReply, users: seq<User>): (artist: bool)
    ensures artist <==> IsAuthenticated(session, users) && GetCurrentUser(session, users).value.role == Artist
  {
    GetUserRole(session, users) == Some(Artist)
  }

  /** Being an admin or an artist requires being signed in, and nobody is both. */
  lemma RolesExclusive(session: SessionReply, users: seq<User>)
    ensures !(IsAdmin(session, users) && IsArtist(session, users))
    ensures IsAdmin(session, users) || IsArtist(session, users) ==> IsAuthenticated(session, users)
  {
  }

  /** `requireAuth`: throws `Unauthorized` exactly when nobody is signed in. */
  function RequireAuth(session: SessionReply, users: seq<User>): (o: Outcome)
    ensures o == Fail(MSG_UNAUTHORIZED) <==> !IsAuthenticated(session, users)
    ensures o.Pass? <==> IsAuthenticated(session, users)
  {
    if !IsAuthenticated(session, users) then Fail(MSG_UNAUTHORIZED) else Pass
  }

  /** `requireRole`: throws `Forbidden` unless the current user has one of the
      allowed roles. */
  function RequireRole(session: SessionReply, users: seq<User>, allowed: seq<UserRole>): (o: Outcome)
    ensures o.Pass? <==> GetUserRole(session, users).Some? && GetUserRole(session, users).value in allowed
    ensures o.Fail? ==> o.message == MSG_FORBIDDEN
  {
    var role := GetUserRole(session, users);
    if role.None? || !Contains(allowed, role.value) then Fail(MSG_FORBIDDEN) else Pass
  }

  /** An empty list admits nobody, and passing a role check implies passing the
      authentication check. */
  lemma RequireRoleProperties(session: SessionReply, users: seq<User>, allowed: seq<UserRole>)
    ensures RequireRole(session, users, []) == Fail(MSG_FORBIDDEN)
    ensures RequireRole(session, users, allowed).Pass? ==> RequireAuth(session, users).Pass?
    ensures RequireRole(session, users, [Admin]).Pass? <==> IsAdmin(session, users)
  {
  }
}
