/**
 * The session store: a five-action reducer over the authentication state,
 * the demo login with its two fixed credential pairs, and the role and
 * club-visibility checks. Persisting the token in browser storage is not
 * modelled; a stored token is handed to `Resume` as a parameter.
 */
module Auth {
  import opened Wrappers
  import opened Types
  import Seqs

  const InitialAuth: AuthState := AuthState(None, false, None, true, None)

  datatype AuthAction =
    | LoginStart
    | LoginSuccess(user: User, token: string)
    | LoginFailure(message: string)
    | Logout
    | UpdateUser(updated: User)

  /** `authReducer(state, action)`. */
  function AuthReduce(s: AuthState, a: AuthAction): AuthState
  {
    match a
    case LoginStart => s.(loading := true, error := None)
    case LoginSuccess(u, t) =>
      s.(user := Some(u), accessToken := Some(t), isAuthenticated := true, loading := false, error := None)
    case LoginFailure(msg) =>
      s.(user := None, accessToken := None, isAuthenticated := false, loading := false, error := Some(msg))
    case Logout =>
      s.(user := None, accessToken := None, isAuthenticated := false, loading := false, error := None)
    case UpdateUser(u) => s.(user := Some(u))
  }

  /** What each transition promises about the resulting state. */
  lemma AuthTransitions(s: AuthState, u: User, t: string, msg: string)
    ensures var r := AuthReduce(s, LoginStart);
      r.loading && r.error.None? && r.user == s.user && r.accessToken == s.accessToken &&
      r.isAuthenticated == s.isAuthenticated
    ensures var r := AuthReduce(s, LoginSuccess(u, t));
      r.user == Some(u) && r.accessToken == Some(t) && r.isAuthenticated && !r.loading && r.error.None?
    ensures var r := AuthReduce(s, LoginFailure(msg));
      r.user.None? && r.accessToken.None? && !r.isAuthenticated && !r.loading && r.error == Some(msg)
    ensures var r := AuthReduce(s, Logout);
      r.user.None? && r.accessToken.None? && !r.isAuthenticated && !r.loading && r.error.None?
  {
  }

  /** An authenticated session always has a user and a token. */
  ghost predicate Consistent(s: AuthState)
  {
    s.isAuthenticated ==> s.user.Some? && s.accessToken.Some?
  }

  lemma ReducePreservesConsistency(s: AuthState, a: AuthAction)
    requires Consistent(s)
    ensures Consistent(AuthReduce(s, a))
  {
  }

  const SuperAdminToken: string := "mock-token-super-admin"
  const AdminToken: string := "mock-token-admin"
  const InvalidCredentials: string := "Invalid credentials"

  /** The two demo accounts; `superUser` and `adminUser` are the fixture users handed out. */
  predicate Fixtures(superUser: User, adminUser: User)
  {
    superUser.role == SuperAdmin && adminUser.role == Admin
  }

  /** The action `login(username, password)` dispatches after LOGIN_START. */
  function LoginOutcome(username: string, password: string, superUser: User, adminUser: User): AuthAction
  {
    if username == "superadmin" && password == "password" then LoginSuccess(superUser, SuperAdminToken)
    else if username == "admin" && password == "password" then LoginSuccess(adminUser, AdminToken)
    else LoginFailure(InvalidCredentials)
  }

  /**
   * Only the two literal credential pairs log in, each with its own role;
   * every other pair fails with "Invalid credentials" and leaves the
   * session unauthenticated.
   */
  lemma LoginAccepts(s: AuthState, username: string, password: string, superUser: User, adminUser: User)
    requires Fixtures(superUser, adminUser)
    ensures var r := AuthReduce(AuthReduce(s, LoginStart), LoginOutcome(username, password, superUser, adminUser));
      (r.isAuthenticated <==>
         (username == "superadmin" || username == "admin") && password == "password") &&
      (r.isAuthenticated ==>
         r.user.Some? && (r.user.value.role == SuperAdmin <==> username == "superadmin")) &&
      (!r.isAuthenticated ==> r.error == Some(InvalidCredentials) && r.user.None?) &&
      !r.loading
  {
  }

  /**
   * The action the startup check dispatches, as written: a truthy stored
   * token (present and non-empty) always resumes as the default fixture
   * user, the super admin; otherwise the session is logged out.
   */
  function ResumeAsWritten(stored: Option<string>, superUser: User): AuthAction
  {
    if stored.Some? && stored.value != "" then LoginSuccess(superUser, stored.value) else Logout
  }

  /**
   * As written, an admin who logs in and then reloads the page comes back
   * as the super-admin fixture user.
   */
  lemma ResumeEscalatesAdmin(superUser: User, adminUser: User)
    requires Fixtures(superUser, adminUser)
    ensures var afterLogin := AuthReduce(AuthReduce(InitialAuth, LoginStart), LoginOutcome("admin", "password", superUser, adminUser));
      var resumed := AuthReduce(InitialAuth, ResumeAsWritten(afterLogin.accessToken, superUser));
      afterLogin.user.value.role == Admin && resumed.user.value.role == SuperAdmin
  {
  }

  /** Session resumption that hands back the fixture user the stored token was issued for. */
  function Resume(stored: Option<string>, superUser: User, adminUser: User): AuthAction
  {
    if stored.None? || stored.value == "" then Logout
    else if stored.value == AdminToken then LoginSuccess(adminUser, stored.value)
    else LoginSuccess(superUser, stored.value)
  }

  /** Logging in and then resuming from the stored token restores the same session. */
  lemma LoginThenResume(username: string, password: string, superUser: User, adminUser: User)
    requires Fixtures(superUser, adminUser)
    ensures var afterLogin := AuthReduce(AuthReduce(InitialAuth, LoginStart), LoginOutcome(username, password, superUser, adminUser));
      var resumed := AuthReduce(InitialAuth, Resume(afterLogin.accessToken, superUser, adminUser));
      resumed.user == afterLogin.user && resumed.isAuthenticated == afterLogin.isAuthenticated &&
      resumed.accessToken == afterLogin.accessToken
  {
  }

  predicate IsSuperAdmin(s: AuthState)
  {
    s.user.Some? && s.user.value.role == SuperAdmin
  }

  predicate IsAdmin(s: AuthState)
  {
    s.user.Some? && s.user.value.role == Admin
  }

  /**
   * After a login attempt the session is a super admin's exactly for the
   * super-admin credentials and an admin's exactly for the admin ones;
   * any other pair leaves neither role.
   */
  lemma LoginGrantsRole(s: AuthState, username: string, password: string, superUser: User, adminUser: User)
    requires Fixtures(superUser, adminUser)
    ensures var r := AuthReduce(AuthReduce(s, LoginStart), LoginOutcome(username, password, superUser, adminUser));
      (IsSuperAdmin(r) <==> username == "superadmin" && password == "password") &&
      (IsAdmin(r) <==> username == "admin" && password == "password")
  {
  }

  /**
   * As written, the startup check never restores an admin session: any
   * truthy token yields the super admin, and anything else no user.
   */
  lemma StartupNeverAdmin(s: AuthState, stored: Option<string>, superUser: User, adminUser: User)
    requires Fixtures(superUser, adminUser)
    ensures !IsAdmin(AuthReduce(s, ResumeAsWritten(stored, superUser)))
    ensures IsSuperAdmin(AuthReduce(s, ResumeAsWritten(stored, superUser))) <==> stored.Some? && stored.value != ""
  {
  }

  /** `hasCreatedAdmin(adminId)`. */
  function HasCreatedAdmin(s: AuthState, adminId: string): (r: bool)
    ensures s.user.None? ==> !r
    ensures IsSuperAdmin(s) ==> r
    ensures s.user.Some? && s.user.value.role == Admin ==>
      (r <==> s.user.value.createdAdmins.Some? &&
              exists i :: 0 <= i < |s.user.value.createdAdmins.value| &&
                          s.user.value.createdAdmins.value[i].id == adminId)
  {
    if s.user.None? then false
    else if s.user.value.role == SuperAdmin then true
    else s.user.value.createdAdmins.Some? && Seqs.Any(s.user.value.createdAdmins.value, (a: User) => a.id == adminId)
  }

  /** The user's own club list contains the club. */
  ghost predicate OwnsClub(u: User, clubId: string)
  {
    u.clubs.Some? && exists i :: 0 <= i < |u.clubs.value| && u.clubs.value[i].id == clubId
  }

  /**
   * Who may view a club: nobody without a session; a super admin always;
   * anyone else when the club is theirs or belongs to an admin they created
   * directly (one level only).
   */
  ghost predicate MayView(s: AuthState, clubId: string)
  {
    s.user.Some? &&
    (s.user.value.role == SuperAdmin ||
     OwnsClub(s.user.value, clubId) ||
     (s.user.value.createdAdmins.Some? &&
      exists i :: 0 <= i < |s.user.value.createdAdmins.value| &&
                  OwnsClub(s.user.value.createdAdmins.value[i], clubId)))
  }

  /** `canViewClub(clubId)`, with the loop over created admins and its early return. */
  method CanViewClub(s: AuthState, clubId: string) returns (b: bool)
    ensures b <==> MayView(s, clubId)
  {
    if s.user.None? {
      return false;
    }
    var u := s.user.value;
    if u.role == SuperAdmin {
      return true;
    }
    if u.clubs.Some? && Seqs.Any(u.clubs.value, (c: Club) => c.id == clubId) {
      return true;
    }
    if u.createdAdmins.Some? {
      var admins := u.createdAdmins.value;
      var i := 0;
      while i < |admins|
        invariant 0 <= i <= |admins|
        invariant forall j :: 0 <= j < i ==> !OwnsClub(admins[j], clubId)
      {
        if admins[i].clubs.Some? && Seqs.Any(admins[i].clubs.value, (c: Club) => c.id == clubId) {
          return true;
        }
        i := i + 1;
      }
    }
    return false;
  }

  /**
   * Visibility does not pass through two levels of created admins: an admin
   * cannot see the club of an admin created by an admin they created.
   */
  lemma VisibilityIsOneLevel(club: Club, grandchild: User, child: User, root: User)
    requires grandchild.clubs == Some([club])
    requires child.clubs == Some([]) && child.createdAdmins == Some([grandchild])
    requires root.role == Admin && root.clubs == Some([]) && root.createdAdmins == Some([child])
    ensures MayView(AuthState(Some(child), true, Some(AdminToken), false, None), club.id)
    ensures !MayView(AuthState(Some(root), true, Some(AdminToken), false, None), club.id)
  {
    assert grandchild.clubs.value[0].id == club.id;
    assert OwnsClub(child.createdAdmins.value[0], club.id);
  }

  /** The provider: the session state and the operations that dispatch into it. */
  class AuthProvider {
    var state: AuthState
    const superUser: User
    const adminUser: User

    constructor (superUser: User, adminUser: User)
      requires Fixtures(superUser, adminUser)
      ensures state == InitialAuth && this.superUser == superUser && this.adminUser == adminUser
    {
      state := InitialAuth;
      this.superUser := superUser;
      this.adminUser := adminUser;
    }

    method Dispatch(a: AuthAction)
      modifies this
      ensures state == AuthReduce(old(state), a)
    {
      state := AuthReduce(state, a);
    }

    /** `login(username, password)`: LOGIN_START, then success or failure. */
    method Login(username: string, password: string)
      modifies this
      ensures state == AuthReduce(AuthReduce(old(state), LoginStart),
                                  LoginOutcome(username, password, superUser, adminUser))
    {
      Dispatch(LoginStart);
      Dispatch(LoginOutcome(username, password, superUser, adminUser));
    }

    /** `logout()`. */
    method SignOut()
      modifies this
      ensures state == AuthReduce(old(state), Logout)
    {
      Dispatch(Logout);
    }

    /** The startup check, as written, given the token found in storage (if any). */
    method CheckAuth(stored: Option<string>)
      modifies this
      ensures state == AuthReduce(old(state), ResumeAsWritten(stored, superUser))
    {
      Dispatch(ResumeAsWritten(stored, superUser));
    }
  }
}
