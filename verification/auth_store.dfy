/** The session store: the signed-in user's profile, the loading and error
    flags, the once-only registration of the session listener, and the
    login, register and logout actions. Every call into the identity
    provider or the profile store is replaced by its outcome, given as a
    parameter. */
module AuthStore {
  import opened Prelude
  import opened Types
  import Messages

  /** The one address whose synthesised profile is an admin's. */
  const BootstrapAdminEmail: string := "admin@example.com"

  datatype AuthState = AuthState(
    user: Option<User>,
    loading: bool,
    error: Option<string>,
    initialized: bool)

  /** The store before anything has happened. */
  function InitialState(): (s: AuthState)
    ensures s.user.None? && s.loading && s.error.None? && !s.initialized
  {
    AuthState(None, true, None, false)
  }

  // ---------------------------------------------------------------------
  // Getters
  // ---------------------------------------------------------------------

  /** The signed-in user's profile, or nothing. */
  function CurrentUser(s: AuthState): (u: Option<User>)
    ensures u == s.user
  {
    s.user
  }

  /** Signed in exactly when a current user is set. */
  predicate IsAuthenticated(s: AuthState)
    ensures IsAuthenticated(s) <==> CurrentUser(s).Some?
  {
    s.user.Some?
  }

  /** Admin exactly when a signed-in user has the admin role. */
  predicate IsAdmin(s: AuthState)
    ensures IsAdmin(s) ==> IsAuthenticated(s) && CurrentUser(s).value.role == Admin
    ensures IsAuthenticated(s) && CurrentUser(s).value.role == Admin ==> IsAdmin(s)
  {
    s.user.Some? && s.user.value.role == Admin
  }

  /** Supervisor exactly when a signed-in user has the supervisor role. */
  predicate IsSupervisor(s: AuthState)
    ensures IsSupervisor(s) ==> IsAuthenticated(s) && CurrentUser(s).value.role == Supervisor
    ensures IsAuthenticated(s) && CurrentUser(s).value.role == Supervisor ==> IsSupervisor(s)
  {
    s.user.Some? && s.user.value.role == Supervisor
  }

  /** Whether an action or the first session report is still pending. */
  predicate IsLoading(s: AuthState)
    ensures IsLoading(s) <==> s.loading
  {
    s.loading
  }

  /** The user's subordinates, or none when there is no user or no list. */
  function Subordinates(s: AuthState): (subs: seq<string>)
    ensures s.user.Some? && s.user.value.subordinates.Some? ==> subs == s.user.value.subordinates.value
    ensures s.user.None? || s.user.value.subordinates.None? ==> subs == []
  {
    match s.user
    case None => []
    case Some(u) => u.subordinates.GetOr([])
  }

  /** The role getters agree with the stored role: at most one holds, and
      neither holds without a user. */
  lemma RoleGettersConsistent(s: AuthState)
    ensures IsAdmin(s) ==> IsAuthenticated(s) && !IsSupervisor(s)
    ensures IsSupervisor(s) ==> IsAuthenticated(s) && !IsAdmin(s)
    ensures IsAuthenticated(s) ==> (IsAdmin(s) <==> CurrentUser(s).value.role == Admin)
    ensures IsAuthenticated(s) ==> (IsSupervisor(s) <==> CurrentUser(s).value.role == Supervisor)
    ensures IsAuthenticated(s) && !IsAdmin(s) && !IsSupervisor(s) ==> CurrentUser(s).value.role == UserRole
  {
  }

  // ---------------------------------------------------------------------
  // Profile fetch and default profile
  // ---------------------------------------------------------------------

  /** Role of a synthesised profile: admin only for the bootstrap address. */
  function DefaultRole(email: Option<string>): (role: Role)
    ensures role == Admin <==> email == Some(BootstrapAdminEmail)
    ensures role != Supervisor
  {
    if email == Some(BootstrapAdminEmail) then Admin else UserRole
  }

  /** The profile synthesised for an account with no stored one: the
      account's id, its email or the empty string, the display-name
      fallback, the bootstrap-dependent role and no subordinates. */
  function DefaultProfile(pu: Account, createdAt: Option<Timestamp>): (u: User)
    ensures u.uid == pu.uid && u.email == pu.email.GetOr("")
    ensures u.displayName == DefaultDisplayName(pu.displayName, pu.email)
    ensures u.role == Admin <==> pu.email == Some(BootstrapAdminEmail)
    ensures u.role != Supervisor
    ensures u.subordinates.None? && u.createdAt == createdAt
  {
    User(pu.uid, pu.email.GetOr(""), DefaultDisplayName(pu.displayName, pu.email),
         DefaultRole(pu.email), None, createdAt)
  }

  /** The profile used for the session, and the document written to the
      profile store, if any. */
  datatype Fetched = Fetched(user: User, written: Option<User>)

  /** `fetchUserData`: a stored profile is used as is. Otherwise a default
      profile is synthesised; when the store had no document it is written
      back (a failed write is swallowed) and carries the server time, and
      when the read itself failed it has no creation time. */
  function FetchUserData(pu: Account, read: ProfileRead, writeOk: bool, now: Timestamp): (f: Fetched)
    ensures read.Present? ==> f.user == read.profile && f.written.None?
    ensures !read.Present? ==>
      && f.user.uid == pu.uid
      && f.user.email == pu.email.GetOr("")
      && f.user.displayName == DefaultDisplayName(pu.displayName, pu.email)
      && (f.user.role == Admin <==> pu.email == Some(BootstrapAdminEmail))
      && f.user.role != Supervisor
      && f.user.subordinates.None?
    ensures read.Absent? ==> f.user.createdAt == Some(now)
    ensures read.ReadFailed? ==> f.user.createdAt.None?
    ensures f.written.Some? <==> read.Absent? && writeOk
    ensures f.written.Some? ==> f.written.value == f.user
  {
    match read
    case Present(p) => Fetched(p, None)
    case Absent =>
      var u := DefaultProfile(pu, Some(now));
      Fetched(u, if writeOk then Some(u) else None)
    case ReadFailed => Fetched(DefaultProfile(pu, None), None)
  }

  /** A failed write of the synthesised profile changes nothing about the
      profile the session uses. */
  lemma WriteFailureSwallowed(pu: Account, read: ProfileRead, now: Timestamp)
    ensures FetchUserData(pu, read, false, now).user == FetchUserData(pu, read, true, now).user
  {
  }

  // ---------------------------------------------------------------------
  // Session listener
  // ---------------------------------------------------------------------

  /** `initAuth`: register the session listener once. `registered` tells
      whether a listener was registered by this call. */
  function InitAuth(s: AuthState): (r: (AuthState, bool))
    ensures r.0.initialized
    ensures r.1 <==> !s.initialized
    ensures r.0.user == s.user && r.0.loading == s.loading && r.0.error == s.error
  {
    if s.initialized then (s, false) else (s.(initialized := true), true)
  }

  /** A second `initAuth` changes nothing and registers nothing. */
  lemma InitAuthIdempotent(s: AuthState)
    ensures InitAuth(InitAuth(s).0) == (InitAuth(s).0, false)
  {
  }

  /** A session change reported by the identity provider. */
  datatype SessionChange =
    | SignedOut
    | SignedIn(pu: Account, read: ProfileRead, writeOk: bool, now: Timestamp)

  /** A session change reported by the identity provider. It reaches the
      store only through the listener that `initAuth` registers: once
      registered, the user becomes the fetched profile or nothing, and
      loading ends; before that, nothing happens. */
  function OnSessionChange(s: AuthState, c: SessionChange): (s': AuthState)
    ensures !s.initialized ==> s' == s
    ensures s.initialized ==>
      && !s'.loading && s'.error == s.error && s'.initialized
      && (c.SignedOut? ==> s'.user.None?)
      && (c.SignedIn? ==> s'.user == Some(FetchUserData(c.pu, c.read, c.writeOk, c.now).user))
  {
    if !s.initialized then s
    else match c
      case SignedOut => s.(user := None, loading := false)
      case SignedIn(pu, read, writeOk, now) =>
        s.(user := Some(FetchUserData(pu, read, writeOk, now).user), loading := false)
  }

  /** Before `initAuth` no session change reaches the store, and the store
      stays loading; after it, the first change ends loading and settles the
      user. */
  lemma SessionChangesNeedInitAuth(c: SessionChange)
    ensures OnSessionChange(InitialState(), c) == InitialState()
    ensures IsLoading(OnSessionChange(InitialState(), c))
    ensures var s' := OnSessionChange(InitAuth(InitialState()).0, c);
      && !IsLoading(s')
      && (IsAuthenticated(s') <==> c.SignedIn?)
  {
  }

  // ---------------------------------------------------------------------
  // Actions
  // ---------------------------------------------------------------------

  /** Outcome of a password sign-in: the provider accepted it (with what the
      profile fetch then saw), or it failed with an error code. */
  datatype SignInOutcome =
    | SignInOk(pu: Account, read: ProfileRead, writeOk: bool, now: Timestamp)
    | SignInFailed(code: string)

  /** `login`: on success the fetched profile becomes the user and is
      returned; on failure the error shows the catalog message for the
      provider's code and the error is rethrown. Loading ends either way. */
  function Login(s: AuthState, outcome: SignInOutcome): (r: (AuthState, Completion<User>))
    ensures !r.0.loading && r.0.initialized == s.initialized
    ensures outcome.SignInOk? ==>
      var u := FetchUserData(outcome.pu, outcome.read, outcome.writeOk, outcome.now).user;
      r.0.user == Some(u) && r.0.error.None? && r.1 == Returned(u)
    ensures outcome.SignInFailed? ==>
      && r.0.user == s.user
      && r.0.error == Some(Messages.GetAuthErrorMessage(outcome.code))
      && r.1 == Threw(outcome.code)
  {
    var entered := s.(error := None, loading := true);
    match outcome
    case SignInOk(pu, read, writeOk, now) =>
      var u := FetchUserData(pu, read, writeOk, now).user;
      (entered.(user := Some(u), loading := false), Returned(u))
    case SignInFailed(code) =>
      (entered.(error := Some(Messages.GetAuthErrorMessage(code)), loading := false), Threw(code))
  }

  /** Outcome of account creation: the new account's id and the email the
      provider reports for it, or a failure code. */
  datatype CreateOutcome = Created(uid: string, providerEmail: Option<string>, now: Timestamp) | CreateFailed(code: string)

  /** Outcome of a document write. */
  datatype WriteResult = WriteOk | WriteFailed(code: string)

  /** The state after `register`, how it ended, and the profile document it
      wrote, if any. */
  datatype Registered = Registered(state: AuthState, completion: Completion<()>, written: Option<User>)

  /** `register`: create the account, then write its profile with role
      user. On success the profile becomes the user and `loading`, raised
      on entry, stays raised. A failure at either step shows the auth
      catalog message for its code, ends loading and is rethrown. */
  function Register(s: AuthState, email: string, displayName: string, create: CreateOutcome, write: WriteResult): (r: Registered)
    ensures r.state.initialized == s.initialized
    ensures r.completion.Returned? <==> create.Created? && write.WriteOk?
    ensures r.completion.Returned? ==>
      && r.state.user.Some?
      && r.written == r.state.user
      && r.state.user.value.role == UserRole
      && r.state.user.value.uid == create.uid
      && r.state.user.value.email == Or(create.providerEmail, Some(email)).value
      && r.state.user.value.displayName == displayName
      && r.state.user.value.createdAt == Some(create.now)
      && r.state.user.value.subordinates.None?
      && r.state.loading
      && r.state.error.None?
    ensures create.CreateFailed? ==>
      && r.state == s.(error := Some(Messages.GetAuthErrorMessage(create.code)), loading := false)
      && r.completion == Threw(create.code)
      && r.written.None?
    ensures create.Created? && write.WriteFailed? ==>
      && r.state == s.(error := Some(Messages.GetAuthErrorMessage(write.code)), loading := false)
      && r.completion == Threw(write.code)
      && r.written.None?
  {
    var entered := s.(error := None, loading := true);
    match create
    case CreateFailed(code) =>
      Registered(entered.(error := Some(Messages.GetAuthErrorMessage(code)), loading := false), Threw(code), None)
    case Created(uid, providerEmail, now) =>
      var u := User(uid, Or(providerEmail, Some(email)).value, displayName, UserRole, None, Some(now));
      match write
      case WriteOk => Registered(entered.(user := Some(u)), Returned(()), Some(u))
      case WriteFailed(code) =>
        Registered(entered.(error := Some(Messages.GetAuthErrorMessage(code)), loading := false), Threw(code), None)
  }

  /** Outcome of a sign-out. */
  datatype SignOutOutcome = SignOutOk | SignOutFailed(code: string)

  /** `logout`: on success the user is cleared; on failure the user is kept,
      the error shows the catalog message and is rethrown. Loading is not
      touched. */
  function Logout(s: AuthState, outcome: SignOutOutcome): (r: (AuthState, Completion<()>))
    ensures r.0.loading == s.loading && r.0.initialized == s.initialized
    ensures outcome.SignOutOk? ==> r.0 == s.(user := None) && r.1 == Returned(())
    ensures outcome.SignOutFailed? ==>
      && r.0 == s.(error := Some(Messages.GetAuthErrorMessage(outcome.code)))
      && r.1 == Threw(outcome.code)
  {
    match outcome
    case SignOutOk => (s.(user := None), Returned(()))
    case SignOutFailed(code) => (s.(error := Some(Messages.GetAuthErrorMessage(code))), Threw(code))
  }

  /** A sign-in followed by a sign-out leaves no user and no admin rights,
      whatever profile the sign-in produced. */
  lemma LoginThenLogoutSignsOut(s: AuthState, outcome: SignInOutcome)
    ensures var s' := Logout(Login(s, outcome).0, SignOutOk).0;
      !IsAuthenticated(s') && !IsAdmin(s') && !IsSupervisor(s') && Subordinates(s') == []
  {
  }

  /** A password sign-in and the listener's report of that same sign-in
      agree on the user, so the order in which they land does not matter. */
  lemma LoginAgreesWithListener(s: AuthState, pu: Account, read: ProfileRead, writeOk: bool, now: Timestamp)
    requires s.initialized
    ensures var viaLogin := Login(s, SignInOk(pu, read, writeOk, now)).0;
      var viaListener := OnSessionChange(s, SignedIn(pu, read, writeOk, now));
      && viaLogin.user == viaListener.user
      && OnSessionChange(viaLogin, SignedIn(pu, read, writeOk, now)).user == viaLogin.user
  {
  }

  /** The loading flag a successful registration leaves raised is lowered
      by the listener's report of the new session, once `initAuth` ran. */
  lemma RegisterLoadingEndsWithListener(s: AuthState, email: string, displayName: string,
                                        create: CreateOutcome, c: SessionChange)
    requires s.initialized
    ensures var r := Register(s, email, displayName, create, WriteOk);
      r.completion.Returned? ==> IsLoading(r.state) && !IsLoading(OnSessionChange(r.state, c))
  {
  }

  /** Self-registration never produces an admin or a supervisor, not even
      for the bootstrap address, while a first sign-in with that address
      does produce an admin profile. */
  lemma RegisterNeverGrantsAdmin(s: AuthState, displayName: string, create: CreateOutcome, write: WriteResult,
                                 pu: Account, now: Timestamp)
    requires pu.email == Some(BootstrapAdminEmail)
    ensures !IsAdmin(Register(s, BootstrapAdminEmail, displayName, create, write).state) || IsAdmin(s)
    ensures IsAdmin(Login(s, SignInOk(pu, Absent, true, now)).0)
  {
  }
}
