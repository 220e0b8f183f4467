/** The route table and the global navigation guard. The guard is a pure
    decision over the target route's flags, whether a session exists, and
    the session's role as read from the profile store. */
module Router {
  import opened Prelude
  import opened Types

  const LoginPath: string := "/login"
  const AttendancePath: string := "/attendance"
  const AdminPath: string := "/admin"
  const RootPath: string := "/"

  /** The access flags a route declares; an absent flag is false. */
  datatype RouteMeta = RouteMeta(
    requiresAuth: bool,
    requiresGuest: bool,
    requiresAdmin: bool,
    requiresUser: bool)

  const NoFlags: RouteMeta := RouteMeta(false, false, false, false)

  /** A route either redirects statically or renders a view with flags. */
  datatype RouteEntry = StaticRedirect(to: string) | View(meta: RouteMeta)

  const Routes: map<string, RouteEntry> := map[
    RootPath := StaticRedirect(LoginPath),
    LoginPath := View(RouteMeta(false, true, false, false)),
    AttendancePath := View(RouteMeta(true, false, false, true)),
    AdminPath := View(RouteMeta(true, false, true, false))
  ]

  /** The guard's verdict. */
  datatype Decision = Proceed | RedirectTo(path: string)

  /** `getUserRole`: the stored role, or nothing when the profile is missing
      or could not be read. */
  function GetUserRole(read: ProfileRead): (role: Option<Role>)
    ensures role.Some? <==> read.Present?
    ensures read.Present? ==> role == Some(read.profile.role)
  {
    match read
    case Present(p) => Some(p.role)
    case _ => None
  }

  /** The home route of a signed-in user with the given role. */
  function HomeOf(role: Option<Role>): (path: string)
    ensures path == AdminPath <==> role == Some(Admin)
    ensures path != AdminPath ==> path == AttendancePath
  {
    if role == Some(Admin) then AdminPath else AttendancePath
  }

  /** Check 1 fires: the route needs a session and there is none. */
  predicate AuthCheckFires(meta: RouteMeta, signedIn: bool) {
    meta.requiresAuth && !signedIn
  }

  /** Check 2 fires: the route is for guests and there is a session. */
  predicate GuestCheckFires(meta: RouteMeta, signedIn: bool) {
    meta.requiresGuest && signedIn
  }

  /** Check 3 fires: the route is for admins and the session's role is not
      admin, a missing role included. */
  predicate AdminCheckFires(meta: RouteMeta, signedIn: bool, role: Option<Role>) {
    meta.requiresAdmin && signedIn && role != Some(Admin)
  }

  /** Check 4 fires: the route is for non-admins and the session is an
      admin's. */
  predicate UserCheckFires(meta: RouteMeta, signedIn: bool, role: Option<Role>) {
    meta.requiresUser && signedIn && role == Some(Admin)
  }

  /** The guard. The first check that fires decides the redirect, in the
      order sign-in, guest, admin, non-admin; when none fires the
      navigation proceeds. */
  function Guard(meta: RouteMeta, signedIn: bool, role: Option<Role>): (d: Decision)
    ensures AuthCheckFires(meta, signedIn) ==> d == RedirectTo(LoginPath)
    ensures !AuthCheckFires(meta, signedIn) && GuestCheckFires(meta, signedIn) ==>
      d == RedirectTo(if role == Some(Admin) then AdminPath else AttendancePath)
    ensures (!AuthCheckFires(meta, signedIn) && !GuestCheckFires(meta, signedIn)
             && AdminCheckFires(meta, signedIn, role)) ==> d == RedirectTo(AttendancePath)
    ensures (!AuthCheckFires(meta, signedIn) && !GuestCheckFires(meta, signedIn)
             && !AdminCheckFires(meta, signedIn, role)
             && UserCheckFires(meta, signedIn, role)) ==> d == RedirectTo(AdminPath)
    ensures d == Proceed <==>
      && !AuthCheckFires(meta, signedIn)
      && !GuestCheckFires(meta, signedIn)
      && !AdminCheckFires(meta, signedIn, role)
      && !UserCheckFires(meta, signedIn, role)
  {
    if meta.requiresAuth && !signedIn then RedirectTo(LoginPath)
    else if meta.requiresGuest && signedIn then RedirectTo(HomeOf(role))
    else if meta.requiresAdmin && signedIn then
      (if role != Some(Admin) then RedirectTo(AttendancePath)
       else if meta.requiresUser then RedirectTo(AdminPath)
       else Proceed)
    else if meta.requiresUser && signedIn && role == Some(Admin) then RedirectTo(AdminPath)
    else Proceed
  }

  /** Flags of a path; a path with no view of its own has none. */
  function MetaOf(path: string): (meta: RouteMeta)
    ensures path !in Routes || Routes[path].StaticRedirect? ==> meta == NoFlags
  {
    if path in Routes && Routes[path].View? then Routes[path].meta else NoFlags
  }

  /** A missing profile and an unreadable one are indistinguishable to the
      guard, and both are treated as a plain user's profile on every route. */
  lemma MissingProfileActsAsUser(meta: RouteMeta, signedIn: bool, p: User)
    requires p.role == UserRole
    ensures Guard(meta, signedIn, GetUserRole(Absent)) == Guard(meta, signedIn, GetUserRole(ReadFailed))
    ensures Guard(meta, signedIn, GetUserRole(Absent)) == Guard(meta, signedIn, GetUserRole(Present(p)))
  {
  }

  /** Without a session the role is never consulted. */
  lemma SignedOutIgnoresRole(meta: RouteMeta, r1: Option<Role>, r2: Option<Role>)
    ensures Guard(meta, false, r1) == Guard(meta, false, r2)
  {
  }

  /** On the declared route table every redirect, static or from the guard,
      lands on a view route, and the guard lets the same session through
      there: navigation never loops. */
  lemma NoRedirectLoop(path: string, signedIn: bool, role: Option<Role>)
    requires path in Routes
    ensures Routes[path].StaticRedirect? ==>
      var to := Routes[path].to;
      to in Routes && Routes[to].View?
    ensures Routes[path].View? && Guard(MetaOf(path), signedIn, role).RedirectTo? ==>
      var to := Guard(MetaOf(path), signedIn, role).path;
      && to in Routes && Routes[to].View?
      && Guard(MetaOf(to), signedIn, role) == Proceed
  {
  }

  /** Every session reaches a view within two redirects from any declared
      path: the root's static redirect, then at most one guard redirect. */
  function Settle(path: string, signedIn: bool, role: Option<Role>): (landing: string)
    requires path in Routes
    ensures landing in Routes && Routes[landing].View?
    ensures Guard(MetaOf(landing), signedIn, role) == Proceed
    ensures signedIn ==> landing != LoginPath
    ensures !signedIn ==> landing == LoginPath
    ensures var v := if Routes[path].StaticRedirect? then Routes[path].to else path;
      && (Guard(MetaOf(v), signedIn, role) == Proceed ==> landing == v)
      && (Guard(MetaOf(v), signedIn, role).RedirectTo? ==> landing == Guard(MetaOf(v), signedIn, role).path)
  {
    var viewPath := if Routes[path].StaticRedirect? then Routes[path].to else path;
    match Guard(MetaOf(viewPath), signedIn, role)
    case Proceed => viewPath
    case RedirectTo(to) => to
  }
}
