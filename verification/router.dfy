/**
 * The route table and the navigation guard that runs before every
 * navigation, once the auth store has finished loading.
 *
 * The guard's `next(...)` callback becomes the returned `Decision`.
 */
module Router {
  import opened Backend
  import Auth

  datatype RouteName =
    | Home | Login | Register | Dashboard | Training | ActiveTraining | History
    | AdminExercises | TrainerTemplates | TrainerTemplateEdit | TrainerStudents

  /** The flags a route's `meta` carries; an absent flag reads as false. */
  datatype Meta = Meta(requiresAuth: bool, requiresAdmin: bool, requiresTrainer: bool)

  datatype RouteRecord = RouteRecord(path: string, name: RouteName, meta: Meta)

  const Public := Meta(false, false, false)
  const SignedIn := Meta(true, false, false)
  const AdminOnly := Meta(true, true, false)
  const TrainerOnly := Meta(true, false, true)

  /** The record the table declares for each route name. */
  function RouteOf(name: RouteName): RouteRecord
  {
    match name
    case Home => RouteRecord("/", Home, Public)
    case Login => RouteRecord("/login", Login, Public)
    case Register => RouteRecord("/register", Register, Public)
    case Dashboard => RouteRecord("/dashboard", Dashboard, SignedIn)
    case Training => RouteRecord("/training", Training, SignedIn)
    case ActiveTraining => RouteRecord("/training/:dayId", ActiveTraining, SignedIn)
    case History => RouteRecord("/history", History, SignedIn)
    case AdminExercises => RouteRecord("/admin/exercises", AdminExercises, AdminOnly)
    case TrainerTemplates => RouteRecord("/trainer/templates", TrainerTemplates, TrainerOnly)
    case TrainerTemplateEdit => RouteRecord("/trainer/templates/:templateId", TrainerTemplateEdit, TrainerOnly)
    case TrainerStudents => RouteRecord("/trainer/students", TrainerStudents, TrainerOnly)
  }

  /** The route table, in declaration order. */
  const Routes: seq<RouteRecord> := [
    RouteOf(Home), RouteOf(Login), RouteOf(Register), RouteOf(Dashboard), RouteOf(Training),
    RouteOf(ActiveTraining), RouteOf(History), RouteOf(AdminExercises), RouteOf(TrainerTemplates),
    RouteOf(TrainerTemplateEdit), RouteOf(TrainerStudents)]

  /** Every entry of the table is the record of its own name. */
  lemma RoutesAreRecords(r: RouteRecord)
    requires r in Routes
    ensures r == RouteOf(r.name)
  {
  }

  /** Every admin or trainer route also requires a session. */
  lemma RoleRoutesRequireAuth(name: RouteName)
    ensures RouteOf(name).meta.requiresAdmin || RouteOf(name).meta.requiresTrainer ==> RouteOf(name).meta.requiresAuth
  {
  }

  /**
   * The table's permission tiers: exactly `/admin/exercises` is admin-only,
   * exactly the three `/trainer/...` paths are trainer-only, and exactly
   * `/`, `/login` and `/register` are public.
   */
  lemma RouteTableTiers(r: RouteRecord)
    requires r in Routes
    ensures r.meta.requiresAdmin <==> r.path == "/admin/exercises"
    ensures r.meta.requiresTrainer <==>
      r.path == "/trainer/templates" || r.path == "/trainer/templates/:templateId" || r.path == "/trainer/students"
    ensures !r.meta.requiresAuth <==> r.path == "/" || r.path == "/login" || r.path == "/register"
  {
  }

  /**
   * The target of a navigation as the guard sees it: the matched route's
   * name (none when no route matched), the full path with its query, and
   * the matched route's flags (all false when no route matched).
   */
  datatype Location = Location(name: Option<RouteName>, fullPath: string, meta: Meta)

  /** A navigation to a route of the table, or to a path no route matches. */
  predicate Routed(to: Location)
  {
    match to.name
    case Some(n) => to.meta == RouteOf(n).meta
    case None => to.meta == Public
  }

  /** A navigation to the named route of the table. */
  function Target(name: RouteName, fullPath: string): (to: Location)
    ensures Routed(to)
  {
    Location(Some(name), fullPath, RouteOf(name).meta)
  }

  /** What the guard passes to `next`. */
  datatype Decision =
    | Proceed                   // `next()`
    | ToLogin(redirect: string) // `next({ name: 'Login', query: { redirect } })`
    | ToDashboard               // `next({ name: 'Dashboard' })`

  /** Routes a signed-in session is sent away from. */
  predicate GuestOnly(to: Location)
  {
    to.name == Some(Login) || to.name == Some(Register)
  }

  /** The access policy the flags state, read independently of the guard's branch order. */
  predicate Permits(meta: Meta, s: Auth.State)
  {
    && (meta.requiresAuth ==> Auth.IsAuthenticated(s))
    && (meta.requiresAdmin ==> Auth.IsAdmin(s))
    && (meta.requiresTrainer ==> Auth.IsTrainerOrAdmin(s))
  }

  /**
   * `checkRoute`: the first check that fails decides. A missing session on
   * a protected route goes to Login with the intended path; a missing admin
   * or trainer role goes to Dashboard; a signed-in visit to Login or
   * Register goes to Dashboard; otherwise the navigation proceeds.
   */
  function Decide(to: Location, s: Auth.State): (d: Decision)
    ensures d.ToLogin? <==> to.meta.requiresAuth && !Auth.IsAuthenticated(s)
    ensures d.ToLogin? ==> d.redirect == to.fullPath
    ensures d == Proceed <==> Permits(to.meta, s) && !(GuestOnly(to) && Auth.IsAuthenticated(s))
    ensures d == ToDashboard <==>
      !(to.meta.requiresAuth && !Auth.IsAuthenticated(s))
      && (!Permits(to.meta, s) || (GuestOnly(to) && Auth.IsAuthenticated(s)))
  {
    if to.meta.requiresAuth && !Auth.IsAuthenticated(s) then ToLogin(to.fullPath)
    else if to.meta.requiresAdmin && !Auth.IsAdmin(s) then ToDashboard
    else if to.meta.requiresTrainer && !Auth.IsTrainerOrAdmin(s) then ToDashboard
    else if GuestOnly(to) && Auth.IsAuthenticated(s) then ToDashboard
    else Proceed
  }

  /** An unauthenticated visit to the admin route goes to Login, not Dashboard: the session check comes first. */
  lemma UnauthenticatedAdminVisitGoesToLogin(s: Auth.State, fullPath: string)
    requires !Auth.IsAuthenticated(s)
    ensures Decide(Target(AdminExercises, fullPath), s) == ToLogin(fullPath)
  {
  }

  /** A signed-in non-admin is sent from the admin route to Dashboard. */
  lemma NonAdminSentToDashboard(s: Auth.State, fullPath: string)
    requires Auth.IsAuthenticated(s) && !Auth.IsAdmin(s)
    ensures Decide(Target(AdminExercises, fullPath), s) == ToDashboard
  {
  }

  /**
   * Trainer routes admit signed-in trainers and admins; a signed-in plain
   * user, or a session whose profile is not loaded, is sent to Dashboard.
   */
  lemma TrainerRoutesAdmitTrainersAndAdmins(s: Auth.State, name: RouteName, fullPath: string)
    requires RouteOf(name).meta == TrainerOnly
    requires Auth.IsAuthenticated(s)
    ensures Auth.IsTrainer(s) || Auth.IsAdmin(s) ==> Decide(Target(name, fullPath), s) == Proceed
    ensures Auth.HasRole(s, Auth.UserRole) || s.profile.None? ==> Decide(Target(name, fullPath), s) == ToDashboard
  {
  }

  /** A signed-in session is sent from Login and Register to Dashboard. */
  lemma SignedInLeavesGuestPages(s: Auth.State, fullPath: string)
    requires Auth.IsAuthenticated(s)
    ensures Decide(Target(Login, fullPath), s) == ToDashboard
    ensures Decide(Target(Register, fullPath), s) == ToDashboard
  {
  }

  /** Where a decision sends the navigation next, if anywhere. */
  function Redirected(d: Decision, fullPath: string): Option<Location>
  {
    match d
    case Proceed => None
    case ToLogin(_) => Some(Target(Login, fullPath))
    case ToDashboard => Some(Target(Dashboard, fullPath))
  }

  /**
   * Redirects are stable: under the same auth state, the guard lets the
   * redirect target through, so a navigation is redirected at most once.
   */
  lemma RedirectIsStable(to: Location, s: Auth.State, fullPath: string)
    requires Routed(to)
    ensures var next := Redirected(Decide(to, s), fullPath);
      next.Some? ==> Decide(next.value, s) == Proceed
  {
  }
}
