/**
 * The session/role store: who is signed in, their profile row (which holds
 * the role), whether initialisation is still running, and whether the
 * auth-state listener has been registered.
 *
 * Each backend call is an input. A store action that throws is modelled as
 * a `Step` whose outcome is `Fail`; the state it leaves is in the `Step`.
 */
module Auth {
  import opened Backend

  datatype Role = UserRole | TrainerRole | AdminRole

  /** A row of the profiles table. */
  datatype Profile = Profile(id: Id, email: string, role: Role, trainerId: Option<Id>)

  /** The authenticated user the auth service reports; the store reads its id. */
  datatype User = User(id: Id, email: string)

  datatype State = State(user: Option<User>, profile: Option<Profile>, loading: bool, listening: bool)

  /** The store before `initialize`: nobody signed in, still loading. */
  const Initial := State(None, None, true, false)

  /** The state a store action leaves, and what it returned or threw. */
  datatype Step<+T> = Step(state: State, outcome: Result<T>)

  /* ---------- derived role predicates ---------- */

  /** Signed in, whether or not a profile has been loaded. */
  predicate IsAuthenticated(s: State)
  {
    s.user.Some?
  }

  /** Being signed in does not depend on the profile. */
  lemma AuthenticationIgnoresProfile(s: State, p: Option<Profile>)
    ensures IsAuthenticated(s.(profile := p)) == IsAuthenticated(s)
  {
  }

  predicate HasRole(s: State, role: Role)
  {
    s.profile.Some? && s.profile.value.role == role
  }

  predicate IsAdmin(s: State)
    ensures IsAdmin(s) ==> s.profile.Some?
  {
    HasRole(s, AdminRole)
  }

  predicate IsTrainer(s: State)
    ensures IsTrainer(s) ==> s.profile.Some?
  {
    HasRole(s, TrainerRole)
  }

  predicate IsTrainerOrAdmin(s: State)
    ensures IsTrainerOrAdmin(s) <==> IsTrainer(s) || IsAdmin(s)
    ensures IsTrainerOrAdmin(s) ==> s.profile.Some? && s.profile.value.role != UserRole
  {
    s.profile.Some? && (s.profile.value.role == TrainerRole || s.profile.value.role == AdminRole)
  }

  /** Without a loaded profile nobody holds a role, even when signed in. */
  lemma NoProfileNoRole(s: State)
    requires s.profile.None?
    ensures !IsAdmin(s) && !IsTrainer(s) && !IsTrainerOrAdmin(s)
  {
  }

  /* ---------- transitions ---------- */

  /**
   * `loadProfile`: `fetched` answers the lookup of the signed-in user's
   * profile row. Without a user nothing happens; a failed lookup is logged
   * and leaves the previous profile in place.
   */
  function LoadProfile(s: State, fetched: Result<Profile>): (t: State)
    ensures s.user.None? ==> t == s
    ensures fetched.Fail? ==> t == s
    ensures s.user.Some? && fetched.Ok? ==> t.profile == Some(fetched.value)
    ensures t.(profile := s.profile) == s
  {
    if s.user.None? then s
    else
      match fetched
      case Ok(p) => s.(profile := Some(p))
      case Fail(_) => s
  }

  /**
   * `initialize`: `session` answers the session restore; `Fail` means the
   * call threw (a reported error reads as no session, since only the
   * returned session is read). Whatever happens, loading ends. The
   * auth-state listener is registered only if the restore did not throw.
   */
  function Initialize(s: State, session: Result<Option<User>>, fetched: Result<Profile>): (t: State)
    ensures !t.loading
    ensures t.listening <==> s.listening || session.Ok?
    ensures session.Fail? ==> t == s.(loading := false)
    ensures session.Ok? ==> t.user == session.value
    ensures session.Ok? && session.value.Some? && fetched.Ok? ==> t.profile == Some(fetched.value)
    ensures session.Ok? && session.value.None? ==> t.profile == s.profile
    ensures session.Ok? && session.value.Some? && fetched.Fail? ==> t.profile == s.profile
  {
    var started := s.(loading := true);
    match session
    case Fail(_) => started.(loading := false)
    case Ok(u) =>
      var restored := started.(user := u);
      var loaded := if u.Some? then LoadProfile(restored, fetched) else restored;
      loaded.(listening := true, loading := false)
  }

  /**
   * The auth-state listener: the new session's user replaces the current
   * one; a session reloads the profile, no session clears it. Before the
   * listener is registered, events are not observed.
   */
  function AuthStateChanged(s: State, session: Option<User>, fetched: Result<Profile>): (t: State)
    ensures !s.listening ==> t == s
    ensures s.listening ==> t.user == session
    ensures s.listening && session.None? ==> t.profile.None? && !IsAdmin(t) && !IsTrainerOrAdmin(t)
    ensures s.listening && session.Some? && fetched.Ok? ==> t.profile == Some(fetched.value)
    ensures s.listening && session.Some? && fetched.Fail? ==> t.profile == s.profile
    ensures t.loading == s.loading && t.listening == s.listening
  {
    if !s.listening then s
    else
      var changed := s.(user := session);
      if session.Some? then LoadProfile(changed, fetched) else changed.(profile := None)
  }

  /** `signUp`: one call to the auth service; the store is not touched. */
  function SignUp(s: State, resp: Result<User>): (r: Step<User>)
    ensures r.state == s
    ensures r.outcome == resp
  {
    Step(s, resp)
  }

  /**
   * `signIn`: a rejected sign-in throws and leaves the store as it was;
   * an accepted one records the user and reloads the profile.
   */
  function SignIn(s: State, resp: Result<User>, fetched: Result<Profile>): (r: Step<User>)
    ensures resp.Fail? ==> r.state == s && r.outcome == resp
    ensures resp.Ok? ==> r.outcome == resp && r.state.user == Some(resp.value)
    ensures resp.Ok? && fetched.Ok? ==> r.state.profile == Some(fetched.value)
    ensures resp.Ok? ==> IsAuthenticated(r.state)
    ensures resp.Ok? && fetched.Fail? ==> r.state.profile == s.profile
    ensures r.state.loading == s.loading && r.state.listening == s.listening
  {
    match resp
    case Fail(_) => Step(s, resp)
    case Ok(u) => Step(LoadProfile(s.(user := Some(u)), fetched), resp)
  }

  /**
   * `signOut`: success clears both the user and the profile; failure throws
   * and leaves the store as it was.
   */
  function SignOut(s: State, resp: Result<()>): (r: Step<()>)
    ensures resp.Ok? ==> r.state.user.None? && r.state.profile.None?
    ensures resp.Ok? ==> !IsAuthenticated(r.state) && !IsAdmin(r.state) && !IsTrainerOrAdmin(r.state)
    ensures resp.Fail? ==> r.state == s
    ensures r.outcome == resp
    ensures r.state.loading == s.loading && r.state.listening == s.listening
  {
    match resp
    case Fail(_) => Step(s, resp)
    case Ok(_) => Step(s.(user := None, profile := None), resp)
  }

  /**
   * `updateRole(userId, ...)`: `resp` answers the role update (the new role
   * only travels to the backend). A failed update throws; a successful one
   * reloads the profile exactly when `userId` is the signed-in user.
   */
  function UpdateRole(s: State, userId: Id, resp: Result<()>, fetched: Result<Profile>): (r: Step<()>)
    ensures r.outcome == resp
    ensures resp.Fail? ==> r.state == s
    ensures (s.user.None? || s.user.value.id != userId) ==> r.state == s
    ensures resp.Ok? && s.user.Some? && s.user.value.id == userId && fetched.Ok? ==>
      r.state.profile == Some(fetched.value)
    ensures r.state.(profile := s.profile) == s
    ensures fetched.Fail? ==> r.state == s
  {
    match resp
    case Fail(_) => Step(s, resp)
    case Ok(_) =>
      if s.user.Some? && s.user.value.id == userId then Step(LoadProfile(s, fetched), resp)
      else Step(s, resp)
  }

  /* ---------- what the role predicates report after the transitions ---------- */

  /** The loaded profile belongs to the signed-in user. */
  predicate ProfileMatchesUser(s: State)
  {
    s.profile.Some? ==> s.user.Some? && s.profile.value.id == s.user.value.id
  }

  /** `fetched` is a lookup answer that, when it succeeds, is the row of `id`. */
  predicate Answers(fetched: Result<Profile>, id: Id)
  {
    fetched.Ok? ==> fetched.value.id == id
  }

  /**
   * Signing in, when the profile lookup succeeds, leaves the profile of the
   * user who signed in; signing out and an auth-state change to no session
   * keep the match.
   */
  lemma SuccessfulReloadMatchesUser(s: State, resp: Result<User>, fetched: Result<Profile>)
    requires ProfileMatchesUser(s)
    requires resp.Ok? && fetched.Ok? && Answers(fetched, resp.value.id)
    ensures ProfileMatchesUser(SignIn(s, resp, fetched).state)
    ensures ProfileMatchesUser(SignOut(s, Ok(())).state)
    ensures ProfileMatchesUser(AuthStateChanged(s, None, fetched))
  {
  }

  /**
   * The match is not kept when a reload fails after the user changed: the
   * previous user's profile, and so their role, stays in the store. Here an
   * admin's profile survives an auth-state change to another user.
   */
  lemma StaleProfileAfterFailedReload()
    ensures var admin := Profile("a", "a@x", AdminRole, None);
      var s := State(Some(User("a", "a@x")), Some(admin), false, true);
      var t := AuthStateChanged(s, Some(User("b", "b@x")), Fail(Err("timeout")));
      && ProfileMatchesUser(s)
      && !ProfileMatchesUser(t)
      && t.user == Some(User("b", "b@x"))
      && IsAdmin(t)
  {
  }

  /**
   * For any signed-in state whose profile matches, an auth-state change to
   * a different user whose profile lookup fails keeps the previous user's
   * profile, and with it that user's role.
   */
  lemma FailedReloadKeepsPreviousRole(s: State, u: User, e: Err)
    requires s.listening && s.user.Some? && s.profile.Some? && ProfileMatchesUser(s)
    requires u.id != s.user.value.id
    ensures var t := AuthStateChanged(s, Some(u), Fail(e));
      && t.user == Some(u)
      && t.profile == s.profile
      && !ProfileMatchesUser(t)
      && (IsAdmin(t) <==> IsAdmin(s))
      && (IsTrainerOrAdmin(t) <==> IsTrainerOrAdmin(s))
  {
  }

  /**
   * Starting the store: a restored session whose lookup answers for that
   * user ends signed in with a matching profile; a restore that throws, or
   * finds no session, ends signed out with no role. Loading has ended in
   * every case.
   */
  lemma InitializeFromInitial(session: Result<Option<User>>, fetched: Result<Profile>)
    requires session.Ok? && session.value.Some? ==> Answers(fetched, session.value.value.id)
    ensures var t := Initialize(Initial, session, fetched);
      && !t.loading
      && ProfileMatchesUser(t)
      && (IsAuthenticated(t) <==> session.Ok? && session.value.Some?)
      && (!IsAuthenticated(t) ==> !IsAdmin(t) && !IsTrainerOrAdmin(t))
  {
  }

  /** After a self role change whose reload returns the updated row, the predicates report the new role. */
  lemma SelfRoleChangeIsVisible(s: State, newRole: Role, resp: Result<()>, fetched: Result<Profile>)
    requires s.user.Some? && resp.Ok?
    requires fetched.Ok? && fetched.value.role == newRole
    ensures var t := UpdateRole(s, s.user.value.id, resp, fetched).state;
      && (IsAdmin(t) <==> newRole == AdminRole)
      && (IsTrainer(t) <==> newRole == TrainerRole)
      && (IsTrainerOrAdmin(t) <==> newRole != UserRole)
  {
  }
}
