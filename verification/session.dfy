/**
 * The store's four state cells as one value, the user actions the rendered
 * pages wire to the handlers, and the transition each action performs
 * (src/App.tsx:10-86, with the wiring at 96, 133, 152, 202, 237, 262, 318).
 */
module Session {

  import opened Wrappers
  import opened Users
  import opened Records

  datatype Page = Login | Signup | Dashboard

  datatype State = State(page: Page, user: Option<User>, alerts: seq<Alert>, incidents: seq<Incident>)

  /** What the user can do: submit a form, press a button, or pick a status. */
  datatype Event =
    | SubmitLogin(email: string)
    | SubmitSignup(email: string)
    | LogOut
    | GoToSignup
    | GoToLogin
    | DismissAlert(alertId: int)
    | ChangeStatus(incidentId: int, status: string)

  /** The store as the component first renders it: login page, nobody signed in, seed lists. */
  function Initial(): (s: State)
    ensures s.page == Login && s.user == None
    ensures |s.alerts| == 1 && |s.incidents| == 3
  {
    State(Login, None, SeedAlerts(), SeedIncidents())
  }

  /**
   * Whether the page being shown offers the action: the login form and its
   * "Sign Up" link on the login page, the signup form and its "Log In" link
   * on the signup page, and on the dashboard the logout button, one dismiss
   * button per alert and one two-option status selector per incident.
   */
  predicate Enabled(s: State, e: Event): (b: bool)
    ensures b && s.page == Login ==> e.SubmitLogin? || e.GoToSignup?
    ensures b && s.page == Signup ==> e.SubmitSignup? || e.GoToLogin?
    ensures b && s.page == Dashboard ==> e.LogOut? || e.DismissAlert? || e.ChangeStatus?
  {
    match e
    case SubmitLogin(_) => s.page == Login
    case GoToSignup => s.page == Login
    case SubmitSignup(_) => s.page == Signup
    case GoToLogin => s.page == Signup
    case LogOut => s.page == Dashboard
    case DismissAlert(id) => s.page == Dashboard && HasAlert(s.alerts, id)
    case ChangeStatus(id, status) =>
      s.page == Dashboard && HasIncident(s.incidents, id) && (status == InProgress || status == Resolved)
  }

  /** The new store after the handler for `e` has run. */
  function Next(s: State, e: Event): (t: State)
    ensures t.user == s.user || e.SubmitLogin? || e.SubmitSignup? || e.LogOut?
    ensures t.alerts == s.alerts || e.DismissAlert?
    ensures t.incidents == s.incidents || e.ChangeStatus?
    ensures |t.alerts| <= |s.alerts| && |t.incidents| == |s.incidents|
  {
    match e
    case SubmitLogin(email) => s.(user := Some(DeriveUser(email)), page := Dashboard)
    case SubmitSignup(email) => s.(user := Some(DeriveUser(email)), page := Dashboard)
    case LogOut => s.(user := None, page := Login)
    case GoToSignup => s.(page := Signup)
    case GoToLogin => s.(page := Login)
    case DismissAlert(id) => s.(alerts := Dismiss(s.alerts, id))
    case ChangeStatus(id, status) => s.(incidents := UpdateStatus(s.incidents, id, status))
  }

  /**
   * What holds of every store the user can reach: ids unique in both lists,
   * every incident coloured by its status, and the dashboard shown exactly
   * when somebody is signed in.
   */
  predicate Inv(s: State) {
    && UniqueAlertIds(s.alerts)
    && UniqueIncidentIds(s.incidents)
    && ColorsAgree(s.incidents)
    && (s.page == Dashboard <==> s.user.Some?)
  }

  lemma InitialInv()
    ensures Inv(Initial())
  {
  }

  /** Every handler keeps the invariant. */
  lemma NextKeepsInv(s: State, e: Event)
    requires Inv(s) && Enabled(s, e)
    ensures Inv(Next(s, e))
  {
    match e
    case DismissAlert(id) => DismissKeepsUnique(s.alerts, id);
    case ChangeStatus(id, status) =>
      UpdateKeepsUnique(s.incidents, id, status);
      UpdateKeepsColors(s.incidents, id, status);
    case _ =>
  }

  /** Whether every action of `evs` is offered at the moment it is taken, starting from `s`. */
  predicate Feasible(s: State, evs: seq<Event>)
    decreases |evs|
  {
    evs == [] || (Enabled(s, evs[0]) && Feasible(Next(s, evs[0]), evs[1..]))
  }

  /** The store after the actions `evs`, in order. */
  function Run(s: State, evs: seq<Event>): State
    decreases |evs|
  {
    if evs == [] then s else Run(Next(s, evs[0]), evs[1..])
  }

  lemma {:induction false} RunAppend(s: State, evs: seq<Event>, e: Event)
    ensures Run(s, evs + [e]) == Next(Run(s, evs), e)
    decreases |evs|
  {
    if evs != [] {
      assert (evs + [e])[1..] == evs[1..] + [e];
      RunAppend(Next(s, evs[0]), evs[1..], e);
    }
  }

  /** The invariant holds after any sequence of actions the pages offer. */
  lemma {:induction false} RunKeepsInv(s: State, evs: seq<Event>)
    requires Inv(s) && Feasible(s, evs)
    ensures Inv(Run(s, evs))
    decreases |evs|
  {
    if evs != [] {
      NextKeepsInv(s, evs[0]);
      RunKeepsInv(Next(s, evs[0]), evs[1..]);
    }
  }

  /** Every store reachable from the initial one satisfies the invariant. */
  lemma ReachableInv(evs: seq<Event>)
    requires Feasible(Initial(), evs)
    ensures Inv(Run(Initial(), evs))
  {
    InitialInv();
    RunKeepsInv(Initial(), evs);
  }

  /**
   * Logging out, whatever came before, shows the login page with nobody
   * signed in, and keeps both lists as they were.
   */
  lemma LogOutAfterAnything(s: State, evs: seq<Event>)
    ensures var before := Run(s, evs);
      Run(s, evs + [LogOut]) == State(Login, None, before.alerts, before.incidents)
  {
    RunAppend(s, evs, LogOut);
  }

  /** Signing up builds exactly the user and page that logging in with the same address does. */
  lemma SignupIsLogin(s: State, email: string)
    ensures Next(s, SubmitSignup(email)) == Next(s, SubmitLogin(email))
    ensures Next(s, SubmitSignup(email)).user == Some(DeriveUser(email))
  {
  }

  /** The page changes the pages allow: the two forms toggle, either form signs in, logout leaves. */
  predicate PageStep(from: Page, to: Page) {
    || from == to
    || (from == Login && to == Signup)
    || (from == Signup && to == Login)
    || (from == Login && to == Dashboard)
    || (from == Signup && to == Dashboard)
    || (from == Dashboard && to == Login)
  }

  /** Every offered action moves the page along an allowed step. */
  lemma PageStepsAllowed(s: State, e: Event)
    requires Enabled(s, e)
    ensures PageStep(s.page, Next(s, e).page)
  {
  }

  /** Every allowed page change is made by some offered action. */
  lemma PageStepsRealised(s: State, to: Page)
    requires PageStep(s.page, to) && s.page != to
    ensures exists e :: Enabled(s, e) && Next(s, e).page == to
  {
    var e := match (s.page, to)
      case (Login, Signup) => GoToSignup
      case (Signup, Login) => GoToLogin
      case (Login, Dashboard) => SubmitLogin("")
      case (Signup, Dashboard) => SubmitSignup("")
      case (_, _) => LogOut;
    assert Enabled(s, e) && Next(s, e).page == to;
  }

  /** Only the login and signup handlers bring up the dashboard. */
  lemma OnlyFormsEnterDashboard(s: State, e: Event)
    requires Enabled(s, e)
    requires s.page != Dashboard && Next(s, e).page == Dashboard
    ensures e.SubmitLogin? || e.SubmitSignup?
  {
  }

  /** Only logout leaves the dashboard, and it goes to the login page. */
  lemma OnlyLogOutLeavesDashboard(s: State, e: Event)
    requires Enabled(s, e)
    requires s.page == Dashboard && Next(s, e).page != Dashboard
    ensures e == LogOut && Next(s, e).page == Login
  {
  }
}
