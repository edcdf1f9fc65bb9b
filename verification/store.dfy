/**
 * The `App` component's state cells and handlers (src/App.tsx:12-86, 133,
 * 202) as an object: each handler replaces the cells it sets, atomically,
 * and does what Session.Next says its action does.
 */
module Store {

  import opened Wrappers
  import opened Users
  import opened Records
  import opened Session

  class App {
    var currentPage: Page
    var user: Option<User>
    var alerts: seq<Alert>
    var incidents: seq<Incident>

    /** The four cells read together. */
    function Snapshot(): State
      reads this
    {
      State(currentPage, user, alerts, incidents)
    }

    ghost predicate Valid()
      reads this
    {
      Inv(Snapshot())
    }

    /** The first render: login page, nobody signed in, the seed alert and incidents. */
    constructor ()
      ensures Valid()
      ensures Snapshot() == Initial()
    {
      currentPage := Login;
      user := None;
      alerts := SeedAlerts();
      incidents := SeedIncidents();
      InitialInv();
    }

    /** handleLogin: sign in as the user derived from the address and show the dashboard; no check of any kind. */
    method HandleLogin(email: string)
      requires Valid()
      modifies this
      ensures Valid()
      ensures currentPage == Dashboard && user == Some(DeriveUser(email))
      ensures alerts == old(alerts) && incidents == old(incidents)
      ensures Snapshot() == Next(old(Snapshot()), SubmitLogin(email))
    {
      var name := LocalPart(email);
      var initials := Initials(name);
      user := Some(User(email, name, initials));
      currentPage := Dashboard;
    }

    /**
     * handleSignup: the same as handleLogin. The two password fields are
     * never read, so they are not parameters and nothing compares them.
     */
    method HandleSignup(email: string)
      requires Valid()
      modifies this
      ensures Valid()
      ensures currentPage == Dashboard && user == Some(DeriveUser(email))
      ensures alerts == old(alerts) && incidents == old(incidents)
      ensures Snapshot() == Next(old(Snapshot()), SubmitSignup(email))
    {
      var name := LocalPart(email);
      var initials := Initials(name);
      user := Some(User(email, name, initials));
      currentPage := Dashboard;
    }

    /** handleLogout: nobody signed in, login page; the alerts and incidents stay. */
    method HandleLogout()
      requires Valid()
      modifies this
      ensures Valid()
      ensures currentPage == Login && user == None
      ensures alerts == old(alerts) && incidents == old(incidents)
      ensures Snapshot() == Next(old(Snapshot()), LogOut)
    {
      user := None;
      currentPage := Login;
    }

    /** The login page's "Sign Up" link. */
    method ShowSignup()
      requires Valid() && currentPage == Login
      modifies this
      ensures Valid()
      ensures currentPage == Signup
      ensures user == old(user) && alerts == old(alerts) && incidents == old(incidents)
      ensures Snapshot() == Next(old(Snapshot()), GoToSignup)
    {
      currentPage := Signup;
    }

    /** The signup page's "Log In" link. */
    method ShowLogin()
      requires Valid() && currentPage == Signup
      modifies this
      ensures Valid()
      ensures currentPage == Login
      ensures user == old(user) && alerts == old(alerts) && incidents == old(incidents)
      ensures Snapshot() == Next(old(Snapshot()), GoToLogin)
    {
      currentPage := Login;
    }

    /** dismissAlert: keep the alerts whose id differs; an unknown id changes nothing. */
    method DismissAlert(alertId: int)
      requires Valid()
      modifies this
      ensures Valid()
      ensures alerts == Dismiss(old(alerts), alertId)
      ensures currentPage == old(currentPage) && user == old(user) && incidents == old(incidents)
      ensures Snapshot() == Next(old(Snapshot()), Event.DismissAlert(alertId))
    {
      DismissKeepsUnique(alerts, alertId);
      alerts := Dismiss(alerts, alertId);
    }

    /** updateIncidentStatus: restatus the incidents with that id and recolour them; an unknown id changes nothing. */
    method UpdateIncidentStatus(incidentId: int, newStatus: string)
      requires Valid()
      modifies this
      ensures Valid()
      ensures incidents == UpdateStatus(old(incidents), incidentId, newStatus)
      ensures currentPage == old(currentPage) && user == old(user) && alerts == old(alerts)
      ensures Snapshot() == Next(old(Snapshot()), ChangeStatus(incidentId, newStatus))
    {
      UpdateKeepsUnique(incidents, incidentId, newStatus);
      UpdateKeepsColors(incidents, incidentId, newStatus);
      incidents := UpdateStatus(incidents, incidentId, newStatus);
    }
  }

  /**
   * A session as a caller sees it through the contracts alone: sign in,
   * clear the seed alert, resolve then reopen incident 2, sign out.
   */
  method SessionWalkthrough()
  {
    var app := new App();
    JaneDoe();
    app.HandleLogin("jane.doe@example.com");
    assert app.user == Some(User("jane.doe@example.com", "jane.doe", "JA"));
    DismissSeedAlert();
    app.DismissAlert(1);
    assert app.alerts == [];
    var seed := app.incidents;
    app.UpdateIncidentStatus(2, Resolved);
    assert app.incidents[1].statusColor == ResolvedColor;
    app.UpdateIncidentStatus(2, InProgress);
    UpdateLastWins(seed, 2, Resolved, InProgress);
    assert app.incidents[1].status == InProgress && app.incidents[1].statusColor == InProgressColor;
    assert app.incidents[0] == seed[0] && app.incidents[2] == seed[2];
    app.HandleLogout();
    assert app.currentPage == Login && app.user == None;
    assert app.alerts == [] && |app.incidents| == 3;
  }
}
