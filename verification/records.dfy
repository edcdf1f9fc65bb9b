/**
 * The dashboard's two lists (src/App.tsx:15-44) and the pure list
 * computations behind the dismiss-alert filter (src/App.tsx:71-73) and the
 * incident status update map (src/App.tsx:75-86).
 */
module Records {

  datatype Alert = Alert(id: int, message: string, severity: string)

  /** `statusColor` is stored beside `status`; ColorAgrees states how the two must pair up. */
  datatype Incident = Incident(id: int, time: string, location: string, status: string, statusColor: string)

  /** The two values the status selector offers. */
  const Resolved: string := "Resolved"
  const InProgress: string := "In Progress"

  /** The two text colours a status is shown in. */
  const ResolvedColor: string := "text-green-400"
  const InProgressColor: string := "text-yellow-400"

  /** Green for exactly the status "Resolved", yellow for every other string. */
  function StatusColor(status: string): (c: string)
    ensures c == ResolvedColor <==> status == Resolved
    ensures c == InProgressColor <==> status != Resolved
  {
    if status == Resolved then ResolvedColor else InProgressColor
  }

  predicate ColorAgrees(i: Incident) {
    i.statusColor == StatusColor(i.status)
  }

  /** Every incident's colour is the one its status calls for. */
  predicate ColorsAgree(xs: seq<Incident>) {
    forall k :: 0 <= k < |xs| ==> ColorAgrees(xs[k])
  }

  predicate UniqueAlertIds(xs: seq<Alert>) {
    forall i, j :: 0 <= i < j < |xs| ==> xs[i].id != xs[j].id
  }

  predicate UniqueIncidentIds(xs: seq<Incident>) {
    forall i, j :: 0 <= i < j < |xs| ==> xs[i].id != xs[j].id
  }

  predicate HasAlert(xs: seq<Alert>, id: int) {
    exists k :: 0 <= k < |xs| && xs[k].id == id
  }

  predicate HasIncident(xs: seq<Incident>, id: int) {
    exists k :: 0 <= k < |xs| && xs[k].id == id
  }

  // ---------------------------------------------------------------------
  // Seed data

  /** The one alert shown at first: id 1, severity "high". */
  function SeedAlerts(): (r: seq<Alert>)
    ensures |r| == 1 && r[0].id == 1 && r[0].severity == "high"
  {
    [Alert(1, "Potential accident detected at Highway 101, Mile 245", "high")]
  }

  /** The three incidents shown at first, numbered 1 to 3, each with one of the selector's two statuses. */
  function SeedIncidents(): (r: seq<Incident>)
    ensures |r| == 3
    ensures forall k :: 0 <= k < |r| ==> r[k].id == k + 1
    ensures forall k :: 0 <= k < |r| ==> r[k].status == Resolved || r[k].status == InProgress
  {
    [ Incident(1, "2 hours ago", "Interstate 95, Mile 127", Resolved, ResolvedColor),
      Incident(2, "5 hours ago", "Highway 101, Mile 245", InProgress, InProgressColor),
      Incident(3, "1 day ago", "Route 1, Mile 78", Resolved, ResolvedColor) ]
  }

  /** The seed lists have unique ids and every seed incident's colour matches its status. */
  lemma SeedWellFormed()
    ensures UniqueAlertIds(SeedAlerts())
    ensures UniqueIncidentIds(SeedIncidents())
    ensures ColorsAgree(SeedIncidents())
  {
  }

  // ---------------------------------------------------------------------
  // dismissAlert: alerts.filter(alert => alert.id !== alertId)

  /** The alerts whose id differs from `id`, in their original order. */
  function Dismiss(alerts: seq<Alert>, id: int): (r: seq<Alert>)
    ensures |r| <= |alerts|
    ensures forall a :: a in r ==> a in alerts && a.id != id
    ensures forall a :: a in alerts && a.id != id ==> a in r
    ensures !HasAlert(alerts, id) ==> r == alerts
  {
    if alerts == [] then []
    else if alerts[0].id == id then Dismiss(alerts[1..], id)
    else [alerts[0]] + Dismiss(alerts[1..], id)
  }

  /**
   * Dismissing works element by element: it distributes over concatenation.
   * With the single-alert cases (an alert is kept exactly when its id differs)
   * this fixes the result as the kept alerts in their original relative order;
   * DismissKeepsOrder shows it on three alerts.
   */
  lemma {:induction false} DismissAppend(xs: seq<Alert>, ys: seq<Alert>, id: int)
    ensures Dismiss(xs + ys, id) == Dismiss(xs, id) + Dismiss(ys, id)
  {
    if xs == [] {
      assert xs + ys == ys;
    } else {
      assert (xs + ys)[1..] == xs[1..] + ys;
      DismissAppend(xs[1..], ys, id);
    }
  }

  /** Dismissing the middle one of three alerts leaves the outer two, in their order. */
  lemma DismissKeepsOrder(a: Alert, b: Alert, c: Alert)
    requires a.id != b.id && c.id != b.id
    ensures Dismiss([a, b, c], b.id) == [a, c]
  {
  }

  /** Each kept alert occurs as often as before; alerts with the id are gone entirely. */
  lemma {:induction false} DismissCounts(alerts: seq<Alert>, id: int, a: Alert)
    ensures multiset(Dismiss(alerts, id))[a] == if a.id == id then 0 else multiset(alerts)[a]
  {
    if alerts != [] {
      DismissCounts(alerts[1..], id, a);
      assert alerts == [alerts[0]] + alerts[1..];
    }
  }

  /** A second dismissal of the same id changes nothing. */
  lemma DismissIdempotent(alerts: seq<Alert>, id: int)
    ensures Dismiss(Dismiss(alerts, id), id) == Dismiss(alerts, id)
  {
  }

  /** With unique ids, dismissing an id that is present removes exactly one alert. */
  lemma {:induction false} DismissRemovesOne(alerts: seq<Alert>, id: int)
    requires UniqueAlertIds(alerts)
    requires HasAlert(alerts, id)
    ensures |Dismiss(alerts, id)| == |alerts| - 1
  {
    if alerts[0].id == id {
      var tail := alerts[1..];
      assert !HasAlert(tail, id) by {
        assert forall k :: 0 <= k < |tail| ==> tail[k] == alerts[k + 1];
      }
    } else {
      var k :| 0 <= k < |alerts| && alerts[k].id == id;
      assert alerts[1..][k - 1].id == id;
      DismissRemovesOne(alerts[1..], id);
    }
  }

  /** Dismissal keeps the alert ids unique. */
  lemma {:induction false} DismissKeepsUnique(alerts: seq<Alert>, id: int)
    requires UniqueAlertIds(alerts)
    ensures UniqueAlertIds(Dismiss(alerts, id))
  {
    if alerts != [] {
      var tail := alerts[1..];
      DismissKeepsUnique(tail, id);
      if alerts[0].id != id {
        var rest := Dismiss(tail, id);
        forall a | a in rest
          ensures a.id != alerts[0].id
        {
          var k :| 0 <= k < |tail| && tail[k] == a;
          assert alerts[k + 1] == a;
        }
        PrependKeepsUnique(alerts[0], rest);
      }
    }
  }

  lemma PrependKeepsUnique(a: Alert, rest: seq<Alert>)
    requires UniqueAlertIds(rest)
    requires forall b :: b in rest ==> b.id != a.id
    ensures UniqueAlertIds([a] + rest)
  {
  }

  // ---------------------------------------------------------------------
  // updateIncidentStatus: incidents.map(...)

  /**
   * The map's callback: an incident with id `id` gets `status` and the colour
   * recomputed from it, keeping its id, time and location; any other
   * incident is returned as it is.
   */
  function Restatus(incident: Incident, id: int, status: string): (r: Incident)
    ensures incident.id != id ==> r == incident
    ensures incident.id == id ==>
      && r.id == id
      && r.time == incident.time
      && r.location == incident.location
      && r.status == status
      && r.statusColor == StatusColor(status)
  {
    if incident.id == id then incident.(status := status, statusColor := StatusColor(status)) else incident
  }

  /** The list with the callback applied to every incident: same length, same order. */
  function UpdateStatus(incidents: seq<Incident>, id: int, status: string): (r: seq<Incident>)
    ensures |r| == |incidents|
    ensures forall k :: 0 <= k < |r| ==> r[k] == Restatus(incidents[k], id, status)
  {
    if incidents == [] then []
    else [Restatus(incidents[0], id, status)] + UpdateStatus(incidents[1..], id, status)
  }

  /** An id that names no incident leaves the list as it was. */
  lemma UpdateMissingIsIdentity(incidents: seq<Incident>, id: int, status: string)
    requires !HasIncident(incidents, id)
    ensures UpdateStatus(incidents, id, status) == incidents
  {
  }

  /** The ids, in order, are exactly those before the update. */
  lemma UpdateKeepsIds(incidents: seq<Incident>, id: int, status: string)
    ensures var r := UpdateStatus(incidents, id, status);
      forall k :: 0 <= k < |r| ==> r[k].id == incidents[k].id
  {
  }

  /** Unique incident ids stay unique. */
  lemma UpdateKeepsUnique(incidents: seq<Incident>, id: int, status: string)
    requires UniqueIncidentIds(incidents)
    ensures UniqueIncidentIds(UpdateStatus(incidents, id, status))
  {
  }

  /** The update keeps every incident's colour in agreement with its status. */
  lemma UpdateKeepsColors(incidents: seq<Incident>, id: int, status: string)
    requires ColorsAgree(incidents)
    ensures ColorsAgree(UpdateStatus(incidents, id, status))
  {
  }

  /** Two updates of the same incident: the later status wins, colour included. */
  lemma UpdateLastWins(incidents: seq<Incident>, id: int, first: string, second: string)
    ensures UpdateStatus(UpdateStatus(incidents, id, first), id, second) == UpdateStatus(incidents, id, second)
  {
  }

  /** Updates of two different incidents can be made in either order. */
  lemma UpdateCommutes(incidents: seq<Incident>, id1: int, s1: string, id2: int, s2: string)
    requires id1 != id2
    ensures UpdateStatus(UpdateStatus(incidents, id1, s1), id2, s2)
         == UpdateStatus(UpdateStatus(incidents, id2, s2), id1, s1)
  {
  }

  // ---------------------------------------------------------------------
  // Worked examples on the seed data

  /** Dismissing alert 1 from the seed empties the list. */
  lemma DismissSeedAlert()
    ensures Dismiss(SeedAlerts(), 1) == []
  {
  }

  /** Resolving incident 2 of the seed turns it green and leaves incidents 1 and 3 as they were. */
  lemma ResolveSeedIncident()
    ensures UpdateStatus(SeedIncidents(), 2, Resolved)
         == SeedIncidents()[1 := Incident(2, "5 hours ago", "Highway 101, Mile 245", Resolved, ResolvedColor)]
  {
  }
}
