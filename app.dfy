/**
 * The application shell (App.tsx): the in-memory notification store with its two
 * operations, `addNotification` and `updateNotification`, and the role-based choice
 * of page.
 */
module App {
  import opened Types

  /** First display number handed out. */
  const FirstNumber: int := 1000

  /**
   * The part of `Partial<Notification>` that the application ever passes to
   * `updateNotification`; `None` means the key is absent from the update.
   */
  datatype Patch = Patch(
    status: Option<Status>,
    isSentToArea: Option<bool>,
    deadline: Option<int>,
    ishikawa: Option<Ishikawa>,
    actionPlan: Option<ActionPlan>,
    protocolLondonRequired: Option<bool>,
    priorityRequested: Option<bool>,
    closedWithoutAction: Option<bool>)

  /** The later of two optional values wins wherever it is present. */
  function Override<T>(later: Option<T>, earlier: Option<T>): Option<T> {
    if later.Some? then later else earlier
  }

  /** Two updates applied one after the other, as a single update. */
  function Then(p: Patch, q: Patch): Patch {
    Patch(Override(q.status, p.status), Override(q.isSentToArea, p.isSentToArea),
          Override(q.deadline, p.deadline), Override(q.ishikawa, p.ishikawa),
          Override(q.actionPlan, p.actionPlan),
          Override(q.protocolLondonRequired, p.protocolLondonRequired),
          Override(q.priorityRequested, p.priorityRequested),
          Override(q.closedWithoutAction, p.closedWithoutAction))
  }

  /** The new record built by `addNotification` from the submitted form. */
  function Created(data: IntakeData, id: string, number: int, now: int): (r: Notification)
    ensures IntakeOf(r) == data
    ensures r.id == id && r.notificationNumber == number && r.createdAt == now
    ensures r.status == Pending && !r.isSentToArea
    ensures r.deadline.None? && r.ishikawa.None? && r.actionPlan.None?
    ensures r.priorityRequested.None? && r.closedWithoutAction.None?
    ensures r.farmacoHemoTecno.None? && r.involvedPeople.None?
    ensures r.protocolLondonRequired.None? && r.protocolLondonLink.None?
  {
    Notification(id, number, data.origin, data.month, data.year, data.incidentDate,
                 data.notificationDate, data.period, data.reportingSector, data.notifiedSector,
                 data.patientRA, data.patientName, data.patientDOB, data.incidentType,
                 data.classification, data.damageGrade, data.carePhase,
                 data.identificationMethod, data.description, data.professionalCategory,
                 false, None, None, None, Pending, None, None, None, None,
                 data.notivisaNotified, data.onaNotified, now, None, None)
  }

  /** The new record goes to the head of the list, numbered 1000 plus the list's length. */
  function Prepended(ns: seq<Notification>, data: IntakeData, id: string, now: int): (r: seq<Notification>)
    ensures |r| == |ns| + 1 && r[1..] == ns
    ensures r[0].notificationNumber == FirstNumber + |ns|
    ensures r[0].status == Pending && !r[0].isSentToArea && r[0].id == id
    ensures IntakeOf(r[0]) == data
  {
    [Created(data, id, FirstNumber + |ns|, now)] + ns
  }

  /** Object spread of an update over a record: every key present in the update replaces the record's value. */
  function ApplyPatch(n: Notification, p: Patch): (r: Notification)
    ensures IntakeOf(r) == IntakeOf(n)
    ensures r.id == n.id && r.notificationNumber == n.notificationNumber
    ensures r.createdAt == n.createdAt && r.protocolLondonLink == n.protocolLondonLink
    ensures r.farmacoHemoTecno == n.farmacoHemoTecno && r.involvedPeople == n.involvedPeople
    ensures r.status == p.status.GetOr(n.status)
    ensures r.isSentToArea == p.isSentToArea.GetOr(n.isSentToArea)
    ensures r.deadline == Override(p.deadline, n.deadline)
    ensures r.ishikawa == Override(p.ishikawa, n.ishikawa)
    ensures r.actionPlan == Override(p.actionPlan, n.actionPlan)
    ensures r.protocolLondonRequired == Override(p.protocolLondonRequired, n.protocolLondonRequired)
    ensures r.priorityRequested == Override(p.priorityRequested, n.priorityRequested)
    ensures r.closedWithoutAction == Override(p.closedWithoutAction, n.closedWithoutAction)
  {
    n.(status := p.status.GetOr(n.status),
       isSentToArea := p.isSentToArea.GetOr(n.isSentToArea),
       deadline := Override(p.deadline, n.deadline),
       ishikawa := Override(p.ishikawa, n.ishikawa),
       actionPlan := Override(p.actionPlan, n.actionPlan),
       protocolLondonRequired := Override(p.protocolLondonRequired, n.protocolLondonRequired),
       priorityRequested := Override(p.priorityRequested, n.priorityRequested),
       closedWithoutAction := Override(p.closedWithoutAction, n.closedWithoutAction))
  }

  /** The update is spread over every record carrying the id; the others are kept as they are. */
  function UpdateAll(ns: seq<Notification>, id: string, p: Patch): (r: seq<Notification>)
    ensures |r| == |ns|
    ensures forall i :: 0 <= i < |ns| && ns[i].id != id ==> r[i] == ns[i]
    ensures forall i :: 0 <= i < |ns| && ns[i].id == id ==> r[i] == ApplyPatch(ns[i], p)
  {
    seq(|ns|, i requires 0 <= i < |ns| => if ns[i].id == id then ApplyPatch(ns[i], p) else ns[i])
  }

  /** Numbers are dense from the head: the i-th record from the head has `1000 + |ns| - 1 - i`. */
  ghost predicate Dense(ns: seq<Notification>) {
    forall i :: 0 <= i < |ns| ==> ns[i].notificationNumber == FirstNumber + |ns| - 1 - i
  }

  /** A dense list holds unique, strictly decreasing numbers, the newest at the head. */
  lemma DenseNumbersDecrease(ns: seq<Notification>, i: int, j: int)
    requires Dense(ns)
    requires 0 <= i < j < |ns|
    ensures ns[i].notificationNumber > ns[j].notificationNumber
    ensures ns[0].notificationNumber == FirstNumber + |ns| - 1
  {
  }

  /** Adding a notification keeps the numbering dense. */
  lemma PrependKeepsDense(ns: seq<Notification>, data: IntakeData, id: string, now: int)
    requires Dense(ns)
    ensures Dense(Prepended(ns, data, id, now))
  {
    var r := Prepended(ns, data, id, now);
    forall i | 0 <= i < |r|
      ensures r[i].notificationNumber == FirstNumber + |r| - 1 - i
    {
      if i > 0 {
        assert r[i] == r[1..][i - 1];
      }
    }
  }

  /** Updates never renumber, so they keep the numbering dense. */
  lemma UpdateKeepsDense(ns: seq<Notification>, id: string, p: Patch)
    requires Dense(ns)
    ensures Dense(UpdateAll(ns, id, p))
  {
  }

  /** Updating an id that no record carries leaves the list identical. */
  lemma UpdateMissingIdIsIdentity(ns: seq<Notification>, id: string, p: Patch)
    requires forall n :: n in ns ==> n.id != id
    ensures UpdateAll(ns, id, p) == ns
  {
  }

  /** Two updates of the same id in a row are one update with the later keys winning. */
  lemma UpdatesCompose(ns: seq<Notification>, id: string, p: Patch, q: Patch)
    ensures UpdateAll(UpdateAll(ns, id, p), id, q) == UpdateAll(ns, id, Then(p, q))
  {
    var a := UpdateAll(UpdateAll(ns, id, p), id, q);
    var b := UpdateAll(ns, id, Then(p, q));
    forall i | 0 <= i < |ns| ensures a[i] == b[i] {
      if ns[i].id == id {
        var x, y := a[i], b[i];
        assert IntakeOf(x) == IntakeOf(y);
      }
    }
  }

  /** Applying the same update twice is the same as applying it once. */
  lemma UpdateIdempotent(ns: seq<Notification>, id: string, p: Patch)
    ensures UpdateAll(UpdateAll(ns, id, p), id, p) == UpdateAll(ns, id, p)
  {
    UpdatesCompose(ns, id, p, p);
    assert Then(p, p) == p;
  }

  /**
   * The component state that holds the notifications. Only the list is modelled: the
   * user, sector and role lists belong to the administration page.
   */
  class NotificationStore {
    var notifications: seq<Notification>

    ghost predicate Valid()
      reads this
    {
      Dense(notifications)
    }

    /** The application starts with no notifications. */
    constructor ()
      ensures Valid() && notifications == []
    {
      notifications := [];
    }

    /**
     * `addNotification`: `id` stands for the random identifier and `now` for `Date.now()`.
     */
    method AddNotification(data: IntakeData, id: string, now: int)
      requires Valid()
      modifies this
      ensures Valid()
      ensures notifications == Prepended(old(notifications), data, id, now)
      ensures notifications[0].notificationNumber == FirstNumber + |old(notifications)|
    {
      PrependKeepsDense(notifications, data, id, now);
      notifications := Prepended(notifications, data, id, now);
    }

    /** `updateNotification`. */
    method UpdateNotification(id: string, updates: Patch)
      requires Valid()
      modifies this
      ensures Valid()
      ensures notifications == UpdateAll(old(notifications), id, updates)
    {
      UpdateKeepsDense(notifications, id, updates);
      notifications := UpdateAll(notifications, id, updates);
    }
  }

  /** The two routes under `/dashboard`. */
  datatype Route = DashboardHome | AdminRoute

  /** What the router renders. */
  datatype Page =
    | RedirectToLogin
    | QualityPage
    | ManagerPage
    | AdminPage
    | RedirectToDashboard

  /** Quality staff and administrators get the quality view. */
  predicate SeesQualityView(role: string) {
    role == "Qualidade" || role == "Administrador"
  }

  /** The page the router shows for the logged-in user (or nobody) at `route`. */
  function PageFor(user: Option<User>, route: Route): (r: Page)
    ensures user.None? <==> r == RedirectToLogin
    ensures r == AdminPage <==> route == AdminRoute && user.Some? && user.value.role == "Administrador"
    ensures route == DashboardHome && user.Some? ==>
              (r == QualityPage <==> SeesQualityView(user.value.role)) &&
              (r == ManagerPage <==> !SeesQualityView(user.value.role))
    ensures route == AdminRoute && user.Some? && user.value.role != "Administrador" ==>
              r == RedirectToDashboard
  {
    match user
    case None => RedirectToLogin
    case Some(u) =>
      match route
      case DashboardHome => if SeesQualityView(u.role) then QualityPage else ManagerPage
      case AdminRoute => if u.role == "Administrador" then AdminPage else RedirectToDashboard
  }

  /** The signed-in user, set from the login screen and cleared by the sidebar's logout. */
  class Session {
    var currentUser: Option<User>

    constructor ()
      ensures currentUser == None
    {
      currentUser := None;
    }

    /** The page the router shows at `route`. */
    function Page(route: Route): Page
      reads this
    {
      PageFor(currentUser, route)
    }

    /** Signing in as one of the users the login screen lists, the active ones. */
    method Login(u: User)
      requires u.active
      modifies this
      ensures currentUser == Some(u)
      ensures Page(DashboardHome) == (if SeesQualityView(u.role) then QualityPage else ManagerPage)
    {
      currentUser := Some(u);
    }

    /** After logging out every dashboard route redirects to the login screen. */
    method Logout()
      modifies this
      ensures currentUser == None
      ensures forall r :: Page(r) == RedirectToLogin
    {
      currentUser := None;
    }
  }
}
