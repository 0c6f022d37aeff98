/**
 * The status changes the dashboards push through `updateNotification`: dispatch to the
 * notified area, request priority and close without action (quality view), and save or
 * finalize an analysis (manager view). Each is an update whose guard is the condition
 * under which the UI renders, or enables, the button that issues it.
 */
module Lifecycle {
  import opened Types
  import opened App

  /** The SLA window granted on dispatch, in days. */
  const SlaDays: int := 7

  /** One action a dashboard can take on a notification. */
  datatype Action =
    | Dispatch(now: int)
    | RequestPriority
    | CloseWithoutAction
    | SaveAnalysis(ishikawa: Ishikawa, actionPlan: ActionPlan, london: bool, isComplete: bool)

  /**
   * The deadline the dispatch stores, the date part of the ISO timestamp seven days
   * ahead, as a day number: the UTC day that contains the instant seven days after `now`.
   */
  function DeadlineDay(now: int): (d: int)
    ensures d * DayMs <= now + SlaDays * DayMs < (d + 1) * DayMs
  {
    (now + SlaDays * DayMs) / DayMs
  }

  /**
   * The update each action sends. None of them writes PENDING or OVERDUE, and none
   * clears the sent flag.
   */
  function PatchOf(a: Action): (p: Patch)
    ensures p.status != Some(Pending) && p.status != Some(Overdue)
    ensures p.isSentToArea != Some(false)
    ensures a.Dispatch? ==>
              p == Patch(Some(SentToArea), Some(true), Some(DeadlineDay(a.now)), None, None, None, None, None)
    ensures a.RequestPriority? ==> p == Patch(None, None, None, None, None, None, Some(true), None)
    ensures a.CloseWithoutAction? ==> p == Patch(Some(Archived), None, None, None, None, None, None, Some(true))
    ensures a.SaveAnalysis? ==>
              p == Patch(Some(if a.isComplete then Completed else Analyzing), None, None,
                         Some(a.ishikawa), Some(a.actionPlan), Some(a.london), None, None)
  {
    match a
    case Dispatch(now) =>
      Patch(Some(SentToArea), Some(true), Some(DeadlineDay(now)), None, None, None, None, None)
    case RequestPriority =>
      Patch(None, None, None, None, None, None, Some(true), None)
    case CloseWithoutAction =>
      Patch(Some(Archived), None, None, None, None, None, None, Some(true))
    case SaveAnalysis(ishikawa, plan, london, isComplete) =>
      Patch(Some(if isComplete then Completed else Analyzing), None, None,
            Some(ishikawa), Some(plan), Some(london), None, None)
  }

  /**
   * When the button for `a` is rendered and enabled for the record `n` on display:
   * dispatch only for a pending record, priority and close only for an overdue one
   * (priority disabled once requested), saving only for a record the manager's list
   * shows, that is one sent to its area (no status check).
   */
  predicate Offered(a: Action, n: Notification) {
    match a
    case Dispatch(_) => n.status == Pending
    case RequestPriority => n.status == Overdue && n.priorityRequested != Some(true)
    case CloseWithoutAction => n.status == Overdue
    case SaveAnalysis(_, _, _, _) => n.isSentToArea
  }

  /**
   * The status edges the code can take: PENDING only to SENT_TO_AREA, OVERDUE to itself
   * or to ARCHIVED, and any dispatched status to ANALYZING or COMPLETED.
   */
  predicate CodeEdge(from: Status, to: Status) {
    || (from == Pending && to == SentToArea)
    || (from == Overdue && (to == Overdue || to == Archived))
    || (from != Pending && (to == Analyzing || to == Completed))
  }

  /** A record after an action. */
  function Apply(n: Notification, a: Action): Notification {
    ApplyPatch(n, PatchOf(a))
  }

  /** The sent flag is set exactly when the record has left PENDING. */
  predicate SentFlagAgrees(n: Notification) {
    n.isSentToArea <==> n.status != Pending
  }

  /** Every record of the list has its sent flag in agreement with its status. */
  ghost predicate SentFlagsAgree(ns: seq<Notification>) {
    forall i :: 0 <= i < |ns| ==> SentFlagAgrees(ns[i])
  }

  /** On a record whose flag agrees, every offered action follows an edge and keeps the flag in agreement. */
  lemma OfferedActionFollowsEdge(n: Notification, a: Action)
    requires SentFlagAgrees(n) && Offered(a, n)
    ensures CodeEdge(n.status, Apply(n, a).status)
    ensures SentFlagAgrees(Apply(n, a))
  {
  }

  /** A new record is PENDING and not sent, so prepending it keeps every flag in agreement. */
  lemma PrependKeepsSentFlags(ns: seq<Notification>, data: IntakeData, id: string, now: int)
    requires SentFlagsAgree(ns)
    ensures SentFlagsAgree(Prepended(ns, data, id, now))
  {
    var r := Prepended(ns, data, id, now);
    forall i | 0 <= i < |r| ensures SentFlagAgrees(r[i]) {
      if i > 0 {
        assert r[i] == r[1..][i - 1];
      }
    }
  }

  /** An action offered on every record with the id keeps every flag in agreement. */
  lemma GuardedUpdateKeepsSentFlags(ns: seq<Notification>, id: string, a: Action)
    requires SentFlagsAgree(ns)
    requires forall i :: 0 <= i < |ns| && ns[i].id == id ==> Offered(a, ns[i])
    ensures SentFlagsAgree(UpdateAll(ns, id, PatchOf(a)))
  {
    var r := UpdateAll(ns, id, PatchOf(a));
    forall i | 0 <= i < |r| ensures SentFlagAgrees(r[i]) {
      if ns[i].id == id {
        OfferedActionFollowsEdge(ns[i], a);
      }
    }
  }

  /** Dispatch sets the status, the sent flag and the deadline, and nothing else; it is then no longer offered. */
  lemma DispatchEffect(n: Notification, now: int)
    requires Offered(Dispatch(now), n)
    ensures var r := Apply(n, Dispatch(now));
            r == n.(status := SentToArea, isSentToArea := true, deadline := Some(DeadlineDay(now))) &&
            !Offered(Dispatch(now), r)
  {
  }

  /**
   * Priority sets only its flag and the stored record no longer offers it; the open view
   * keeps its old copy, and a repeat is harmless.
   */
  lemma PriorityEffect(n: Notification)
    requires Offered(RequestPriority, n)
    ensures var r := Apply(n, RequestPriority);
            r == n.(priorityRequested := Some(true)) &&
            !Offered(RequestPriority, r) &&
            Apply(r, RequestPriority) == r
  {
  }

  /**
   * Closing archives the record and marks it closed without action, and nothing else;
   * nothing is offered on it afterwards but saving.
   */
  lemma CloseEffect(n: Notification)
    requires Offered(CloseWithoutAction, n)
    ensures var r := Apply(n, CloseWithoutAction);
            r == n.(status := Archived, closedWithoutAction := Some(true)) &&
            forall b: Action :: !b.SaveAnalysis? ==> !Offered(b, r)
  {
  }

  /**
   * Saving writes the status, the Ishikawa analysis, the action plan and the London flag,
   * and nothing else; the record can be saved again.
   */
  lemma SaveEffect(n: Notification, ishikawa: Ishikawa, plan: ActionPlan, london: bool, isComplete: bool)
    requires Offered(SaveAnalysis(ishikawa, plan, london, isComplete), n)
    ensures var r := Apply(n, SaveAnalysis(ishikawa, plan, london, isComplete));
            r == n.(status := if isComplete then Completed else Analyzing, ishikawa := Some(ishikawa),
                    actionPlan := Some(plan), protocolLondonRequired := Some(london)) &&
            forall b: Action :: b.SaveAnalysis? ==> Offered(b, r)
  {
  }

  /** Saving has no status check: a completed record saved as a draft goes back to ANALYZING. */
  lemma CompletedCanBeReopened(n: Notification, ishikawa: Ishikawa, plan: ActionPlan, london: bool)
    requires SentFlagAgrees(n) && n.status == Completed
    ensures Offered(SaveAnalysis(ishikawa, plan, london, false), n)
    ensures Apply(n, SaveAnalysis(ishikawa, plan, london, false)).status == Analyzing
  {
  }

  /** No record in the list is OVERDUE. */
  ghost predicate NoOverdue(ns: seq<Notification>) {
    forall i :: 0 <= i < |ns| ==> ns[i].status != Overdue
  }

  /** No action of the code writes OVERDUE, and new records are PENDING: OVERDUE never appears. */
  lemma NoOverdueKept(ns: seq<Notification>, id: string, a: Action, data: IntakeData, newId: string, now: int)
    requires NoOverdue(ns)
    ensures NoOverdue(UpdateAll(ns, id, PatchOf(a)))
    ensures NoOverdue(Prepended(ns, data, newId, now))
  {
    var r := Prepended(ns, data, newId, now);
    forall i | 0 <= i < |r| ensures r[i].status != Overdue {
      if i > 0 {
        assert r[i] == r[1..][i - 1];
      }
    }
  }

  /** So in a list without OVERDUE records the priority and close buttons are never shown. */
  lemma EscalationUnreachable(ns: seq<Notification>, n: Notification)
    requires NoOverdue(ns) && n in ns
    ensures !Offered(RequestPriority, n) && !Offered(CloseWithoutAction, n)
  {
  }
}
