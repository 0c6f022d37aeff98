/**
 * The area manager's view (components/ManagerDashboard.tsx): the records dispatched to
 * the manager's sector, split into three tabs; the SLA countdown on each row; and the
 * root-cause analysis desk, whose draft (Ishikawa diagram, action plan, London-protocol
 * flag) is loaded from a record and saved back to it.
 */
module Manager {
  import opened Types
  import opened SeqUtil
  import opened App
  import opened Lifecycle

  // ---------------------------------------------------------------- the list

  datatype ManagerTab = PendingTab | CompletedTab | ArchivedTab

  /** Open work (anything neither completed nor archived), completed, or archived. */
  predicate InTab(n: Notification, tab: ManagerTab) {
    match tab
    case PendingTab => n.status != Completed && n.status != Archived
    case CompletedTab => n.status == Completed
    case ArchivedTab => n.status == Archived
  }

  /** A row of the list: dispatched to `sector` and in `tab`. */
  predicate Listed(n: Notification, sector: string, tab: ManagerTab) {
    n.notifiedSector == sector && n.isSentToArea && InTab(n, tab)
  }

  /** `filteredNotifs`: the rows, in store order. */
  function ManagerRows(ns: seq<Notification>, sector: string, tab: ManagerTab): (r: seq<Notification>)
    ensures Subseq(r, ns)
    ensures forall n :: n in r <==> n in ns && Listed(n, sector, tab)
    ensures forall n :: multiset(r)[n] == if Listed(n, sector, tab) then multiset(ns)[n] else 0
  {
    var r := Filter(n => Listed(n, sector, tab), ns);
    forall n ensures n in r <==> n in ns && Listed(n, sector, tab) {
      FilterMembership(n => Listed(n, sector, tab), ns, n);
    }
    r
  }

  /** The tab a record belongs to. */
  function TabOf(n: Notification): (t: ManagerTab)
    ensures InTab(n, t)
    ensures forall u :: InTab(n, u) ==> u == t
  {
    if n.status == Completed then CompletedTab
    else if n.status == Archived then ArchivedTab
    else PendingTab
  }

  /** Each record dispatched to a sector is listed in exactly one of its three tabs. */
  lemma TabsPartition(ns: seq<Notification>, sector: string, n: Notification)
    requires n in ns && n.notifiedSector == sector && n.isSentToArea
    ensures n in ManagerRows(ns, sector, TabOf(n))
    ensures forall t :: t != TabOf(n) ==> n !in ManagerRows(ns, sector, t)
  {
  }

  /** The row counts of the three tabs add up to the sector's dispatched records. */
  lemma {:induction false} TabCountsAdd(ns: seq<Notification>, sector: string)
    ensures |ManagerRows(ns, sector, PendingTab)| + |ManagerRows(ns, sector, CompletedTab)|
            + |ManagerRows(ns, sector, ArchivedTab)|
            == |Filter((n: Notification) => n.notifiedSector == sector && n.isSentToArea, ns)|
  {
    if ns != [] {
      TabCountsAdd(ns[1..], sector);
      var h, t := ns[0], ns[1..];
      assert |ManagerRows(ns, sector, PendingTab)| ==
             |ManagerRows(t, sector, PendingTab)| + (if Listed(h, sector, PendingTab) then 1 else 0);
      assert |ManagerRows(ns, sector, CompletedTab)| ==
             |ManagerRows(t, sector, CompletedTab)| + (if Listed(h, sector, CompletedTab) then 1 else 0);
      assert |ManagerRows(ns, sector, ArchivedTab)| ==
             |ManagerRows(t, sector, ArchivedTab)| + (if Listed(h, sector, ArchivedTab) then 1 else 0);
    }
  }

  /** A record the quality team has not dispatched never reaches any manager. */
  lemma UndispatchedHidden(ns: seq<Notification>, n: Notification, sector: string, tab: ManagerTab)
    requires !n.isSentToArea
    ensures n !in ManagerRows(ns, sector, tab)
  {
  }

  /** A dispatched record is open work in the notified sector's list. */
  lemma DispatchedIsOpenWork(n: Notification, now: int)
    requires Offered(Dispatch(now), n)
    ensures Listed(Apply(n, Dispatch(now)), n.notifiedSector, PendingTab)
  {
  }

  /** Saving a draft keeps the record open; finalizing moves it to the completed tab. */
  lemma SaveMovesTab(n: Notification, ishikawa: Ishikawa, plan: ActionPlan, london: bool, isComplete: bool)
    ensures TabOf(Apply(n, SaveAnalysis(ishikawa, plan, london, isComplete))) ==
            if isComplete then CompletedTab else PendingTab
  {
  }

  // ---------------------------------------------------------------- SLA

  /** Real division rounded up, for a positive divisor. */
  function CeilDiv(a: int, b: int): (r: int)
    requires b > 0
    ensures (r - 1) * b < a <= r * b
  {
    var q := (-a) / b;
    var m := (-a) % b;
    assert -a == q * b + m && 0 <= m < b;
    assert -q * b == a + m;
    assert (-q - 1) * b == a + m - b;
    -q
  }

  /**
   * `getSLA`: whole days left until the deadline, rounded up; `None` for a record with
   * no deadline. The deadline instant is midnight UTC of the deadline day.
   */
  function GetSLA(n: Notification, now: int): (r: Option<int>)
    ensures r.None? <==> n.deadline.None?
    ensures r.Some? ==> var diff := n.deadline.value * DayMs - now;
                        (r.value - 1) * DayMs < diff <= r.value * DayMs
  {
    match n.deadline
    case None => None
    case Some(d) => Some(CeilDiv(d * DayMs - now, DayMs))
  }

  /** The SLA cell: "Aguardando Triagem", or a badge that is red when urgent. */
  datatype SlaBadge = AwaitingTriage | Badge(urgent: bool, expired: bool, days: int)

  function BadgeOf(n: Notification, now: int): (b: SlaBadge)
    ensures b.AwaitingTriage? <==> n.deadline.None?
    ensures b.Badge? ==> var due := n.deadline.value * DayMs;
                         (b.expired <==> now >= due) &&
                         (b.urgent <==> now >= due - 2 * DayMs) &&
                         (b.expired ==> b.urgent)
    ensures b.Badge? ==> b.days == GetSLA(n, now).value
  {
    match GetSLA(n, now)
    case None => AwaitingTriage
    case Some(sla) => Badge(sla <= 2, sla <= 0, sla)
  }

  /** Right after dispatch the countdown reads exactly seven days. */
  lemma SlaAtDispatch(n: Notification, now: int)
    requires Offered(Dispatch(now), n)
    ensures GetSLA(Apply(n, Dispatch(now)), now) == Some(SlaDays)
  {
    var d := DeadlineDay(now);
    var r := GetSLA(Apply(n, Dispatch(now)), now);
    assert r.value * DayMs >= d * DayMs - now > (SlaDays - 1) * DayMs;
  }

  /** The countdown never goes up as time passes. */
  lemma SlaNonIncreasing(n: Notification, now1: int, now2: int)
    requires n.deadline.Some? && now1 <= now2
    ensures GetSLA(n, now2).value <= GetSLA(n, now1).value
  {
  }

  /** Once the deadline instant has passed the record reads "Expirado", and only then. */
  lemma ExpiredIffPastDeadline(n: Notification, now: int)
    requires n.deadline.Some?
    ensures GetSLA(n, now).value <= 0 <==> now >= n.deadline.value * DayMs
  {
  }

  // ---------------------------------------------------------------- the analysis desk

  /** The analysis form's state: the 6M diagram, the 5W2H plan and the London-protocol flag. */
  datatype Draft = Draft(ishikawa: Ishikawa, actionPlan: ActionPlan, london: bool)

  const EmptyCause: IshikawaDetails := IshikawaDetails("", "")

  const EmptyDraft: Draft :=
    Draft(Ishikawa(EmptyCause, EmptyCause, EmptyCause, EmptyCause, EmptyCause, EmptyCause),
          ActionPlan("", "", "", "", "", "", "", ""), false)

  /**
   * `handleStartAnalysis`: the record's saved diagram and plan replace the draft's when
   * present, and the flag is set only when the record's flag is true; whatever the
   * record lacks stays as the previous analysis left it.
   */
  function Loaded(d: Draft, n: Notification): (r: Draft)
    ensures r.ishikawa == n.ishikawa.GetOr(d.ishikawa)
    ensures r.actionPlan == n.actionPlan.GetOr(d.actionPlan)
    ensures r.london <==> d.london || n.protocolLondonRequired == Some(true)
  {
    Draft(n.ishikawa.GetOr(d.ishikawa), n.actionPlan.GetOr(d.actionPlan),
          if n.protocolLondonRequired == Some(true) then true else d.london)
  }

  /** The update `handleSaveAnalysis` sends for a draft. */
  function SaveOf(d: Draft, isComplete: bool): Action {
    SaveAnalysis(d.ishikawa, d.actionPlan, d.london, isComplete)
  }

  /** Reopening a record right after saving it shows exactly the draft that was saved. */
  lemma SaveThenLoad(d: Draft, n: Notification, isComplete: bool, any: Draft)
    requires any.london ==> d.london
    ensures Loaded(any, Apply(n, SaveOf(d, isComplete))) == d
  {
  }

  /**
   * A record with no saved analysis opens on the previous record's draft, and a record
   * saved without the London flag does not clear a flag left on by the previous record.
   */
  lemma DraftCarriesOver(d: Draft, n: Notification)
    requires n.ishikawa.None? && n.actionPlan.None? && n.protocolLondonRequired != Some(true)
    ensures Loaded(d, n) == d
  {
  }

  class AnalysisDesk {
    const store: NotificationStore
    const user: User
    var activeSector: string
    var activeTab: ManagerTab
    var selected: Option<Notification>
    var ishikawa: Ishikawa
    var actionPlan: ActionPlan
    var protocolLondon: bool

    function CurrentDraft(): Draft
      reads this
    {
      Draft(ishikawa, actionPlan, protocolLondon)
    }

    /** The desk only ever holds a record its list showed, so one sent to its area. */
    ghost predicate Valid()
      reads this
    {
      selected.Some? ==> selected.value.isSentToArea
    }

    /** The first of the user's sectors (or none), the open-work tab, an empty draft. */
    constructor (store: NotificationStore, user: User)
      ensures Valid()
      ensures this.store == store && this.user == user
      ensures activeSector == (if |user.sectors| > 0 then user.sectors[0] else "")
      ensures activeTab == PendingTab && selected == None
      ensures CurrentDraft() == EmptyDraft
    {
      this.store, this.user := store, user;
      activeSector := if |user.sectors| > 0 then user.sectors[0] else "";
      activeTab, selected := PendingTab, None;
      ishikawa, actionPlan, protocolLondon := EmptyDraft.ishikawa, EmptyDraft.actionPlan, false;
    }

    /** The rows of the table. */
    function Rows(): seq<Notification>
      reads this, store
    {
      ManagerRows(store.notifications, activeSector, activeTab)
    }

    /** The sector buttons list only the user's own sectors. */
    method SelectSector(s: string)
      requires Valid() && selected.None? && s in user.sectors
      modifies this
      ensures Valid()
      ensures activeSector == s
      ensures activeTab == old(activeTab) && selected == old(selected)
      ensures CurrentDraft() == old(CurrentDraft())
    {
      activeSector := s;
    }

    method SelectTab(t: ManagerTab)
      requires Valid() && selected.None?
      modifies this
      ensures Valid()
      ensures activeTab == t
      ensures activeSector == old(activeSector) && selected == old(selected)
      ensures CurrentDraft() == old(CurrentDraft())
    {
      activeTab := t;
    }

    /** "Iniciar Análise" / "Ver Relatório" on a listed row. */
    method StartAnalysis(n: Notification)
      requires Valid() && selected.None? && n in Rows()
      modifies this
      ensures Valid()
      ensures selected == Some(n)
      ensures CurrentDraft() == Loaded(old(CurrentDraft()), n)
      ensures activeSector == old(activeSector) && activeTab == old(activeTab)
    {
      selected := Some(n);
      if n.ishikawa.Some? {
        ishikawa := n.ishikawa.value;
      }
      if n.actionPlan.Some? {
        actionPlan := n.actionPlan.value;
      }
      if n.protocolLondonRequired == Some(true) {
        protocolLondon := true;
      }
    }

    /** The London-protocol switch on the desk. */
    method ToggleLondon()
      requires Valid()
      modifies this
      ensures Valid()
      ensures CurrentDraft() == old(CurrentDraft()).(london := !old(protocolLondon))
      ensures selected == old(selected)
      ensures activeSector == old(activeSector) && activeTab == old(activeTab)
    {
      protocolLondon := !protocolLondon;
    }

    /** The back arrow leaves the desk without saving. */
    method Back()
      requires Valid()
      modifies this
      ensures Valid()
      ensures selected == None
      ensures activeSector == old(activeSector) && activeTab == old(activeTab)
      ensures CurrentDraft() == old(CurrentDraft())
    {
      selected := None;
    }

    /**
     * "Salvar Rascunho" (`isComplete` false) and "Finalizar Investigação" (true): the
     * draft is written to the selected record and the desk closes; the draft itself is
     * kept. With nothing selected nothing happens. The save is one the record offers.
     */
    method SaveAnalysis(isComplete: bool)
      requires Valid() && store.Valid()
      modifies this, store
      ensures Valid() && store.Valid()
      ensures old(selected).Some? ==> Offered(SaveOf(old(CurrentDraft()), isComplete), old(selected).value)
      ensures old(selected).None? ==> store.notifications == old(store.notifications)
      ensures old(selected).Some? ==>
                store.notifications ==
                  UpdateAll(old(store.notifications), old(selected).value.id,
                            PatchOf(SaveOf(old(CurrentDraft()), isComplete)))
      ensures selected == None
      ensures activeSector == old(activeSector) && activeTab == old(activeTab)
      ensures CurrentDraft() == old(CurrentDraft())
    {
      if selected.Some? {
        store.UpdateNotification(selected.value.id, PatchOf(SaveOf(CurrentDraft(), isComplete)));
        selected := None;
      }
    }
  }
}
