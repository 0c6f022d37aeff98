/**
 * The quality team's triage view (components/QualityDashboard.tsx): the filtered record
 * list, the indicator tiles, and the state of the page (search text, month, tab,
 * indicator, record on display) with the handlers that change it.
 */
module Quality {
  import opened Types
  import opened SeqUtil
  import opened App
  import opened Lifecycle

  // ---------------------------------------------------------------- text search

  predicate IsUpper(c: char) {
    'A' <= c <= 'Z'
  }

  /** `toLowerCase` restricted to ASCII letters. */
  function LowerChar(c: char): (r: char)
    ensures !IsUpper(r)
    ensures !IsUpper(c) ==> r == c
  {
    if IsUpper(c) then (c as int + 32) as char else c
  }

  function Lower(s: string): (r: string)
    ensures |r| == |s|
    ensures forall i :: 0 <= i < |s| ==> r[i] == LowerChar(s[i])
  {
    seq(|s|, i requires 0 <= i < |s| => LowerChar(s[i]))
  }

  /** `hay.includes(needle)`. */
  predicate Contains(hay: string, needle: string) {
    exists i :: 0 <= i <= |hay| && needle <= hay[i..]
  }

  function DigitChar(d: int): (c: char)
    requires 0 <= d < 10
    ensures '0' <= c <= '9'
  {
    "0123456789"[d]
  }

  /** Decimal digits of a natural number, most significant first. */
  function NatString(n: nat): (s: string)
    ensures |s| > 0
    ensures forall i :: 0 <= i < |s| ==> '0' <= s[i] <= '9'
  {
    if n < 10 then [DigitChar(n)] else NatString(n / 10) + [DigitChar(n % 10)]
  }

  /** `Number.prototype.toString()` on an integer. */
  function IntString(n: int): (s: string)
    ensures forall i :: 0 <= i < |s| ==> s[i] == '-' || '0' <= s[i] <= '9'
  {
    if n < 0 then "-" + NatString(-n) else NatString(n)
  }

  /**
   * The search box matches description, notified sector or patient name ignoring case,
   * or the display number as typed.
   */
  predicate MatchesText(n: Notification, search: string) {
    || Contains(Lower(n.description), Lower(search))
    || Contains(Lower(n.notifiedSector), Lower(search))
    || Contains(IntString(n.notificationNumber), search)
    || Contains(Lower(n.patientName), Lower(search))
  }

  // ---------------------------------------------------------------- month, tab, indicator

  /** The month test as the code has it: only `'Todos'` stands for every month. */
  predicate MatchesMonthAsWritten(n: Notification, month: string) {
    month == "Todos" || n.month == month
  }

  /**
   * The month test with the select's own "every month" option, `'Todos os Meses'`,
   * also standing for every month.
   */
  predicate MatchesMonth(n: Notification, month: string) {
    month == "Todos" || month == "Todos os Meses" || n.month == month
  }

  datatype QualityTab = PendingTab | AnalyzingTab | CompletedTab

  predicate MatchesTab(n: Notification, tab: QualityTab) {
    match tab
    case PendingTab => n.status == Pending
    case AnalyzingTab => n.status in {SentToArea, Analyzing, Overdue}
    case CompletedTab => n.status == Completed
  }

  /** The four indicator tiles; `Total` filters nothing. */
  datatype Indicator = Total | GraveEvents | NearMissEvents | OverdueEvents

  predicate MatchesIndicator(n: Notification, indicator: Option<Indicator>) {
    match indicator
    case None => true
    case Some(Total) => true
    case Some(GraveEvents) => n.damageGrade == Grave
    case Some(NearMissEvents) => n.classification == NearMiss
    case Some(OverdueEvents) => n.status == Overdue
  }

  /** The inputs of the `filtered` projection. */
  datatype Query = Query(search: string, month: string, tab: QualityTab, indicator: Option<Indicator>)

  predicate VisibleAsWritten(n: Notification, q: Query) {
    MatchesText(n, q.search) && MatchesMonthAsWritten(n, q.month) &&
    MatchesTab(n, q.tab) && MatchesIndicator(n, q.indicator)
  }

  predicate Visible(n: Notification, q: Query) {
    MatchesText(n, q.search) && MatchesMonth(n, q.month) &&
    MatchesTab(n, q.tab) && MatchesIndicator(n, q.indicator)
  }

  /** `filtered`, as written: the records the table lists, in store order. */
  function Filtered(ns: seq<Notification>, q: Query): (r: seq<Notification>)
    ensures Subseq(r, ns)
    ensures forall n :: n in r <==> n in ns && VisibleAsWritten(n, q)
    ensures forall n :: multiset(r)[n] == if VisibleAsWritten(n, q) then multiset(ns)[n] else 0
  {
    var r := Filter(n => VisibleAsWritten(n, q), ns);
    forall n ensures n in r <==> n in ns && VisibleAsWritten(n, q) {
      FilterMembership(n => VisibleAsWritten(n, q), ns, n);
    }
    r
  }

  /** The listing once the select's all-months option is recognised too. */
  function FilteredCorrected(ns: seq<Notification>, q: Query): (r: seq<Notification>)
    ensures Subseq(r, ns)
    ensures forall n :: n in r <==> n in ns && Visible(n, q)
    ensures forall n :: multiset(r)[n] == if Visible(n, q) then multiset(ns)[n] else 0
  {
    var r := Filter(n => Visible(n, q), ns);
    forall n ensures n in r <==> n in ns && Visible(n, q) {
      FilterMembership(n => Visible(n, q), ns, n);
    }
    r
  }

  // ---------------------------------------------------------------- indicator tiles

  datatype StatTile = StatTile(id: Indicator, value: nat)

  /** `stats`: each tile counts over every notification, whatever the current filters. */
  function Stats(ns: seq<Notification>): seq<StatTile> {
    [ StatTile(Total, |ns|),
      StatTile(GraveEvents, |Filter((n: Notification) => n.damageGrade == Grave, ns)|),
      StatTile(NearMissEvents, |Filter((n: Notification) => n.classification == NearMiss, ns)|),
      StatTile(OverdueEvents, |Filter((n: Notification) => n.status == Overdue, ns)|) ]
  }

  /** Filtering by two pointwise-equal predicates gives the same sequence. */
  lemma {:induction false} FilterExtensional(p: Notification -> bool, q: Notification -> bool, s: seq<Notification>)
    requires forall n :: p(n) == q(n)
    ensures Filter(p, s) == Filter(q, s)
  {
    if s != [] {
      FilterExtensional(p, q, s[1..]);
    }
  }

  /** Each tile shows the number of notifications that its own indicator filter would keep. */
  lemma StatsCountIndicator(ns: seq<Notification>, i: int)
    requires 0 <= i < |Stats(ns)|
    ensures Stats(ns)[i].value == |Filter(n => MatchesIndicator(n, Some(Stats(ns)[i].id)), ns)|
  {
    var k := Stats(ns)[i].id;
    var p := n => MatchesIndicator(n, Some(k));
    if i == 0 {
      FilterAll(p, ns);
    } else if i == 1 {
      FilterExtensional(p, (n: Notification) => n.damageGrade == Grave, ns);
    } else if i == 2 {
      FilterExtensional(p, (n: Notification) => n.classification == NearMiss, ns);
    } else {
      FilterExtensional(p, (n: Notification) => n.status == Overdue, ns);
    }
  }

  /** With an indicator selected, the table never lists more records than its tile shows. */
  lemma FilteredWithinTile(ns: seq<Notification>, q: Query, i: int)
    requires 0 <= i < |Stats(ns)| && q.indicator == Some(Stats(ns)[i].id)
    ensures |Filtered(ns, q)| <= Stats(ns)[i].value
  {
    var k := Stats(ns)[i].id;
    FilterMonotone(n => VisibleAsWritten(n, q), n => MatchesIndicator(n, Some(k)), ns);
    StatsCountIndicator(ns, i);
  }

  // ---------------------------------------------------------------- properties of the filter

  /** An empty search string is contained in every text. */
  lemma EmptySearchMatches(n: Notification)
    ensures MatchesText(n, "")
  {
    assert Lower("") == "";
    assert "" <= Lower(n.description)[0..];
  }

  /** The three tabs are pairwise disjoint, and an archived record is in none of them. */
  lemma TabsDisjoint(n: Notification, t1: QualityTab, t2: QualityTab)
    requires MatchesTab(n, t1) && MatchesTab(n, t2)
    ensures t1 == t2 && n.status != Archived
  {
  }

  /**
   * As written, with no search text, the initial `'Todos'` month and no indicator (or the
   * total tile), the table lists exactly the records of the tab.
   */
  lemma InitialFilterKeepsTab(ns: seq<Notification>, q: Query)
    requires q.search == "" && q.month == "Todos"
    requires q.indicator == None || q.indicator == Some(Total)
    ensures Filtered(ns, q) == Filter(n => MatchesTab(n, q.tab), ns)
  {
    forall n: Notification ensures VisibleAsWritten(n, q) == MatchesTab(n, q.tab) {
      EmptySearchMatches(n);
    }
    FilterExtensional(n => VisibleAsWritten(n, q), n => MatchesTab(n, q.tab), ns);
  }

  /**
   * Corrected, with no search text, every month, no indicator (or the total tile), the
   * table lists exactly the records of the tab, both for `'Todos'` and for `'Todos os Meses'`.
   */
  lemma AllMonthsOptionKeepsEverything(ns: seq<Notification>, q: Query)
    requires q.search == "" && q.month in {"Todos", "Todos os Meses"}
    requires q.indicator == None || q.indicator == Some(Total)
    ensures FilteredCorrected(ns, q) == Filter(n => MatchesTab(n, q.tab), ns)
  {
    forall n: Notification ensures Visible(n, q) == MatchesTab(n, q.tab) {
      EmptySearchMatches(n);
    }
    FilterExtensional(n => Visible(n, q), n => MatchesTab(n, q.tab), ns);
  }

  /**
   * As written, choosing the select's "Todos os Meses" option hides every record whose
   * month is a catalogue month, that is every record the intake form creates.
   */
  lemma AllMonthsOptionHidesEverything(ns: seq<Notification>, q: Query)
    requires q.month == "Todos os Meses"
    requires forall n :: n in ns ==> n.month in Months
    ensures Filtered(ns, q) == []
  {
  }

  /** A concrete record that the "Todos os Meses" option hides as written and shows once corrected. */
  lemma AllMonthsOptionCounterexample(n: Notification)
    requires n.month == "jan." && n.status == Pending
    ensures !VisibleAsWritten(n, Query("", "Todos os Meses", PendingTab, None))
    ensures Visible(n, Query("", "Todos os Meses", PendingTab, None))
  {
    EmptySearchMatches(n);
  }

  // ---------------------------------------------------------------- page state

  /** Clicking a tile: the active tile is cleared, any other one is selected. */
  function ToggleIndicator(current: Option<Indicator>, clicked: Indicator): (r: Option<Indicator>)
    ensures r == None <==> current == Some(clicked)
    ensures r != None ==> r == Some(clicked)
  {
    if current == Some(clicked) then None else Some(clicked)
  }

  /** Clicking the same tile twice restores the selection when it was empty or that tile. */
  lemma ToggleIndicatorTwice(current: Option<Indicator>, clicked: Indicator)
    requires current == None || current == Some(clicked)
    ensures ToggleIndicator(ToggleIndicator(current, clicked), clicked) == current
  {
  }

  /** The quality dashboard component with its own state and the shared store. */
  class QualityBoard {
    const store: NotificationStore
    var search: string
    var month: string
    var tab: QualityTab
    var viewing: Option<Notification>
    var indicator: Option<Indicator>

    constructor (store: NotificationStore)
      ensures this.store == store
      ensures search == "" && month == "Todos" && tab == PendingTab
      ensures viewing == None && indicator == None
    {
      this.store := store;
      search, month, tab := "", "Todos", PendingTab;
      viewing, indicator := None, None;
    }

    function CurrentQuery(): Query
      reads this
    {
      Query(search, month, tab, indicator)
    }

    /** The rows of the table. */
    function Rows(): seq<Notification>
      reads this, store
    {
      Filtered(store.notifications, CurrentQuery())
    }

    /** "Abrir" on a listed row puts a copy of it on display. */
    method Open(n: Notification)
      requires viewing.None? && n in Rows()
      modifies this
      ensures viewing == Some(n)
      ensures search == old(search) && month == old(month) && tab == old(tab)
      ensures indicator == old(indicator)
    {
      viewing := Some(n);
    }

    /** The search box. */
    method SetSearch(text: string)
      modifies this
      ensures search == text
      ensures month == old(month) && tab == old(tab) && viewing == old(viewing)
      ensures indicator == old(indicator)
    {
      search := text;
    }

    /** The month select; its first option carries the value `'Todos os Meses'`. */
    method SetMonth(choice: string)
      modifies this
      ensures month == choice
      ensures search == old(search) && tab == old(tab) && viewing == old(viewing)
      ensures indicator == old(indicator)
    {
      month := choice;
    }

    /** The cross on the record view. */
    method CloseView()
      modifies this
      ensures viewing == None
      ensures search == old(search) && month == old(month) && tab == old(tab)
      ensures indicator == old(indicator)
    {
      viewing := None;
    }

    /** A tile click toggles the indicator filter. */
    method ClickIndicator(k: Indicator)
      modifies this
      ensures indicator == ToggleIndicator(old(indicator), k)
      ensures search == old(search) && month == old(month) && tab == old(tab)
      ensures viewing == old(viewing)
    {
      indicator := ToggleIndicator(indicator, k);
    }

    /** Switching tab clears the indicator filter. */
    method SelectTab(t: QualityTab)
      modifies this
      ensures tab == t && indicator == None
      ensures search == old(search) && month == old(month) && viewing == old(viewing)
    {
      tab, indicator := t, None;
    }

    /** "Enviar para Área", shown only for a pending record; closes the record view. */
    method DispatchToArea(now: int)
      requires store.Valid()
      requires viewing.Some? && Offered(Dispatch(now), viewing.value)
      modifies this, store
      ensures store.Valid()
      ensures store.notifications ==
                UpdateAll(old(store.notifications), old(viewing).value.id, PatchOf(Dispatch(now)))
      ensures viewing == None
      ensures search == old(search) && month == old(month) && tab == old(tab)
      ensures indicator == old(indicator)
    {
      store.UpdateNotification(viewing.value.id, PatchOf(Dispatch(now)));
      viewing := None;
    }

    /**
     * "Solicitar prioridade", shown for an overdue record and enabled until requested.
     * The record on display is a copy and is not refreshed.
     */
    method RequestPriorityAction()
      requires store.Valid()
      requires viewing.Some? && Offered(RequestPriority, viewing.value)
      modifies store
      ensures store.Valid()
      ensures store.notifications ==
                UpdateAll(old(store.notifications), viewing.value.id, PatchOf(RequestPriority))
    {
      store.UpdateNotification(viewing.value.id, PatchOf(RequestPriority));
    }

    /** "Encerrar sem ação", shown for an overdue record; acts only once the user confirms. */
    method CloseWithoutActionAction(confirmed: bool)
      requires store.Valid()
      requires viewing.Some? && Offered(CloseWithoutAction, viewing.value)
      modifies this, store
      ensures store.Valid()
      ensures confirmed ==>
                store.notifications ==
                  UpdateAll(old(store.notifications), old(viewing).value.id, PatchOf(CloseWithoutAction))
                && viewing == None
      ensures !confirmed ==> store.notifications == old(store.notifications) && viewing == old(viewing)
      ensures search == old(search) && month == old(month) && tab == old(tab)
      ensures indicator == old(indicator)
    {
      if confirmed {
        store.UpdateNotification(viewing.value.id, PatchOf(CloseWithoutAction));
        viewing := None;
      }
    }
  }
}
