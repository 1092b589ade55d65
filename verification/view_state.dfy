/**
 The page's view state and its transitions. Every user action is a pure
 function from the state to the next state and the set of fetches it starts;
 every fetch's completion is a separate pure function of the state and an
 abstract response, giving the next state and the regions it repaints.
 */
module ViewState {
  import opened Wrappers
  import opened Entities
  import Inbox
  import TaskFilter

  /** The five top-level views. */
  datatype Tab = InboxTab | TasksTab | CrmTab | PlanTab | DebtTab

  /** The backend reads the page starts: `GET /tasks`, `GET /ai/plan-day`, `GET /ai/time-debt`. */
  datatype Request = Tasks | Plan | Debt

  /** The page's state record. `crmContacts` is declared but no code path writes it. */
  datatype State = State(
    currentTab: Tab,
    tasks: seq<Task>,
    crmContacts: seq<Contact>,
    dailyPlan: Option<DailyPlan>,
    timeDebt: Option<TimeDebt>,
    isDarkMode: bool)

  /** The state at page load: inbox tab, nothing loaded, dark mode. */
  const Initial: State := State(InboxTab, [], [], None, None, true)

  /** The effect of a user action. */
  datatype Transition = Transition(next: State, fetches: set<Request>)

  /** `switchTab`: move to `tab`; fetch the plan or the time debt only when entering its tab with nothing cached. */
  function SwitchTab(s: State, tab: Tab): (t: Transition)
    ensures t.next == s.(currentTab := tab)
    ensures Plan in t.fetches <==> tab == PlanTab && s.dailyPlan.None?
    ensures Debt in t.fetches <==> tab == DebtTab && s.timeDebt.None?
    ensures Tasks !in t.fetches
    ensures |t.fetches| <= 1
  {
    var plan: set<Request> := if tab == PlanTab && s.dailyPlan.None? then {Plan} else {};
    var debt: set<Request> := if tab == DebtTab && s.timeDebt.None? then {Debt} else {};
    Transition(s.(currentTab := tab), plan + debt)
  }

  /** Re-entering a tab whose data is cached fetches nothing and leaves everything but the tab as it was. */
  lemma WarmActivationIsSilent(s: State, tab: Tab)
    requires tab == PlanTab ==> s.dailyPlan.Some?
    requires tab == DebtTab ==> s.timeDebt.Some?
    ensures SwitchTab(s, tab).fetches == {}
    ensures SwitchTab(s, tab).next.tasks == s.tasks
    ensures SwitchTab(s, tab).next.dailyPlan == s.dailyPlan
    ensures SwitchTab(s, tab).next.timeDebt == s.timeDebt
    ensures SwitchTab(s, tab).next.isDarkMode == s.isDarkMode
  {
  }

  /** `toggleTheme`: flip dark mode; nothing is fetched. */
  function ToggleTheme(s: State): (t: Transition)
    ensures t.next.isDarkMode != s.isDarkMode
    ensures t.next.(isDarkMode := s.isDarkMode) == s
    ensures t.fetches == {}
  {
    Transition(s.(isDarkMode := !s.isDarkMode), {})
  }

  lemma ToggleTwiceRestores(s: State)
    ensures ToggleTheme(ToggleTheme(s).next).next == s
  {
  }

  /** The theme's visible marks as a toggle leaves them: the `light-mode` body class and the two
      icons' `hidden` classes. Only `toggleTheme` writes them; before the first toggle they are
      whatever the page's markup says. */
  datatype ThemeMarks = ThemeMarks(lightMode: bool, sunHidden: bool, moonHidden: bool)

  function Marks(s: State): (m: ThemeMarks)
    ensures m.sunHidden != m.moonHidden
    ensures !m.sunHidden <==> s.isDarkMode
    ensures m.lightMode <==> !s.isDarkMode
  {
    ThemeMarks(!s.isDarkMode, !s.isDarkMode, s.isDarkMode)
  }

  /** After a toggle the two icons have swapped visibility. */
  lemma ToggleSwapsIcons(s: State)
    ensures Marks(ToggleTheme(s).next).sunHidden == Marks(s).moonHidden
    ensures Marks(ToggleTheme(s).next).moonHidden == Marks(s).sunHidden
  {
  }

  /** The notification `toggleTheme` shows, chosen from the new mode. */
  function ThemeToast(s: State): (msg: string)
    ensures msg == "Dark mode enabled" <==> ToggleTheme(s).next.isDarkMode
    ensures msg == "Light mode enabled" <==> !ToggleTheme(s).next.isDarkMode
  {
    if ToggleTheme(s).next.isDarkMode then "Dark mode enabled" else "Light mode enabled"
  }

  /** `refreshAllData`: always refetch the tasks, and the plan or the time debt when its tab is
      showing, whether or not it is cached. The state itself is not touched. */
  function RefreshAllData(s: State): (t: Transition)
    ensures t.next == s
    ensures Tasks in t.fetches
    ensures Plan in t.fetches <==> s.currentTab == PlanTab
    ensures Debt in t.fetches <==> s.currentTab == DebtTab
    ensures !(Plan in t.fetches && Debt in t.fetches)
  {
    var plan: set<Request> := if s.currentTab == PlanTab then {Plan} else {};
    var debt: set<Request> := if s.currentTab == DebtTab then {Debt} else {};
    Transition(s, {Tasks} + plan + debt)
  }

  /** Refresh on the plan or debt tab refetches even a cached value; on any other tab it asks for the tasks only. */
  lemma RefreshBypassesGate(s: State)
    ensures s.currentTab == PlanTab && s.dailyPlan.Some? ==> Plan in RefreshAllData(s).fetches
    ensures s.currentTab == DebtTab && s.timeDebt.Some? ==> Debt in RefreshAllData(s).fetches
    ensures s.currentTab != PlanTab && s.currentTab != DebtTab ==> RefreshAllData(s).fetches == {Tasks}
  {
  }

  /** What a completed fetch came back with: a body whose `success` is truthy (with its payload),
      a body whose `success` is falsy, or a thrown error (network failure, unreadable JSON). */
  datatype Response<T> = Delivered(payload: T) | Declined | Threw

  /** The page regions a completion paints, with what each now shows. */
  datatype Repaint =
    | TaskCards(cards: TaskFilter.TaskListView)
    | InboxBadge(count: nat)
    | InboxCards(inbox: Inbox.InboxView)
    | PlanContent(plan: DailyPlan)
    | PlanFailed
    | DebtContent(debt: TimeDebt)
    | DebtFailed
    | ErrorToast(message: string)

  /** The effect of a completed fetch. */
  datatype Completion = Completion(next: State, repaints: set<Repaint>)

  /** `loadTasks`' continuation: a delivered list replaces the tasks wholesale and repaints the task
      cards and the badge, but not the inbox cards. */
  function TasksLoaded(s: State, r: Response<seq<Task>>): (c: Completion)
    ensures r.Delivered? ==> c.next == s.(tasks := r.payload)
    ensures !r.Delivered? ==> c.next == s
    ensures r.Delivered? ==>
      c.repaints == {TaskCards(TaskFilter.RenderTasks(r.payload)), InboxBadge(Inbox.PendingCount(r.payload))}
    ensures forall p :: p in c.repaints ==> !p.InboxCards?
    ensures r.Declined? ==> c.repaints == {}
    ensures r.Threw? ==> c.repaints == {ErrorToast("Failed to load tasks")}
  {
    match r
    case Delivered(ts) =>
      Completion(s.(tasks := ts), {TaskCards(TaskFilter.RenderTasks(ts)), InboxBadge(Inbox.PendingCount(ts))})
    case Declined => Completion(s, {})
    case Threw => Completion(s, {ErrorToast("Failed to load tasks")})
  }

  /** `loadDailyPlan`'s continuation. A truthy `success` stores `data.plan` as it is, so a body without
      a plan empties the cache; rendering that missing plan throws and shows the failure placeholder.
      A thrown load only paints the placeholder: no notification. */
  function PlanLoaded(s: State, r: Response<Option<DailyPlan>>): (c: Completion)
    ensures r.Delivered? ==> c.next == s.(dailyPlan := r.payload)
    ensures !r.Delivered? ==> c.next == s
    ensures r.Delivered? && r.payload.Some? ==> c.repaints == {PlanContent(r.payload.value)}
    ensures r.Delivered? && r.payload.None? ==> c.repaints == {PlanFailed}
    ensures r.Threw? ==> c.repaints == {PlanFailed}
    ensures r.Declined? ==> c.repaints == {}
  {
    match r
    case Delivered(Some(p)) => Completion(s.(dailyPlan := Some(p)), {PlanContent(p)})
    case Delivered(None) => Completion(s.(dailyPlan := None), {PlanFailed})
    case Declined => Completion(s, {})
    case Threw => Completion(s, {PlanFailed})
  }

  /** `loadTimeDebt`'s continuation, the same shape as the plan's. */
  function DebtLoaded(s: State, r: Response<Option<TimeDebt>>): (c: Completion)
    ensures r.Delivered? ==> c.next == s.(timeDebt := r.payload)
    ensures !r.Delivered? ==> c.next == s
    ensures r.Delivered? && r.payload.Some? ==> c.repaints == {DebtContent(r.payload.value)}
    ensures r.Delivered? && r.payload.None? ==> c.repaints == {DebtFailed}
    ensures r.Threw? ==> c.repaints == {DebtFailed}
    ensures r.Declined? ==> c.repaints == {}
  {
    match r
    case Delivered(Some(d)) => Completion(s.(timeDebt := Some(d)), {DebtContent(d)})
    case Delivered(None) => Completion(s.(timeDebt := None), {DebtFailed})
    case Declined => Completion(s, {})
    case Threw => Completion(s, {DebtFailed})
  }

  /** A delivered plan or time debt with nothing in it empties the cache, even one filled before
      (a refresh on that tab), so the next activation fetches again. */
  lemma EmptyDeliveryClearsCache(s: State, away: Tab)
    ensures var s1 := PlanLoaded(s, Delivered(None)).next;
            s1.dailyPlan.None? && SwitchTab(SwitchTab(s1, away).next, PlanTab).fetches == {Plan}
    ensures var s1 := DebtLoaded(s, Delivered(None)).next;
            s1.timeDebt.None? && SwitchTab(SwitchTab(s1, away).next, DebtTab).fetches == {Debt}
  {
  }

  /** Page load (`loadInitialData`): the initial state and one tasks fetch. */
  function Boot(): (t: Transition)
    ensures t.next.currentTab == InboxTab && t.next.tasks == []
    ensures t.next.dailyPlan.None? && t.next.timeDebt.None? && t.next.isDarkMode
    ensures t.fetches == {Tasks}
  {
    Transition(Initial, {Tasks})
  }

  /** The first tasks fetch's completion: as any tasks load, and then the inbox cards are painted
      from the tasks held afterwards, whatever the outcome. This is the only place the inbox cards
      are painted. */
  function InitialTasksLoaded(s: State, r: Response<seq<Task>>): (c: Completion)
    ensures c.next == TasksLoaded(s, r).next
    ensures InboxCards(Inbox.RenderInbox(c.next.tasks)) in c.repaints
    ensures c.repaints - {InboxCards(Inbox.RenderInbox(c.next.tasks))} == TasksLoaded(s, r).repaints
    ensures !r.Delivered? ==> InboxCards(Inbox.RenderInbox(s.tasks)) in c.repaints
  {
    var c0 := TasksLoaded(s, r);
    var inbox := InboxCards(Inbox.RenderInbox(c0.next.tasks));
    assert inbox !in c0.repaints;
    Completion(c0.next, c0.repaints + {inbox})
  }

  /** A failed first load on the fresh page paints the inbox's empty-state placeholder. */
  lemma FailedFirstLoadShowsEmptyInbox(r: Response<seq<Task>>)
    requires !r.Delivered?
    ensures InboxCards(Inbox.EmptyInbox) in InitialTasksLoaded(Boot().next, r).repaints
  {
  }

  /** A cold plan tab fetches; once the plan has arrived, leaving and re-entering fetches nothing. */
  lemma PlanFetchedOncePerColdActivation(s: State, p: DailyPlan, away: Tab)
    requires s.dailyPlan.None?
    ensures SwitchTab(s, PlanTab).fetches == {Plan}
    ensures var s1 := PlanLoaded(SwitchTab(s, PlanTab).next, Delivered(Some(p))).next;
            SwitchTab(SwitchTab(s1, away).next, PlanTab).fetches == {}
  {
  }

  /** A failed plan load keeps the cache empty, so the next activation fetches again. */
  lemma FailedPlanLoadRefetches(s: State, r: Response<Option<DailyPlan>>, away: Tab)
    requires s.dailyPlan.None?
    requires r.Declined? || r.Threw? || r == Delivered(None)
    ensures var s1 := PlanLoaded(SwitchTab(s, PlanTab).next, r).next;
            s1.dailyPlan.None? && SwitchTab(SwitchTab(s1, away).next, PlanTab).fetches == {Plan}
  {
  }

  /** A failed time-debt load keeps the cache empty, so the next activation fetches again. */
  lemma FailedDebtLoadRefetches(s: State, r: Response<Option<TimeDebt>>, away: Tab)
    requires s.timeDebt.None?
    requires r.Declined? || r.Threw? || r == Delivered(None)
    ensures var s1 := DebtLoaded(SwitchTab(s, DebtTab).next, r).next;
            s1.timeDebt.None? && SwitchTab(SwitchTab(s1, away).next, DebtTab).fetches == {Debt}
  {
  }

  /** After the first load of `first` and a reload of `later`, the badge counts the pending tasks of
      `later` and the task cards show `later` (its empty state when it is empty) with every card
      displayed, so any priority filter is dropped; the only inbox cards ever painted show the
      pending tasks of `first`. */
  lemma ReloadLeavesInboxCardsStale(s: State, first: seq<Task>, later: seq<Task>)
    ensures var c1 := InitialTasksLoaded(s, Delivered(first));
            var c2 := TasksLoaded(c1.next, Delivered(later));
            && InboxCards(Inbox.RenderInbox(first)) in c1.repaints
            && (forall p :: p in c2.repaints ==> !p.InboxCards?)
            && InboxBadge(Inbox.PendingCount(later)) in c2.repaints
            && c2.next.tasks == later
            && (forall p :: p in c2.repaints && p.TaskCards? ==>
                  && (|later| > 0 <==> p.cards.Cards?)
                  && (p.cards.Cards? ==> forall i :: 0 <= i < |p.cards.cards| ==> p.cards.cards[i].shown))
  {
    var c1 := InitialTasksLoaded(s, Delivered(first));
    var c2 := TasksLoaded(c1.next, Delivered(later));
    forall p | p in c2.repaints && p.TaskCards?
      ensures |later| > 0 <==> p.cards.Cards?
      ensures p.cards.Cards? ==> forall i :: 0 <= i < |p.cards.cards| ==> p.cards.cards[i].shown
    {
      assert p == TaskCards(TaskFilter.RenderTasks(later));
    }
  }
}
