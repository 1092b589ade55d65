/**
 A session as a sequence of events, each either a user action or a fetch's
 completion arriving. Completions arrive in any order the events list says,
 so the properties below hold under every interleaving of the concurrent
 fetches `refreshAllData` starts.
 */
module Session {
  import opened Wrappers
  import opened Entities
  import opened ViewState

  datatype Event =
    | Click(tab: Tab)
    | Toggle
    | Refresh
    | TasksArrived(tasksResponse: Response<seq<Task>>)
    | PlanArrived(planResponse: Response<Option<DailyPlan>>)
    | DebtArrived(debtResponse: Response<Option<TimeDebt>>)

  /** One event's effect on the state and the fetches it starts. A click, the theme toggle and the
      refresh button run their handlers; a completion writes only its own slice and starts nothing. */
  function Step(s: State, e: Event): (t: Transition)
    ensures e.Click? ==> t.next == s.(currentTab := e.tab) && Tasks !in t.fetches
    ensures e.Click? ==> (Plan in t.fetches <==> e.tab == PlanTab && s.dailyPlan.None?)
    ensures e.Click? ==> (Debt in t.fetches <==> e.tab == DebtTab && s.timeDebt.None?)
    ensures e.Refresh? ==> (Plan in t.fetches <==> s.currentTab == PlanTab)
    ensures e.Refresh? ==> (Debt in t.fetches <==> s.currentTab == DebtTab)
    ensures e.Toggle? ==> t.next == s.(isDarkMode := !s.isDarkMode) && t.fetches == {}
    ensures e.Refresh? ==> t.next == s && Tasks in t.fetches
    ensures !(e.Click? || e.Refresh?) ==> t.fetches == {}
    ensures e.TasksArrived? ==> t.next.(tasks := s.tasks) == s
    ensures e.TasksArrived? ==>
      t.next.tasks == if e.tasksResponse.Delivered? then e.tasksResponse.payload else s.tasks
    ensures e.PlanArrived? ==>
      t.next.dailyPlan == if e.planResponse.Delivered? then e.planResponse.payload else s.dailyPlan
    ensures e.DebtArrived? ==>
      t.next.timeDebt == if e.debtResponse.Delivered? then e.debtResponse.payload else s.timeDebt
    ensures e.PlanArrived? ==> t.next.(dailyPlan := s.dailyPlan) == s
    ensures e.DebtArrived? ==> t.next.(timeDebt := s.timeDebt) == s
  {
    match e
    case Click(tab) => SwitchTab(s, tab)
    case Toggle => ToggleTheme(s)
    case Refresh => RefreshAllData(s)
    case TasksArrived(r) => Transition(TasksLoaded(s, r).next, {})
    case PlanArrived(r) => Transition(PlanLoaded(s, r).next, {})
    case DebtArrived(r) => Transition(DebtLoaded(s, r).next, {})
  }

  /** A step never fetches the plan and the time debt together, and fetches either only for the tab
      it ends on. */
  lemma StepFetchesFollowTab(s: State, e: Event)
    ensures !(Plan in Step(s, e).fetches && Debt in Step(s, e).fetches)
    ensures Plan in Step(s, e).fetches ==> Step(s, e).next.currentTab == PlanTab
    ensures Debt in Step(s, e).fetches ==> Step(s, e).next.currentTab == DebtTab
  {
  }

  /** The final state of a session and, per event, the fetches it started. */
  datatype Trace = Trace(final: State, fetches: seq<set<Request>>)

  function Run(s: State, es: seq<Event>): (t: Trace)
    ensures |t.fetches| == |es|
    decreases |es|
  {
    if |es| == 0 then Trace(s, [])
    else
      var first := Step(s, es[0]);
      var rest := Run(first.next, es[1..]);
      Trace(rest.final, [first.fetches] + rest.fetches)
  }

  /** Events that can neither refill nor bypass the plan cache: no refresh, no plan completion. */
  predicate KeepsPlanCache(e: Event) {
    !e.Refresh? && !e.PlanArrived?
  }

  predicate KeepsDebtCache(e: Event) {
    !e.Refresh? && !e.DebtArrived?
  }

  /** Once the plan is cached, no sequence of clicks, toggles and other completions fetches it again. */
  lemma {:induction false} CachedPlanNeverRefetched(s: State, es: seq<Event>)
    requires s.dailyPlan.Some?
    requires forall i :: 0 <= i < |es| ==> KeepsPlanCache(es[i])
    ensures forall i :: 0 <= i < |es| ==> Plan !in Run(s, es).fetches[i]
    ensures Run(s, es).final.dailyPlan == s.dailyPlan
    decreases |es|
  {
    if |es| > 0 {
      var first := Step(s, es[0]);
      assert first.next.dailyPlan == s.dailyPlan;
      assert forall i :: 0 <= i < |es[1..]| ==> KeepsPlanCache(es[1..][i]) by {
        forall i | 0 <= i < |es[1..]| ensures KeepsPlanCache(es[1..][i]) {
          assert es[1..][i] == es[i + 1];
        }
      }
      CachedPlanNeverRefetched(first.next, es[1..]);
      var t := Run(s, es);
      forall i | 0 <= i < |es| ensures Plan !in t.fetches[i] {
        if i > 0 {
          assert t.fetches[i] == Run(first.next, es[1..]).fetches[i - 1];
        }
      }
    }
  }

  /** Once the time debt is cached, no sequence of clicks, toggles and other completions fetches it again. */
  lemma {:induction false} CachedDebtNeverRefetched(s: State, es: seq<Event>)
    requires s.timeDebt.Some?
    requires forall i :: 0 <= i < |es| ==> KeepsDebtCache(es[i])
    ensures forall i :: 0 <= i < |es| ==> Debt !in Run(s, es).fetches[i]
    ensures Run(s, es).final.timeDebt == s.timeDebt
    decreases |es|
  {
    if |es| > 0 {
      var first := Step(s, es[0]);
      assert first.next.timeDebt == s.timeDebt;
      assert forall i :: 0 <= i < |es[1..]| ==> KeepsDebtCache(es[1..][i]) by {
        forall i | 0 <= i < |es[1..]| ensures KeepsDebtCache(es[1..][i]) {
          assert es[1..][i] == es[i + 1];
        }
      }
      CachedDebtNeverRefetched(first.next, es[1..]);
      var t := Run(s, es);
      forall i | 0 <= i < |es| ensures Debt !in t.fetches[i] {
        if i > 0 {
          assert t.fetches[i] == Run(first.next, es[1..]).fetches[i - 1];
        }
      }
    }
  }

  /** Events that cannot empty a filled plan cache: anything but a refresh or a plan delivery
      without a plan. Late answers of earlier cold clicks, whatever their outcome, are allowed. */
  predicate CannotEmptyPlan(e: Event) {
    !e.Refresh? && !(e.PlanArrived? && e.planResponse == Delivered(None))
  }

  predicate CannotEmptyDebt(e: Event) {
    !e.Refresh? && !(e.DebtArrived? && e.debtResponse == Delivered(None))
  }

  /** Once a plan is cached, only a refresh or an empty delivery can lead to the plan being fetched again. */
  lemma {:induction false} FilledPlanCacheStaysFilled(s: State, es: seq<Event>)
    requires s.dailyPlan.Some?
    requires forall i :: 0 <= i < |es| ==> CannotEmptyPlan(es[i])
    ensures forall i :: 0 <= i < |es| ==> Plan !in Run(s, es).fetches[i]
    ensures Run(s, es).final.dailyPlan.Some?
    decreases |es|
  {
    if |es| > 0 {
      var first := Step(s, es[0]);
      assert first.next.dailyPlan.Some?;
      assert forall i :: 0 <= i < |es[1..]| ==> CannotEmptyPlan(es[1..][i]) by {
        forall i | 0 <= i < |es[1..]| ensures CannotEmptyPlan(es[1..][i]) {
          assert es[1..][i] == es[i + 1];
        }
      }
      FilledPlanCacheStaysFilled(first.next, es[1..]);
      var t := Run(s, es);
      forall i | 0 <= i < |es| ensures Plan !in t.fetches[i] {
        if i > 0 {
          assert t.fetches[i] == Run(first.next, es[1..]).fetches[i - 1];
        }
      }
    }
  }

  /** Once a time debt is cached, only a refresh or an empty delivery can lead to it being fetched again. */
  lemma {:induction false} FilledDebtCacheStaysFilled(s: State, es: seq<Event>)
    requires s.timeDebt.Some?
    requires forall i :: 0 <= i < |es| ==> CannotEmptyDebt(es[i])
    ensures forall i :: 0 <= i < |es| ==> Debt !in Run(s, es).fetches[i]
    ensures Run(s, es).final.timeDebt.Some?
    decreases |es|
  {
    if |es| > 0 {
      var first := Step(s, es[0]);
      assert first.next.timeDebt.Some?;
      assert forall i :: 0 <= i < |es[1..]| ==> CannotEmptyDebt(es[1..][i]) by {
        forall i | 0 <= i < |es[1..]| ensures CannotEmptyDebt(es[1..][i]) {
          assert es[1..][i] == es[i + 1];
        }
      }
      FilledDebtCacheStaysFilled(first.next, es[1..]);
      var t := Run(s, es);
      forall i | 0 <= i < |es| ensures Debt !in t.fetches[i] {
        if i > 0 {
          assert t.fetches[i] == Run(first.next, es[1..]).fetches[i - 1];
        }
      }
    }
  }

  /** Nothing marks a fetch as in flight: clicking a cold plan tab twice before the response
      arrives fetches the plan twice. "At most once per activation" holds only once the plan has arrived. */
  lemma ColdDoubleClickFetchesTwice(s: State)
    requires s.dailyPlan.None?
    ensures Run(s, [Click(PlanTab), Click(PlanTab)]).fetches == [{Plan}, {Plan}]
  {
  }

  /** Theme toggles and tab clicks never touch the task list or the caches. */
  lemma {:induction false} UiEventsKeepData(s: State, es: seq<Event>)
    requires forall i :: 0 <= i < |es| ==> es[i].Click? || es[i].Toggle?
    ensures Run(s, es).final.tasks == s.tasks
    ensures Run(s, es).final.dailyPlan == s.dailyPlan
    ensures Run(s, es).final.timeDebt == s.timeDebt
    ensures forall i :: 0 <= i < |es| ==> Tasks !in Run(s, es).fetches[i]
    decreases |es|
  {
    if |es| > 0 {
      var first := Step(s, es[0]);
      assert forall i :: 0 <= i < |es[1..]| ==> es[1..][i].Click? || es[1..][i].Toggle? by {
        forall i | 0 <= i < |es[1..]| ensures es[1..][i].Click? || es[1..][i].Toggle? {
          assert es[1..][i] == es[i + 1];
        }
      }
      UiEventsKeepData(first.next, es[1..]);
      var t := Run(s, es);
      forall i | 0 <= i < |es| ensures Tasks !in t.fetches[i] {
        if i > 0 {
          assert t.fetches[i] == Run(first.next, es[1..]).fetches[i - 1];
        }
      }
    }
  }
}
