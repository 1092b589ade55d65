# TaskFlow AI front end: view state and renderer decisions

The TaskFlow AI front end is one browser script. It shows the tasks, CRM contacts, daily plan and
"time debt" score that a backend computes. Most of the script builds HTML strings and calls `fetch`.
Underneath is a small view-state machine: a state record with the current tab, the task list,
a cached daily plan, a cached time debt and a dark-mode flag. There is also a handful of pure
decisions the renderers make. This project models both in Dafny and proves what they promise:

- **View state** (`view_state.dfy`, module `ViewState`). Each user action is a pure function from the
  state to the next state and the set of backend reads it starts (`Tasks`, `Plan`, `Debt`). The
  actions are switching tab, toggling the theme and the global refresh.
  Each load's completion is a pure function of the state and an abstract response. The response is a
  body with a truthy `success` and its payload, a body with a falsy `success`, or a thrown error.
  The completion returns the next state and the page regions it repaints.
- **Sessions** (`session.dfy`, module `Session`). A session is a sequence of such events, in any
  interleaving of completions. Cache-gated fetching is proved over whole runs.
- **Inbox** (`inbox.dfy`, module `Inbox`): the pending-task filter, the badge count, the condensed
  inbox cards and the 100-character preview.
- **Task list and priority filter** (`task_filter.dfy`, module `TaskFilter`).
- **Time-debt classification** (`time_debt.dfy`, module `TimeDebtView`): the gauge tier and accent,
  and the overdue highlight.
- **Relative dates** (`formatting.dfy`, module `Formatting`): the label chosen from the millisecond
  difference between a date and now. This includes the decimal numeral in "N days ago".
- `entities.dfy` (module `Entities`) holds the backend's transfer objects. `wrappers.dfy` (module
  `Wrappers`) holds the option type used for the nullable caches.

Facts about the code that the model makes explicit:

- Nothing marks a fetch as in flight. Two clicks on a cold plan tab before the response arrives
  fetch the plan twice (`Session.ColdDoubleClickFetchesTwice`). Only a stored response stops the
  refetch.
- Refresh on the plan or debt tab refetches that tab's data even when it is cached. It clears
  nothing, and the old value stays until a new one arrives (`ViewState.RefreshAllData`).
- A tasks load that throws leaves the task cards as they were and shows the toast
  "Failed to load tasks" (`ViewState.TasksLoaded`).
- A plan or time-debt body with a falsy `success` changes nothing, neither the state nor the page
  (`ViewState.PlanLoaded`, `ViewState.DebtLoaded`). A thrown plan or time-debt load paints the
  failure placeholder and shows no toast.
- A tasks load repaints the task cards and the inbox badge, never the inbox cards. The inbox cards
  are painted once, after the first tasks load. After a reload, the badge counts the new pending
  tasks while the cards still show the old ones (`ViewState.ReloadLeavesInboxCardsStale`). A
  reload also redraws every task card as displayed, which drops any active priority filter.
- A body with a truthy `success` but no plan (or no time debt) stores `undefined`. That empties the
  cache, even a cache filled earlier when this is a refresh's answer, so the next activation
  fetches again. Rendering the missing value throws inside the same `try`, so the failure
  placeholder is shown. The model's plan and debt payloads are `Option`s for this reason.

`Session.Run` folds `Session.Step` over a list of events. It is the scaffolding the run lemmas are
stated over.

## Model

| member | source | states |
|---|---|---|
| ViewState.Boot | script.js:9-16 | The page starts on the inbox tab with no tasks, no cached plan or time debt, in dark mode, and fetches the tasks |
| ViewState.InitialTasksLoaded | script.js:120-123 | The first tasks load has the effect of any tasks load and then always paints the inbox cards from the tasks held afterwards. After a failed load these are the earlier tasks |
| ViewState.FailedFirstLoadShowsEmptyInbox | script.js:120-122 | When the first tasks load fails on the fresh page, the inbox shows its empty-state placeholder |
| ViewState.SwitchTab | script.js:77-97 | Switching sets the tab and changes nothing else. It fetches the plan exactly when entering the plan tab with no plan cached, and the time debt exactly when entering the debt tab with none cached. Never the tasks, at most one fetch |
| ViewState.WarmActivationIsSilent | script.js:91-96 | Entering a tab whose data is cached issues zero fetches and keeps tasks, caches and theme |
| ViewState.ToggleTheme | script.js:103-104 | The toggle negates dark mode, changes no other field and fetches nothing |
| ViewState.ToggleTwiceRestores | script.js:104 | Toggling twice gives back the original state |
| ViewState.Marks | script.js:105-111 | The marks a toggle leaves: exactly one of the sun and moon icons is hidden, the sun is visible iff dark mode is on, and the body has `light-mode` iff dark mode is off. Before the first toggle they come from the page's markup |
| ViewState.ToggleSwapsIcons | script.js:110-111 | A toggle swaps the two icons' visibility |
| ViewState.ThemeToast | script.js:113 | The notification says dark mode is enabled iff the toggle turned dark mode on, and light mode otherwise |
| ViewState.RefreshAllData | script.js:125-138 | Refresh leaves the state as it is and always fetches the tasks. It fetches the plan iff the plan tab is showing and the time debt iff the debt tab is showing. Never both |
| ViewState.RefreshBypassesGate | script.js:130-134 | On the plan or debt tab, refresh refetches even a cached value. On any other tab it fetches the tasks only |
| ViewState.TasksLoaded | script.js:144-158 | A delivered task list replaces the tasks wholesale and changes nothing else. It repaints exactly the task cards, rendered from the new list, and the badge with its pending count. A falsy `success` changes nothing and repaints nothing. A thrown error changes nothing and shows only the error toast. The inbox cards are never repainted |
| ViewState.PlanLoaded | script.js:342-361 | A delivered plan replaces only the plan cache, wholesale, and paints exactly that plan. A delivery without a plan empties the cache and paints only the failure placeholder. A falsy `success` changes nothing and paints nothing. A thrown error changes nothing and paints only the placeholder, with no toast |
| ViewState.DebtLoaded | script.js:405-424 | A delivered time debt replaces only the time-debt cache, wholesale, and paints exactly that value. A delivery without one empties the cache and paints only the failure placeholder. A falsy `success` changes nothing and paints nothing. A thrown error changes nothing and paints only the placeholder, with no toast |
| ViewState.EmptyDeliveryClearsCache | script.js:342-424 | A delivery without a plan (script.js:349-350) or without a time debt (script.js:412-413) empties even a filled cache, so the next activation of that tab fetches again |
| ViewState.PlanFetchedOncePerColdActivation | script.js:91-93 | A cold plan tab fetches once. After the plan has arrived, leaving and re-entering the tab fetches nothing |
| ViewState.FailedPlanLoadRefetches | script.js:342-361 | After a failed plan load the cache stays empty and the next activation fetches again |
| ViewState.FailedDebtLoadRefetches | script.js:405-424 | After a failed time-debt load the cache stays empty and the next activation fetches again |
| ViewState.ReloadLeavesInboxCardsStale | script.js:120-153 | After a first load and any reload, empty or not, the only inbox cards painted show the first list. The badge counts the reloaded list's pending tasks. The task cards show the reloaded list, or its empty state iff it is empty, with every card displayed |
| Session.Step | script.js:38-49 | A tab click runs the tab switch: it sets the tab and fetches the plan (time debt) iff it enters the plan (debt) tab with nothing cached, never the tasks. The theme button flips the mode and fetches nothing. The refresh button leaves the state alone, fetches the tasks, and fetches the plan (time debt) iff that tab is showing. A completion (script.js:144-158, 342-361, 405-424) starts no fetch. It stores a delivered payload in its own slice and keeps the old value otherwise. It changes no other field |
| Session.StepFetchesFollowTab | script.js:91-96 | No single event fetches both the plan and the time debt. A plan (debt) fetch only happens when the event leaves the plan (debt) tab showing |
| Session.CachedPlanNeverRefetched | script.js:91-93 | From a cached plan, no run without a refresh or a plan completion ever fetches the plan, and the cache is kept |
| Session.CachedDebtNeverRefetched | script.js:94-96 | From a cached time debt, no run without a refresh or a debt completion ever fetches it, and the cache is kept |
| Session.FilledPlanCacheStaysFilled | script.js:91-93 | From a cached plan, a run with no refresh and no plan delivery lacking a plan never fetches the plan and ends with a plan cached. Late answers of any other outcome are allowed |
| Session.FilledDebtCacheStaysFilled | script.js:94-96 | From a cached time debt, a run with no refresh and no debt delivery lacking a time debt never fetches it and ends with one cached. Late answers of any other outcome are allowed |
| Session.ColdDoubleClickFetchesTwice | script.js:91-93 | Two clicks on a cold plan tab before any response fetch the plan twice |
| Session.UiEventsKeepData | script.js:77-114 | Any run of tab clicks and theme toggles keeps the tasks and both caches and never fetches the tasks |
| Inbox.Pending | script.js:217 | The pending list holds only tasks with status "pending". Each task occurs in it exactly as often as in the task list if pending, and not at all otherwise |
| Inbox.PendingIsSubsequence | script.js:217 | The pending list keeps the task list's order (it is a subsequence) |
| Inbox.PendingAppend | script.js:217 | Filtering a concatenation is concatenating the filtered parts |
| Inbox.PendingIdempotent | script.js:217 | Filtering the pending list again changes nothing |
| Inbox.PendingEmptyIff | script.js:217-219 | The pending list is empty iff no task is pending |
| Inbox.PendingFullIff | script.js:254 | The pending list is as long as the task list iff every task is pending |
| Inbox.PendingLengthIsIndexCount | script.js:254 | The pending list has exactly one entry per position of the task list that holds a pending task |
| Inbox.PendingCount | script.js:252-256 | The badge count is the length of the pending list, and equally the number of positions holding a pending task. It is zero iff no task is pending, and it equals the number of tasks iff all are pending |
| Inbox.Preview | script.js:246 | The preview is the first min(100, length) characters followed by "...". A description of 100 characters or fewer is shown whole, with the ellipsis still appended |
| Inbox.PreviewIsDescriptionIff | script.js:246 | The preview equals the description only when the description is 100 characters followed by "..." |
| Inbox.RenderInbox | script.js:215-250 | The empty-state placeholder is shown iff no task is pending. Otherwise card k shows the k-th pending task, in list order and multiplicity. Every pending task has a card and every card comes from a pending task |
| TaskFilter.LowerChar | script.js:201 | 'A'..'Z' become 'a'..'z'. Other characters are unchanged. The result is never an upper-case ASCII letter |
| TaskFilter.Lower | script.js:201 | Lowercasing keeps the length and maps each character as `LowerChar` does |
| TaskFilter.LowerIdempotent | script.js:201 | Lowercasing twice is lowercasing once |
| TaskFilter.RenderTasks | script.js:160-195 | The empty-state placeholder is shown iff there are no tasks. Otherwise there is one displayed card per task, in list order |
| TaskFilter.RenderedCardsAreUnfiltered | script.js:176-209 | A freshly rendered task list is exactly what the filter "all" produces from it |
| TaskFilter.FilterTasks | script.js:197-209 | The filter keeps the cards and their order. A card is displayed iff the filter is "all" or its lowercased badge text equals the filter |
| TaskFilter.FilterIdempotent | script.js:197-209 | Applying a filter twice gives the same cards as applying it once |
| TaskFilter.FilterLastWins | script.js:197-209 | Only the last filter applied matters; e.g. "high" then "all" restores full visibility |
| TaskFilter.ShowAllShowsEverything | script.js:203 | The filter "all" displays every card |
| TaskFilter.UpperCaseFilterHidesAll | script.js:201-203 | A filter other than "all" that contains an upper-case letter hides every card |
| TimeDebtView.ScoreTier | script.js:429 | The tier is success iff score ≥ 80, warning iff 60 ≤ score < 80, and danger iff score < 60. Each score gets exactly one tier |
| TimeDebtView.TierMonotone | script.js:429 | A higher score never gets a worse tier |
| TimeDebtView.GaugeAccent | script.js:436 | The success, warning and danger tiers colour the arc blue, warning and danger, one to one |
| TimeDebtView.OverdueClass | script.js:451 | The overdue figure gets the danger class iff the overdue hours are positive |
| Formatting.DayDiff | script.js:488 | The day difference is the floor of the millisecond difference divided by 86400000 |
| Formatting.LabelOf | script.js:488-494 | "Today" is chosen iff the date is within the next 24 h (now included). "Tomorrow" iff 24-48 h ahead. "Yesterday" iff within the 24 h before now. "N days ago" iff more than 24 h before, with N ≥ 2 the whole days back. Otherwise the localized date |
| Formatting.Decimal | script.js:493 | The numeral is a non-empty string of decimal digits with no leading zero |
| Formatting.DecimalRoundTrip | script.js:493 | Reading the numeral back gives the number |
| Formatting.FormatDate | script.js:485-496 | The label text for each range of the millisecond difference. An unparseable date (NaN difference) falls through to the localized string |
| Formatting.DaysAgoCount | script.js:493 | The number in "N days ago" reads back as minus the day difference |

## Left out

- Network I/O. `fetch`, `response.json()`, `encodeURIComponent` and the backend are not modelled. A response is an abstract input: delivered payload, falsy `success`, or a thrown error.
- A body with a truthy `success` but no `tasks` array is not modelled. The page would store `undefined` and throw while rendering. The model's tasks payload is always a list.
- The transfer objects are assumed well-formed: every field the renderers read is present and of its type. A plan without `schedule`, or a time debt without `breakdown`, is cached and then throws while rendering (script.js:350-351, 387, 413-414, 466). The page would then show the failure placeholder while the cache is filled, and would not refetch on activation. The model has no such payload.
- A task whose `description` is not a string is not modelled. It would make `renderInbox` throw outside any `try` (script.js:121-122, 246), so the inbox cards would not be painted.
- TaskFilter.FilterTasks: the badge text is taken to be the task's priority. The page inserts the priority through `innerHTML` (script.js:180), so `textContent` (script.js:201) equals it only when the priority holds no markup or character entities.
- DOM plumbing is not modelled: the `innerHTML` templates, `querySelectorAll`/`classList` toggling of tab buttons and panels, the refresh spinner, and event-listener wiring. Only the decisions the code makes are modelled. Repaints are named regions, not markup.
- Concurrency. `Promise.all` interleaving and last-writer-wins are represented only by letting completion events arrive in any order in a `Session` run.
- The clock and locale are not modelled: `new Date()`, `toLocaleDateString`, `toLocaleString` and `updatePlanDate`. `formatDate` takes the millisecond difference as input, and the localized text is an opaque parameter.
- Floating-point display arithmetic is not modelled: `Math.round(totalMinutes / 60)` and the gauge arc `(score / 100) * 251.2`.
- `showToast`'s timer is not modelled. The refresh toasts "Refreshing data..." and "Data refreshed successfully!" are left out too, because they do not depend on any outcome.
- The CRM search (`searchCRM`, `renderCRMContact`) renders a fetched contact and stores nothing in the state. It is outside the modelled core. Only the `Contact` record and the never-written `crmContacts` field appear.
- ViewState.SwitchTab: `Tab` has only the five named tabs. The page passes the button's `data-tab` text unvalidated, and an unknown name would leave no panel active.
- TaskFilter.Lower: models `toLowerCase` on the ASCII letters only. Other characters are left unchanged, whereas JavaScript also lowercases non-ASCII letters.
- Inbox.Preview: counts Dafny characters (Unicode scalar values), where `substring` counts UTF-16 code units. The two differ only for characters outside the Basic Multilingual Plane.
- TimeDebtView.ScoreTier: scores and hours are exact reals. JavaScript's NaN, which fails every comparison and so lands in the danger tier, is not modelled.
