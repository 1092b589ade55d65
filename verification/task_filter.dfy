/**
 The task list's cards and the priority filter. The filter reads each card's
 priority badge text, lowercases it and compares it with the selected value;
 it never refetches. The badge text is the task's priority as rendered.
 */
module TaskFilter {
  import opened Entities

  /** The filter value that shows every card. */
  const ShowAll: string := "all"

  predicate IsAsciiUpper(c: char) {
    'A' <= c <= 'Z'
  }

  function LowerChar(c: char): (l: char)
    ensures !IsAsciiUpper(l)
    ensures IsAsciiUpper(c) ==> l as int == c as int - 'A' as int + 'a' as int
    ensures !IsAsciiUpper(c) ==> l == c
  {
    if IsAsciiUpper(c) then (c as int - 'A' as int + 'a' as int) as char else c
  }

  /** `toLowerCase`, on the ASCII letters. */
  function Lower(s: string): (r: string)
    ensures |r| == |s|
    ensures forall i :: 0 <= i < |s| ==> r[i] == LowerChar(s[i])
  {
    seq(|s|, i requires 0 <= i < |s| => LowerChar(s[i]))
  }

  lemma LowerIdempotent(s: string)
    ensures Lower(Lower(s)) == Lower(s)
  {
  }

  /** A rendered task card: the task it shows and whether it is displayed. */
  datatype Card = Card(task: Task, shown: bool) {
    /** The text of the card's priority badge. */
    function BadgeText(): string {
      task.priority
    }
  }

  /** The task list region: its empty-state placeholder, or the cards. */
  datatype TaskListView = NoTasks | Cards(cards: seq<Card>)

  /** `renderTasks`: one displayed card per task, in list order. */
  function RenderTasks(ts: seq<Task>): (v: TaskListView)
    ensures v.NoTasks? <==> |ts| == 0
    ensures v.Cards? ==> |v.cards| == |ts|
    ensures v.Cards? ==> forall i :: 0 <= i < |ts| ==> v.cards[i].task == ts[i] && v.cards[i].shown
  {
    if |ts| == 0 then NoTasks
    else Cards(seq(|ts|, i requires 0 <= i < |ts| => Card(ts[i], true)))
  }

  /** Whether the filter value `f` displays a card whose badge reads `badge`. */
  predicate Visible(f: string, badge: string) {
    f == ShowAll || Lower(badge) == f
  }

  /** `filterTasks`: every card's display is set from its badge alone; its previous display is ignored. */
  function FilterTasks(cards: seq<Card>, f: string): (r: seq<Card>)
    ensures |r| == |cards|
    ensures forall i :: 0 <= i < |cards| ==> r[i].task == cards[i].task
    ensures forall i :: 0 <= i < |cards| ==> (r[i].shown <==> Visible(f, cards[i].BadgeText()))
  {
    seq(|cards|, i requires 0 <= i < |cards| => Card(cards[i].task, Visible(f, cards[i].BadgeText())))
  }

  /** A freshly rendered list is what the filter "all" produces: re-rendering drops any active filter. */
  lemma RenderedCardsAreUnfiltered(ts: seq<Task>)
    requires |ts| > 0
    ensures FilterTasks(RenderTasks(ts).cards, ShowAll) == RenderTasks(ts).cards
  {
  }

  /** Applying the same filter twice is applying it once. */
  lemma FilterIdempotent(cards: seq<Card>, f: string)
    ensures FilterTasks(FilterTasks(cards, f), f) == FilterTasks(cards, f)
  {
  }

  /** Only the last filter applied matters; in particular "high" then "all" shows everything again. */
  lemma FilterLastWins(cards: seq<Card>, f: string, g: string)
    ensures FilterTasks(FilterTasks(cards, f), g) == FilterTasks(cards, g)
  {
  }

  /** "all" displays every card. */
  lemma ShowAllShowsEverything(cards: seq<Card>)
    ensures forall i :: 0 <= i < |cards| ==> FilterTasks(cards, ShowAll)[i].shown
  {
  }

  /** A filter value other than "all" that holds an upper-case letter can never equal a
      lowercased badge, so it hides every card. */
  lemma UpperCaseFilterHidesAll(cards: seq<Card>, f: string, j: nat)
    requires f != ShowAll && j < |f| && IsAsciiUpper(f[j])
    ensures forall i :: 0 <= i < |cards| ==> !FilterTasks(cards, f)[i].shown
  {
  }
}
