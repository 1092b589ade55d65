/**
 The inbox: the pending-task filter shared by `renderInbox` and
 `updateInboxCount`, the badge count, the condensed card and its
 description preview.
 */
module Inbox {
  import opened Entities

  /** Number of description characters kept by the preview. */
  const PreviewLength: nat := 100

  /** Appended to every preview, whatever the description's length. */
  const Ellipsis: string := "..."

  predicate IsPending(t: Task) {
    t.status == "pending"
  }

  function Min(a: nat, b: nat): nat {
    if a <= b then a else b
  }

  /** `a` is `b` with some elements dropped, the rest kept in order. */
  ghost predicate IsSubsequence<T>(a: seq<T>, b: seq<T>)
    decreases |b|
  {
    if |a| == 0 then true
    else if |b| == 0 then false
    else (a[0] == b[0] && IsSubsequence(a[1..], b[1..])) || IsSubsequence(a, b[1..])
  }

  /** The tasks whose status is "pending", in list order. */
  function Pending(ts: seq<Task>): (r: seq<Task>)
    ensures |r| <= |ts|
    ensures forall i :: 0 <= i < |r| ==> IsPending(r[i])
    ensures forall t :: multiset(r)[t] == if IsPending(t) then multiset(ts)[t] else 0
  {
    if |ts| == 0 then []
    else
      assert ts == [ts[0]] + ts[1..];
      if IsPending(ts[0]) then [ts[0]] + Pending(ts[1..]) else Pending(ts[1..])
  }

  /** Order is kept: the pending list is a subsequence of the task list. */
  lemma {:induction false} PendingIsSubsequence(ts: seq<Task>)
    ensures IsSubsequence(Pending(ts), ts)
  {
    if |ts| > 0 {
      PendingIsSubsequence(ts[1..]);
      if !IsPending(ts[0]) && |Pending(ts[1..])| > 0 {
        assert Pending(ts) == Pending(ts[1..]);
      }
    }
  }

  /** Filtering a concatenation filters each part. */
  lemma {:induction false} PendingAppend(a: seq<Task>, b: seq<Task>)
    ensures Pending(a + b) == Pending(a) + Pending(b)
  {
    if |a| == 0 {
      assert a + b == b;
    } else {
      assert (a + b)[1..] == a[1..] + b;
      PendingAppend(a[1..], b);
    }
  }

  /** Filtering an already filtered list changes nothing. */
  lemma {:induction false} PendingIdempotent(ts: seq<Task>)
    ensures Pending(Pending(ts)) == Pending(ts)
  {
    if |ts| > 0 {
      PendingIdempotent(ts[1..]);
      if IsPending(ts[0]) {
        assert Pending(ts) == [ts[0]] + Pending(ts[1..]);
        assert Pending(ts)[1..] == Pending(ts[1..]);
      }
    }
  }

  lemma PendingEmptyIff(ts: seq<Task>)
    ensures |Pending(ts)| == 0 <==> forall i :: 0 <= i < |ts| ==> !IsPending(ts[i])
  {
  }

  lemma {:induction false} PendingFullIff(ts: seq<Task>)
    ensures |Pending(ts)| == |ts| <==> forall i :: 0 <= i < |ts| ==> IsPending(ts[i])
  {
    if |ts| > 0 {
      PendingFullIff(ts[1..]);
      assert forall i :: 1 <= i < |ts| ==> ts[i] == ts[1..][i - 1];
    }
  }

  /** The positions of the pending tasks in the list. */
  function PendingIndices(ts: seq<Task>): set<nat> {
    set i: nat | i < |ts| && IsPending(ts[i])
  }

  /** Appending a task adds its position to the pending positions exactly when it is pending. */
  lemma PendingIndicesSnoc(p: seq<Task>, x: Task)
    ensures PendingIndices(p + [x]) == PendingIndices(p) + (if IsPending(x) then {|p|} else {})
    ensures |p| !in PendingIndices(p)
  {
  }

  /** The pending list has one entry per position holding a pending task. */
  lemma {:induction false} PendingLengthIsIndexCount(ts: seq<Task>)
    ensures |Pending(ts)| == |PendingIndices(ts)|
    decreases |ts|
  {
    if |ts| == 0 {
      assert PendingIndices(ts) == {};
    } else {
      var p := ts[..|ts| - 1];
      var x := ts[|ts| - 1];
      assert ts == p + [x];
      PendingAppend(p, [x]);
      assert |Pending([x])| == if IsPending(x) then 1 else 0 by {
        assert [x][1..] == [];
      }
      PendingLengthIsIndexCount(p);
      PendingIndicesSnoc(p, x);
    }
  }

  /** The inbox badge: how many tasks are pending. */
  function PendingCount(ts: seq<Task>): (n: nat)
    ensures n == |Pending(ts)|
    ensures n == |PendingIndices(ts)|
    ensures n <= |ts|
    ensures n == 0 <==> forall i :: 0 <= i < |ts| ==> !IsPending(ts[i])
    ensures n == |ts| <==> forall i :: 0 <= i < |ts| ==> IsPending(ts[i])
    ensures forall t :: t in ts && IsPending(t) ==> n > 0
  {
    PendingEmptyIff(ts);
    PendingFullIff(ts);
    PendingLengthIsIndexCount(ts);
    |Pending(ts)|
  }

  /** The preview line of an inbox card: the first hundred characters, then "...". */
  function Preview(d: string): (p: string)
    ensures |p| == Min(|d|, PreviewLength) + |Ellipsis|
    ensures p[..|p| - |Ellipsis|] == d[..Min(|d|, PreviewLength)]
    ensures p[|p| - |Ellipsis|..] == Ellipsis
    ensures |d| <= PreviewLength ==> p == d + Ellipsis
  {
    d[..Min(|d|, PreviewLength)] + Ellipsis
  }

  /** The ellipsis is unconditional: the preview equals the description only
      when the description is exactly 100 characters followed by "...". */
  lemma PreviewIsDescriptionIff(d: string)
    ensures Preview(d) == d <==> |d| == PreviewLength + |Ellipsis| && d[PreviewLength..] == Ellipsis
  {
  }

  /** One condensed inbox card. */
  datatype InboxItem = InboxItem(id: string, sender: string, priority: string, subject: string, preview: string)

  function ItemOf(t: Task): InboxItem {
    InboxItem(t.id, t.fromEmail, t.priority, t.title, Preview(t.description))
  }

  /** What the inbox region shows: the empty-state placeholder or one card per pending task. */
  datatype InboxView = EmptyInbox | InboxList(items: seq<InboxItem>)

  function RenderInbox(ts: seq<Task>): (v: InboxView)
    ensures v.EmptyInbox? <==> PendingCount(ts) == 0
    ensures v.InboxList? ==> |v.items| == PendingCount(ts)
    ensures v.InboxList? ==> forall k :: 0 <= k < |v.items| ==> v.items[k] == ItemOf(Pending(ts)[k])
    ensures v.InboxList? ==> forall t :: t in ts && IsPending(t) ==> ItemOf(t) in v.items
    ensures v.InboxList? ==> forall k :: 0 <= k < |v.items| ==>
      exists t :: t in ts && IsPending(t) && v.items[k] == ItemOf(t)
  {
    var p := Pending(ts);
    if |p| == 0 then EmptyInbox
    else
      var items := seq(|p|, i requires 0 <= i < |p| => ItemOf(p[i]));
      assert forall t :: t in ts && IsPending(t) ==> t in p by {
        forall t | t in ts && IsPending(t) ensures t in p {
          assert multiset(p)[t] == multiset(ts)[t];
        }
      }
      assert forall k :: 0 <= k < |p| ==> p[k] in ts && IsPending(p[k]) by {
        forall k | 0 <= k < |p| ensures p[k] in ts && IsPending(p[k]) {
          assert p[k] in multiset(p);
        }
      }
      assert forall t :: t in p ==> ItemOf(t) in items by {
        forall t | t in p ensures ItemOf(t) in items {
          var k :| 0 <= k < |p| && p[k] == t;
          assert items[k] == ItemOf(t);
        }
      }
      InboxList(items)
  }
}
