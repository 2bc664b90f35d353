/**
 * The active-message list of a notification manager, as values: what `Queue` and
 * `Dismiss` do to the ordered list and which event each raises, and how an observer
 * that replays the events (the container's `Items`) tracks the list.
 *
 * Messages are compared by identity; here that is the `==` of the element type `M`.
 */
module Lifecycle {
  import opened Wrappers

  /** The two events a manager raises. */
  datatype Event<M> = Queued(message: M) | Dismissed(message: M)

  /** The list after one call, and the events that call raised (in order). */
  datatype Step<M> = Step(active: seq<M>, raised: seq<Event<M>>)

  /** A call on the manager; `None` is a null argument. */
  datatype Op<M> = QueueOp(message: Option<M>) | DismissOp(message: Option<M>)

  ghost predicate NoDuplicates<M>(s: seq<M>) {
    forall i, j :: 0 <= i < j < |s| ==> s[i] != s[j]
  }

  /** `List<T>.IndexOf`: the position of the first occurrence of `x`, or -1. */
  function IndexOf<M(==)>(s: seq<M>, x: M): (i: int)
    ensures -1 <= i < |s|
    ensures i == -1 <==> x !in s
    ensures 0 <= i ==> s[i] == x && x !in s[..i]
  {
    if |s| == 0 then -1
    else if s[0] == x then 0
    else
      var k := IndexOf(s[1..], x);
      if k < 0 then -1
      else
        assert s[..k + 1] == [s[0]] + s[1..][..k];
        k + 1
  }

  /**
   * `List<T>.Remove` (and `ItemCollection.Remove`): deletes the first occurrence of
   * `x` and keeps every other element in its relative order; no change when absent.
   */
  function RemoveFirst<M(==)>(s: seq<M>, x: M): (r: seq<M>)
    ensures x !in s ==> r == s
    ensures x in s ==> |r| == |s| - 1
    ensures x in s ==> exists i :: 0 <= i < |s| && s[i] == x && x !in s[..i] && r == s[..i] + s[i + 1..]
  {
    var i := IndexOf(s, x);
    if i < 0 then s
    else
      assert s == s[..i] + [s[i]] + s[i + 1..];
      s[..i] + s[i + 1..]
  }

  /** `RemoveFirst` takes away exactly one copy of `x`, when there is one, and nothing else. */
  lemma RemoveFirstCount<M>(s: seq<M>, x: M)
    ensures multiset(RemoveFirst(s, x)) == multiset(s) - multiset{x}
  {
    var i := IndexOf(s, x);
    if i >= 0 {
      var before, after := s[..i], s[i + 1..];
      assert s == before + [x] + after;
      assert multiset(s) == multiset(before) + multiset(after) + multiset{x};
      assert RemoveFirst(s, x) == before + after;
    }
  }

  /** Deleting one position from a list without duplicates leaves a list without duplicates. */
  lemma DeletePreservesNoDuplicates<M>(s: seq<M>, i: nat)
    requires i < |s| && NoDuplicates(s)
    ensures NoDuplicates(s[..i] + s[i + 1..])
    ensures forall y :: y in s[..i] + s[i + 1..] <==> y in s && y != s[i]
  {
    var r := s[..i] + s[i + 1..];
    forall a, b | 0 <= a < b < |r| ensures r[a] != r[b] {
      var a' := if a < i then a else a + 1;
      var b' := if b < i then b else b + 1;
      assert r[a] == s[a'] && r[b] == s[b'];
    }
    forall y ensures y in r <==> y in s && y != s[i] {
      if y in s && y != s[i] {
        var j :| 0 <= j < |s| && s[j] == y;
        assert r[if j < i then j else j - 1] == y;
      }
      if y in r {
        var k :| 0 <= k < |r| && r[k] == y;
        assert s[if k < i then k else k + 1] == y;
      }
    }
  }

  /** Removal from a list without duplicates: the rest stays unique, and exactly `x` leaves. */
  lemma RemoveFirstUnique<M>(s: seq<M>, x: M)
    ensures NoDuplicates(s) ==> NoDuplicates(RemoveFirst(s, x))
    ensures NoDuplicates(s) ==> forall y :: y in RemoveFirst(s, x) <==> y in s && y != x
  {
    var i := IndexOf(s, x);
    if i >= 0 && NoDuplicates(s) {
      DeletePreservesNoDuplicates(s, i);
    }
  }

  /**
   * `NotificationMessageManager.Queue`: a null or already queued message changes
   * nothing and raises nothing; any other message is appended and `Queued` is raised once.
   */
  function QueueStep<M(==)>(active: seq<M>, m: Option<M>): (r: Step<M>)
    ensures m.None? || m.value in active ==> r == Step(active, [])
    ensures m.Some? && m.value !in active ==> r == Step(active + [m.value], [Queued(m.value)])
    ensures NoDuplicates(active) ==> NoDuplicates(r.active)
    ensures active <= r.active && (m.Some? ==> m.value in r.active)
  {
    if m.None? || m.value in active then Step(active, [])
    else Step(active + [m.value], [Queued(m.value)])
  }

  /**
   * `NotificationMessageManager.Dismiss`: a null or absent message changes nothing and
   * raises nothing; a present one is removed (the others keep their order) and
   * `Dismissed` is raised once.
   */
  function DismissStep<M(==)>(active: seq<M>, m: Option<M>): (r: Step<M>)
    ensures m.None? || m.value !in active ==> r == Step(active, [])
    ensures m.Some? && m.value in active ==>
      && r.raised == [Dismissed(m.value)]
      && |r.active| == |active| - 1
      && exists i :: 0 <= i < |active| && active[i] == m.value && r.active == active[..i] + active[i + 1..]
    ensures NoDuplicates(active) ==> NoDuplicates(r.active)
    ensures NoDuplicates(active) && m.Some? ==> m.value !in r.active
  {
    if m.None? || m.value !in active then Step(active, [])
    else
      RemoveFirstUnique(active, m.value);
      Step(RemoveFirst(active, m.value), [Dismissed(m.value)])
  }

  /** A present message: what `DismissStep` yields, and how one `Dismissed` event replays it. */
  lemma DismissPresent<M>(active: seq<M>, log: seq<Event<M>>, m: M)
    requires m in active && NoDuplicates(active) && active == Mirror([], log)
    ensures DismissStep(active, Some(m)) == Step(RemoveFirst(active, m), [Dismissed(m)])
    ensures NoDuplicates(RemoveFirst(active, m))
    ensures Mirror([], log + [Dismissed(m)]) == RemoveFirst(active, m)
    ensures Mirror(active, [Dismissed(m)]) == RemoveFirst(active, m)
  {
    RemoveFirstUnique(active, m);
    assert (log + [Dismissed(m)])[..|log|] == log;
    assert [Dismissed(m)][..0] == [];
  }

  function Perform<M(==)>(active: seq<M>, op: Op<M>): Step<M> {
    match op
    case QueueOp(m) => QueueStep(active, m)
    case DismissOp(m) => DismissStep(active, m)
  }

  /** A sequence of calls on one manager: the final list and every event raised, in order. */
  function Run<M(==)>(active: seq<M>, ops: seq<Op<M>>): Step<M>
    decreases |ops|
  {
    if ops == [] then Step(active, [])
    else
      var before := Run(active, ops[..|ops| - 1]);
      var last := Perform(before.active, ops[|ops| - 1]);
      Step(last.active, before.raised + last.raised)
  }

  /** An observer's reaction to one event: append on `Queued`, remove on `Dismissed`. */
  function Apply<M(==)>(items: seq<M>, e: Event<M>): seq<M> {
    match e
    case Queued(m) => items + [m]
    case Dismissed(m) => RemoveFirst(items, m)
  }

  /** The items of an observer that started with `items` and then received `log`. */
  function Mirror<M(==)>(items: seq<M>, log: seq<Event<M>>): seq<M>
    decreases |log|
  {
    if log == [] then items
    else Apply(Mirror(items, log[..|log| - 1]), log[|log| - 1])
  }

  lemma {:induction false} MirrorConcat<M>(items: seq<M>, l1: seq<Event<M>>, l2: seq<Event<M>>)
    ensures Mirror(items, l1 + l2) == Mirror(Mirror(items, l1), l2)
    decreases |l2|
  {
    if l2 == [] {
      assert l1 + l2 == l1;
    } else {
      var init := l2[..|l2| - 1];
      assert (l1 + l2)[..|l1 + l2| - 1] == l1 + init;
      MirrorConcat(items, l1, init);
    }
  }

  /** One call's events, replayed on the list it started from, give the list it produced. */
  lemma PerformMirrored<M>(active: seq<M>, op: Op<M>)
    ensures Mirror(active, Perform(active, op).raised) == Perform(active, op).active
  {
    var raised := Perform(active, op).raised;
    if raised != [] {
      assert raised[..0] == [];
    }
  }

  /**
   * An observer that starts equal to the manager's list and applies every event it is
   * sent stays equal to the list, whatever calls are made.
   */
  lemma {:induction false} RunMirrored<M>(active: seq<M>, ops: seq<Op<M>>)
    ensures Mirror(active, Run(active, ops).raised) == Run(active, ops).active
    decreases |ops|
  {
    if ops != [] {
      var before := Run(active, ops[..|ops| - 1]);
      var last := Perform(before.active, ops[|ops| - 1]);
      RunMirrored(active, ops[..|ops| - 1]);
      MirrorConcat(active, before.raised, last.raised);
      PerformMirrored(before.active, ops[|ops| - 1]);
    }
  }

  /** No sequence of calls ever puts a message into the list twice. */
  lemma {:induction false} RunKeepsNoDuplicates<M>(active: seq<M>, ops: seq<Op<M>>)
    requires NoDuplicates(active)
    ensures NoDuplicates(Run(active, ops).active)
    decreases |ops|
  {
    if ops != [] {
      RunKeepsNoDuplicates(active, ops[..|ops| - 1]);
    }
  }

  /** `Queue(m); Queue(m)`: one entry for `m` and one `Queued` event. */
  lemma QueueTwice<M>(active: seq<M>, m: M)
    requires m !in active
    ensures Run(active, [QueueOp(Some(m)), QueueOp(Some(m))]) == Step(active + [m], [Queued(m)])
  {
    var ops := [QueueOp(Some(m)), QueueOp(Some(m))];
    assert ops[..1] == [QueueOp(Some(m))];
    assert Run(active, ops[..1]) == Step(active + [m], [Queued(m)]) by {
      assert ops[..1][..0] == [];
    }
    assert m in active + [m];
  }

  /** Dismissing a message that was never queued does nothing and raises nothing. */
  lemma DismissUnqueued<M>(active: seq<M>, m: Option<M>)
    requires m.None? || m.value !in active
    ensures Run(active, [DismissOp(m)]) == Step(active, [])
  {
    assert [DismissOp(m)][..0] == [];
  }

  /** Removing a message that was just appended to a list without it restores the list. */
  lemma RemoveAppended<M>(s: seq<M>, m: M)
    requires m !in s
    ensures RemoveFirst(s + [m], m) == s
  {
    var t := s + [m];
    assert t[..|s|] == s;
    assert t[|s|] == m;
    var i := IndexOf(t, m);
    assert i == |s|;
  }

  /** The first two calls of the scenarios below: queue a new `m`, then dismiss it. */
  lemma QueueThenDismiss<M>(active: seq<M>, m: M)
    requires m !in active
    ensures Run(active, [QueueOp(Some(m)), DismissOp(Some(m))]) == Step(active, [Queued(m), Dismissed(m)])
  {
    var ops := [QueueOp(Some(m)), DismissOp(Some(m))];
    assert ops[..1] == [QueueOp(Some(m))];
    assert Run(active, ops[..1]) == Step(active + [m], [Queued(m)]) by {
      assert ops[..1][..0] == [];
    }
    assert m in active + [m];
    RemoveAppended(active, m);
  }

  /** `Queue(m); Dismiss(m); Dismiss(m)` raises exactly `[Queued(m), Dismissed(m)]`. */
  lemma QueueDismissDismiss<M>(active: seq<M>, m: M)
    requires m !in active
    ensures Run(active, [QueueOp(Some(m)), DismissOp(Some(m)), DismissOp(Some(m))])
         == Step(active, [Queued(m), Dismissed(m)])
  {
    var ops := [QueueOp(Some(m)), DismissOp(Some(m)), DismissOp(Some(m))];
    assert ops[..2] == [QueueOp(Some(m)), DismissOp(Some(m))];
    QueueThenDismiss(active, m);
  }

  /** The list does not remember dismissed messages: `m` can be queued again afterwards. */
  lemma RequeueAfterDismiss<M>(active: seq<M>, m: M)
    requires m !in active
    ensures Run(active, [QueueOp(Some(m)), DismissOp(Some(m)), QueueOp(Some(m))])
         == Step(active + [m], [Queued(m), Dismissed(m), Queued(m)])
  {
    var ops := [QueueOp(Some(m)), DismissOp(Some(m)), QueueOp(Some(m))];
    assert ops[..2] == [QueueOp(Some(m)), DismissOp(Some(m))];
    QueueThenDismiss(active, m);
  }
}
