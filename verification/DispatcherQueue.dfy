/**
  The dispatcher keeps one queue sorted by due time and inserts behind entries with the same due time. Whatever else is queued, for
  other objects and with other delays, the entries of one kind stay in the order in which they were enqueued as long as
  each of them is due no earlier than those of its kind before it.
 */
module DispatcherQueue {
  import opened Sequences

  datatype Item<T> = Item(due: nat, work: T)

  /** Immediate tasks are due at time 1, long past. */
  const IMMEDIATELY: nat := 1

  /** The first position whose entry is due later. */
  function UpperBound<T>(queue: seq<Item<T>>, due: nat): (i: nat)
    ensures i <= |queue|
  {
    if queue == [] || due < queue[0].due then 0 else 1 + UpperBound(queue[1..], due)
  }

  function Insert<T>(queue: seq<Item<T>>, x: Item<T>): seq<Item<T>> {
    queue[..UpperBound(queue, x.due)] + [x] + queue[UpperBound(queue, x.due)..]
  }

  function InsertAll<T>(queue: seq<Item<T>>, items: seq<Item<T>>): seq<Item<T>> {
    if items == [] then queue else Insert(InsertAll(queue, Front(items)), Last(items))
  }

  /** The worker takes the front entry once it is due. */
  predicate Due<T>(queue: seq<Item<T>>, now: nat) {
    queue != [] && (queue[0].due <= now || queue[0].due <= IMMEDIATELY)
  }

  ghost predicate Sorted<T>(queue: seq<Item<T>>) {
    forall i, j | 0 <= i < j < |queue| :: queue[i].due <= queue[j].due
  }

  // ---------------------------------------------------------------- sortedness

  lemma {:induction false} UpperBoundSplits<T>(queue: seq<Item<T>>, due: nat)
    requires Sorted(queue)
    ensures forall i | 0 <= i < UpperBound(queue, due) :: queue[i].due <= due
    ensures forall i | UpperBound(queue, due) <= i < |queue| :: due < queue[i].due
  {
    if queue != [] && queue[0].due <= due {
      assert forall i | 0 <= i < |queue| - 1 :: queue[1..][i] == queue[i + 1];
      UpperBoundSplits(queue[1..], due);
      assert forall i | 0 < i < |queue| :: queue[i] == queue[1..][i - 1];
    }
  }

  lemma InsertSorted<T>(queue: seq<Item<T>>, x: Item<T>)
    requires Sorted(queue)
    ensures Sorted(Insert(queue, x))
  {
    UpperBoundSplits(queue, x.due);
  }

  lemma InsertMember<T>(queue: seq<Item<T>>, x: Item<T>, y: Item<T>)
    ensures y in Insert(queue, x) <==> y in queue || y == x
  {
    var k := UpperBound(queue, x.due);
    assert queue == queue[..k] + queue[k..];
  }

  lemma {:induction false} InsertAllSorted<T>(queue: seq<Item<T>>, items: seq<Item<T>>)
    requires Sorted(queue)
    ensures Sorted(InsertAll(queue, items))
  {
    if items != [] {
      InsertAllSorted(queue, Front(items));
      InsertSorted(InsertAll(queue, Front(items)), Last(items));
    }
  }

  lemma {:induction false} InsertAllMember<T>(queue: seq<Item<T>>, items: seq<Item<T>>, y: Item<T>)
    ensures y in InsertAll(queue, items) <==> y in queue || y in items
  {
    if items != [] {
      InsertAllMember(queue, Front(items), y);
      InsertMember(InsertAll(queue, Front(items)), Last(items), y);
      assert items == Front(items) + [Last(items)];
    }
  }

  lemma {:induction false} FilterSorted<T>(queue: seq<Item<T>>, keep: Item<T> -> bool)
    requires Sorted(queue)
    ensures Sorted(Filter(queue, keep))
  {
    if queue != [] {
      FilterSorted(Front(queue), keep);
      var kept := Filter(Front(queue), keep);
      forall i | 0 <= i < |kept| ensures kept[i].due <= Last(queue).due {
        FilterMember(Front(queue), keep, kept[i]);
        var j :| 0 <= j < |Front(queue)| && Front(queue)[j] == kept[i];
        assert queue[j] == kept[i];
      }
    }
  }

  lemma FrontIsFirst<T>(queue: seq<Item<T>>, y: Item<T>)
    requires Sorted(queue) && y in queue
    ensures queue[0].due <= y.due
  {
    var i :| 0 <= i < |queue| && queue[i] == y;
  }

  // ---------------------------------------------------------------- entries of one kind

  /** Everything in the queue that `f` is about is due by then. */
  ghost predicate AllBy<T, A>(queue: seq<Item<T>>, f: Item<T> -> seq<A>, due: nat) {
    forall y | y in queue && f(y) != [] :: y.due <= due
  }

  /** A new entry comes behind all of its kind that are due no later. */
  lemma InsertProjects<T, A>(queue: seq<Item<T>>, x: Item<T>, f: Item<T> -> seq<A>)
    requires Sorted(queue) && (f(x) != [] ==> AllBy(queue, f, x.due))
    ensures Collect(Insert(queue, x), f) == Collect(queue, f) + f(x)
  {
    var k := UpperBound(queue, x.due);
    UpperBoundSplits(queue, x.due);
    assert queue == queue[..k] + queue[k..];
    CollectConcat(queue[..k], queue[k..], f);
    CollectConcat(queue[..k], [x], f);
    CollectConcat(queue[..k] + [x], queue[k..], f);
    CollectOne(x, f);
    if f(x) == [] {
      assert Collect(queue[..k], f) + [] == Collect(queue[..k], f) && Collect(queue, f) + [] == Collect(queue, f);
    } else {
      forall y | y in queue[k..] ensures f(y) == [] { assert y in queue; }
      CollectNothing(queue[k..], f);
      assert Collect(queue[..k], f) + [] == Collect(queue[..k], f);
      assert Collect(queue[..k], f) + f(x) + [] == Collect(queue[..k], f) + f(x);
    }
  }

  /** The entries of a kind among `items` are due in their order, and after those in the queue. */
  ghost predicate InOrder<T, A>(queue: seq<Item<T>>, items: seq<Item<T>>, f: Item<T> -> seq<A>) {
    forall j | 0 <= j < |items| && f(items[j]) != [] :: AllBy(queue, f, items[j].due) && AllBy(items[..j], f, items[j].due)
  }

  lemma InOrderFront<T, A>(queue: seq<Item<T>>, items: seq<Item<T>>, f: Item<T> -> seq<A>)
    requires items != [] && InOrder(queue, items, f)
    ensures InOrder(queue, Front(items), f)
  {
    var before := Front(items);
    forall j | 0 <= j < |before| && f(before[j]) != [] ensures AllBy(queue, f, before[j].due) && AllBy(before[..j], f, before[j].due) {
      assert before[j] == items[j] && before[..j] == items[..j];
    }
  }

  lemma LastInOrder<T, A>(queue: seq<Item<T>>, items: seq<Item<T>>, f: Item<T> -> seq<A>)
    requires items != [] && InOrder(queue, items, f)
    ensures f(Last(items)) != [] ==> AllBy(InsertAll(queue, Front(items)), f, Last(items).due)
  {
    if f(Last(items)) != [] {
      assert items[..|items| - 1] == Front(items);
      forall y | y in InsertAll(queue, Front(items)) && f(y) != [] ensures y.due <= Last(items).due {
        InsertAllMember(queue, Front(items), y);
      }
    }
  }

  lemma {:induction false} InsertAllProjects<T, A>(queue: seq<Item<T>>, items: seq<Item<T>>, f: Item<T> -> seq<A>)
    requires Sorted(queue) && InOrder(queue, items, f)
    ensures Collect(InsertAll(queue, items), f) == Collect(queue, f) + Collect(items, f)
  {
    if items == [] {
      assert Collect(queue, f) + [] == Collect(queue, f);
    } else {
      InOrderFront(queue, items, f);
      InsertAllProjects(queue, Front(items), f);
      InsertAllSorted(queue, Front(items));
      LastInOrder(queue, items, f);
      InsertProjects(InsertAll(queue, Front(items)), Last(items), f);
      Associate(Collect(queue, f), Collect(Front(items), f), f(Last(items)));
    }
  }

  /** Taking entries out takes out what they stand for. */
  lemma {:induction false} FilterProjects<T, A>(queue: seq<Item<T>>, keep: Item<T> -> bool, f: Item<T> -> seq<A>, keepA: A -> bool)
    requires forall y | y in queue :: |f(y)| <= 1 && forall a | a in f(y) :: keepA(a) == keep(y)
    ensures Collect(Filter(queue, keep), f) == Filter(Collect(queue, f), keepA)
  {
    if queue != [] {
      var front, y := Front(queue), Last(queue);
      assert y in queue;
      forall z | z in front ensures |f(z)| <= 1 && forall a | a in f(z) :: keepA(a) == keep(z) { assert z in queue; }
      FilterProjects(front, keep, f, keepA);
      FilterConcat(Collect(front, f), f(y), keepA);
      var kept := if keep(y) then [y] else [];
      CollectConcat(Filter(front, keep), kept, f);
      if keep(y) { CollectOne(y, f); }
      OneKept(f(y), keep(y), keepA);
    }
  }

  lemma OneKept<A>(s: seq<A>, keep: bool, keepA: A -> bool)
    requires |s| <= 1 && forall a | a in s :: keepA(a) == keep
    ensures Filter(s, keepA) == if keep then s else []
  {
    if s != [] {
      assert s[0] in s && Front(s) == [] && s == [s[0]];
    }
  }
}
