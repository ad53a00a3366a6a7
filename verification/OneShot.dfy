/** The `OneShot` actor: a rendezvous between one waiter and whoever resumes it, in either order. */
module OneShot {
  import opened Wrappers
  import opened Sequences

  type Continuation = nat

  datatype Event<R> = Wait(c: Continuation) | Resume(result: R)

  datatype Delivery<R> = Delivery(to: Continuation, result: R)

  datatype State<R> = State(continuation: Option<Continuation>, pending: Option<R>, delivered: seq<Delivery<R>>)

  function Step<R>(s: State<R>, event: Event<R>): State<R> {
    match event
    case Wait(c) =>
      if s.pending.Some? then s.(pending := None, delivered := s.delivered + [Delivery(c, s.pending.value)])
      else s.(continuation := Some(c))
    case Resume(result) =>
      if s.continuation.Some? then s.(continuation := None, delivered := s.delivered + [Delivery(s.continuation.value, result)])
      else s.(pending := Some(result))
  }

  function Run<R>(events: seq<Event<R>>): State<R> {
    if events == [] then State(None, None, []) else Step(Run(Front(events)), Last(events))
  }

  /** The results passed to `resume`, in order. */
  function Results<R>(events: seq<Event<R>>): seq<R> {
    if events == [] then []
    else Results(Front(events)) + if Last(events).Resume? then [Last(events).result] else []
  }

  /** A stored continuation and a pending result never coexist. */
  lemma {:induction false} NeverBoth<R>(events: seq<Event<R>>)
    ensures !(Run(events).continuation.Some? && Run(events).pending.Some?)
  {
    if events != [] { NeverBoth(Front(events)); }
  }

  ghost predicate OnlyResumes<R>(events: seq<Event<R>>) {
    forall e | e in events :: e.Resume?
  }

  lemma OnlyResumesFront<R>(events: seq<Event<R>>)
    requires OnlyResumes(events) && events != []
    ensures OnlyResumes(Front(events)) && Last(events).Resume?
  {
    forall e | e in Front(events) ensures e.Resume? { assert e in events; }
    assert Last(events) in events;
  }

  lemma {:induction false} BeforeWaiting<R>(before: seq<Event<R>>)
    requires OnlyResumes(before)
    ensures Run(before) == State(None, if Results(before) == [] then None else Some(Last(Results(before))), [])
  {
    if before != [] {
      OnlyResumesFront(before);
      BeforeWaiting(Front(before));
    }
  }

  /** What the single waiter gets: the last result from before, or else the first from after. */
  function Received<R>(before: seq<R>, after: seq<R>): seq<R> {
    if before != [] then [Last(before)] else if after != [] then [after[0]] else []
  }

  function To<R>(c: Continuation, results: seq<R>): seq<Delivery<R>> {
    seq(|results|, i requires 0 <= i < |results| => Delivery(c, results[i]))
  }

  /** Main result: with one `wait` among any `resume` calls, the waiter is resumed once if there is any, and with this result. */
  lemma {:induction false} WaiterIsResumedOnce<R>(before: seq<Event<R>>, c: Continuation, after: seq<Event<R>>)
    requires OnlyResumes(before) && OnlyResumes(after)
    ensures Run(before + [Wait(c)] + after).delivered == To(c, Received(Results(before), Results(after)))
    ensures Run(before + [Wait(c)] + after).continuation == if Results(before) == [] && Results(after) == [] then Some(c) else None
    decreases |after|
  {
    var waited := before + [Wait(c)];
    if after == [] {
      assert waited + after == waited && Front(waited) == before;
      BeforeWaiting(before);
    } else {
      OnlyResumesFront(after);
      WaiterIsResumedOnce(before, c, Front(after));
      assert Front(waited + after) == waited + Front(after);
      assert Results(after) == Results(Front(after)) + [Last(after).result];
    }
  }

  // ---------------------------------------------------------------- any number of waiters

  function ResultFor<R>(c: Continuation): Delivery<R> -> seq<R> {
    (d: Delivery<R>) => if d.to == c then [d.result] else []
  }

  /** Everything that `c` has been resumed with. */
  function Got<R>(s: State<R>, c: Continuation): seq<R> {
    Collect(s.delivered, ResultFor(c))
  }

  /** What a waiter gets: the result that is pending when it waits, or else that of a `resume` right after it. */
  function Reply<R>(pending: Option<R>, after: seq<Event<R>>): seq<R> {
    if pending.Some? then [pending.value]
    else if after != [] && after[0].Resume? then [after[0].result]
    else []
  }

  lemma GotOneMore<R>(s: State<R>, d: Delivery<R>, c: Continuation)
    ensures Collect(s.delivered + [d], ResultFor(c)) == Got(s, c) + ResultFor(c)(d)
  {
    CollectConcat(s.delivered, [d], ResultFor(c));
    CollectOne(d, ResultFor(c));
  }

  /** One event, seen by `c`. */
  lemma StepFor<R>(s: State<R>, event: Event<R>, c: Continuation)
    requires event != Wait(c)
    ensures event.Resume? && s.continuation == Some(c)
        ==> Got(Step(s, event), c) == Got(s, c) + [event.result] && Step(s, event).continuation != Some(c)
    ensures event.Wait? && s.pending.None? ==> Got(Step(s, event), c) == Got(s, c) && Step(s, event).continuation != Some(c)
    ensures s.continuation != Some(c) ==> Got(Step(s, event), c) == Got(s, c) && Step(s, event).continuation != Some(c)
  {
    match event
    case Wait(d) => if s.pending.Some? { GotOneMore(s, Delivery(d, s.pending.value), c); }
    case Resume(result) => if s.continuation.Some? { GotOneMore(s, Delivery(s.continuation.value, result), c); }
  }

  lemma {:induction false} NotWaitedYet<R>(events: seq<Event<R>>, c: Continuation)
    requires Wait(c) !in events
    ensures Got(Run(events), c) == [] && Run(events).continuation != Some(c)
  {
    if events != [] {
      forall e | e in Front(events) ensures e != Wait(c) { assert e in events; }
      NotWaitedYet(Front(events), c);
      assert Last(events) in events;
      StepFor(Run(Front(events)), Last(events), c);
    }
  }

  /**
    Main result: among any `wait` and `resume` calls, a waiter is resumed if and only if a result is pending when it waits, or a
    `resume` comes before the next `wait`; then it is resumed once, with that result. A second `wait` replaces the first.
   */
  lemma {:induction false} WaiterGets<R>(before: seq<Event<R>>, c: Continuation, after: seq<Event<R>>)
    requires Wait(c) !in before && Wait(c) !in after
    ensures var s := Run(before + [Wait(c)] + after);
            && Got(s, c) == Reply(Run(before).pending, after)
            && (s.continuation == Some(c) <==> Run(before).pending.None? && after == [])
    decreases |after|
  {
    var waited := before + [Wait(c)];
    if after == [] {
      assert waited + after == waited && Front(waited) == before;
      NotWaitedYet(before, c);
      NeverBoth(before);
      if Run(before).pending.Some? { GotOneMore(Run(before), Delivery(c, Run(before).pending.value), c); }
    } else {
      forall e | e in Front(after) ensures e != Wait(c) { assert e in after; }
      WaiterGets(before, c, Front(after));
      assert Front(waited + after) == waited + Front(after) && Last(waited + after) == Last(after);
      assert Last(after) in after;
      NeverBoth(waited + Front(after));
      StepFor(Run(waited + Front(after)), Last(after), c);
    }
  }

  // ---------------------------------------------------------------- the actor

  class Actor<R> {
    var continuation: Option<Continuation>
    var pending: Option<R>
    var delivered: seq<Delivery<R>>

    /** The calls made so far. */
    ghost var events: seq<Event<R>>

    ghost predicate Valid()
      reads this
    {
      State(continuation, pending, delivered) == Run(events)
    }

    constructor ()
      ensures Valid() && events == [] && delivered == []
    {
      continuation, pending, delivered, events := None, None, [], [];
    }

    method WaitFor(c: Continuation)
      requires Valid()
      modifies this
      ensures Valid() && events == old(events) + [Wait(c)]
    {
      assert Front(events + [Wait(c)]) == events;
      if pending.Some? {
        var p := pending.value;
        pending := None;
        delivered := delivered + [Delivery(c, p)];
      } else {
        continuation := Some(c);
      }
      events := events + [Wait(c)];
    }

    method ResumeWith(result: R)
      requires Valid()
      modifies this
      ensures Valid() && events == old(events) + [Resume(result)]
    {
      assert Front(events + [Resume(result)]) == events;
      if continuation.Some? {
        var c := continuation.value;
        continuation := None;
        delivered := delivered + [Delivery(c, result)];
      } else {
        pending := Some(result);
      }
      events := events + [Resume(result)];
    }
  }
}
