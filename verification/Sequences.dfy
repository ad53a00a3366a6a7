/** Facts about sequences that the protocol proofs share. */
module Sequences {
  /** `a` can be obtained from `b` by leaving elements out: nothing altered, repeated or reordered. */
  ghost predicate Subseq<T(!new)>(a: seq<T>, b: seq<T>) {
    if a == [] then true
    else if b == [] then false
    else if Last(a) == Last(b) then Subseq(Front(a), Front(b))
    else Subseq(a, Front(b))
  }

  function Last<T>(s: seq<T>): T
    requires s != []
  {
    s[|s| - 1]
  }

  function Front<T>(s: seq<T>): seq<T>
    requires s != []
  {
    s[..|s| - 1]
  }

  lemma {:induction false} SubseqReflexive<T(!new)>(a: seq<T>)
    ensures Subseq(a, a)
  {
    if a != [] {
      SubseqReflexive(Front(a));
    }
  }

  lemma {:induction false} SubseqWeakenFront<T(!new)>(a: seq<T>, b: seq<T>)
    requires Subseq(a, b) && a != []
    ensures Subseq(Front(a), b)
    decreases |b|, 0
  {
    if Last(a) == Last(b) {
      SubseqGrow(Front(a), Front(b), Last(b));
      assert Front(b) + [Last(b)] == b;
    } else {
      SubseqWeakenFront(a, Front(b));
      SubseqGrow(Front(a), Front(b), Last(b));
      assert Front(b) + [Last(b)] == b;
    }
  }

  /** The longer sequence may grow at the end. */
  lemma {:induction false} SubseqGrow<T(!new)>(a: seq<T>, b: seq<T>, x: T)
    requires Subseq(a, b)
    ensures Subseq(a, b + [x])
    decreases |b|, 1
  {
    assert Front(b + [x]) == b;
    if a != [] && Last(a) == x {
      SubseqWeakenFront(a, b);
    }
  }

  /** Both sequences may grow by the same element. */
  lemma SubseqAppend<T(!new)>(a: seq<T>, b: seq<T>, x: T)
    requires Subseq(a, b)
    ensures Subseq(a + [x], b + [x])
  {
    assert Front(a + [x]) == a && Front(b + [x]) == b;
  }

  /** Cutting one element out of the shorter sequence keeps the relation. */
  lemma {:induction false} SubseqCut<T(!new)>(a: seq<T>, x: T, c: seq<T>, b: seq<T>)
    requires Subseq(a + [x] + c, b)
    ensures Subseq(a + c, b)
    decreases |b|, |c|
  {
    var whole := a + [x] + c;
    if c == [] {
      assert Front(whole) == a && a + c == a;
      SubseqWeakenFront(whole, b);
    } else {
      assert b != [] && Last(whole) == Last(c) && Last(a + c) == Last(c);
      if Last(whole) == Last(b) {
        assert Front(whole) == a + [x] + Front(c);
        SubseqCut(a, x, Front(c), Front(b));
        assert Front(a + c) == a + Front(c);
      } else {
        SubseqCut(a, x, c, Front(b));
      }
    }
  }

  lemma {:induction false} SubseqTransitive<T(!new)>(a: seq<T>, b: seq<T>, c: seq<T>)
    requires Subseq(a, b) && Subseq(b, c)
    ensures Subseq(a, c)
    decreases |b| + |c|
  {
    if a != [] {
      if Last(b) != Last(c) {
        SubseqTransitive(a, b, Front(c));
        SubseqGrow(a, Front(c), Last(c));
        assert Front(c) + [Last(c)] == c;
      } else if Last(a) == Last(b) {
        SubseqTransitive(Front(a), Front(b), Front(c));
      } else {
        SubseqTransitive(a, Front(b), Front(c));
      }
    }
  }

  // ---------------------------------------------------------------- selecting and collecting

  function Filter<T>(s: seq<T>, keep: T -> bool): seq<T> {
    if s == [] then [] else Filter(Front(s), keep) + if keep(Last(s)) then [Last(s)] else []
  }

  lemma {:induction false} FilterMembers<T>(s: seq<T>, keep: T -> bool)
    ensures forall x :: x in Filter(s, keep) <==> x in s && keep(x)
  {
    if s != [] {
      FilterMembers(Front(s), keep);
      assert s == Front(s) + [Last(s)];
    }
  }

  lemma {:induction false} FilterMember<T>(s: seq<T>, keep: T -> bool, x: T)
    ensures x in Filter(s, keep) <==> x in s && keep(x)
  {
    if s != [] {
      FilterMember(Front(s), keep, x);
      assert s == Front(s) + [Last(s)];
    }
  }

  lemma {:induction false} FilterConcat<T>(a: seq<T>, b: seq<T>, keep: T -> bool)
    ensures Filter(a + b, keep) == Filter(a, keep) + Filter(b, keep)
    decreases |b|
  {
    if b == [] {
      assert a + b == a;
    } else {
      assert Front(a + b) == a + Front(b);
      FilterConcat(a, Front(b), keep);
    }
  }

  lemma {:induction false} FilterNone<T>(s: seq<T>, keep: T -> bool)
    requires forall x | x in s :: !keep(x)
    ensures Filter(s, keep) == []
  {
    if s != [] {
      forall x | x in Front(s) ensures !keep(x) { assert x in s; }
      FilterNone(Front(s), keep);
      assert Last(s) in s;
    }
  }

  /** What the elements of `s` stand for, in order. */
  function Collect<A, B>(s: seq<A>, f: A -> seq<B>): seq<B> {
    if s == [] then [] else Collect(Front(s), f) + f(Last(s))
  }

  lemma {:induction false} CollectConcat<A, B>(a: seq<A>, b: seq<A>, f: A -> seq<B>)
    ensures Collect(a + b, f) == Collect(a, f) + Collect(b, f)
    decreases |b|
  {
    if b == [] {
      assert a + b == a;
    } else {
      assert Front(a + b) == a + Front(b) && Last(a + b) == Last(b);
      CollectConcat(a, Front(b), f);
      Associate(Collect(a, f), Collect(Front(b), f), f(Last(b)));
    }
  }

  lemma Associate<T>(a: seq<T>, b: seq<T>, c: seq<T>)
    ensures (a + b) + c == a + (b + c)
  {
  }

  lemma CollectOne<A, B>(x: A, f: A -> seq<B>)
    ensures Collect([x], f) == f(x)
  {
    assert Front([x]) == [];
  }

  lemma CollectThree<A, B>(x: A, y: A, z: A, f: A -> seq<B>)
    ensures Collect([x, y, z], f) == f(x) + f(y) + f(z)
  {
    assert Front([x, y, z]) == [x, y] && Front([x, y]) == [x];
    CollectOne(x, f);
  }

  lemma CollectLeft<A, B>(a: seq<A>, b: seq<A>, f: A -> seq<B>)
    requires Collect(b, f) == []
    ensures Collect(a + b, f) == Collect(a, f)
  {
    CollectConcat(a, b, f);
    assert Collect(a, f) + [] == Collect(a, f);
  }

  lemma CollectRight<A, B>(a: seq<A>, b: seq<A>, f: A -> seq<B>)
    requires Collect(a, f) == []
    ensures Collect(a + b, f) == Collect(b, f)
  {
    CollectConcat(a, b, f);
    assert [] + Collect(b, f) == Collect(b, f);
  }

  lemma CollectFirst<A, B>(s: seq<A>, f: A -> seq<B>)
    requires s != []
    ensures Collect(s, f) == f(s[0]) + Collect(s[1..], f)
  {
    assert s == [s[0]] + s[1..];
    CollectConcat([s[0]], s[1..], f);
    CollectOne(s[0], f);
  }

  lemma {:induction false} CollectNothing<A, B>(s: seq<A>, f: A -> seq<B>)
    requires forall x | x in s :: f(x) == []
    ensures Collect(s, f) == []
  {
    if s != [] {
      forall x | x in Front(s) ensures f(x) == [] { assert x in s; }
      CollectNothing(Front(s), f);
      assert Last(s) in s;
    }
  }

  /** Elements that stand for nothing can be left out. */
  lemma {:induction false} CollectFilterSame<A, B>(s: seq<A>, keep: A -> bool, f: A -> seq<B>)
    requires forall x | x in s && !keep(x) :: f(x) == []
    ensures Collect(Filter(s, keep), f) == Collect(s, f)
  {
    if s != [] {
      var front := Front(s);
      forall x | x in front && !keep(x) ensures f(x) == [] { assert x in s; }
      CollectFilterSame(front, keep, f);
      if keep(Last(s)) {
        CollectConcat(Filter(front, keep), [Last(s)], f);
        CollectOne(Last(s), f);
      } else {
        assert Last(s) in s;
        assert Filter(s, keep) == Filter(front, keep);
      }
    }
  }

  /** Leaving elements out leaves out what they stand for. */
  lemma {:induction false} CollectFilterSubseq<A, B(!new)>(before: seq<B>, s: seq<A>, keep: A -> bool, f: A -> seq<B>)
    requires forall x :: |f(x)| <= 1
    ensures Subseq(before + Collect(Filter(s, keep), f), before + Collect(s, f))
  {
    if s == [] {
      SubseqReflexive(before);
      assert before + [] == before;
    } else {
      var front := Front(s);
      var more := f(Last(s));
      var kept := Collect(Filter(front, keep), f);
      CollectFilterSubseq(before, front, keep, f);
      SubseqExtend(before + kept, before + Collect(front, f), more, keep(Last(s)));
      Associate(before, Collect(front, f), more);
      if keep(Last(s)) {
        CollectConcat(Filter(front, keep), [Last(s)], f);
        CollectOne(Last(s), f);
        Associate(before, kept, more);
      } else {
        assert Filter(s, keep) == Filter(front, keep);
        assert before + kept + [] == before + kept;
      }
    }
  }

  /** At most one more element at the end, kept or not. */
  lemma SubseqExtend<T(!new)>(kept: seq<T>, all: seq<T>, more: seq<T>, keep: bool)
    requires Subseq(kept, all) && |more| <= 1
    ensures Subseq(kept + if keep then more else [], all + more)
  {
    assert kept + [] == kept && all + [] == all;
    if more != [] {
      assert more == [more[0]];
      SubseqGrow(kept, all, more[0]);
      SubseqAppend(kept, all, more[0]);
    }
  }

  lemma {:induction false} SubseqConcat<T(!new)>(a: seq<T>, b: seq<T>, c: seq<T>, d: seq<T>)
    requires Subseq(a, b) && Subseq(c, d)
    ensures Subseq(a + c, b + d)
    decreases |d|
  {
    if d == [] {
      assert a + c == a && b + d == b;
    } else {
      assert Front(b + d) == b + Front(d);
      if c == [] {
        SubseqConcat(a, b, c, Front(d));
        SubseqGrow(a + c, b + Front(d), Last(d));
        assert b + Front(d) + [Last(d)] == b + d;
      } else if Last(c) == Last(d) {
        SubseqConcat(a, b, Front(c), Front(d));
        assert Front(a + c) == a + Front(c);
      } else {
        SubseqConcat(a, b, c, Front(d));
      }
    }
  }

  lemma SubseqNothing<T(!new)>(a: seq<T>)
    ensures Subseq([], a)
  {
  }

  /** A stretch of a sequence is a selection of it. */
  lemma SubseqStretch<T(!new)>(a: seq<T>, from: nat, to: nat)
    requires from <= to <= |a|
    ensures Subseq(a[from..to], a)
  {
    SubseqPart(a[..from], a[from..to], a[to..]);
    assert a[..from] + a[from..to] + a[to..] == a;
  }

  lemma SubseqPart<T(!new)>(head: seq<T>, part: seq<T>, tail: seq<T>)
    ensures Subseq(part, head + part + tail)
  {
    SubseqReflexive(part);
    SubseqConcat([], head, part, part);
    assert [] + part == part;
    SubseqConcat(part, head + part, [], tail);
    assert part + [] == part;
  }

  /** What a selection stands for is a selection of what the whole stands for. */
  lemma {:induction false} CollectSubseq<A(!new), B(!new)>(a: seq<A>, b: seq<A>, f: A -> seq<B>)
    requires Subseq(a, b)
    ensures Subseq(Collect(a, f), Collect(b, f))
  {
    if a != [] {
      var more := f(Last(b));
      if Last(a) == Last(b) {
        CollectSubseq(Front(a), Front(b), f);
        SubseqReflexive(more);
        SubseqConcat(Collect(Front(a), f), Collect(Front(b), f), more, more);
      } else {
        CollectSubseq(a, Front(b), f);
        SubseqConcat(Collect(a, f), Collect(Front(b), f), [], more);
        assert Collect(a, f) + [] == Collect(a, f);
      }
    }
  }

  /** If each element stands for a selection of what its counterpart stands for, so does the whole. */
  lemma {:induction false} CollectEach<A, B, C(!new)>(a: seq<A>, b: seq<B>, f: A -> seq<C>, g: B -> seq<C>)
    requires |a| == |b| && forall i | 0 <= i < |a| :: Subseq(f(a[i]), g(b[i]))
    ensures Subseq(Collect(a, f), Collect(b, g))
  {
    if a != [] {
      CollectEach(Front(a), Front(b), f, g);
      SubseqConcat(Collect(Front(a), f), Collect(Front(b), g), f(Last(a)), g(Last(b)));
    }
  }

  /** Elements that correspond one by one stand for the same. */
  lemma {:induction false} CollectPairwise<A, B, C>(a: seq<A>, b: seq<B>, f: A -> seq<C>, g: B -> seq<C>)
    requires |a| == |b| && forall i | 0 <= i < |a| :: f(a[i]) == g(b[i])
    ensures Collect(a, f) == Collect(b, g)
  {
    if a != [] { CollectPairwise(Front(a), Front(b), f, g); }
  }

  /** Elements that stand for one thing each. */
  lemma {:induction false} CollectSame<A, B>(a: seq<A>, b: seq<B>, f: A -> seq<B>)
    requires |a| == |b| && forall i | 0 <= i < |a| :: f(a[i]) == [b[i]]
    ensures Collect(a, f) == b
  {
    if a != [] {
      CollectSame(Front(a), Front(b), f);
      assert f(Last(a)) == [Last(b)] && b == Front(b) + [Last(b)];
    }
  }

  lemma {:induction false} FilterSubseq<T(!new)>(s: seq<T>, keep: T -> bool)
    ensures Subseq(Filter(s, keep), s)
  {
    if s != [] {
      FilterSubseq(Front(s), keep);
      SubseqExtend(Filter(Front(s), keep), Front(s), [Last(s)], keep(Last(s)));
      assert Front(s) + [Last(s)] == s;
    }
  }

  // ---------------------------------------------------------------- removing repetitions

  /** `s` with every run of equal neighbours replaced by one copy. */
  function Destutter<T(==)>(s: seq<T>): seq<T> {
    if s == [] then []
    else if Front(s) != [] && Last(Front(s)) == Last(s) then Destutter(Front(s))
    else Destutter(Front(s)) + [Last(s)]
  }

  lemma DestutterAppend<T>(s: seq<T>, x: T)
    ensures Destutter(s + [x]) == if s != [] && Last(s) == x then Destutter(s) else Destutter(s) + [x]
  {
    assert Front(s + [x]) == s;
  }

  /** Destuttering keeps the last element. */
  lemma {:induction false} DestutterLast<T>(s: seq<T>)
    requires s != []
    ensures Destutter(s) != [] && Last(Destutter(s)) == Last(s)
  {
    if Front(s) != [] {
      DestutterLast(Front(s));
    }
  }

  /** No two neighbours of a destuttered sequence are equal. */
  lemma {:induction false} DestutterStrict<T>(s: seq<T>, i: nat)
    requires i + 1 < |Destutter(s)|
    ensures Destutter(s)[i] != Destutter(s)[i + 1]
  {
    var front := Front(s);
    if (front != [] && Last(front) == Last(s)) || i + 2 < |Destutter(s)| {
      DestutterStrict(front, i);
    } else {
      DestutterLast(front);
    }
  }
}
