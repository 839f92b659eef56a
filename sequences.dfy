/** Guarded list comprehensions and the order-preserving filters built from them. */
module Sequences {
  import opened Wrappers

  /** `a` can be obtained from `b` by deleting elements: an order-preserving subsequence. */
  ghost predicate IsSubseq<T>(a: seq<T>, b: seq<T>)
    decreases |b|
  {
    || a == []
    || (&& b != []
        && (|| (a[|a| - 1] == b[|b| - 1] && IsSubseq(a[..|a| - 1], b[..|b| - 1]))
            || IsSubseq(a, b[..|b| - 1])))
  }

  /** `[x for x in s if p(x)]`. */
  function Select<T(!new)>(s: seq<T>, p: T -> bool): (r: seq<T>)
    ensures IsSubseq(r, s)
    ensures forall x :: x in r <==> x in s && p(x)
    ensures forall x {:trigger multiset(r)[x]} :: multiset(r)[x] == if p(x) then multiset(s)[x] else 0
  {
    if s == [] then []
    else
      var init := Select(s[..|s| - 1], p);
      var last := s[|s| - 1];
      assert s == s[..|s| - 1] + [last];
      assert multiset(s) == multiset(s[..|s| - 1]) + multiset{last};
      if p(last) then
        assert (init + [last])[..|init|] == init;
        assert multiset(init + [last]) == multiset(init) + multiset{last};
        init + [last]
      else
        init
  }

  /** What a loop body does with one element: append it, skip it, or raise an exception. */
  datatype Verdict = Keep | Drop | Raise

  /** A loop that appends the elements whose verdict is `Keep`, skips those whose verdict
      is `Drop`, and stops the whole computation (`None`) at the first `Raise`. */
  function SelectOrRaise<T(!new)>(s: seq<T>, v: T -> Verdict): (r: Option<seq<T>>)
    ensures r.Some? <==> forall i :: 0 <= i < |s| ==> v(s[i]) != Raise
    ensures r.Some? ==> IsSubseq(r.value, s)
    ensures r.Some? ==> forall x :: x in r.value <==> x in s && v(x) == Keep
    ensures r.Some? ==> forall x {:trigger multiset(r.value)[x]} :: multiset(r.value)[x] == if v(x) == Keep then multiset(s)[x] else 0
  {
    if s == [] then Some([])
    else
      var last := s[|s| - 1];
      assert s == s[..|s| - 1] + [last];
      assert multiset(s) == multiset(s[..|s| - 1]) + multiset{last};
      match SelectOrRaise(s[..|s| - 1], v)
      case None => None
      case Some(init) =>
        if v(last) == Raise then None
        else if v(last) == Keep then
          assert (init + [last])[..|init|] == init;
          assert multiset(init + [last]) == multiset(init) + multiset{last};
          Some(init + [last])
        else Some(init)
  }

  /** The loop after one more element: its verdict decides, unless the loop has raised. */
  lemma SelectOrRaiseSnoc<T(!new)>(s: seq<T>, x: T, v: T -> Verdict)
    ensures SelectOrRaise(s + [x], v)
      == match SelectOrRaise(s, v)
         case None => None
         case Some(r) => if v(x) == Raise then None else if v(x) == Keep then Some(r + [x]) else Some(r)
  {
    assert (s + [x])[..|s|] == s;
  }

  lemma AppendEmpty<T>(s: seq<T>)
    ensures s + [] == s && [] + s == s
  {
  }

  lemma ConsAppend<T>(a: seq<T>, b: seq<T>)
    requires a != []
    ensures (a + b)[0] == a[0] && (a + b)[1..] == a[1..] + b
  {
  }

  lemma LastSplit<T>(s: seq<T>)
    requires s != []
    ensures s == s[..|s| - 1] + [s[|s| - 1]]
  {
  }

  lemma DropSnoc<T>(xs: seq<T>, x: T, i: nat)
    requires i <= |xs|
    ensures (xs + [x])[i..] == xs[i..] + [x]
  {
  }

  lemma TakeTake<T>(s: seq<T>, n: nat, k: nat)
    requires k <= n <= |s|
    ensures s[..n][..k] == s[..k]
  {
  }

  lemma TakeAll<T>(s: seq<T>)
    ensures s[..|s|] == s
  {
  }

  lemma TakeSnoc<T>(s: seq<T>, i: nat)
    requires i < |s|
    ensures s[..i + 1] == s[..i] + [s[i]]
  {
  }

  lemma ConcatAssoc<T>(a: seq<T>, b: seq<T>, c: seq<T>)
    ensures (a + b) + c == a + (b + c)
  {
  }

  /** Concatenation of a list of lists, in order. */
  function Flatten<T>(ss: seq<seq<T>>): seq<T> {
    if ss == [] then [] else ss[0] + Flatten(ss[1..])
  }

  lemma {:induction false} FlattenAppend<T>(a: seq<seq<T>>, b: seq<seq<T>>)
    ensures Flatten(a + b) == Flatten(a) + Flatten(b)
  {
    if a != [] {
      assert (a + b)[0] == a[0] && (a + b)[1..] == a[1..] + b;
      FlattenAppend(a[1..], b);
      assert Flatten(a + b) == a[0] + Flatten(a[1..] + b);
    } else {
      assert a + b == b;
    }
  }

  /** A selection that every element passes keeps the list as it is. */
  lemma {:induction false} SelectAll<T(!new)>(s: seq<T>, p: T -> bool)
    requires forall i :: 0 <= i < |s| ==> p(s[i])
    ensures Select(s, p) == s
  {
    if s != [] {
      SelectAll(s[..|s| - 1], p);
      assert s == s[..|s| - 1] + [s[|s| - 1]];
    }
  }

  /** `[y for x in xs for y in f(x)]`: the lists `f(x)` concatenated in the order of `xs`. */
  function FlatMap<A, B>(xs: seq<A>, f: A -> seq<B>): seq<B> {
    if xs == [] then [] else FlatMap(xs[..|xs| - 1], f) + f(xs[|xs| - 1])
  }

  lemma {:induction false} FlatMapAppend<A, B>(a: seq<A>, b: seq<A>, f: A -> seq<B>)
    ensures FlatMap(a + b, f) == FlatMap(a, f) + FlatMap(b, f)
    decreases |b|
  {
    if b == [] {
      assert a + b == a;
    } else {
      var ab := a + b;
      assert ab[..|ab| - 1] == a + b[..|b| - 1];
      assert ab[|ab| - 1] == b[|b| - 1];
      FlatMapAppend(a, b[..|b| - 1], f);
    }
  }

  /** An element contributing nothing can be removed without changing the result. */
  lemma FlatMapSkip<A, B>(a: seq<A>, x: A, b: seq<A>, f: A -> seq<B>)
    requires f(x) == []
    ensures FlatMap(a + [x] + b, f) == FlatMap(a + b, f)
  {
    FlatMapAppend(a + [x], b, f);
    FlatMapAppend(a, [x], f);
    FlatMapAppend(a, b, f);
    assert [x][..0] == [];
  }

  /** Every element of the result comes from the list of some element of `xs`, and back. */
  lemma {:induction false} FlatMapMember<A, B>(xs: seq<A>, f: A -> seq<B>, y: B)
    ensures y in FlatMap(xs, f) <==> exists i :: 0 <= i < |xs| && y in f(xs[i])
  {
    if xs != [] {
      var init := xs[..|xs| - 1];
      FlatMapMember(init, f, y);
      if y in FlatMap(init, f) {
        var i :| 0 <= i < |init| && y in f(init[i]);
        assert xs[i] == init[i];
      }
      if i :| 0 <= i < |xs| && y in f(xs[i]) {
        if i < |init| {
          assert init[i] == xs[i];
        }
      }
    }
  }
}
