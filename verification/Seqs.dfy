/** Filtering, mapping and ordering of sequences, shared by the models. */
module Seqs {

  /** The elements of `s` that satisfy `f`, in order. */
  function Filter<T(!new)>(f: T -> bool, s: seq<T>): (r: seq<T>)
    ensures |r| <= |s|
    ensures forall x :: x in r <==> x in s && f(x)
  {
    if s == [] then []
    else
      var rest := Filter(f, s[..|s| - 1]);
      assert s == s[..|s| - 1] + [s[|s| - 1]];
      if f(s[|s| - 1]) then rest + [s[|s| - 1]] else rest
  }

  function Map<T, U>(f: T -> U, s: seq<T>): (r: seq<U>)
    ensures |r| == |s|
    ensures forall i :: 0 <= i < |s| ==> r[i] == f(s[i])
  {
    seq(|s|, i requires 0 <= i < |s| => f(s[i]))
  }

  /** The first `n` elements, or all of them when there are fewer. */
  function Take<T>(s: seq<T>, n: nat): (r: seq<T>)
    ensures r <= s
    ensures |r| == if n <= |s| then n else |s|
  {
    if n <= |s| then s[..n] else s
  }

  lemma FilterOne<T(!new)>(f: T -> bool, s: seq<T>, x: T)
    ensures Filter(f, s + [x]) == if f(x) then Filter(f, s) + [x] else Filter(f, s)
  {
    assert (s + [x])[..|s + [x]| - 1] == s;
  }

  lemma {:induction false} FilterAgrees<T(!new)>(f: T -> bool, g: T -> bool, s: seq<T>)
    requires forall x :: x in s ==> f(x) == g(x)
    ensures Filter(f, s) == Filter(g, s)
  {
    if s != [] {
      assert s == s[..|s| - 1] + [s[|s| - 1]];
      FilterAgrees(f, g, s[..|s| - 1]);
    }
  }

  lemma {:induction false} FilterNone<T(!new)>(f: T -> bool, s: seq<T>)
    requires forall x :: x in s ==> !f(x)
    ensures Filter(f, s) == []
  {
    if s != [] {
      assert s[|s| - 1] in s;
      FilterNone(f, s[..|s| - 1]);
    }
  }

  ghost predicate NoDup<T(!new)>(s: seq<T>) {
    forall i, j :: 0 <= i < j < |s| ==> s[i] != s[j]
  }

  /** The elements satisfying `keep` in the order of their first appearance in `s`. */
  function Firsts<T(==,!new)>(s: seq<T>, keep: T -> bool): (r: seq<T>)
    ensures forall m :: m in r <==> m in s && keep(m)
  {
    if s == [] then []
    else
      var rest, last := Firsts(s[..|s| - 1], keep), s[|s| - 1];
      assert s == s[..|s| - 1] + [last];
      if keep(last) && last !in rest then rest + [last] else rest
  }

  /** The next first appearance continues the prefix. */
  lemma FirstsNext<T(!new)>(front: seq<T>, last: T, keep: T -> bool, xs: seq<T>)
    requires NoDup(xs) && (forall m :: m in xs ==> keep(m)) && Firsts(front, keep) <= xs
    requires keep(last) && last !in Firsts(front, keep) && last in xs
    requires forall j, a :: 0 <= a < j < |xs| && xs[j] == last ==> xs[a] in front
    ensures Firsts(front, keep) + [last] <= xs
  {
    var r := Firsts(front, keep);
    var j :| 0 <= j < |xs| && xs[j] == last;
    assert forall a :: 0 <= a < |r| ==> xs[a] == r[a] && xs[a] in r;
    assert |r| < |xs| ==> xs[|r|] !in r && xs[|r|] !in front;
    assert j == |r|;
  }

  lemma Snoc<T>(a: seq<T>, b: seq<T>, x: T)
    ensures a + (b + [x]) == (a + b) + [x]
  {}

  /** If nothing in `s` comes before what precedes it in `xs`, first appearances follow `xs`. */
  lemma {:induction false} FirstsFollow<T(!new)>(s: seq<T>, keep: T -> bool, xs: seq<T>)
    requires NoDup(xs) && forall m :: m in xs ==> keep(m)
    requires forall m :: m in s && keep(m) ==> m in xs
    requires forall i, j, a :: 0 <= i < |s| && 0 <= a < j < |xs| && xs[j] == s[i] ==> xs[a] in s[..i]
    ensures Firsts(s, keep) <= xs
  {
    if s != [] {
      var n := |s| - 1;
      var front, last := s[..n], s[n];
      assert forall i :: 0 <= i < n ==> front[..i] == s[..i];
      FirstsFollow(front, keep, xs);
      if keep(last) && last !in Firsts(front, keep) {
        FirstsNext(front, last, keep, xs);
      }
    }
  }

  /** A prefix that leaves nothing out. */
  lemma PrefixIsAll<T(!new)>(front: seq<T>, xs: seq<T>)
    requires front <= xs && NoDup(xs) && forall i :: 0 <= i < |xs| ==> xs[i] in front
    ensures front == xs
  {
    if xs != [] {
      var a :| 0 <= a < |front| && front[a] == xs[|xs| - 1];
      assert xs[a] == xs[|xs| - 1];
    }
  }

  lemma {:induction false} FirstsOfNoDup<T(!new)>(s: seq<T>, keep: T -> bool)
    requires NoDup(s)
    ensures Firsts(s, keep) == Filter(keep, s)
  {
    if s != [] {
      FirstsOfNoDup(s[..|s| - 1], keep);
    }
  }

  /** Each state comes from the one before by `step`. */
  ghost predicate IsChain<S(!new)>(states: seq<S>, step: (S, nat) -> S) {
    states != [] && forall i: nat :: i < |states| - 1 ==> states[i + 1] == step(states[i], i)
  }

  ghost predicate Leads<S(!new)>(n: nat, step: (S, nat) -> S, first: S, last: S) {
    exists states :: IsChain(states, step) && |states| == n + 1 && states[0] == first && states[n] == last
  }

  lemma LeadsNowhere<S(!new)>(step: (S, nat) -> S, s: S)
    ensures forall t :: Leads(0, step, s, t) <==> t == s
  {
    assert IsChain([s], step);
  }

  lemma LeadsOn<S(!new)>(n: nat, step: (S, nat) -> S, first: S, last: S)
    requires Leads(n, step, first, last)
    ensures Leads(n + 1, step, first, step(last, n))
  {
    var states :| IsChain(states, step) && |states| == n + 1 && states[0] == first && states[n] == last;
    assert IsChain(states + [step(last, n)], step);
  }

  lemma LeadsBack<S(!new)>(n: nat, step: (S, nat) -> S, first: S, last: S) returns (s: S)
    requires n > 0 && Leads(n, step, first, last)
    ensures Leads(n - 1, step, first, s) && last == step(s, n - 1)
  {
    var states :| IsChain(states, step) && |states| == n + 1 && states[0] == first && states[n] == last;
    assert IsChain(states[..n], step);
    s := states[n - 1];
  }

  function Sum(ns: seq<int>): int {
    if ns == [] then 0 else Sum(ns[..|ns| - 1]) + ns[|ns| - 1]
  }

  ghost predicate Increasing(s: seq<int>) {
    forall i, j :: 0 <= i < j < |s| ==> s[i] < s[j]
  }

  /** Some element of a set that has one. */
  ghost function Any<T>(s: set<T>): (x: T)
    requires s != {}
    ensures x in s
  {
    var x :| x in s; x
  }

  lemma {:induction false} LeastExists(s: set<int>)
    requires s != {}
    ensures exists m :: m in s && forall x :: x in s ==> m <= x
    decreases |s|
  {
    var a := Any(s);
    var rest := s - {a};
    assert forall x :: x in s ==> x == a || x in rest;
    if rest == {} {
      assert a in s && forall x :: x in s ==> a <= x;
    } else {
      LeastExists(rest);
      var b :| b in rest && forall x :: x in rest ==> b <= x;
      var m := if a < b then a else b;
      assert m in s && forall x :: x in s ==> m <= x;
    }
  }

  /** The elements of a set in increasing order. */
  function Sorted(s: set<int>): (r: seq<int>)
    ensures Increasing(r)
    ensures forall x :: x in r <==> x in s
  {
    if s == {} then []
    else
      LeastExists(s);
      var m :| m in s && forall x :: x in s ==> m <= x;
      [m] + Sorted(s - {m})
  }

  function Head<T>(s: seq<T>): (x: T)
    requires s != []
    ensures x in s && x == s[0]
  {
    s[0]
  }

  lemma SortedEmpty(s: set<int>)
    ensures Sorted(s) == [] <==> s == {}
  {}

  lemma {:induction false} IncreasingUnique(a: seq<int>, b: seq<int>)
    requires Increasing(a) && Increasing(b)
    requires forall x :: x in a <==> x in b
    ensures a == b
  {
    if a == [] {
      if b != [] {
        var y := Head(b);
        assert false;
      }
    } else {
      var x0 := Head(a);
      var y0 := Head(b);
      forall x
        ensures x in a[1..] <==> x in b[1..]
      {
        assert x in a <==> x == x0 || x in a[1..];
        assert x in b <==> x == y0 || x in b[1..];
      }
      IncreasingUnique(a[1..], b[1..]);
      assert a == [a[0]] + a[1..] && b == [b[0]] + b[1..];
    }
  }

  /** Filtering keeps the order of the elements that stay. */
  lemma {:induction false} FilterOrder<T(!new)>(f: T -> bool, s: seq<T>, i: nat, j: nat)
    requires i < j < |Filter(f, s)|
    ensures exists a, b :: 0 <= a < b < |s| && s[a] == Filter(f, s)[i] && s[b] == Filter(f, s)[j]
  {
    var front := s[..|s| - 1];
    var rest := Filter(f, front);
    if j < |rest| {
      FilterOrder(f, front, i, j);
      var a, b :| 0 <= a < b < |front| && front[a] == rest[i] && front[b] == rest[j];
      assert s[a] == front[a] && s[b] == front[b];
    } else {
      assert rest[i] in front;
      var a :| 0 <= a < |front| && front[a] == rest[i];
      assert s[a] == front[a] && s[|s| - 1] == Filter(f, s)[j];
    }
  }
}
