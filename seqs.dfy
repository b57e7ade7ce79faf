/** `Array.prototype.filter`, `[...new Set(xs)]` and `indexOf` over sequences. */
module Seqs {

  predicate NoDuplicates<T(==)>(xs: seq<T>) {
    forall i, j :: 0 <= i < j < |xs| ==> xs[i] != xs[j]
  }

  /** `xs.filter(p)`: exactly the elements of `xs` that satisfy `p`. */
  function Filter<T(==)>(xs: seq<T>, p: T -> bool): (r: seq<T>)
    ensures |r| <= |xs|
    ensures forall i :: 0 <= i < |r| ==> r[i] in xs && p(r[i])
    ensures forall i :: 0 <= i < |xs| ==> (xs[i] in r <==> p(xs[i]))
  {
    if xs == [] then []
    else if p(xs[0]) then [xs[0]] + Filter(xs[1..], p)
    else Filter(xs[1..], p)
  }

  /** Filtering keeps the input order: it distributes over concatenation. */
  lemma {:induction false} FilterAppend<T>(a: seq<T>, b: seq<T>, p: T -> bool)
    ensures Filter(a + b, p) == Filter(a, p) + Filter(b, p)
  {
    if a != [] {
      assert (a + b)[0] == a[0];
      assert (a + b)[1..] == a[1..] + b;
      FilterAppend(a[1..], b, p);
      if p(a[0]) {
        assert Filter(a + b, p) == [a[0]] + Filter(a[1..] + b, p);
        assert Filter(a, p) == [a[0]] + Filter(a[1..], p);
      }
    } else {
      assert a + b == b;
    }
  }

  /** `xs.map(f)`. */
  function Map<T, U>(xs: seq<T>, f: T -> U): (r: seq<U>)
    ensures |r| == |xs|
    ensures forall i :: 0 <= i < |xs| ==> r[i] == f(xs[i])
  {
    if xs == [] then [] else [f(xs[0])] + Map(xs[1..], f)
  }

  /** Mapping distributes over concatenation. */
  lemma {:induction false} MapAppend<T, U>(a: seq<T>, b: seq<T>, f: T -> U)
    ensures Map(a + b, f) == Map(a, f) + Map(b, f)
  {
    if a == [] {
      assert a + b == b;
    } else {
      assert (a + b)[0] == a[0];
      assert (a + b)[1..] == a[1..] + b;
      MapAppend(a[1..], b, f);
    }
  }

  /** `xs.indexOf(x)` for an element that is present: the position of its first occurrence. */
  function FirstIndex<T(==)>(xs: seq<T>, x: T): (k: nat)
    requires x in xs
    ensures k < |xs| && xs[k] == x
    ensures forall j :: 0 <= j < k ==> xs[j] != x
  {
    if xs[0] == x then 0 else 1 + FirstIndex(xs[1..], x)
  }

  lemma FirstIndexExtend<T>(xs: seq<T>, y: T, x: T)
    requires x in xs
    ensures FirstIndex(xs + [y], x) == FirstIndex(xs, x)
  {
    var k, k' := FirstIndex(xs + [y], x), FirstIndex(xs, x);
    assert (xs + [y])[k'] == x;
  }

  /** `[...new Set(xs)]`: the distinct values of `xs`, each once. */
  function Distinct<T(==)>(xs: seq<T>): (r: seq<T>)
    ensures NoDuplicates(r)
    ensures forall i :: 0 <= i < |r| ==> r[i] in xs
    ensures forall i :: 0 <= i < |xs| ==> xs[i] in r
  {
    if xs == [] then []
    else
      var prev := Distinct(xs[..|xs| - 1]);
      assert xs == xs[..|xs| - 1] + [xs[|xs| - 1]];
      if xs[|xs| - 1] in prev then prev else prev + [xs[|xs| - 1]]
  }

  /** A `Set` iterates in insertion order, so the distinct values come out in
      the order of their first occurrence in `xs`. */
  lemma {:induction false} DistinctFirstSeenOrder<T>(xs: seq<T>)
    ensures forall i, j :: 0 <= i < j < |Distinct(xs)| ==>
              FirstIndex(xs, Distinct(xs)[i]) < FirstIndex(xs, Distinct(xs)[j])
  {
    if xs != [] {
      var p, y := xs[..|xs| - 1], xs[|xs| - 1];
      assert xs == p + [y];
      var prev := Distinct(p);
      DistinctFirstSeenOrder(p);
      forall z | z in p ensures FirstIndex(xs, z) == FirstIndex(p, z) {
        FirstIndexExtend(p, y, z);
      }
      if y !in prev {
        assert Distinct(xs) == prev + [y];
        assert FirstIndex(xs, y) == |p|;
      }
    }
  }

  /** The first `n` distinct values are those first seen earliest: in first-seen order,
      and every value left out is first seen after all of them. */
  lemma DistinctPrefix<T>(xs: seq<T>, n: nat)
    requires n <= |Distinct(xs)|
    ensures forall i, j :: 0 <= i < j < n ==> FirstIndex(xs, Distinct(xs)[..n][i]) < FirstIndex(xs, Distinct(xs)[..n][j])
    ensures forall x :: x in xs && x !in Distinct(xs)[..n] ==>
              forall i :: 0 <= i < n ==> FirstIndex(xs, Distinct(xs)[..n][i]) < FirstIndex(xs, x)
  {
    var u := Distinct(xs);
    var r := u[..n];
    DistinctFirstSeenOrder(xs);
    assert forall i :: 0 <= i < n ==> r[i] == u[i];
    forall x | x in xs && x !in r
      ensures forall i :: 0 <= i < n ==> FirstIndex(xs, r[i]) < FirstIndex(xs, x)
    {
      var p :| 0 <= p < |u| && u[p] == x;
      assert p >= n;
    }
  }
}
