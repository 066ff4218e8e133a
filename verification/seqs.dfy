/**
 * The array operations the screens use, stated once: `Array.prototype.filter`
 * (order-preserving selection) and `Array.from(new Set(xs))` (duplicate removal
 * that keeps first occurrences in insertion order).
 */
module Seqs {

  /** `a` can be obtained from `b` by deleting elements, keeping order. */
  predicate IsSubsequence<T(==,!new)>(a: seq<T>, b: seq<T>)
    decreases |b|
  {
    if |a| == 0 then true
    else if |b| == 0 then false
    else if a[0] == b[0] then IsSubsequence(a[1..], b[1..])
    else IsSubsequence(a, b[1..])
  }

  /** No element occurs twice. */
  predicate Distinct<T(==,!new)>(s: seq<T>) {
    forall i, j :: 0 <= i < j < |s| ==> s[i] != s[j]
  }

  /**
   * `xs.filter(keep)`: exactly the occurrences that satisfy `keep`, in their
   * original order, each with its original multiplicity.
   */
  function Filter<T(==,!new)>(xs: seq<T>, keep: T -> bool): (r: seq<T>)
    ensures IsSubsequence(r, xs)
    ensures forall y :: y in r <==> y in xs && keep(y)
    ensures forall y :: keep(y) ==> multiset(r)[y] == multiset(xs)[y]
    ensures forall y :: !keep(y) ==> multiset(r)[y] == 0
    ensures |r| <= |xs|
  {
    if |xs| == 0 then []
    else
      var rest := Filter(xs[1..], keep);
      assert xs == [xs[0]] + xs[1..];
      assert multiset(xs) == multiset{xs[0]} + multiset(xs[1..]);
      if keep(xs[0]) then
        var r := [xs[0]] + rest;
        assert r[1..] == rest;
        assert multiset(r) == multiset{xs[0]} + multiset(rest);
        r
      else
        rest
  }

  /** Every element of `xs` is kept: filtering changes nothing. */
  lemma {:induction false} FilterAllKept<T(!new)>(xs: seq<T>, keep: T -> bool)
    requires forall i :: 0 <= i < |xs| ==> keep(xs[i])
    ensures Filter(xs, keep) == xs
  {
    if |xs| > 0 {
      FilterAllKept(xs[1..], keep);
      assert xs == [xs[0]] + xs[1..];
    }
  }

  /** Filtering distributes over concatenation. */
  lemma {:induction false} FilterAppend<T(!new)>(xs: seq<T>, ys: seq<T>, keep: T -> bool)
    ensures Filter(xs + ys, keep) == Filter(xs, keep) + Filter(ys, keep)
  {
    if |xs| == 0 {
      assert xs + ys == ys;
    } else {
      assert (xs + ys)[1..] == xs[1..] + ys;
      FilterAppend(xs[1..], ys, keep);
    }
  }

  /** The position of the first occurrence of `y` in `xs`. */
  function FirstIndex<T(==)>(xs: seq<T>, y: T): (i: nat)
    requires y in xs
    ensures i < |xs| && xs[i] == y
    ensures forall k :: 0 <= k < i ==> xs[k] != y
  {
    if xs[0] == y then 0 else 1 + FirstIndex(xs[1..], y)
  }

  /** Appending an element does not move the first occurrence of anything already present. */
  lemma FirstIndexSnoc<T>(xs: seq<T>, x: T, y: T)
    requires y in xs
    ensures y in xs + [x] && FirstIndex(xs + [x], y) == FirstIndex(xs, y)
  {
    var i := FirstIndex(xs, y);
    var j := FirstIndex(xs + [x], y);
    assert (xs + [x])[i] == y;
    assert forall k :: 0 <= k < |xs| ==> (xs + [x])[k] == xs[k];
  }

  /**
   * `Array.from(new Set(xs))`: a Set iterates in insertion order, and
   * re-inserting an element already present does not move it. So the result
   * holds each member once, ordered by where it first occurs in `xs`.
   */
  function Dedup<T(==,!new)>(xs: seq<T>): (r: seq<T>)
    ensures Distinct(r)
    ensures forall y :: y in r <==> y in xs
    ensures forall i, j :: 0 <= i < j < |r| ==> FirstIndex(xs, r[i]) < FirstIndex(xs, r[j])
    ensures Distinct(xs) ==> r == xs
    ensures |r| <= |xs|
  {
    if |xs| == 0 then []
    else
      var init := xs[..|xs| - 1];
      var last := xs[|xs| - 1];
      var d := Dedup(init);
      assert xs == init + [last];
      forall y | y in init
        ensures FirstIndex(xs, y) == FirstIndex(init, y)
      {
        FirstIndexSnoc(init, last, y);
      }
      if last in d then d
      else
        assert Distinct(xs) ==> Distinct(init) && last !in init;
        assert FirstIndex(xs, last) == |init|;
        var r := d + [last];
        assert forall i :: 0 <= i < |d| ==> r[i] == d[i] && r[i] in init;
        r
  }
}
