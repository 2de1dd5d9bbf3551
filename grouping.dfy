/** Splitting the trials into trajectories by label and merging them back: `np.unique` of the
    labels, `np.where(labels == label)` for each, and the sort by `trial_index` that restores the
    trial order after the per-label results are stacked. */
module Grouping {

  predicate Increasing(s: seq<real>) {
    forall i, j :: 0 <= i < j < |s| ==> s[i] < s[j]
  }

  predicate IncreasingNat(s: seq<nat>) {
    forall i, j :: 0 <= i < j < |s| ==> s[i] < s[j]
  }

  predicate NonDecreasing(s: seq<nat>) {
    forall i, j :: 0 <= i < j < |s| ==> s[i] <= s[j]
  }

  // ---------------------------------------------------------------------------------------
  // np.unique
  // ---------------------------------------------------------------------------------------

  function InsertUnique(x: real, s: seq<real>): (r: seq<real>)
    requires Increasing(s)
    ensures Increasing(r)
    ensures forall y :: y in r <==> y == x || y in s
  {
    if s == [] then [x]
    else if x < s[0] then [x] + s
    else if x == s[0] then s
    else
      var rest := InsertUnique(x, s[1..]);
      assert forall j :: 0 <= j < |rest| ==> rest[j] in rest;
      [s[0]] + rest
  }

  /** `np.unique(labels)`: the distinct labels in ascending order. */
  function Unique(labels: seq<real>): (r: seq<real>)
    ensures Increasing(r)
    ensures forall y :: y in r <==> y in labels
  {
    if labels == [] then []
    else
      var front := Unique(labels[..|labels| - 1]);
      assert labels == labels[..|labels| - 1] + [labels[|labels| - 1]];
      InsertUnique(labels[|labels| - 1], front)
  }

  // ---------------------------------------------------------------------------------------
  // np.where
  // ---------------------------------------------------------------------------------------

  /** `np.where(labels == l)[0]`: the positions carrying label l, in ascending order. */
  function Positions(labels: seq<real>, l: real): (r: seq<nat>)
    ensures IncreasingNat(r)
    ensures forall j :: 0 <= j < |r| ==> r[j] < |labels| && labels[r[j]] == l
    ensures forall i :: 0 <= i < |labels| && labels[i] == l ==> i in r
  {
    if labels == [] then []
    else
      var k := |labels| - 1;
      var front := Positions(labels[..k], l);
      front + if labels[k] == l then [k] else []
  }

  function Range(n: nat): (r: seq<nat>)
    ensures |r| == n
    ensures forall i :: 0 <= i < n ==> r[i] == i
  {
    seq(n, i requires 0 <= i < n => i)
  }

  lemma {:induction false} RangeCount(n: nat, x: nat)
    ensures multiset(Range(n))[x] == if x < n then 1 else 0
  {
    if n > 0 {
      assert Range(n) == Range(n - 1) + [n - 1];
      RangeCount(n - 1, x);
    }
  }

  lemma {:induction false} PositionsCount(labels: seq<real>, l: real, x: nat)
    ensures multiset(Positions(labels, l))[x] == if x < |labels| && labels[x] == l then 1 else 0
    decreases |labels|
  {
    if labels != [] {
      var k := |labels| - 1;
      var front := labels[..k];
      var last: seq<nat> := if labels[k] == l then [k] else [];
      PositionsCount(front, l, x);
      assert Positions(labels, l) == Positions(front, l) + last;
      assert multiset(Positions(labels, l)) == multiset(Positions(front, l)) + multiset(last);
      assert multiset(last)[x] == if x == k && labels[k] == l then 1 else 0;
      if x < k {
        assert front[x] == labels[x];
      }
    }
  }

  /** The stacking order of the per-label results: the positions of each label in turn. */
  function GroupOrder(labels: seq<real>, order: seq<real>): seq<nat> {
    if order == [] then []
    else GroupOrder(labels, order[..|order| - 1]) + Positions(labels, order[|order| - 1])
  }

  lemma GroupOrderSnoc(labels: seq<real>, order: seq<real>)
    requires order != []
    ensures GroupOrder(labels, order) == GroupOrder(labels, order[..|order| - 1]) + Positions(labels, order[|order| - 1])
  {
  }

  lemma InSnoc(s: seq<real>, y: real)
    requires s != []
    ensures y in s <==> y in s[..|s| - 1] || y == s[|s| - 1]
  {
    assert s == s[..|s| - 1] + [s[|s| - 1]];
  }

  lemma LastNotInFront(order: seq<real>)
    requires Increasing(order) && |order| > 0
    ensures order[|order| - 1] !in order[..|order| - 1]
  {
  }

  lemma {:induction false} GroupOrderCount(labels: seq<real>, order: seq<real>, x: nat)
    requires Increasing(order)
    ensures multiset(GroupOrder(labels, order))[x] == if x < |labels| && labels[x] in order then 1 else 0
    decreases |order|
  {
    if order != [] {
      var k := |order| - 1;
      var front, last := order[..k], order[k];
      assert Increasing(front);
      GroupOrderCount(labels, front, x);
      PositionsCount(labels, last, x);
      LastNotInFront(order);
      var g: seq<nat>, p: seq<nat> := GroupOrder(labels, front), Positions(labels, last);
      GroupOrderSnoc(labels, order);
      var total: nat := multiset(GroupOrder(labels, order))[x];
      assert total == multiset(g)[x] + multiset(p)[x];
      if x < |labels| {
        var y := labels[x];
        InSnoc(order, y);
        if y == last {
          assert y !in front;
          assert total == 1;
        } else {
          assert multiset(p)[x] == 0;
        }
      } else {
        assert total == 0;
      }
    }
  }

  /** Every trial lands in exactly one group: the stacked positions are a permutation of 0..n-1. */
  lemma GroupOrderIsPermutation(labels: seq<real>)
    ensures multiset(GroupOrder(labels, Unique(labels))) == multiset(Range(|labels|))
  {
    forall x: nat
      ensures multiset(GroupOrder(labels, Unique(labels)))[x] == multiset(Range(|labels|))[x]
    {
      GroupOrderCount(labels, Unique(labels), x);
      RangeCount(|labels|, x);
      if x < |labels| {
        assert labels[x] in labels;
      }
    }
    var a, b := multiset(GroupOrder(labels, Unique(labels))), multiset(Range(|labels|));
    forall x | x in a ensures a[x] == b[x] { }
    forall x | x in b ensures a[x] == b[x] { }
  }

  // ---------------------------------------------------------------------------------------
  // sorting by key
  // ---------------------------------------------------------------------------------------

  function KeysOf<T>(s: seq<T>, key: T -> nat): (r: seq<nat>)
    ensures |r| == |s|
    ensures forall i :: 0 <= i < |s| ==> r[i] == key(s[i])
  {
    seq(|s|, i requires 0 <= i < |s| => key(s[i]))
  }

  lemma KeysOfCons<T>(x: T, s: seq<T>, key: T -> nat)
    ensures KeysOf([x] + s, key) == [key(x)] + KeysOf(s, key)
  {
  }

  lemma KeysOfAppend<T>(a: seq<T>, b: seq<T>, key: T -> nat)
    ensures KeysOf(a + b, key) == KeysOf(a, key) + KeysOf(b, key)
  {
  }

  function InsertBy<T>(x: T, s: seq<T>, key: T -> nat): (r: seq<T>)
    requires NonDecreasing(KeysOf(s, key))
    ensures NonDecreasing(KeysOf(r, key))
    ensures multiset(r) == multiset(s) + multiset{x}
    ensures multiset(KeysOf(r, key)) == multiset(KeysOf(s, key)) + multiset{key(x)}
  {
    if s == [] then [x]
    else if key(x) <= key(s[0]) then
      KeysOfCons(x, s, key);
      [x] + s
    else
      var rest := InsertBy(x, s[1..], key);
      InsertBehindHead(x, s, rest, key);
      [s[0]] + rest
  }

  /** Inserting x behind a head whose key is smaller keeps the keys ascending and the contents. */
  lemma InsertBehindHead<T>(x: T, s: seq<T>, rest: seq<T>, key: T -> nat)
    requires |s| > 0 && key(s[0]) < key(x)
    requires NonDecreasing(KeysOf(s, key))
    requires NonDecreasing(KeysOf(rest, key))
    requires multiset(rest) == multiset(s[1..]) + multiset{x}
    requires multiset(KeysOf(rest, key)) == multiset(KeysOf(s[1..], key)) + multiset{key(x)}
    ensures NonDecreasing(KeysOf([s[0]] + rest, key))
    ensures multiset([s[0]] + rest) == multiset(s) + multiset{x}
    ensures multiset(KeysOf([s[0]] + rest, key)) == multiset(KeysOf(s, key)) + multiset{key(x)}
  {
    KeysOfCons(s[0], s[1..], key);
    KeysOfCons(s[0], rest, key);
    assert s == [s[0]] + s[1..];
    var u := KeysOf(s[1..], key) + [key(x)];
    assert multiset(u) == multiset(KeysOf(s[1..], key)) + multiset{key(x)};
    assert forall j :: 0 <= j < |u| ==> key(s[0]) <= u[j];
    LowerBound(KeysOf(rest, key), u, key(s[0]));
  }

  lemma LowerBound(t: seq<nat>, u: seq<nat>, b: nat)
    requires multiset(t) == multiset(u)
    requires forall j :: 0 <= j < |u| ==> b <= u[j]
    ensures forall j :: 0 <= j < |t| ==> b <= t[j]
  {
    forall j | 0 <= j < |t|
      ensures b <= t[j]
    {
      assert t[j] in multiset(u);
    }
  }

  /** `sort_values(by=key)`: the rows reordered so their keys ascend. */
  function SortBy<T>(s: seq<T>, key: T -> nat): (r: seq<T>)
    ensures NonDecreasing(KeysOf(r, key))
    ensures multiset(r) == multiset(s)
    ensures multiset(KeysOf(r, key)) == multiset(KeysOf(s, key))
  {
    if s == [] then []
    else
      var k := |s| - 1;
      assert s == s[..k] + [s[k]];
      assert KeysOf(s, key) == KeysOf(s[..k], key) + [key(s[k])];
      InsertBy(s[k], SortBy(s[..k], key), key)
  }

  /** Two ascending sequences with the same elements are the same sequence. */
  lemma {:induction false} SortedEqual(a: seq<nat>, b: seq<nat>)
    requires NonDecreasing(a) && NonDecreasing(b) && multiset(a) == multiset(b)
    ensures a == b
    decreases |a|
  {
    if a != [] {
      SortedHeadsEqual(a, b);
      TailMultiset(a);
      TailMultiset(b);
      assert NonDecreasing(a[1..]) && NonDecreasing(b[1..]);
      SortedEqual(a[1..], b[1..]);
      assert a == [a[0]] + a[1..];
      assert b == [b[0]] + b[1..];
    } else {
      assert |b| == |multiset(b)|;
    }
  }

  lemma SortedHeadsEqual(a: seq<nat>, b: seq<nat>)
    requires NonDecreasing(a) && NonDecreasing(b) && multiset(a) == multiset(b) && a != []
    ensures b != [] && a[0] == b[0]
  {
    assert a[0] in multiset(b);
    var i :| 0 <= i < |b| && b[i] == a[0];
    assert b[0] in multiset(a);
    var j :| 0 <= j < |a| && a[j] == b[0];
    assert b[0] <= b[i] && a[0] <= a[j];
  }

  lemma TailMultiset(a: seq<nat>)
    requires a != []
    ensures multiset(a[1..]) == multiset(a) - multiset{a[0]}
  {
    assert a == [a[0]] + a[1..];
  }

  /** Sorting rows whose keys are a permutation of 0..n-1 puts key i in row i. */
  lemma SortedPermutationIsRange<T>(s: seq<T>, key: T -> nat, n: nat)
    requires multiset(KeysOf(s, key)) == multiset(Range(n))
    ensures KeysOf(SortBy(s, key), key) == Range(n)
  {
    SortedEqual(KeysOf(SortBy(s, key), key), Range(n));
  }
}
