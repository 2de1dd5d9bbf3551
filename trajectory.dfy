/** The trajectory builder: cumulative sums of weighted decisions, the counterfactual path and
    optional mean-centering (`get_coords`). */
module Trajectory {
  import opened Decisions

  /** The sum of a run of decisions (the empty sum is zero). */
  function Sum(s: seq<Pair>): Pair
  {
    if s == [] then Zero else Plus(Sum(s[..|s| - 1]), s[|s| - 1])
  }

  /** A running sum in the way numpy's `cumsum` produces it: each entry adds the next row to the
      total so far. */
  function Scan(acc: Pair, s: seq<Pair>): (r: seq<Pair>)
    ensures |r| == |s|
    decreases |s|
  {
    if s == [] then [] else [Plus(acc, s[0])] + Scan(Plus(acc, s[0]), s[1..])
  }

  /** `np.nancumsum(decisions, axis=0)`: the decisions are finite, so no entry is replaced. */
  function CumSum(s: seq<Pair>): (r: seq<Pair>)
    ensures |r| == |s|
  {
    Scan(Zero, s)
  }

  lemma {:induction false} SumCons(x: Pair, s: seq<Pair>)
    ensures Sum([x] + s) == Plus(x, Sum(s))
    decreases |s|
  {
    if s != [] {
      assert ([x] + s)[..|[x] + s| - 1] == [x] + s[..|s| - 1];
      SumCons(x, s[..|s| - 1]);
    }
  }

  lemma {:induction false} ScanAt(acc: Pair, s: seq<Pair>, i: nat)
    requires i < |s|
    ensures Scan(acc, s)[i] == Plus(acc, Sum(s[..i + 1]))
    decreases |s|
  {
    if i > 0 {
      ScanAt(Plus(acc, s[0]), s[1..], i - 1);
      assert s[..i + 1] == [s[0]] + s[1..][..i];
      SumCons(s[0], s[1..][..i]);
    } else {
      assert s[..1] == [s[0]];
      assert Sum(s[..1]) == Plus(Sum([]), s[0]);
    }
  }

  /** Entry i of the running sum is the sum of the decisions of trials 0..i. */
  lemma CumSumAt(s: seq<Pair>, i: nat)
    requires i < |s|
    ensures CumSum(s)[i] == Sum(s[..i + 1])
  {
    ScanAt(Zero, s, i);
  }

  /** The column-wise mean of a non-empty sequence of points. */
  function Mean(s: seq<Pair>): Pair
    requires |s| > 0
  {
    Scale(Sum(s), 1.0 / (|s| as real))
  }

  /** Every point moved by the same offset. */
  function Shifted(s: seq<Pair>, m: Pair): (r: seq<Pair>)
    ensures |r| == |s|
    ensures forall i :: 0 <= i < |s| ==> r[i] == Minus(s[i], m)
  {
    seq(|s|, i requires 0 <= i < |s| => Minus(s[i], m))
  }

  /** `coords - np.mean(coords, axis=0)`; an empty trajectory stays empty. */
  function Demean(s: seq<Pair>): (r: seq<Pair>)
    ensures |r| == |s|
  {
    if |s| == 0 then s else Shifted(s, Mean(s))
  }

  /** `get_coords`: the running sum of the decisions (`actual`) or that sum minus twice the
      trial's own decision (`counterfactual`), then optionally mean-centred. */
  function GetCoords(d: seq<Pair>, which: CoordType, demean: bool): (r: seq<Pair>)
    ensures |r| == |d|
  {
    var base := match which
      case Actual => CumSum(d)
      case Counterfactual => seq(|d|, i requires 0 <= i < |d| => Minus(CumSum(d)[i], Scale(d[i], 2.0)));
    if demean then Demean(base) else base
  }

  /** The actual coordinate of trial i is the sum of the decisions of trials 0..i. */
  lemma ActualIsPrefixSum(d: seq<Pair>, i: nat)
    requires i < |d|
    ensures GetCoords(d, Actual, false)[i] == Sum(d[..i + 1])
  {
    CumSumAt(d, i);
  }

  /** The counterfactual coordinate is the actual one minus twice the trial's decision, which is
      the path with that one choice reversed and all earlier ones kept. */
  lemma CounterfactualReversesOwnChoice(d: seq<Pair>, i: nat)
    requires i < |d|
    ensures GetCoords(d, Counterfactual, false)[i] == Minus(GetCoords(d, Actual, false)[i], Scale(d[i], 2.0))
    ensures GetCoords(d, Counterfactual, false)[i] == Minus(Sum(d[..i]), d[i])
  {
    CumSumAt(d, i);
    assert d[..i + 1][..i] == d[..i];
  }

  lemma {:induction false} SumShifted(s: seq<Pair>, m: Pair)
    ensures Sum(Shifted(s, m)) == Minus(Sum(s), Scale(m, |s| as real))
    decreases |s|
  {
    if s != [] {
      var k := |s| - 1;
      var t := Shifted(s, m);
      assert t[..k] == Shifted(s[..k], m);
      SumShifted(s[..k], m);
      var n := k as real;
      assert Sum(t) == Plus(Minus(Sum(s[..k]), Scale(m, n)), Minus(s[k], m));
      assert Sum(s) == Plus(Sum(s[..k]), s[k]);
      assert m.affil * n + m.affil == m.affil * (n + 1.0);
      assert m.power * n + m.power == m.power * (n + 1.0);
    }
  }

  lemma ScaleBack(p: Pair, n: real)
    requires n > 0.0
    ensures Scale(Scale(p, 1.0 / n), n) == p
  {
    var q := 1.0 / n;
    assert q * n == 1.0;
    assert p.affil * q * n == p.affil * (q * n);
    assert p.power * q * n == p.power * (q * n);
  }

  /** With mean-centering, every column of the coordinates sums to zero. */
  lemma DemeanedColumnsSumToZero(d: seq<Pair>, which: CoordType)
    ensures Sum(GetCoords(d, which, true)) == Zero
  {
    var base := GetCoords(d, which, false);
    assert GetCoords(d, which, true) == Demean(base);
    if |base| > 0 {
      var n := |base| as real;
      SumShifted(base, Mean(base));
      ScaleBack(Sum(base), n);
    }
  }

  /** Trial 0's actual coordinate reflects only trial 0's decision. */
  lemma FirstCoordinateIsFirstDecision(d: seq<Pair>)
    requires |d| > 0
    ensures GetCoords(d, Actual, false)[0] == d[0]
  {
    var c := GetCoords(d, Actual, false);
    assert c == Scan(Zero, d);
    assert c[0] == Plus(Zero, d[0]);
    assert Plus(Zero, d[0]) == Pair(d[0].affil, d[0].power);
  }
}
