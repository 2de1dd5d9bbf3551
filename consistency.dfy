/** The consistency calculator: the simulated most and least consistent response patterns
    (`simulate_consistent_decisions`) and the min-max scaled running mean of each dimension
    (`calc_cumulative_consistency`). */
module Consistency {
  import opened Floats
  import opened Decisions
  import opened RunningMean

  function AbsReal(x: real): real { if x < 0.0 then -x else x }

  /** The number of answered (non-zero) trials in a column. */
  function Answered(col: seq<real>): nat {
    if col == [] then 0 else Answered(col[..|col| - 1]) + if col[|col| - 1] != 0.0 then 1 else 0
  }

  /** The number of trials answered with -1 in a column. */
  function Negatives(col: seq<real>): nat {
    if col == [] then 0 else Negatives(col[..|col| - 1]) + if col[|col| - 1] == -1.0 then 1 else 0
  }

  /** Entry i of the inconsistent column: the magnitude of the decision, negated on every other
      answered trial (the first answered trial keeps its plus sign). */
  function AltEntry(col: seq<real>, i: nat): real
    requires i < |col|
  {
    if col[i] == 0.0 then 0.0
    else if Answered(col[..i]) % 2 == 0 then AbsReal(col[i])
    else -AbsReal(col[i])
  }

  function Alternate(col: seq<real>): (r: seq<real>)
    ensures |r| == |col|
  {
    seq(|col|, i requires 0 <= i < |col| => AltEntry(col, i))
  }

  function AbsColumn(col: seq<real>): (r: seq<real>)
    ensures |r| == |col|
    ensures forall i :: 0 <= i < |col| ==> r[i] == AbsReal(col[i])
  {
    seq(|col|, i requires 0 <= i < |col| => AbsReal(col[i]))
  }

  /** The "maximally consistent" pattern `np.abs(decisions)`. */
  function Consistent(d: seq<Pair>): (r: seq<Pair>)
    ensures |r| == |d|
  {
    seq(|d|, i requires 0 <= i < |d| => Pair(AbsReal(d[i].affil), AbsReal(d[i].power)))
  }

  /** The "maximally inconsistent" pattern: each column alternates its signs over its own
      answered trials. */
  function Inconsistent(d: seq<Pair>): (r: seq<Pair>)
    ensures |r| == |d|
  {
    var a, p := Alternate(Column(d, Affil)), Alternate(Column(d, Power));
    seq(|d|, i requires 0 <= i < |d| => Pair(a[i], p[i]))
  }

  function Other(dim: Dim): Dim {
    match dim
    case Affil => Power
    case Power => Affil
  }

  /** Writes the inconsistent pattern of column `dim` into the answered rows of `a`, as the
      masked assignment of one loop pass of the source does; the other column is untouched. */
  method FillColumn(a: array<Pair>, d: seq<Pair>, dim: Dim)
    requires a.Length == |d|
    requires forall i :: 0 <= i < |d| ==> Get(a[i], dim) == 0.0
    modifies a
    ensures forall i :: 0 <= i < |d| ==> Get(a[i], dim) == Alternate(Column(d, dim))[i]
    ensures forall i :: 0 <= i < |d| ==> Get(a[i], Other(dim)) == Get(old(a[i]), Other(dim))
  {
    ghost var col := Column(d, dim);
    var k := 0;
    for i := 0 to |d|
      invariant k == Answered(col[..i])
      invariant forall j :: 0 <= j < i ==> Get(a[j], dim) == AltEntry(col, j)
      invariant forall j :: 0 <= j < |d| ==> Get(a[j], Other(dim)) == Get(old(a[j]), Other(dim))
      invariant forall j :: i <= j < |d| ==> a[j] == old(a[j])
    {
      assert col[..i + 1][..i] == col[..i];
      var x := Get(d[i], dim);
      if x != 0.0 {
        a[i] := With(a[i], dim, if k % 2 == 0 then AbsReal(x) else -AbsReal(x));
        k := k + 1;
      }
    }
  }

  /** `simulate_consistent_decisions`: a zero array whose columns are filled one after the other,
      returned with the consistent pattern. */
  method SimulateConsistentDecisions(d: seq<Pair>) returns (incon: seq<Pair>, con: seq<Pair>)
    ensures incon == Inconsistent(d)
    ensures con == Consistent(d)
  {
    var n := |d|;
    var a := new Pair[n](_ => Zero);
    for k := 0 to 2
      invariant forall i :: 0 <= i < n ==> Get(a[i], Affil) == if k > 0 then Alternate(Column(d, Affil))[i] else 0.0
      invariant forall i :: 0 <= i < n ==> Get(a[i], Power) == if k > 1 then Alternate(Column(d, Power))[i] else 0.0
    {
      FillColumn(a, d, if k == 0 then Affil else Power);
    }
    incon := a[..];
    con := Consistent(d);
  }

  /** Each column of the simulated patterns depends on that column of the decisions only. */
  lemma SimulatedColumns(d: seq<Pair>, dim: Dim)
    ensures Column(Inconsistent(d), dim) == Alternate(Column(d, dim))
    ensures Column(Consistent(d), dim) == AbsColumn(Column(d, dim))
  {
  }

  /** The inconsistent pattern has the decisions' magnitudes and zero pattern. */
  lemma InconsistentMagnitudes(d: seq<Pair>, dim: Dim, i: nat)
    requires i < |d|
    ensures AbsReal(Get(Inconsistent(d)[i], dim)) == AbsReal(Get(d[i], dim))
    ensures Get(Inconsistent(d)[i], dim) == 0.0 <==> Get(d[i], dim) == 0.0
    ensures Get(Consistent(d)[i], dim) == AbsReal(Get(d[i], dim))
  {
    SimulatedColumns(d, dim);
    assert Get(Inconsistent(d)[i], dim) == Column(Inconsistent(d), dim)[i];
  }

  lemma {:induction false} AnsweredAcrossZeros(col: seq<real>, j: nat, k: nat)
    requires j < k <= |col|
    requires forall l :: j < l < k ==> col[l] == 0.0
    ensures Answered(col[..k]) == Answered(col[..j]) + (if col[j] != 0.0 then 1 else 0)
    decreases k - j
  {
    assert col[..k][..k - 1] == col[..k - 1];
    if k - 1 > j {
      AnsweredAcrossZeros(col, j, k - 1);
    } else {
      assert col[..j + 1][..j] == col[..j];
    }
  }

  /** The first answered trial of a column is positive in the inconsistent pattern, and from one
      answered trial to the next the sign flips. */
  lemma SignsAlternate(col: seq<real>, j: nat, k: nat)
    requires j < k < |col| && col[j] != 0.0 && col[k] != 0.0
    requires forall l :: j < l < k ==> col[l] == 0.0
    ensures Alternate(col)[k] > 0.0 <==> Alternate(col)[j] < 0.0
  {
    AnsweredAcrossZeros(col, j, k);
  }

  lemma FirstAnsweredIsPositive(col: seq<real>, i: nat)
    requires i < |col| && col[i] != 0.0 && Answered(col[..i]) == 0
    ensures Alternate(col)[i] > 0.0
  {
  }

  // ---------------------------------------------------------------------------------------
  // cumulative consistency
  // ---------------------------------------------------------------------------------------

  /** The running mean of a column, divided by the running sum of its magnitudes (`resp_mask` is
      `np.abs(decisions)` here). */
  function MeanOf(col: seq<real>): (r: seq<Num>)
    ensures |r| == |col|
  {
    LinearCumulativeMean(Fins(col), AbsColumn(col))
  }

  /** The lower envelope: the running mean of the inconsistent pattern. */
  function MinEnvelope(col: seq<real>): (r: seq<Num>)
    ensures |r| == |col|
  {
    LinearCumulativeMean(Fins(Alternate(col)), AbsColumn(col))
  }

  /** The upper envelope: the running mean of the consistent pattern. */
  function MaxEnvelope(col: seq<real>): (r: seq<Num>)
    ensures |r| == |col|
  {
    LinearCumulativeMean(Fins(AbsColumn(col)), AbsColumn(col))
  }

  /** `(|mean| - min) / (max - min)` for one dimension. */
  function ConsistencyColumn(col: seq<real>): (r: seq<Num>)
    ensures |r| == |col|
  {
    var m, lo, hi := MeanOf(col), MinEnvelope(col), MaxEnvelope(col);
    seq(|col|, i requires 0 <= i < |col| => Div(Sub(Abs(m[i]), lo[i]), Sub(hi[i], lo[i])))
  }

  /** The per-dimension part of `calc_cumulative_consistency`. */
  function CalcCumulativeConsistency(d: seq<Pair>): (r: seq<NumPair>)
    ensures |r| == |d|
    ensures forall i :: 0 <= i < |d| ==>
              r[i] == NumPair(ConsistencyColumn(Column(d, Affil))[i], ConsistencyColumn(Column(d, Power))[i])
  {
    var a, p := ConsistencyColumn(Column(d, Affil)), ConsistencyColumn(Column(d, Power));
    seq(|d|, i requires 0 <= i < |d| => NumPair(a[i], p[i]))
  }

  // ---------------------------------------------------------------------------------------
  // the envelope under constant weights
  // ---------------------------------------------------------------------------------------

  predicate AllDecisions(col: seq<real>) { forall j :: 0 <= j < |col| ==> IsDecision(col[j]) }

  lemma {:induction false} AlternatePrefix(col: seq<real>, m: nat)
    requires m <= |col|
    ensures Alternate(col)[..m] == Alternate(col[..m])
  {
    forall j | 0 <= j < m
      ensures Alternate(col)[j] == Alternate(col[..m])[j]
    {
      assert col[..m][..j] == col[..j];
    }
  }

  lemma {:induction false} AbsSumIsAnswered(col: seq<real>)
    requires AllDecisions(col)
    ensures RealSum(AbsColumn(col)) == Answered(col) as real
    decreases |col|
  {
    if col != [] {
      var k := |col| - 1;
      assert AbsColumn(col)[..k] == AbsColumn(col[..k]);
      AbsSumIsAnswered(col[..k]);
    }
  }

  lemma {:induction false} AlternatingSum(col: seq<real>)
    requires AllDecisions(col)
    ensures RealSum(Alternate(col)) == (Answered(col) % 2) as real
    decreases |col|
  {
    if col != [] {
      var k := |col| - 1;
      AlternatePrefix(col, k);
      AlternatingSum(col[..k]);
    }
  }

  lemma {:induction false} DecisionSum(col: seq<real>)
    requires AllDecisions(col)
    ensures Negatives(col) <= Answered(col)
    ensures RealSum(col) == (Answered(col) - 2 * Negatives(col)) as real
    decreases |col|
  {
    if col != [] {
      DecisionSum(col[..|col| - 1]);
    }
  }

  /** A sum of k terms each +1 or -1 has the parity of k and magnitude at most k. */
  lemma ParityBound(k: int, neg: int)
    requires 0 <= neg <= k
    ensures k % 2 <= (if k - 2 * neg < 0 then 2 * neg - k else k - 2 * neg) <= k
  {
    if k % 2 == 1 {
      assert (k - 2 * neg) % 2 == 1;
    }
  }

  lemma SubOverK(a: real, p: real, k: real)
    requires k > 0.0
    ensures a / k - p / k == (a - p) / k
  {
  }

  lemma CancelK(x: real, y: real, k: real)
    requires k > 0.0 && y != 0.0
    ensures (x / k) / (y / k) == x / y
  {
  }

  lemma UnitRatio(x: real, y: real)
    requires 0.0 <= x <= y && y > 0.0
    ensures 0.0 <= x / y <= 1.0
  {
  }

  lemma AbsOverK(s: real, k: real)
    requires k > 0.0
    ensures AbsReal(s / k) == AbsReal(s) / k
  {
    if s < 0.0 {
      assert s / k < 0.0;
      assert -(s / k) == (-s) / k;
    } else {
      assert s / k >= 0.0;
    }
  }

  /** For 0 <= p <= a <= k with p < k, the scaled ratio (a/k - p/k) / (1 - p/k) lies in [0, 1]. */
  lemma RatioInUnitInterval(a: real, p: real, k: real)
    requires 0.0 <= p <= a <= k && p < k
    ensures 1.0 - p / k > 0.0
    ensures 0.0 <= (a / k - p / k) / (1.0 - p / k) <= 1.0
  {
    SubOverK(a, p, k);
    assert k / k == 1.0;
    SubOverK(k, p, k);
    assert (k - p) / k > 0.0;
    CancelK(a - p, k - p, k);
    UnitRatio(a - p, k - p);
  }

  /** The three running means at trial i are the prefix sums divided by the answered count k:
      the signed sum k - 2 * (number of -1s), the alternating sum k mod 2 and k itself. */
  lemma EnvelopeQuotients(col: seq<real>, i: nat)
    requires i < |col| && AllDecisions(col)
    ensures var pre := col[..i + 1];
      var k := Answered(pre) as real;
      && Negatives(pre) <= Answered(pre)
      && MeanOf(col)[i] == Div(Fin((Answered(pre) - 2 * Negatives(pre)) as real), Fin(k))
      && MinEnvelope(col)[i] == Div(Fin((Answered(pre) % 2) as real), Fin(k))
      && MaxEnvelope(col)[i] == Div(Fin(k), Fin(k))
  {
    var pre := col[..i + 1];
    assert AllDecisions(pre);
    var k := Fin(Answered(pre) as real);
    QuotientAt(col, col, i);
    DecisionSum(pre);
    assert MeanOf(col)[i] == Div(Fin(RealSum(pre)), k);
    QuotientAt(Alternate(col), col, i);
    AlternatePrefix(col, i + 1);
    AlternatingSum(pre);
    assert MinEnvelope(col)[i] == Div(Fin(RealSum(Alternate(pre))), k);
    QuotientAt(AbsColumn(col), col, i);
    AbsColumnPrefix(col, i + 1);
    AbsSumIsAnswered(pre);
    assert MaxEnvelope(col)[i] == Div(Fin(RealSum(AbsColumn(pre))), k);
  }

  lemma AbsColumnPrefix(col: seq<real>, k: nat)
    requires k <= |col|
    ensures AbsColumn(col)[..k] == AbsColumn(col[..k])
  {
  }

  /** A running mean over the magnitudes of a decision column: at trial i it is the finite sum of
      entries 0..i over the number of answered trials among them. */
  lemma QuotientAt(v: seq<real>, col: seq<real>, i: nat)
    requires |v| == |col| && i < |col| && AllDecisions(col)
    ensures LinearCumulativeMean(Fins(v), AbsColumn(col))[i]
         == Div(Fin(RealSum(v[..i + 1])), Fin(Answered(col[..i + 1]) as real))
  {
    var pre := col[..i + 1];
    assert AllDecisions(pre);
    LinearMeanAt(Fins(v), AbsColumn(col), i);
    FinsPrefix(v, i + 1);
    NanSumOfFinite(v[..i + 1]);
    AbsColumnPrefix(col, i + 1);
    AbsSumIsAnswered(pre);
  }

  /** The min-max ratio (|s/k| - p/k) / (k/k - p/k) when 0 <= p <= |s| <= k and p < k. */
  lemma RatioOfQuotients(s: real, p: real, k: real)
    requires 0.0 <= p <= AbsReal(s) <= k && p < k
    ensures var r := Div(Sub(Abs(Div(Fin(s), Fin(k))), Div(Fin(p), Fin(k))),
                         Sub(Div(Fin(k), Fin(k)), Div(Fin(p), Fin(k))));
      r.Fin? && 0.0 <= r.v <= 1.0
  {
    var a := AbsReal(s);
    AbsOverK(s, k);
    assert k / k == 1.0;
    RatioInUnitInterval(a, p, k);
    assert Abs(Div(Fin(s), Fin(k))) == Fin(a / k);
    assert Sub(Fin(a / k), Fin(p / k)) == Fin(a / k - p / k);
    assert Sub(Fin(1.0), Fin(p / k)) == Fin(1.0 - p / k);
  }

  lemma ConsistencyAt(col: seq<real>, i: nat)
    requires i < |col|
    ensures ConsistencyColumn(col)[i]
         == Div(Sub(Abs(MeanOf(col)[i]), MinEnvelope(col)[i]), Sub(MaxEnvelope(col)[i], MinEnvelope(col)[i]))
  {
  }

  /** The ratio formula on the quotients of EnvelopeQuotients, for k answered trials of which
      neg were -1. */
  function RatioOfCounts(k: nat, neg: nat): Num {
    var kr := k as real;
    var m, lo, hi := Div(Fin((k - 2 * neg) as real), Fin(kr)), Div(Fin((k % 2) as real), Fin(kr)), Div(Fin(kr), Fin(kr));
    Div(Sub(Abs(m), lo), Sub(hi, lo))
  }

  lemma ParityAbs(k: nat, neg: nat)
    requires neg <= k
    ensures 0.0 <= (k % 2) as real <= AbsReal((k - 2 * neg) as real) <= k as real
  {
    ParityBound(k, neg);
    var s := (k - 2 * neg) as real;
    assert AbsReal(s) == (if k - 2 * neg < 0 then 2 * neg - k else k - 2 * neg) as real;
  }

  lemma RatioOfCountsUnfold(k: nat, neg: nat, s: real, p: real, kr: real)
    requires s == (k - 2 * neg) as real && p == (k % 2) as real && kr == k as real
    ensures RatioOfCounts(k, neg) == Div(Sub(Abs(Div(Fin(s), Fin(kr))), Div(Fin(p), Fin(kr))),
                                         Sub(Div(Fin(kr), Fin(kr)), Div(Fin(p), Fin(kr))))
  {
  }

  /** Once two or more trials are answered the ratio is a number in [0, 1]. */
  lemma RatioOfSeveral(k: nat, neg: nat)
    requires neg <= k && k >= 2
    ensures RatioOfCounts(k, neg).Fin? && 0.0 <= RatioOfCounts(k, neg).v <= 1.0
  {
    var s, p, kr := (k - 2 * neg) as real, (k % 2) as real, k as real;
    ParityAbs(k, neg);
    RatioOfQuotients(s, p, kr);
    RatioOfCountsUnfold(k, neg, s, p, kr);
  }

  lemma UnitQuotient(k: nat)
    requires k >= 1
    ensures Div(Fin(k as real), Fin(k as real)) == Fin(1.0)
  {
    var kr := k as real;
    assert kr / kr == 1.0;
  }

  lemma ParityQuotient(k: nat)
    requires k >= 1
    ensures Div(Fin((k % 2) as real), Fin(k as real)) == Fin((k % 2) as real / k as real)
  {
  }

  lemma RatioOfOne(neg: nat)
    requires neg <= 1
    ensures RatioOfCounts(1, neg).NaN?
  {
    assert Abs(Div(Fin((1 - 2 * neg) as real), Fin(1.0))) == Fin(1.0);
  }

  lemma EnvelopeAt(col: seq<real>, i: nat)
    requires i < |col| && AllDecisions(col)
    ensures var pre := col[..i + 1];
      && Negatives(pre) <= Answered(pre)
      && MinEnvelope(col)[i] == Div(Fin((Answered(pre) % 2) as real), Fin(Answered(pre) as real))
      && MaxEnvelope(col)[i] == Div(Fin(Answered(pre) as real), Fin(Answered(pre) as real))
      && ConsistencyColumn(col)[i] == RatioOfCounts(Answered(pre), Negatives(pre))
  {
    EnvelopeQuotients(col, i);
    ConsistencyAt(col, i);
  }

  lemma EnvelopeOfNone(col: seq<real>, i: nat)
    requires i < |col| && AllDecisions(col) && Answered(col[..i + 1]) == 0
    ensures ConsistencyColumn(col)[i].NaN?
  {
    EnvelopeAt(col, i);
  }

  lemma EnvelopeOfOne(col: seq<real>, i: nat)
    requires i < |col| && AllDecisions(col) && Answered(col[..i + 1]) == 1
    ensures MinEnvelope(col)[i] == MaxEnvelope(col)[i] && ConsistencyColumn(col)[i].NaN?
  {
    var pre := col[..i + 1];
    EnvelopeAt(col, i);
    assert Answered(pre) == 1 && 1 % 2 == 1;
    RatioOfOne(Negatives(pre));
  }

  lemma EnvelopeOfSeveral(col: seq<real>, i: nat)
    requires i < |col| && AllDecisions(col) && Answered(col[..i + 1]) >= 2
    ensures MinEnvelope(col)[i] == Fin((Answered(col[..i + 1]) % 2) as real / Answered(col[..i + 1]) as real)
    ensures MaxEnvelope(col)[i] == Fin(1.0)
    ensures ConsistencyColumn(col)[i].Fin? && 0.0 <= ConsistencyColumn(col)[i].v <= 1.0
  {
    var k := Answered(col[..i + 1]);
    EnvelopeAt(col, i);
    RatioOfSeveral(k, Negatives(col[..i + 1]));
    UnitQuotient(k);
    ParityQuotient(k);
  }

  /** With constant weights (every entry -1, 0 or +1) and k answered trials among 0..i: for
      k >= 2 the envelope is [(k mod 2)/k, 1] and the consistency lies in [0, 1]; for k = 1 the two
      envelopes coincide and the ratio is NaN; before any answer it is NaN. */
  lemma ConstantWeightEnvelope(col: seq<real>, i: nat)
    requires i < |col| && AllDecisions(col)
    ensures Answered(col[..i + 1]) >= 2 ==>
              && MinEnvelope(col)[i] == Fin((Answered(col[..i + 1]) % 2) as real / Answered(col[..i + 1]) as real)
              && MaxEnvelope(col)[i] == Fin(1.0)
              && ConsistencyColumn(col)[i].Fin?
              && 0.0 <= ConsistencyColumn(col)[i].v <= 1.0
    ensures Answered(col[..i + 1]) == 1 ==>
              MinEnvelope(col)[i] == MaxEnvelope(col)[i] && ConsistencyColumn(col)[i].NaN?
    ensures Answered(col[..i + 1]) == 0 ==> ConsistencyColumn(col)[i].NaN?
  {
    var k := Answered(col[..i + 1]);
    if k >= 2 {
      EnvelopeOfSeveral(col, i);
    } else if k == 1 {
      EnvelopeOfOne(col, i);
    } else {
      EnvelopeOfNone(col, i);
    }
  }
}
