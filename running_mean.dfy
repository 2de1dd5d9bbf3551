/** Running (cumulative) means of one column, as `calc_cumulative_mean` computes them: the linear
    mean is a NaN-skipping cumulative sum over a cumulative response count, and the circular mean
    recomputes a circular mean at each responded trial and carries the last value forward otherwise. */
module RunningMean {
  import opened Floats

  // ---------------------------------------------------------------------------------------
  // NaN-skipping sums
  // ---------------------------------------------------------------------------------------

  /** The sum of a column with NaN entries counted as zero, as `np.nansum` gives it. */
  function NanSum(s: seq<Num>): Num {
    if s == [] then Fin(0.0) else Add(NanSum(s[..|s| - 1]), NanToZero(s[|s| - 1]))
  }

  /** The running sum of `np.nancumsum`: each entry adds the next value (NaN read as zero) to the
      total so far. */
  function NanScan(acc: Num, s: seq<Num>): (r: seq<Num>)
    ensures |r| == |s|
    decreases |s|
  {
    if s == [] then [] else
      var a := Add(acc, NanToZero(s[0]));
      [a] + NanScan(a, s[1..])
  }

  function NanCumSum(s: seq<Num>): (r: seq<Num>)
    ensures |r| == |s|
  {
    NanScan(Fin(0.0), s)
  }

  lemma AddAssociative(a: Num, b: Num, c: Num)
    ensures Add(Add(a, b), c) == Add(a, Add(b, c))
  {
  }

  lemma {:induction false} NanSumCons(x: Num, s: seq<Num>)
    ensures NanSum([x] + s) == Add(NanToZero(x), NanSum(s))
    decreases |s|
  {
    if s == [] {
      assert [x] + s == [x];
      assert [x][..0] == [];
    } else {
      var k := |s| - 1;
      assert ([x] + s)[..k + 1] == [x] + s[..k];
      NanSumCons(x, s[..k]);
      AddAssociative(NanToZero(x), NanSum(s[..k]), NanToZero(s[k]));
    }
  }

  lemma {:induction false} NanScanAt(acc: Num, s: seq<Num>, i: nat)
    requires i < |s|
    ensures NanScan(acc, s)[i] == Add(acc, NanSum(s[..i + 1]))
    decreases |s|
  {
    var a := Add(acc, NanToZero(s[0]));
    if i > 0 {
      NanScanAt(a, s[1..], i - 1);
      assert s[..i + 1] == [s[0]] + s[1..][..i];
      NanSumCons(s[0], s[1..][..i]);
      AddAssociative(acc, NanToZero(s[0]), NanSum(s[1..][..i]));
    } else {
      assert s[..1] == [s[0]];
      assert s[..1][..0] == [];
    }
  }

  /** Entry i of `np.nancumsum` is the NaN-skipping sum of entries 0..i. */
  lemma NanCumSumAt(s: seq<Num>, i: nat)
    requires i < |s|
    ensures NanCumSum(s)[i] == NanSum(s[..i + 1])
  {
    NanScanAt(Fin(0.0), s, i);
  }

  // ---------------------------------------------------------------------------------------
  // masks
  // ---------------------------------------------------------------------------------------

  function Fins(s: seq<real>): (r: seq<Num>)
    ensures |r| == |s|
    ensures forall i :: 0 <= i < |s| ==> r[i] == Fin(s[i])
  {
    seq(|s|, i requires 0 <= i < |s| => Fin(s[i]))
  }

  lemma FinsPrefix(s: seq<real>, k: nat)
    requires k <= |s|
    ensures Fins(s)[..k] == Fins(s[..k])
  {
  }

  /** A boolean response mask as the numbers numpy sums it as. */
  function MaskOf(b: seq<bool>): (r: seq<real>)
    ensures |r| == |b|
    ensures forall i :: 0 <= i < |b| ==> r[i] == if b[i] then 1.0 else 0.0
  {
    seq(|b|, i requires 0 <= i < |b| => if b[i] then 1.0 else 0.0)
  }

  lemma MaskPrefix(b: seq<bool>, k: nat)
    requires k <= |b|
    ensures MaskOf(b)[..k] == MaskOf(b[..k])
  {
  }

  /** The default mask `np.ones(values.shape, dtype=bool)`. */
  function Ones(n: nat): (r: seq<bool>)
    ensures |r| == n
    ensures forall i :: 0 <= i < n ==> r[i]
  {
    seq(n, _ => true)
  }

  function RealSum(s: seq<real>): real {
    if s == [] then 0.0 else RealSum(s[..|s| - 1]) + s[|s| - 1]
  }

  function CountTrue(b: seq<bool>): nat {
    if b == [] then 0 else CountTrue(b[..|b| - 1]) + if b[|b| - 1] then 1 else 0
  }

  lemma {:induction false} NanSumOfFinite(s: seq<real>)
    ensures NanSum(Fins(s)) == Fin(RealSum(s))
    decreases |s|
  {
    if s != [] {
      var k := |s| - 1;
      assert Fins(s)[..k] == Fins(s[..k]);
      NanSumOfFinite(s[..k]);
    }
  }

  lemma {:induction false} MaskSumIsCount(b: seq<bool>)
    ensures RealSum(MaskOf(b)) == CountTrue(b) as real
    decreases |b|
  {
    if b != [] {
      var k := |b| - 1;
      assert MaskOf(b)[..k] == MaskOf(b[..k]);
      MaskSumIsCount(b[..k]);
    }
  }

  lemma {:induction false} CountAllTrue(b: seq<bool>)
    requires forall i :: 0 <= i < |b| ==> b[i]
    ensures CountTrue(b) == |b|
    decreases |b|
  {
    if b != [] {
      CountAllTrue(b[..|b| - 1]);
    }
  }

  // ---------------------------------------------------------------------------------------
  // linear running mean
  // ---------------------------------------------------------------------------------------

  /** The linear branch of `calc_cumulative_mean`: `nancumsum(values) / nancumsum(mask)`. The
      numerator sums every value, whether or not its mask entry is set. */
  function LinearCumulativeMean(values: seq<Num>, mask: seq<real>): (r: seq<Num>)
    requires |values| == |mask|
    ensures |r| == |values|
  {
    var num := NanCumSum(values);
    var den := NanCumSum(Fins(mask));
    seq(|values|, i requires 0 <= i < |values| => Div(num[i], den[i]))
  }

  /** Entry i is the NaN-skipping sum of values 0..i over the sum of mask entries 0..i. */
  lemma LinearMeanAt(values: seq<Num>, mask: seq<real>, i: nat)
    requires |values| == |mask| && i < |values|
    ensures LinearCumulativeMean(values, mask)[i] == Div(NanSum(values[..i + 1]), Fin(RealSum(mask[..i + 1])))
  {
    NanCumSumAt(values, i);
    NanCumSumAt(Fins(mask), i);
    FinsPrefix(mask, i + 1);
    NanSumOfFinite(mask[..i + 1]);
  }

  /** With a boolean mask the divisor is the number of masked trials among 0..i. */
  lemma MaskedMeanAt(values: seq<Num>, b: seq<bool>, i: nat)
    requires |values| == |b| && i < |values|
    ensures LinearCumulativeMean(values, MaskOf(b))[i] == Div(NanSum(values[..i + 1]), Fin(CountTrue(b[..i + 1]) as real))
  {
    var pre := b[..i + 1];
    LinearMeanAt(values, MaskOf(b), i);
    MaskPrefix(b, i + 1);
    MaskSumIsCount(pre);
    assert RealSum(MaskOf(b)[..i + 1]) == CountTrue(pre) as real;
  }

  /** Without a mask (every entry set) the divisor is i + 1, also for NaN entries. */
  lemma UnmaskedMeanAt(values: seq<Num>, i: nat)
    requires i < |values|
    ensures LinearCumulativeMean(values, MaskOf(Ones(|values|)))[i] == Div(NanSum(values[..i + 1]), Fin((i + 1) as real))
  {
    MaskedMeanAt(values, Ones(|values|), i);
    CountAllTrue(Ones(|values|)[..i + 1]);
  }

  /** Before the first masked trial the mean is undefined (NaN or an infinity), never a number. */
  lemma UnansweredMeanIsUndefined(values: seq<Num>, b: seq<bool>, i: nat)
    requires |values| == |b| && i < |values|
    requires CountTrue(b[..i + 1]) == 0
    ensures !LinearCumulativeMean(values, MaskOf(b))[i].Fin?
  {
    MaskedMeanAt(values, b, i);
  }

  /** On finite values with at least one masked trial the mean is the plain quotient. */
  lemma FiniteMeanAt(values: seq<real>, b: seq<bool>, i: nat)
    requires |values| == |b| && i < |values|
    requires CountTrue(b[..i + 1]) > 0
    ensures LinearCumulativeMean(Fins(values), MaskOf(b))[i] == Fin(RealSum(values[..i + 1]) / CountTrue(b[..i + 1]) as real)
  {
    var pre := values[..i + 1];
    MaskedMeanAt(Fins(values), b, i);
    FinsPrefix(values, i + 1);
    NanSumOfFinite(pre);
    FiniteQuotient(RealSum(pre), CountTrue(b[..i + 1]) as real);
  }

  lemma FiniteQuotient(x: real, y: real)
    requires y > 0.0
    ensures Div(Fin(x), Fin(y)) == Fin(x / y)
  {
  }

  // ---------------------------------------------------------------------------------------
  // circular running mean
  // ---------------------------------------------------------------------------------------

  /** The value the circular branch stores for trial c. At c = 0 without a response the source
      copies `means[-1]`, the last slot of the zero-initialised array, which is still 0. */
  function CircularAt(values: seq<Num>, mask: seq<bool>, circMean: seq<Num> -> Num, c: nat): Num
    requires |values| == |mask| && c < |values|
  {
    if mask[c] then (if c == 0 then values[0] else circMean(values[..c + 1]))
    else if c == 0 then Fin(0.0)
    else CircularAt(values, mask, circMean, c - 1)
  }

  function CircularMeans(values: seq<Num>, mask: seq<bool>, circMean: seq<Num> -> Num): (r: seq<Num>)
    requires |values| == |mask|
    ensures |r| == |values|
  {
    seq(|values|, c requires 0 <= c < |values| => CircularAt(values, mask, circMean, c))
  }

  /** The circular branch of `calc_cumulative_mean`: a zero-initialised array filled trial by trial,
      a responded trial getting the circular mean of all values so far (the value itself at trial
      0) and an unresponded one the previous slot. */
  method CalcCircularMean(values: seq<Num>, mask: seq<bool>, circMean: seq<Num> -> Num)
    returns (means: seq<Num>)
    requires |values| == |mask|
    ensures means == CircularMeans(values, mask, circMean)
  {
    var n := |values|;
    var m := new Num[n](_ => Fin(0.0));
    for c := 0 to n
      invariant forall j :: 0 <= j < c ==> m[j] == CircularAt(values, mask, circMean, j)
      invariant forall j :: c <= j < n ==> m[j] == Fin(0.0)
    {
      if mask[c] {
        if c == 0 {
          m[c] := values[c];
        } else {
          m[c] := circMean(values[..c + 1]);
        }
      } else {
        m[c] := m[if c == 0 then n - 1 else c - 1];
      }
    }
    means := m[..];
  }

  /** Across a run of unresponded trials the circular mean stays at its value before the run. */
  lemma {:induction false} CircularCarriesForward(values: seq<Num>, mask: seq<bool>, circMean: seq<Num> -> Num, k: nat, i: nat)
    requires |values| == |mask| && k <= i < |values|
    requires forall j :: k < j <= i ==> !mask[j]
    ensures CircularMeans(values, mask, circMean)[i] == CircularMeans(values, mask, circMean)[k]
    decreases i - k
  {
    if k < i {
      CircularCarriesForward(values, mask, circMean, k, i - 1);
    }
  }

  /** The circular mean at trial i is the one computed at the last responded trial j <= i: the
      value itself when j = 0, the circular mean of values 0..j otherwise. */
  lemma CircularMeanOfLastResponse(values: seq<Num>, mask: seq<bool>, circMean: seq<Num> -> Num, j: nat, i: nat)
    requires |values| == |mask| && j <= i < |values|
    requires mask[j] && forall l :: j < l <= i ==> !mask[l]
    ensures CircularMeans(values, mask, circMean)[i] == if j == 0 then values[0] else circMean(values[..j + 1])
  {
    CircularCarriesForward(values, mask, circMean, j, i);
  }

  /** With no response yet the circular mean is 0, the array's initial value. */
  lemma {:induction false} CircularMeanBeforeAnyResponse(values: seq<Num>, mask: seq<bool>, circMean: seq<Num> -> Num, i: nat)
    requires |values| == |mask| && i < |values|
    requires forall l :: 0 <= l <= i ==> !mask[l]
    ensures CircularMeans(values, mask, circMean)[i] == Fin(0.0)
  {
    CircularCarriesForward(values, mask, circMean, 0, i);
  }
}
