/** Decision selection and weighting: the first stage of `ComputeBehavior2`, which turns the raw
    per-trial (affil, power) choices into the weighted decision vectors the trajectory is built from. */
module Decisions {
  import opened Wrappers
  import opened Floats

  /** One trial's decision projected on the two dimensions, as one row of an n x 2 array. */
  datatype Pair = Pair(affil: real, power: real)

  /** A row of an n x 2 array whose entries may be NaN or infinite. */
  datatype NumPair = NumPair(affil: Num, power: Num)

  datatype Dim = Affil | Power

  const Zero := Pair(0.0, 0.0)

  function Get(p: Pair, dim: Dim): real {
    match dim
    case Affil => p.affil
    case Power => p.power
  }

  /** The pair with the entry of `dim` replaced by `x`. */
  function With(p: Pair, dim: Dim, x: real): (r: Pair)
    ensures Get(r, dim) == x
    ensures forall e: Dim :: e != dim ==> Get(r, e) == Get(p, e)
  {
    match dim
    case Affil => p.(affil := x)
    case Power => p.(power := x)
  }

  function Plus(a: Pair, b: Pair): Pair { Pair(a.affil + b.affil, a.power + b.power) }

  function Minus(a: Pair, b: Pair): Pair { Pair(a.affil - b.affil, a.power - b.power) }

  function Scale(p: Pair, w: real): Pair { Pair(p.affil * w, p.power * w) }

  /** Column `dim` of an n x 2 array. */
  function Column(s: seq<Pair>, dim: Dim): (c: seq<real>)
    ensures |c| == |s|
    ensures forall i :: 0 <= i < |s| ==> c[i] == Get(s[i], dim)
  {
    seq(|s|, i requires 0 <= i < |s| => Get(s[i], dim))
  }

  /** A raw choice on a trial: -1, 0 (no answer on this dimension) or +1. */
  predicate IsDecision(x: real) { x == -1.0 || x == 0.0 || x == 1.0 }

  // ---------------------------------------------------------------------------------------
  // policy names
  // ---------------------------------------------------------------------------------------

  datatype DecisionType = Current | Previous
  datatype WeightType = Constant | LinearDecay | ExponentialDecay
  datatype CoordType = Actual | Counterfactual

  function ParseDecisionType(name: string): (r: Option<DecisionType>)
    ensures r.Some? <==> name == "current" || name == "previous"
  {
    if name == "current" then Some(Current)
    else if name == "previous" then Some(Previous)
    else None
  }

  function ParseWeightType(name: string): (r: Option<WeightType>)
    ensures r.Some? <==> name == "constant" || name == "linear_decay" || name == "exponential_decay"
  {
    if name == "constant" then Some(Constant)
    else if name == "linear_decay" then Some(LinearDecay)
    else if name == "exponential_decay" then Some(ExponentialDecay)
    else None
  }

  function ParseCoordType(name: string): (r: Option<CoordType>)
    ensures r.Some? <==> name == "actual" || name == "counterfactual"
  {
    if name == "actual" then Some(Actual)
    else if name == "counterfactual" then Some(Counterfactual)
    else None
  }

  function DecisionName(d: DecisionType): string {
    match d case Current => "current" case Previous => "previous"
  }

  function WeightName(w: WeightType): string {
    match w case Constant => "constant" case LinearDecay => "linear_decay" case ExponentialDecay => "exponential_decay"
  }

  function CoordName(c: CoordType): string {
    match c case Actual => "actual" case Counterfactual => "counterfactual"
  }

  /** Each policy has exactly one name: parsing a policy's name gives it back, and a name that
      parses is that policy's name. */
  lemma PolicyNamesRoundTrip(name: string, d: DecisionType, w: WeightType, c: CoordType)
    ensures ParseDecisionType(DecisionName(d)) == Some(d)
    ensures ParseWeightType(WeightName(w)) == Some(w)
    ensures ParseCoordType(CoordName(c)) == Some(c)
    ensures ParseDecisionType(name) == Some(d) ==> name == DecisionName(d)
    ensures ParseWeightType(name) == Some(w) ==> name == WeightName(w)
    ensures ParseCoordType(name) == Some(c) ==> name == CoordName(c)
  {
  }

  // ---------------------------------------------------------------------------------------
  // decision selection
  // ---------------------------------------------------------------------------------------

  /** Where a Python slice bound `k` lands in a sequence of length `n`: negative bounds count from
      the end, and both kinds are clamped to [0, n]. */
  function PyIndex(k: int, n: nat): (r: nat)
    ensures r <= n
    ensures 0 <= k ==> r == if k < n then k else n
    ensures k < 0 ==> r == if n + k > 0 then n + k else 0
  {
    if k >= 0 then (if k < n then k else n)
    else if n + k > 0 then n + k else 0
  }

  /** The 'previous' selection as the source writes it: an array filled with `fill`, whose slice
      `[shiftBy:]` is assigned `raw[0:-shiftBy]`; the assignment fails when the two slices differ in
      length. */
  function PreviousDecisions(raw: seq<Pair>, shiftBy: int, fill: real): Result<seq<Pair>>
  {
    var n := |raw|;
    var start := PyIndex(shiftBy, n);
    if n - start != PyIndex(-shiftBy, n) then Err(ShapeMismatch)
    else Ok(seq(n, i requires 0 <= i < n => if i < start then Pair(fill, fill) else raw[i - start]))
  }

  function SelectDecisions(raw: seq<Pair>, which: DecisionType, shiftBy: int, fill: real): Result<seq<Pair>> {
    match which
    case Current => Ok(raw)
    case Previous => PreviousDecisions(raw, shiftBy, fill)
  }

  /** The decision selection of the source: `current` returns the decisions as they are; `previous`
      fills an array with `fill` and copies the raw rows into its tail. */
  method GetDecisions(raw: seq<Pair>, which: DecisionType, shiftBy: int, fill: real)
    returns (r: Result<seq<Pair>>)
    ensures r == SelectDecisions(raw, which, shiftBy, fill)
  {
    if which == Current {
      return Ok(raw);
    }
    var n := |raw|;
    var a := new Pair[n](_ => Pair(fill, fill));
    var start, stop := PyIndex(shiftBy, n), PyIndex(-shiftBy, n);
    if n - start != stop {
      return Err(ShapeMismatch);
    }
    var j := 0;
    while j < stop
      invariant 0 <= j <= stop
      invariant forall i :: 0 <= i < start ==> a[i] == Pair(fill, fill)
      invariant forall i :: start <= i < start + j ==> a[i] == raw[i - start]
    {
      a[start + j] := raw[j];
      j := j + 1;
    }
    r := Ok(a[..]);
    assert r.value == PreviousDecisions(raw, shiftBy, fill).value;
  }

  /** With a shift of at least one, `previous` keeps the length, fills the first `shiftBy`
      positions and moves every other decision `shiftBy` trials later. */
  lemma PreviousShifts(raw: seq<Pair>, shiftBy: int, fill: real)
    requires shiftBy >= 1
    ensures PreviousDecisions(raw, shiftBy, fill).Ok?
    ensures |PreviousDecisions(raw, shiftBy, fill).value| == |raw|
    ensures forall i :: 0 <= i < |raw| ==>
              PreviousDecisions(raw, shiftBy, fill).value[i] == if i < shiftBy then Pair(fill, fill) else raw[i - shiftBy]
  {
  }

  /** A shift of zero is a failed assignment for any non-empty input (`[0:-0]` is empty). */
  lemma PreviousZeroShiftFails(raw: seq<Pair>, fill: real)
    ensures PreviousDecisions(raw, 0, fill).Err? <==> |raw| > 0
  {
  }

  // ---------------------------------------------------------------------------------------
  // weighting
  // ---------------------------------------------------------------------------------------

  /** A decaying weight schedule: for every trial count n, a weight per trial. */
  type Schedule = f: nat -> seq<real> | forall n: nat :: |f(n)| == n
    witness (n: nat) => seq(n, _ => 1.0)

  function Weights(w: WeightType, n: nat, linear: Schedule, exponential: Schedule): (r: seq<real>)
    ensures |r| == n
    ensures w == Constant ==> forall i :: 0 <= i < n ==> r[i] == 1.0
  {
    match w
    case Constant => seq(n, _ => 1.0)
    case LinearDecay => linear(n)
    case ExponentialDecay => exponential(n)
  }

  /** Each trial's decision multiplied by that trial's weight. */
  function WeightDecisions(d: seq<Pair>, w: WeightType, linear: Schedule, exponential: Schedule): (r: seq<Pair>)
    ensures |r| == |d|
    ensures forall i :: 0 <= i < |d| ==> r[i] == Scale(d[i], Weights(w, |d|, linear, exponential)[i])
  {
    var ws := Weights(w, |d|, linear, exponential);
    seq(|d|, i requires 0 <= i < |d| => Scale(d[i], ws[i]))
  }

  /** Constant weighting leaves the decisions unchanged. */
  lemma ConstantWeightsKeepDecisions(d: seq<Pair>, linear: Schedule, exponential: Schedule)
    ensures WeightDecisions(d, Constant, linear, exponential) == d
  {
    var r := WeightDecisions(d, Constant, linear, exponential);
    assert forall i :: 0 <= i < |d| ==> r[i] == d[i];
  }
}
