/** The orchestration of `ComputeBehavior2`: flag resolution, the shape guard, the per-trajectory
    coordinates (`calc_coords`), the per-label split and merge of `run`, the overall running means
    and the table of results per configuration. */
module Behavior {
  import opened Wrappers
  import opened Floats
  import opened Decisions
  import opened Trajectory
  import opened RunningMean
  import opened Consistency
  import opened Shape
  import opened Grouping

  /** One row of the trial data: the columns the behavioural geometry reads. */
  datatype Trial = Trial(
    decisionNum: int, dimension: string, sceneNum: int, charRoleNum: int,
    charDecisionNum: int, buttonPress: int, affil: int, power: int, reactionTime: real)

  function RawDecision(t: Trial): Pair { Pair(t.affil as real, t.power as real) }

  /** The code the model does not see: the decay schedules, the circular mean and the geometry. */
  datatype Externals = Externals(
    linear: Schedule, exponential: Schedule, circMean: seq<Num> -> Num, geometry: Geometry)

  // ---------------------------------------------------------------------------------------
  // flags and the shape guard
  // ---------------------------------------------------------------------------------------

  /** A constructor argument: `True`, `False` or an explicit list of policy names. */
  datatype Selection = Flag(on: bool) | Names(names: seq<string>)

  function ResolveDecisionTypes(s: Selection): seq<string> {
    match s
    case Flag(true) => ["current", "previous"]
    case Flag(false) => ["current"]
    case Names(n) => n
  }

  function ResolveWeightTypes(s: Selection): seq<string> {
    match s
    case Flag(true) => ["constant", "linear_decay", "exponential_decay"]
    case Flag(false) => ["constant"]
    case Names(n) => n
  }

  function ResolveCoordTypes(s: Selection): seq<string> {
    match s
    case Flag(true) => ["actual", "counterfactual"]
    case Flag(false) => ["actual"]
    case Names(n) => n
  }

  /** The lists a boolean flag selects are exactly the policies the computation knows: `False`
      gives the single default and `True` every policy, each once. */
  lemma FlagsSelectKnownPolicies(on: bool)
    ensures forall n :: n in ResolveDecisionTypes(Flag(on)) ==> ParseDecisionType(n).Some?
    ensures forall n :: n in ResolveWeightTypes(Flag(on)) ==> ParseWeightType(n).Some?
    ensures forall n :: n in ResolveCoordTypes(Flag(on)) ==> ParseCoordType(n).Some?
    ensures !on ==> (ResolveDecisionTypes(Flag(on)) == [DecisionName(Current)]
                     && ResolveWeightTypes(Flag(on)) == [WeightName(Constant)]
                     && ResolveCoordTypes(Flag(on)) == [CoordName(Actual)])
    ensures on ==> (forall d: DecisionType :: DecisionName(d) in ResolveDecisionTypes(Flag(on)))
    ensures on ==> (forall w: WeightType :: WeightName(w) in ResolveWeightTypes(Flag(on)))
    ensures on ==> (forall c: CoordType :: CoordName(c) in ResolveCoordTypes(Flag(on)))
    ensures on ==> (|ResolveDecisionTypes(Flag(on))| == 2 && |ResolveWeightTypes(Flag(on))| == 3
                    && |ResolveCoordTypes(Flag(on))| == 2)
  {
  }

  /** The number of expected shapes equal to `shape`. */
  function Matches(shape: (nat, nat), expected: seq<(nat, nat)>): (r: nat)
    ensures r > 0 <==> shape in expected
  {
    if expected == [] then 0
    else Matches(shape, expected[..|expected| - 1]) + if expected[|expected| - 1] == shape then 1 else 0
  }

  /** `check_input`: succeeds exactly when the shape is one of the expected shapes. */
  function CheckInput(shape: (nat, nat), expected: seq<(nat, nat)>): (r: Result<bool>)
    ensures r.Ok? <==> shape in expected
    ensures r.Ok? ==> r.value
    ensures r.Err? ==> r.error == ShapeMismatch
  {
    if Matches(shape, expected) == 0 then Err(ShapeMismatch) else Ok(true)
  }

  // ---------------------------------------------------------------------------------------
  // one trajectory: calc_coords
  // ---------------------------------------------------------------------------------------

  /** One row of the coordinate table of a trajectory. */
  datatype CoordRow = CoordRow(
    trialIndex: nat, responded: bool, decision: Pair, coord: Pair, mean: NumPair, centroid: NumPair)

  /** The policy names of one configuration. */
  datatype Config = Config(dt: string, wt: string, ct: string)

  /** `resp_mask`: which raw decisions are answered on the dimension. */
  function Answers(raw: seq<Pair>, dim: Dim): (r: seq<bool>)
    ensures |r| == |raw|
    ensures forall i :: 0 <= i < |raw| ==> r[i] == (Get(raw[i], dim) != 0.0)
  {
    seq(|raw|, i requires 0 <= i < |raw| => Get(raw[i], dim) != 0.0)
  }

  /** The weighted decisions of a trajectory under a configuration whose names parse. */
  function Weighted(raw: seq<Pair>, dt: DecisionType, wt: WeightType, ext: Externals): (r: seq<Pair>)
    ensures |r| == |raw|
  {
    PreviousShifts(raw, 1, 0.0);
    WeightDecisions(SelectDecisions(raw, dt, 1, 0.0).value, wt, ext.linear, ext.exponential)
  }

  /** The running means of both dimensions side by side. */
  function MeanPairs(a: seq<Num>, p: seq<Num>): (r: seq<NumPair>)
    requires |a| == |p|
    ensures |r| == |a|
    ensures forall i :: 0 <= i < |a| ==> r[i] == NumPair(a[i], p[i])
  {
    seq(|a|, i requires 0 <= i < |a| => NumPair(a[i], p[i]))
  }

  /** The running means of both dimensions: NaN-skipping sums of the weighted decisions over the
      count of answered raw decisions. */
  function RunningMeans(weighted: seq<Pair>, raw: seq<Pair>): (r: seq<NumPair>)
    requires |weighted| == |raw|
    ensures |r| == |raw|
    ensures forall i :: 0 <= i < |raw| ==>
              r[i] == NumPair(LinearCumulativeMean(Fins(Column(weighted, Affil)), MaskOf(Answers(raw, Affil)))[i],
                              LinearCumulativeMean(Fins(Column(weighted, Power)), MaskOf(Answers(raw, Power)))[i])
  {
    MeanPairs(LinearCumulativeMean(Fins(Column(weighted, Affil)), MaskOf(Answers(raw, Affil))),
              LinearCumulativeMean(Fins(Column(weighted, Power)), MaskOf(Answers(raw, Power))))
  }

  /** The rows of a trajectory from its columns. */
  function BuildRows(ixs: seq<nat>, raw: seq<Pair>, weighted: seq<Pair>, coords: seq<Pair>,
                     means: seq<NumPair>, cent: seq<NumPair>): (r: seq<CoordRow>)
    requires |ixs| == |raw| == |weighted| == |coords| == |means| == |cent|
    ensures |r| == |raw|
    ensures forall i :: 0 <= i < |raw| ==> r[i].trialIndex == ixs[i]
    ensures forall i :: 0 <= i < |raw| ==> r[i].responded == (raw[i].affil != 0.0 || raw[i].power != 0.0)
    ensures forall i :: 0 <= i < |raw| ==>
              r[i].decision == weighted[i] && r[i].coord == coords[i] && r[i].mean == means[i] && r[i].centroid == cent[i]
  {
    seq(|raw|, i requires 0 <= i < |raw| =>
      CoordRow(ixs[i], raw[i].affil != 0.0 || raw[i].power != 0.0, weighted[i], coords[i], means[i], cent[i]))
  }

  /** The centroid of every prefix of the coordinates; stacking none fails. */
  function Centroids(coords: seq<Pair>, g: Geometry): (r: Result<seq<NumPair>>)
    ensures r.Ok? <==> |coords| > 0
    ensures r.Ok? ==> |r.value| == |coords|
    ensures r.Ok? ==> forall i :: 0 <= i < |coords| ==>
              r.value[i] == NumPair(Guard2(g.centroid, coords[..i + 1]).0, Guard2(g.centroid, coords[..i + 1]).1)
  {
    var cent :- Cumulative((p: seq<Pair>) => Guard2(g.centroid, p), coords);
    Ok(seq(|cent|, i requires 0 <= i < |cent| => NumPair(cent[i].0, cent[i].1)))
  }

  /** `calc_coords` once the three names are parsed: decisions selected (`previous` shifts by
      one and fills with 0), weighted, summed into coordinates; the running means; the centroid
      of every prefix of the coordinates, which fails only on an empty trajectory. */
  function TrajectoryRows(ixs: seq<nat>, raw: seq<Pair>, dt: DecisionType, wt: WeightType, ct: CoordType,
                          demean: bool, ext: Externals): (r: Result<seq<CoordRow>>)
    requires |ixs| == |raw|
    ensures r.Ok? <==> |raw| > 0
    ensures r.Ok? ==> |r.value| == |raw|
    ensures r.Ok? ==> forall i :: 0 <= i < |raw| ==> r.value[i].trialIndex == ixs[i]
    ensures r.Ok? ==> forall i :: 0 <= i < |raw| ==> r.value[i].responded == (raw[i].affil != 0.0 || raw[i].power != 0.0)
    ensures r.Ok? ==>
      var w := Weighted(raw, dt, wt, ext);
      var c := GetCoords(w, ct, demean);
      forall i :: 0 <= i < |raw| ==>
        && r.value[i].decision == w[i]
        && r.value[i].coord == c[i]
        && r.value[i].mean == RunningMeans(w, raw)[i]
        && r.value[i].centroid == NumPair(Guard2(ext.geometry.centroid, c[..i + 1]).0, Guard2(ext.geometry.centroid, c[..i + 1]).1)
  {
    var weighted := Weighted(raw, dt, wt, ext);
    var coords := GetCoords(weighted, ct, demean);
    var means := RunningMeans(weighted, raw);
    var cent :- Centroids(coords, ext.geometry);
    Ok(BuildRows(ixs, raw, weighted, coords, means, cent))
  }

  /** `calc_coords`: the policy names are looked up first, in the order decision, weight,
      coordinate type; an unknown name is an error. */
  function CalcCoords(ixs: seq<nat>, raw: seq<Pair>, cfg: Config, demean: bool, ext: Externals): (r: Result<seq<CoordRow>>)
    requires |ixs| == |raw|
    ensures r.Ok? <==> (ParseDecisionType(cfg.dt).Some? && ParseWeightType(cfg.wt).Some?
                        && ParseCoordType(cfg.ct).Some? && |raw| > 0)
    ensures ParseDecisionType(cfg.dt).None? ==> r == Err(UnknownPolicy(cfg.dt))
    ensures ParseDecisionType(cfg.dt).Some? && ParseWeightType(cfg.wt).None? ==> r == Err(UnknownPolicy(cfg.wt))
    ensures r.Ok? ==> |r.value| == |raw|
    ensures r.Ok? ==> forall i :: 0 <= i < |raw| ==> r.value[i].trialIndex == ixs[i]
    ensures r.Ok? ==> r == TrajectoryRows(ixs, raw, ParseDecisionType(cfg.dt).value, ParseWeightType(cfg.wt).value,
                                          ParseCoordType(cfg.ct).value, demean, ext)
  {
    var dt :- Need(ParseDecisionType(cfg.dt), UnknownPolicy(cfg.dt));
    var wt :- Need(ParseWeightType(cfg.wt), UnknownPolicy(cfg.wt));
    var ct :- Need(ParseCoordType(cfg.ct), UnknownPolicy(cfg.ct));
    TrajectoryRows(ixs, raw, dt, wt, ct, demean, ext)
  }

  /** The running means of a trajectory divide the sums of the (possibly shifted) weighted
      decisions by the count of answered RAW decisions so far, dimension by dimension. */
  lemma MeanUsesRawMask(ixs: seq<nat>, raw: seq<Pair>, cfg: Config, demean: bool, ext: Externals, i: nat)
    requires |ixs| == |raw| && i < |raw|
    requires CalcCoords(ixs, raw, cfg, demean, ext).Ok?
    ensures var w := Weighted(raw, ParseDecisionType(cfg.dt).value, ParseWeightType(cfg.wt).value, ext);
      && CalcCoords(ixs, raw, cfg, demean, ext).value[i].mean.affil
           == Div(NanSum(Fins(Column(w, Affil))[..i + 1]), Fin(CountTrue(Answers(raw, Affil)[..i + 1]) as real))
      && CalcCoords(ixs, raw, cfg, demean, ext).value[i].mean.power
           == Div(NanSum(Fins(Column(w, Power))[..i + 1]), Fin(CountTrue(Answers(raw, Power)[..i + 1]) as real))
  {
    var w := Weighted(raw, ParseDecisionType(cfg.dt).value, ParseWeightType(cfg.wt).value, ext);
    MaskedMeanAt(Fins(Column(w, Affil)), Answers(raw, Affil), i);
    MaskedMeanAt(Fins(Column(w, Power)), Answers(raw, Power), i);
  }

  /** With `previous` the weighted decision of trial 0 is zero and trial i > 0 carries trial i-1's
      raw decision times trial i's weight. */
  lemma PreviousWeightedShift(raw: seq<Pair>, wt: WeightType, ext: Externals, i: nat)
    requires i < |raw|
    ensures var ws := Weights(wt, |raw|, ext.linear, ext.exponential);
      Weighted(raw, Previous, wt, ext)[i] == if i == 0 then Scale(Zero, ws[0]) else Scale(raw[i - 1], ws[i])
  {
    PreviousShifts(raw, 1, 0.0);
  }

  // ---------------------------------------------------------------------------------------
  // one configuration: split by label, merge, shapes, overall means
  // ---------------------------------------------------------------------------------------

  /** A merged row: the trajectory row and the two per-dimension consistencies. */
  datatype Row = Row(cart: CoordRow, consistency: NumPair)

  function TrialIndex(r: Row): nat { r.cart.trialIndex }

  /** The raw decisions of the trials at the given positions. */
  function RawAt(data: seq<Trial>, ixs: seq<nat>): (r: seq<Pair>)
    requires forall j :: 0 <= j < |ixs| ==> ixs[j] < |data|
    ensures |r| == |ixs|
  {
    seq(|ixs|, j requires 0 <= j < |ixs| => RawDecision(data[ixs[j]]))
  }

  /** The weighted decisions of a trajectory's rows. */
  function DecisionsOf(cart: seq<CoordRow>): (r: seq<Pair>)
    ensures |r| == |cart|
    ensures forall j :: 0 <= j < |cart| ==> r[j] == cart[j].decision
  {
    seq(|cart|, j requires 0 <= j < |cart| => cart[j].decision)
  }

  /** A trajectory's rows beside its cumulative consistencies, computed on the rows' own weighted
      decisions. */
  function WithConsistency(cart: seq<CoordRow>): (r: seq<Row>)
    ensures |r| == |cart|
    ensures forall j :: 0 <= j < |cart| ==> r[j].cart == cart[j]
    ensures forall j :: 0 <= j < |cart| ==> r[j].consistency == CalcCumulativeConsistency(DecisionsOf(cart))[j]
  {
    var cons := CalcCumulativeConsistency(DecisionsOf(cart));
    seq(|cart|, j requires 0 <= j < |cart| => Row(cart[j], cons[j]))
  }

  /** The trajectory of the trials carrying label l: its rows are those trials, in trial order. */
  function LabelBlock(data: seq<Trial>, labels: seq<real>, l: real, cfg: Config, demean: bool, ext: Externals): (r: Result<seq<Row>>)
    requires |labels| == |data|
    ensures r.Ok? ==> |r.value| == |Positions(labels, l)|
  {
    var ixs := Positions(labels, l);
    var cart :- CalcCoords(ixs, RawAt(data, ixs), cfg, demean, ext);
    Ok(WithConsistency(cart))
  }

  /** The rows of label l's trajectory are exactly the trials carrying l, in trial order. */
  lemma LabelBlockKeys(data: seq<Trial>, labels: seq<real>, l: real, cfg: Config, demean: bool, ext: Externals)
    requires |labels| == |data|
    requires LabelBlock(data, labels, l, cfg, demean, ext).Ok?
    ensures KeysOf(LabelBlock(data, labels, l, cfg, demean, ext).value, TrialIndex) == Positions(labels, l)
  {
    var ixs := Positions(labels, l);
    var c := CalcCoords(ixs, RawAt(data, ixs), cfg, demean, ext);
    assert LabelBlock(data, labels, l, cfg, demean, ext) == Ok(WithConsistency(c.value));
    BlockKeys(c.value, ixs);
  }

  /** Each label's trajectory is computed on that label's trials alone: decisions are selected,
      weighted and summed afresh from the label's first trial, and the consistency scores are
      those of the label's own weighted decisions. */
  lemma LabelBlockRows(data: seq<Trial>, labels: seq<real>, l: real, cfg: Config, demean: bool, ext: Externals)
    requires |labels| == |data|
    requires LabelBlock(data, labels, l, cfg, demean, ext).Ok?
    ensures ParseDecisionType(cfg.dt).Some? && ParseWeightType(cfg.wt).Some? && ParseCoordType(cfg.ct).Some?
    ensures var rows := LabelBlock(data, labels, l, cfg, demean, ext).value;
      var ixs := Positions(labels, l);
      var w := Weighted(RawAt(data, ixs), ParseDecisionType(cfg.dt).value, ParseWeightType(cfg.wt).value, ext);
      && |rows| == |ixs| == |w|
      && forall j :: 0 <= j < |rows| ==>
           && rows[j].cart.trialIndex == ixs[j]
           && rows[j].cart.decision == w[j]
           && rows[j].cart.coord == GetCoords(w, ParseCoordType(cfg.ct).value, demean)[j]
           && rows[j].consistency == CalcCumulativeConsistency(w)[j]
  {
    var ixs := Positions(labels, l);
    var raw := RawAt(data, ixs);
    var c := CalcCoords(ixs, raw, cfg, demean, ext);
    assert LabelBlock(data, labels, l, cfg, demean, ext) == Ok(WithConsistency(c.value));
    RowsFromCoords(ixs, raw, cfg, demean, ext);
  }

  /** The rows built from a computed trajectory carry the weighted decisions, their coordinates
      and their consistency scores. */
  lemma RowsFromCoords(ixs: seq<nat>, raw: seq<Pair>, cfg: Config, demean: bool, ext: Externals)
    requires |ixs| == |raw|
    requires CalcCoords(ixs, raw, cfg, demean, ext).Ok?
    ensures ParseDecisionType(cfg.dt).Some? && ParseWeightType(cfg.wt).Some? && ParseCoordType(cfg.ct).Some?
    ensures var rows := WithConsistency(CalcCoords(ixs, raw, cfg, demean, ext).value);
      var w := Weighted(raw, ParseDecisionType(cfg.dt).value, ParseWeightType(cfg.wt).value, ext);
      && |rows| == |ixs| == |w|
      && forall j :: 0 <= j < |rows| ==>
           && rows[j].cart.trialIndex == ixs[j]
           && rows[j].cart.decision == w[j]
           && rows[j].cart.coord == GetCoords(w, ParseCoordType(cfg.ct).value, demean)[j]
           && rows[j].consistency == CalcCumulativeConsistency(w)[j]
  {
    var c := CalcCoords(ixs, raw, cfg, demean, ext);
    var dt, wt, ct := ParseDecisionType(cfg.dt).value, ParseWeightType(cfg.wt).value, ParseCoordType(cfg.ct).value;
    var w := Weighted(raw, dt, wt, ext);
    var coords := GetCoords(w, ct, demean);
    assert c == TrajectoryRows(ixs, raw, dt, wt, ct, demean, ext);
    var cart := c.value;
    assert forall j :: 0 <= j < |cart| ==> cart[j].decision == w[j] && cart[j].coord == coords[j];
    DecisionsMatch(cart, w);
    var rows := WithConsistency(cart);
    var cons := CalcCumulativeConsistency(w);
    forall j | 0 <= j < |rows|
      ensures rows[j].cart.trialIndex == ixs[j] && rows[j].cart.decision == w[j]
      ensures rows[j].cart.coord == coords[j] && rows[j].consistency == cons[j]
    {
      assert rows[j].cart == cart[j];
    }
  }

  lemma DecisionsMatch(cart: seq<CoordRow>, w: seq<Pair>)
    requires |cart| == |w| && forall j :: 0 <= j < |cart| ==> cart[j].decision == w[j]
    ensures DecisionsOf(cart) == w
  {
  }

  /** With current decisions, constant weights and raw choices in {-1, 0, 1}, a label's
      consistency on a dimension is NaN until two of the label's trials are answered on that
      dimension, and from then on lies in [0, 1]. */
  lemma BlockConsistencyBounds(data: seq<Trial>, labels: seq<real>, l: real, cfg: Config, demean: bool, ext: Externals,
                               dim: Dim, j: nat)
    requires |labels| == |data| && cfg.dt == "current" && cfg.wt == "constant"
    requires forall i :: 0 <= i < |data| ==> -1 <= data[i].affil <= 1 && -1 <= data[i].power <= 1
    requires LabelBlock(data, labels, l, cfg, demean, ext).Ok? && j < |LabelBlock(data, labels, l, cfg, demean, ext).value|
    ensures var col := Column(RawAt(data, Positions(labels, l)), dim);
      var c := LabelBlock(data, labels, l, cfg, demean, ext).value[j].consistency;
      var score := if dim == Affil then c.affil else c.power;
      && (Answered(col[..j + 1]) < 2 ==> score.NaN?)
      && (Answered(col[..j + 1]) >= 2 ==> score.Fin? && 0.0 <= score.v <= 1.0)
  {
    LabelBlockRows(data, labels, l, cfg, demean, ext);
    var ixs := Positions(labels, l);
    var raw := RawAt(data, ixs);
    assert ParseDecisionType(cfg.dt) == Some(Current) && ParseWeightType(cfg.wt) == Some(Constant);
    CurrentConstantIsRaw(raw, ext);
    var rows := LabelBlock(data, labels, l, cfg, demean, ext).value;
    assert rows[j].consistency == CalcCumulativeConsistency(raw)[j];
    RawColumnIsDecisions(data, ixs, dim);
    ConstantWeightEnvelope(Column(raw, dim), j);
  }

  lemma CurrentConstantIsRaw(raw: seq<Pair>, ext: Externals)
    ensures Weighted(raw, Current, Constant, ext) == raw
  {
    ConstantWeightsKeepDecisions(raw, ext.linear, ext.exponential);
  }

  lemma RawColumnIsDecisions(data: seq<Trial>, ixs: seq<nat>, dim: Dim)
    requires forall j :: 0 <= j < |ixs| ==> ixs[j] < |data|
    requires forall i :: 0 <= i < |data| ==> -1 <= data[i].affil <= 1 && -1 <= data[i].power <= 1
    ensures AllDecisions(Column(RawAt(data, ixs), dim))
  {
    var col := Column(RawAt(data, ixs), dim);
    forall k | 0 <= k < |col|
      ensures IsDecision(col[k])
    {
      var t := data[ixs[k]];
      assert col[k] == Get(RawDecision(t), dim);
    }
  }

  lemma BlockKeys(cart: seq<CoordRow>, ixs: seq<nat>)
    requires |cart| == |ixs|
    requires forall j :: 0 <= j < |cart| ==> cart[j].trialIndex == ixs[j]
    ensures KeysOf(WithConsistency(cart), TrialIndex) == ixs
  {
    var rows := WithConsistency(cart);
    var keys := KeysOf(rows, TrialIndex);
    forall j | 0 <= j < |keys|
      ensures keys[j] == ixs[j]
    {
      assert keys[j] == rows[j].cart.trialIndex;
    }
  }

  /** Results stacked in order (`pd.concat` of the per-label frames); the first failure wins. */
  function Stack<T>(rs: seq<Result<seq<T>>>): Result<seq<T>> {
    if rs == [] then Ok([])
    else
      var front :- Stack(rs[..|rs| - 1]);
      var last :- rs[|rs| - 1];
      Ok(front + last)
  }

  /** A stack that succeeds is the stack of all but the last result followed by the last one. */
  lemma StackSnoc<T>(rs: seq<Result<seq<T>>>)
    requires rs != [] && Stack(rs).Ok?
    ensures Stack(rs[..|rs| - 1]).Ok? && rs[|rs| - 1].Ok?
    ensures Stack(rs).value == Stack(rs[..|rs| - 1]).value + rs[|rs| - 1].value
  {
  }

  /** One more result that succeeds: it is appended. */
  lemma StackStepOk<T>(rs: seq<Result<seq<T>>>, li: nat, stacked: seq<T>, block: seq<T>)
    requires li < |rs| && Stack(rs[..li]) == Ok(stacked) && rs[li] == Ok(block)
    ensures Stack(rs[..li + 1]) == Ok(stacked + block)
  {
    var prefix := rs[..li + 1];
    assert prefix[..li] == rs[..li];
  }

  /** Once a prefix fails, the whole stack fails with the same error. */
  lemma {:induction false} StackErrorPersists<T>(rs: seq<Result<seq<T>>>, k: nat)
    requires k <= |rs| && Stack(rs[..k]).Err?
    ensures Stack(rs) == Stack(rs[..k])
    decreases |rs| - k
  {
    if k < |rs| {
      var front := rs[..|rs| - 1];
      assert front[..k] == rs[..k];
      StackErrorPersists(front, k);
    } else {
      assert rs[..k] == rs;
    }
  }

  /** One more result that fails: that failure is the result of the whole stack. */
  lemma StackStepErr<T>(rs: seq<Result<seq<T>>>, li: nat, stacked: seq<T>, e: Error)
    requires li < |rs| && Stack(rs[..li]) == Ok(stacked) && rs[li] == Err(e)
    ensures Stack(rs) == Err(e)
  {
    var prefix := rs[..li + 1];
    assert prefix[..li] == rs[..li];
    StackErrorPersists(rs, li + 1);
  }

  /** Results that all succeed stack successfully. */
  lemma {:induction false} StackOk<T>(rs: seq<Result<seq<T>>>)
    requires forall i :: 0 <= i < |rs| ==> rs[i].Ok?
    ensures Stack(rs).Ok?
    decreases |rs|
  {
    if rs != [] {
      StackOk(rs[..|rs| - 1]);
    }
  }

  /** The trajectory of every label of `order`, in order. */
  function LabelBlocks(data: seq<Trial>, labels: seq<real>, order: seq<real>, cfg: Config, demean: bool, ext: Externals)
    : (r: seq<Result<seq<Row>>>)
    requires |labels| == |data|
    ensures |r| == |order|
    ensures forall i :: 0 <= i < |order| ==> r[i] == LabelBlock(data, labels, order[i], cfg, demean, ext)
  {
    seq(|order|, i requires 0 <= i < |order| => LabelBlock(data, labels, order[i], cfg, demean, ext))
  }

  lemma LabelBlocksPrefix(data: seq<Trial>, labels: seq<real>, order: seq<real>, k: nat, cfg: Config, demean: bool, ext: Externals)
    requires |labels| == |data| && k <= |order|
    ensures LabelBlocks(data, labels, order, cfg, demean, ext)[..k] == LabelBlocks(data, labels, order[..k], cfg, demean, ext)
  {
  }

  /** The per-label trajectories stacked in label order; the first failure wins. */
  function Blocks(data: seq<Trial>, labels: seq<real>, order: seq<real>, cfg: Config, demean: bool, ext: Externals): (r: Result<seq<Row>>)
    requires |labels| == |data|
  {
    Stack(LabelBlocks(data, labels, order, cfg, demean, ext))
  }

  lemma {:induction false} BlocksKeys(data: seq<Trial>, labels: seq<real>, order: seq<real>, cfg: Config, demean: bool, ext: Externals)
    requires |labels| == |data|
    requires Blocks(data, labels, order, cfg, demean, ext).Ok?
    ensures KeysOf(Blocks(data, labels, order, cfg, demean, ext).value, TrialIndex) == GroupOrder(labels, order)
    decreases |order|
  {
    if order != [] {
      var k := |order| - 1;
      var rs := LabelBlocks(data, labels, order, cfg, demean, ext);
      StackSnoc(rs);
      LabelBlocksPrefix(data, labels, order, k, cfg, demean, ext);
      BlocksKeys(data, labels, order[..k], cfg, demean, ext);
      LabelBlockKeys(data, labels, order[k], cfg, demean, ext);
      KeysOfAppend(Stack(rs[..k]).value, rs[k].value, TrialIndex);
      GroupOrderSnoc(labels, order);
    }
  }

  /** `sort_values(by='trial_index')` after stacking: with every label computed, the merged rows
      are exactly trials 0..n-1 in order. */
  lemma MergedRowsAreTrialOrder(data: seq<Trial>, labels: seq<real>, cfg: Config, demean: bool, ext: Externals)
    requires |labels| == |data|
    requires Blocks(data, labels, Unique(labels), cfg, demean, ext).Ok?
    ensures var rows := SortBy(Blocks(data, labels, Unique(labels), cfg, demean, ext).value, TrialIndex);
      |rows| == |data| && forall i :: 0 <= i < |rows| ==> rows[i].cart.trialIndex == i
  {
    var stacked := Blocks(data, labels, Unique(labels), cfg, demean, ext).value;
    BlocksKeys(data, labels, Unique(labels), cfg, demean, ext);
    GroupOrderIsPermutation(labels);
    SortedPermutationIsRange(stacked, TrialIndex, |data|);
    var rows := SortBy(stacked, TrialIndex);
    assert forall i :: 0 <= i < |rows| ==> KeysOf(rows, TrialIndex)[i] == rows[i].cart.trialIndex;
  }

  /** A named numeric column of the merged table. */
  datatype Series = Series(name: string, values: seq<Num>)

  const OutNames: seq<string> := [
    "trial_index", "responded", "affil_decision", "power_decision", "affil_coord", "power_coord",
    "affil_mean", "power_mean", "affil_centroid", "power_centroid", "affil_consistency", "power_consistency"]

  /** Field k of a merged row, in the column order of `OutNames`. */
  function Field(r: Row, k: nat): Num
    requires k < |OutNames|
  {
    match k
    case 0 => Fin(r.cart.trialIndex as real)
    case 1 => Fin(if r.cart.responded then 1.0 else 0.0)
    case 2 => Fin(r.cart.decision.affil)
    case 3 => Fin(r.cart.decision.power)
    case 4 => Fin(r.cart.coord.affil)
    case 5 => Fin(r.cart.coord.power)
    case 6 => r.cart.mean.affil
    case 7 => r.cart.mean.power
    case 8 => r.cart.centroid.affil
    case 9 => r.cart.centroid.power
    case 10 => r.consistency.affil
    case _ => r.consistency.power
  }

  function OutColumns(rows: seq<Row>): (r: seq<Series>)
    ensures |r| == |OutNames|
  {
    seq(|OutNames|, k requires 0 <= k < |OutNames| =>
      Series(OutNames[k], seq(|rows|, i requires 0 <= i < |rows| => Field(rows[i], k))))
  }

  /** Whether `t` occurs in `s` as a contiguous piece (Python's `t in s` on strings). */
  function Contains(s: string, t: string): bool
    decreases |s|
  {
    if |s| < |t| then false
    else if s[..|t|] == t then true
    else Contains(s[1..], t)
  }

  predicate OccursAt(s: string, t: string, i: nat) {
    i + |t| <= |s| && s[i..i + |t|] == t
  }

  lemma {:induction false} ContainsIff(s: string, t: string)
    ensures Contains(s, t) <==> exists i: nat :: OccursAt(s, t, i)
    decreases |s|
  {
    if |s| >= |t| && s[..|t|] != t {
      ContainsIff(s[1..], t);
      if Contains(s, t) {
        var i: nat :| OccursAt(s[1..], t, i);
        assert s[i + 1..i + 1 + |t|] == s[1..][i..i + |t|];
        assert OccursAt(s, t, i + 1);
      }
      if exists i: nat :: OccursAt(s, t, i) {
        var i: nat :| OccursAt(s, t, i);
        assert i != 0;
        assert s[1..][i - 1..i - 1 + |t|] == s[i..i + |t|];
        assert OccursAt(s[1..], t, i - 1);
      }
    } else if |s| >= |t| {
      assert OccursAt(s, t, 0);
    }
  }

  datatype MeanKind = NoMean | LinearMean | CircularMean

  const Excluded: seq<string> := ["trial_index", "responded", "affil_decision", "power_decision"]

  /** The column rule of the overall means: the four bookkeeping columns and every column with
      "mean" in its name get none, columns with "angle" in their name a circular one, the rest a
      linear one. */
  function OverallMeanKind(name: string): MeanKind {
    if name in Excluded || Contains(name, "mean") then NoMean
    else if Contains(name, "angle") then CircularMean
    else LinearMean
  }

  /** The overall mean of a column: no mask, so every row counts, NaN or not. */
  function OverallMean(values: seq<Num>, kind: MeanKind, circMean: seq<Num> -> Num): (r: seq<Num>)
    ensures |r| == |values|
  {
    if kind == CircularMean then CircularMeans(values, Ones(|values|), circMean)
    else LinearCumulativeMean(values, MaskOf(Ones(|values|)))
  }

  /** The `_overallmean` column of one column, if the rule gives it one. */
  function MeanSeries(c: Series, circMean: seq<Num> -> Num): Option<Series> {
    var kind := OverallMeanKind(c.name);
    if kind == NoMean then None else Some(Series(c.name + "_overallmean", OverallMean(c.values, kind, circMean)))
  }

  /** The selected images of a sequence, in order. */
  function Selected<A, B>(f: A -> Option<B>, xs: seq<A>): seq<B> {
    if xs == [] then []
    else
      var m := f(xs[|xs| - 1]);
      Selected(f, xs[..|xs| - 1]) + if m.None? then [] else [m.value]
  }

  lemma {:induction false} SelectedIff<A, B>(f: A -> Option<B>, xs: seq<A>, y: B)
    ensures y in Selected(f, xs) <==> exists j :: 0 <= j < |xs| && f(xs[j]) == Some(y)
    decreases |xs|
  {
    if xs != [] {
      var k := |xs| - 1;
      var front := xs[..k];
      var m := f(xs[k]);
      var tail := if m.None? then [] else [m.value];
      assert Selected(f, xs) == Selected(f, front) + tail;
      SelectedIff(f, front, y);
      LastHit(f, xs, front, y);
    }
  }

  /** A selected image comes from the last element or from one before it. */
  lemma LastHit<A, B>(f: A -> Option<B>, xs: seq<A>, front: seq<A>, y: B)
    requires xs != [] && front == xs[..|xs| - 1]
    ensures (exists j :: 0 <= j < |xs| && f(xs[j]) == Some(y))
        <==> (f(xs[|xs| - 1]) == Some(y) || exists j :: 0 <= j < |front| && f(front[j]) == Some(y))
  {
    if exists j :: 0 <= j < |front| && f(front[j]) == Some(y) {
      var j :| 0 <= j < |front| && f(front[j]) == Some(y);
      assert f(xs[j]) == Some(y);
    }
    if exists j :: 0 <= j < |xs| && f(xs[j]) == Some(y) {
      var j :| 0 <= j < |xs| && f(xs[j]) == Some(y);
      if j < |front| {
        assert f(front[j]) == Some(y);
      }
    }
  }

  /** The `_overallmean` columns, in column order. */
  function OverallMeans(cols: seq<Series>, circMean: seq<Num> -> Num): seq<Series> {
    Selected((c: Series) => MeanSeries(c, circMean), cols)
  }

  /** A column gets an overall mean exactly when the rule selects it, and then with its own kind. */
  lemma OverallMeansSelect(cols: seq<Series>, circMean: seq<Num> -> Num, s: Series)
    ensures s in OverallMeans(cols, circMean) <==> exists j :: 0 <= j < |cols| && MeanSeries(cols[j], circMean) == Some(s)
  {
    SelectedIff((c: Series) => MeanSeries(c, circMean), cols, s);
  }

  /** The linear overall mean at row i divides the NaN-skipping sum of rows 0..i by i + 1; the
      circular one is the first value at row 0 and the circular mean of rows 0..i after it. */
  lemma OverallMeanAt(values: seq<Num>, circMean: seq<Num> -> Num, i: nat)
    requires i < |values|
    ensures OverallMean(values, LinearMean, circMean)[i] == Div(NanSum(values[..i + 1]), Fin((i + 1) as real))
    ensures OverallMean(values, CircularMean, circMean)[i] == if i == 0 then values[0] else circMean(values[..i + 1])
  {
    var ones := Ones(|values|);
    assert OverallMean(values, LinearMean, circMean) == LinearCumulativeMean(values, MaskOf(ones));
    UnmaskedMeanAt(values, i);
    assert OverallMean(values, CircularMean, circMean) == CircularMeans(values, ones, circMean);
    assert CircularMeans(values, ones, circMean)[i] == CircularAt(values, ones, circMean, i);
    assert ones[i];
  }

  /** The table of one configuration: the trial columns, the merged rows (sorted by trial), the
      overall means and the 2-D and 3-D shape measures. */
  datatype Table = Table(
    task: seq<Trial>, rows: seq<Row>, overall: seq<Series>, shape2: seq<ShapeRow2>, shape3: seq<ShapeRow3>)

  function CoordsOf(rows: seq<Row>): (r: seq<Pair>)
    ensures |r| == |rows|
  {
    seq(|rows|, i requires 0 <= i < |rows| => rows[i].cart.coord)
  }

  /** The 3-D points: the merged coordinates beside each trial's character decision number; the
      two stacks must have the same height. */
  function Points3(rows: seq<Row>, data: seq<Trial>): (r: Result<seq<Point3>>)
    ensures r.Ok? <==> |rows| == |data|
    ensures r.Ok? ==> |r.value| == |rows| && forall i :: 0 <= i < |rows| ==>
              r.value[i] == Point3(rows[i].cart.coord.affil, rows[i].cart.coord.power, data[i].charDecisionNum as real)
  {
    if |rows| != |data| then Err(ShapeMismatch)
    else Ok(seq(|rows|, i requires 0 <= i < |rows| =>
      Point3(rows[i].cart.coord.affil, rows[i].cart.coord.power, data[i].charDecisionNum as real)))
  }

  /** A configuration's table from its merged rows: the 2-D shape of the rows' coordinates, the
      3-D shape of the rows' points and the overall means of the rows' columns. */
  function AssembleTable(data: seq<Trial>, rows: seq<Row>, ext: Externals): Result<Table> {
    var shape2 :- CalcShape2(CoordsOf(rows), ext.geometry);
    var points :- Points3(rows, data);
    var shape3 :- CalcShape3(points, ext.geometry);
    Ok(Table(data, rows, OverallMeans(OutColumns(rows), ext.circMean), shape2, shape3))
  }

  /** The body of the configuration loop of `run`. */
  function ConfigTable(data: seq<Trial>, labels: seq<real>, cfg: Config, demean: bool, ext: Externals): Result<Table>
    requires |labels| == |data|
  {
    var order := Unique(labels);
    if order == [] then Err(NothingToConcatenate)
    else
      var stacked :- Blocks(data, labels, order, cfg, demean, ext);
      AssembleTable(data, SortBy(stacked, TrialIndex), ext)
  }

  /** Merged rows of the data's height always give a table, with one shape row per trial. */
  lemma AssembleDefined(data: seq<Trial>, rows: seq<Row>, ext: Externals)
    requires |rows| == |data| > 0
    ensures AssembleTable(data, rows, ext).Ok?
    ensures AssembleTable(data, rows, ext).value.rows == rows
    ensures |AssembleTable(data, rows, ext).value.shape2| == |data| && |AssembleTable(data, rows, ext).value.shape3| == |data|
  {
    ShapeDefinedIffNonEmpty(CoordsOf(rows), Points3(rows, data).value, ext.geometry);
  }

  /** How a table is assembled from the merged rows: the trial columns are the data, the 2-D shapes
      are measured on the rows' coordinates, the 3-D shapes on the rows' points, and the overall
      means on the rows' columns. */
  lemma AssembleParts(data: seq<Trial>, rows: seq<Row>, ext: Externals)
    requires AssembleTable(data, rows, ext).Ok?
    ensures var t := AssembleTable(data, rows, ext).value;
      && t.task == data && t.rows == rows
      && CalcShape2(CoordsOf(rows), ext.geometry) == Ok(t.shape2)
      && Points3(rows, data).Ok? && CalcShape3(Points3(rows, data).value, ext.geometry) == Ok(t.shape3)
      && t.overall == OverallMeans(OutColumns(rows), ext.circMean)
  {
  }

  /** The merged rows of a configuration that yields a table are the stacked label blocks sorted
      by trial index. */
  lemma ConfigTableRows(data: seq<Trial>, labels: seq<real>, cfg: Config, demean: bool, ext: Externals)
    requires |labels| == |data|
    requires ConfigTable(data, labels, cfg, demean, ext).Ok?
    ensures Blocks(data, labels, Unique(labels), cfg, demean, ext).Ok?
    ensures ConfigTable(data, labels, cfg, demean, ext)
         == AssembleTable(data, SortBy(Blocks(data, labels, Unique(labels), cfg, demean, ext).value, TrialIndex), ext)
  {
  }

  /** A configuration whose three names parse yields a table for any non-empty data, with one row
      per trial in trial order and one shape row per trial. */
  lemma ConfigTableDefined(data: seq<Trial>, labels: seq<real>, cfg: Config, demean: bool, ext: Externals)
    requires |labels| == |data| && |data| > 0
    requires ParseDecisionType(cfg.dt).Some? && ParseWeightType(cfg.wt).Some? && ParseCoordType(cfg.ct).Some?
    ensures ConfigTable(data, labels, cfg, demean, ext).Ok?
    ensures var t := ConfigTable(data, labels, cfg, demean, ext).value;
      && |t.rows| == |data| && (forall i :: 0 <= i < |t.rows| ==> t.rows[i].cart.trialIndex == i)
      && |t.shape2| == |data| && |t.shape3| == |data|
  {
    var order := Unique(labels);
    assert labels[0] in labels;
    assert order != [];
    BlocksOk(data, labels, order, cfg, demean, ext);
    MergedRowsAreTrialOrder(data, labels, cfg, demean, ext);
    var rows := SortBy(Blocks(data, labels, order, cfg, demean, ext).value, TrialIndex);
    AssembleDefined(data, rows, ext);
    assert ConfigTable(data, labels, cfg, demean, ext) == AssembleTable(data, rows, ext);
  }

  /** The 3-D shape of a configuration is measured on the points that pair each trial's merged
      coordinate with the same trial's character decision number. */
  lemma ShapePointsAreTrials(data: seq<Trial>, labels: seq<real>, cfg: Config, demean: bool, ext: Externals)
    requires |labels| == |data| && |data| > 0
    requires ParseDecisionType(cfg.dt).Some? && ParseWeightType(cfg.wt).Some? && ParseCoordType(cfg.ct).Some?
    ensures ConfigTable(data, labels, cfg, demean, ext).Ok?
    ensures var t := ConfigTable(data, labels, cfg, demean, ext).value;
      var pts := Points3(t.rows, data);
      && pts.Ok? && CalcShape3(pts.value, ext.geometry) == Ok(t.shape3)
      && |pts.value| == |data| == |t.rows|
      && forall i :: 0 <= i < |data| ==>
           && t.rows[i].cart.trialIndex == i
           && pts.value[i] == Point3(t.rows[i].cart.coord.affil, t.rows[i].cart.coord.power, data[i].charDecisionNum as real)
  {
    ConfigTableDefined(data, labels, cfg, demean, ext);
    ConfigTableRows(data, labels, cfg, demean, ext);
    var rows := SortBy(Blocks(data, labels, Unique(labels), cfg, demean, ext).value, TrialIndex);
    AssembleParts(data, rows, ext);
  }

  lemma BlocksOk(data: seq<Trial>, labels: seq<real>, order: seq<real>, cfg: Config, demean: bool, ext: Externals)
    requires |labels| == |data|
    requires ParseDecisionType(cfg.dt).Some? && ParseWeightType(cfg.wt).Some? && ParseCoordType(cfg.ct).Some?
    requires forall l :: l in order ==> l in labels
    ensures Blocks(data, labels, order, cfg, demean, ext).Ok?
  {
    var rs := LabelBlocks(data, labels, order, cfg, demean, ext);
    forall i | 0 <= i < |rs|
      ensures rs[i].Ok?
    {
      LabelBlockOk(data, labels, order[i], cfg, demean, ext);
    }
    StackOk(rs);
  }

  /** A label that occurs gives a non-empty trajectory, which a configuration whose names parse
      always computes. */
  lemma LabelBlockOk(data: seq<Trial>, labels: seq<real>, l: real, cfg: Config, demean: bool, ext: Externals)
    requires |labels| == |data| && l in labels
    requires ParseDecisionType(cfg.dt).Some? && ParseWeightType(cfg.wt).Some? && ParseCoordType(cfg.ct).Some?
    ensures LabelBlock(data, labels, l, cfg, demean, ext).Ok?
  {
    var i :| 0 <= i < |labels| && labels[i] == l;
    var ixs := Positions(labels, l);
    assert i in ixs;
    assert CalcCoords(ixs, RawAt(data, ixs), cfg, demean, ext).Ok?;
  }

  /** The label loop: each label's trajectory appended in turn; the first failure is returned. */
  method StackLabels(data: seq<Trial>, labels: seq<real>, order: seq<real>, cfg: Config, demean: bool, ext: Externals)
    returns (r: Result<seq<Row>>)
    requires |labels| == |data|
    ensures r == Blocks(data, labels, order, cfg, demean, ext)
  {
    ghost var rs := LabelBlocks(data, labels, order, cfg, demean, ext);
    var stacked: seq<Row> := [];
    for li := 0 to |order|
      invariant Stack(rs[..li]) == Ok(stacked)
    {
      var block := LabelBlock(data, labels, order[li], cfg, demean, ext);
      assert rs[li] == block;
      if block.Err? {
        StackStepErr(rs, li, stacked, block.error);
        return Err(block.error);
      }
      StackStepOk(rs, li, stacked, block.value);
      stacked := stacked + block.value;
    }
    assert rs[..|order|] == rs;
    r := Ok(stacked);
  }

  /** The column loop adding an `_overallmean` column for every column the rule selects; the
      circular ones go through the running circular mean. */
  method AddOverallMeans(cols: seq<Series>, circMean: seq<Num> -> Num) returns (overall: seq<Series>)
    ensures overall == OverallMeans(cols, circMean)
  {
    overall := [];
    for j := 0 to |cols|
      invariant overall == OverallMeans(cols[..j], circMean)
    {
      assert cols[..j + 1][..j] == cols[..j];
      assert cols[..j + 1][j] == cols[j];
      var c := cols[j];
      var kind := OverallMeanKind(c.name);
      if kind == CircularMean {
        var m := CalcCircularMean(c.values, Ones(|c.values|), circMean);
        overall := overall + [Series(c.name + "_overallmean", m)];
      } else if kind == LinearMean {
        overall := overall + [Series(c.name + "_overallmean", LinearCumulativeMean(c.values, MaskOf(Ones(|c.values|))))];
      }
    }
    assert cols[..|cols|] == cols;
  }

  /** The body of the configuration loop, as it runs: the label loop, the merge, the shapes and
      the column loop. */
  method ComputeConfig(data: seq<Trial>, labels: seq<real>, cfg: Config, demean: bool, ext: Externals)
    returns (r: Result<Table>)
    requires |labels| == |data|
    ensures r == ConfigTable(data, labels, cfg, demean, ext)
  {
    var order := Unique(labels);
    if order == [] {
      return Err(NothingToConcatenate);
    }
    var stacked := StackLabels(data, labels, order, cfg, demean, ext);
    if stacked.Err? {
      return Err(stacked.error);
    }
    var rows := SortBy(stacked.value, TrialIndex);
    var shape2 := CalcShape2(CoordsOf(rows), ext.geometry);
    if shape2.Err? {
      return Err(shape2.error);
    }
    var points := Points3(rows, data);
    if points.Err? {
      return Err(points.error);
    }
    var shape3 := CalcShape3(points.value, ext.geometry);
    if shape3.Err? {
      return Err(shape3.error);
    }
    var overall := AddOverallMeans(OutColumns(rows), ext.circMean);
    r := Ok(Table(data, rows, overall, shape2.value, shape3.value));
  }

  // ---------------------------------------------------------------------------------------
  // run: labels, configurations, output
  // ---------------------------------------------------------------------------------------

  /** The `labels` argument of `run`: `None`, a column name, or explicit per-trial labels. */
  datatype LabelSpec = NoLabels | ColumnLabels(column: string) | GivenLabels(values: seq<real>)

  /** The numeric columns of the trial data that can serve as labels. */
  const LabelColumnNames: seq<string> :=
    ["decision_num", "scene_num", "char_role_num", "char_decision_num", "button_press", "affil", "power", "reaction_time"]

  /** The value of one of the label columns in a trial. */
  function TrialValue(t: Trial, name: string): real {
    if name == "decision_num" then t.decisionNum as real
    else if name == "scene_num" then t.sceneNum as real
    else if name == "char_role_num" then t.charRoleNum as real
    else if name == "char_decision_num" then t.charDecisionNum as real
    else if name == "button_press" then t.buttonPress as real
    else if name == "affil" then t.affil as real
    else if name == "power" then t.power as real
    else t.reactionTime
  }

  /** A numeric column of the trial data by name: entry i is trial i's value in that column. */
  function LabelColumn(data: seq<Trial>, name: string): (r: Option<seq<real>>)
    ensures r.Some? <==> name in LabelColumnNames
    ensures r.Some? ==> |r.value| == |data|
    ensures name == "decision_num" ==> r.Some? && forall i :: 0 <= i < |data| ==> r.value[i] == data[i].decisionNum as real
    ensures name == "scene_num" ==> r.Some? && forall i :: 0 <= i < |data| ==> r.value[i] == data[i].sceneNum as real
    ensures name == "char_role_num" ==> r.Some? && forall i :: 0 <= i < |data| ==> r.value[i] == data[i].charRoleNum as real
    ensures name == "char_decision_num" ==> r.Some? && forall i :: 0 <= i < |data| ==> r.value[i] == data[i].charDecisionNum as real
    ensures name == "button_press" ==> r.Some? && forall i :: 0 <= i < |data| ==> r.value[i] == data[i].buttonPress as real
    ensures name == "affil" ==> r.Some? && forall i :: 0 <= i < |data| ==> r.value[i] == data[i].affil as real
    ensures name == "power" ==> r.Some? && forall i :: 0 <= i < |data| ==> r.value[i] == data[i].power as real
    ensures name == "reaction_time" ==> r.Some? && forall i :: 0 <= i < |data| ==> r.value[i] == data[i].reactionTime
  {
    if name in LabelColumnNames then Some(seq(|data|, i requires 0 <= i < |data| => TrialValue(data[i], name)))
    else None
  }

  /** The label per trial: all ones for `None` (one trajectory), a data column, or the given
      labels, which must have one entry per trial. */
  function ResolveLabels(data: seq<Trial>, spec: LabelSpec): (r: Result<seq<real>>)
    ensures r.Ok? ==> |r.value| == |data|
    ensures spec.GivenLabels? ==> (r.Err? <==> |spec.values| != |data|)
    ensures spec.GivenLabels? && r.Err? ==> r.error == LabelLengthMismatch
    ensures spec.NoLabels? ==> r.Ok? && forall i :: 0 <= i < |data| ==> r.value[i] == 1.0
    ensures spec.GivenLabels? && |spec.values| == |data| ==> r == Ok(spec.values)
    ensures spec.ColumnLabels? ==> (r.Err? <==> spec.column !in LabelColumnNames)
    ensures spec.ColumnLabels? && r.Err? ==> r.error == UnknownColumn(spec.column)
    ensures spec.ColumnLabels? && r.Ok? ==> LabelColumn(data, spec.column) == Some(r.value)
  {
    match spec
    case NoLabels => Ok(seq(|data|, _ => 1.0))
    case ColumnLabels(name) => Need(LabelColumn(data, name), UnknownColumn(name))
    case GivenLabels(v) => if |v| != |data| then Err(LabelLengthMismatch) else Ok(v)
  }

  /** A label column splits the trials by their value in that column: trial i belongs to the
      trajectory of label l exactly when its entry in the column is l. */
  lemma ColumnLabelsSplitByValue(data: seq<Trial>, name: string, l: real, i: nat)
    requires name in LabelColumnNames && i < |data|
    ensures ResolveLabels(data, ColumnLabels(name)).Ok?
    ensures i in Positions(ResolveLabels(data, ColumnLabels(name)).value, l) <==> LabelColumn(data, name).value[i] == l
  {
    var labels := ResolveLabels(data, ColumnLabels(name)).value;
    var p := Positions(labels, l);
    if i in p {
      var j :| 0 <= j < |p| && p[j] == i;
    }
  }

  /** With the default `labels='char_role_num'`, there is one trajectory per character: trial i
      belongs to the trajectory of label l exactly when its character role number is l. */
  lemma CharacterTrajectories(data: seq<Trial>, l: real, i: nat)
    requires i < |data|
    ensures ResolveLabels(data, ColumnLabels("char_role_num")).Ok?
    ensures i in Positions(ResolveLabels(data, ColumnLabels("char_role_num")).value, l) <==> data[i].charRoleNum as real == l
  {
    ColumnLabelsSplitByValue(data, "char_role_num", l, i);
  }

  /** Without labels every trial is in one trajectory. */
  lemma NoLabelsIsOneTrajectory(data: seq<Trial>)
    requires |data| > 0
    ensures Unique(ResolveLabels(data, NoLabels).value) == [1.0]
    ensures Positions(ResolveLabels(data, NoLabels).value, 1.0) == Range(|data|)
  {
    var labels := ResolveLabels(data, NoLabels).value;
    UniqueOfConstant(labels, 1.0);
    var p := Positions(labels, 1.0);
    forall i | 0 <= i < |data|
      ensures i in p
    {
    }
    PositionsAreRange(p, |data|);
  }

  lemma {:induction false} UniqueOfConstant(labels: seq<real>, c: real)
    requires |labels| > 0 && forall i :: 0 <= i < |labels| ==> labels[i] == c
    ensures Unique(labels) == [c]
    decreases |labels|
  {
    var k := |labels| - 1;
    if k > 0 {
      UniqueOfConstant(labels[..k], c);
    }
  }

  lemma {:induction false} PositionsAreRange(p: seq<nat>, n: nat)
    requires IncreasingNat(p)
    requires forall j :: 0 <= j < |p| ==> p[j] < n
    requires forall i :: 0 <= i < n ==> i in p
    ensures p == Range(n)
  {
    var a := multiset(p);
    var b := multiset(Range(n));
    forall x | true
      ensures a[x] == b[x]
    {
      RangeCount(n, x);
      IncreasingCount(p, x);
    }
    assert a == b;
    SortedEqual(p, Range(n));
  }

  lemma {:induction false} IncreasingCount(p: seq<nat>, x: nat)
    requires IncreasingNat(p)
    ensures multiset(p)[x] == if x in p then 1 else 0
    decreases |p|
  {
    if p != [] {
      var k := |p| - 1;
      IncreasingCount(p[..k], x);
      assert p == p[..k] + [p[k]];
    }
  }

  /** Blocks laid end to end. */
  function Flatten<T>(blocks: seq<seq<T>>): seq<T> {
    if blocks == [] then [] else Flatten(blocks[..|blocks| - 1]) + blocks[|blocks| - 1]
  }

  lemma MulStep(a: nat, c: nat)
    ensures (a + 1) * c == a * c + c
  {
  }

  lemma NatProduct(a: nat, c: nat)
    ensures a * c >= 0
  {
  }

  /** Entry r of block i of equally sized blocks sits at i * size + r of the flattened sequence. */
  lemma {:induction false} FlattenAt<T>(blocks: seq<seq<T>>, size: nat, i: nat, r: nat)
    requires forall b :: 0 <= b < |blocks| ==> |blocks[b]| == size
    ensures |Flatten(blocks)| == |blocks| * size
    ensures i < |blocks| && r < size ==> i * size + r < |Flatten(blocks)| && Flatten(blocks)[i * size + r] == blocks[i][r]
    decreases |blocks|
  {
    if blocks != [] {
      var m := |blocks| - 1;
      var front := blocks[..m];
      FlattenAt(front, size, i, r);
      MulStep(m, size);
      if i < m && r < size {
        NatProduct(i, size);
        assert Flatten(blocks)[i * size + r] == Flatten(front)[i * size + r];
      }
    }
  }

  /** The configurations sharing a decision and a weight type, one per coordinate type. */
  function ForCoords(dt: string, wt: string, cts: seq<string>): (r: seq<Config>)
    ensures |r| == |cts|
    ensures forall k :: 0 <= k < |cts| ==> r[k] == Config(dt, wt, cts[k])
  {
    seq(|cts|, k requires 0 <= k < |cts| => Config(dt, wt, cts[k]))
  }

  function WeightBlocks(dt: string, wts: seq<string>, cts: seq<string>): (r: seq<seq<Config>>)
    ensures |r| == |wts|
    ensures forall j :: 0 <= j < |wts| ==> r[j] == ForCoords(dt, wts[j], cts)
  {
    seq(|wts|, j requires 0 <= j < |wts| => ForCoords(dt, wts[j], cts))
  }

  /** The configurations sharing a decision type, weight type major. */
  function ForWeights(dt: string, wts: seq<string>, cts: seq<string>): (r: seq<Config>)
    ensures |r| == |wts| * |cts|
  {
    FlattenAt(WeightBlocks(dt, wts, cts), |cts|, 0, 0);
    Flatten(WeightBlocks(dt, wts, cts))
  }

  function DecisionBlocks(dts: seq<string>, wts: seq<string>, cts: seq<string>): (r: seq<seq<Config>>)
    ensures |r| == |dts|
    ensures forall i :: 0 <= i < |dts| ==> r[i] == ForWeights(dts[i], wts, cts)
  {
    seq(|dts|, i requires 0 <= i < |dts| => ForWeights(dts[i], wts, cts))
  }

  /** The nested loops of `run` over decision, weight and coordinate types, as one sequence. */
  function Configurations(dts: seq<string>, wts: seq<string>, cts: seq<string>): (r: seq<Config>)
    ensures |r| == |dts| * (|wts| * |cts|)
  {
    FlattenAt(DecisionBlocks(dts, wts, cts), |wts| * |cts|, 0, 0);
    Flatten(DecisionBlocks(dts, wts, cts))
  }

  /** The configurations run decision-type-major, then weight type, then coordinate type. */
  lemma ConfigurationsOrder(dts: seq<string>, wts: seq<string>, cts: seq<string>, i: nat, j: nat, k: nat)
    requires i < |dts| && j < |wts| && k < |cts|
    ensures |Configurations(dts, wts, cts)| == |dts| * (|wts| * |cts|)
    ensures var n := i * (|wts| * |cts|) + j * |cts| + k;
      && 0 <= n < |Configurations(dts, wts, cts)|
      && Configurations(dts, wts, cts)[n] == Config(dts[i], wts[j], cts[k])
  {
    var w := |wts| * |cts|;
    var wb, db := WeightBlocks(dts[i], wts, cts), DecisionBlocks(dts, wts, cts);
    FlattenAt(wb, |cts|, j, k);
    NatProduct(j, |cts|);
    var r: nat := j * |cts| + k;
    assert r < w;
    assert ForWeights(dts[i], wts, cts)[r] == Config(dts[i], wts[j], cts[k]);
    NatProduct(i, w);
    FlattenAt(db, w, i, r);
    assert db[i][r] == Config(dts[i], wts[j], cts[k]);
  }

  /** The output key of a configuration, `f'{dt}_{wt}_{ct}'`. */
  function Key(c: Config): string { c.dt + "_" + c.wt + "_" + c.ct }

  /** The default configuration is keyed `current_constant_actual`. */
  lemma DefaultKey()
    ensures Configurations(ResolveDecisionTypes(Flag(false)), ResolveWeightTypes(Flag(false)), ResolveCoordTypes(Flag(false)))
         == [Config("current", "constant", "actual")]
    ensures Key(Config("current", "constant", "actual")) == "current_constant_actual"
  {
    var d, w, c := ResolveDecisionTypes(Flag(false)), ResolveWeightTypes(Flag(false)), ResolveCoordTypes(Flag(false));
    var only := Config("current", "constant", "actual");
    assert d == ["current"] && w == ["constant"] && c == ["actual"];
    assert ForCoords("current", "constant", c) == [only];
    var wb := WeightBlocks("current", w, c);
    assert wb == [[only]];
    assert wb[..0] == [];
    assert Flatten(wb) == Flatten(wb[..0]) + [only];
    assert ForWeights("current", w, c) == [only];
    var db := DecisionBlocks(d, w, c);
    assert db == [[only]];
    assert db[..0] == [];
    assert Flatten(db) == Flatten(db[..0]) + [only];
  }

  /** The result of `run`: nothing yet, a dictionary of tables by key, or one bare table. */
  datatype Out = Unset | Keyed(tables: map<string, Table>) | Single(table: Table)

  /** Storing one configuration's table: the bare table when there is a single configuration,
      an entry of the dictionary otherwise. */
  function Store(out: Out, key: string, t: Table, single: bool): (r: Out)
    requires !single ==> out.Keyed?
    ensures !single ==> r.Keyed?
    ensures single ==> r == Single(t)
    ensures !single ==> r.tables == out.tables[key := t]
  {
    if single then Single(t) else Keyed(out.tables[key := t])
  }

  /** The configuration loop from a given state: each table is stored as it is computed, and the
      first failure stops the loop with what was stored so far. */
  function RunFrom(keys: seq<string>, results: seq<Result<Table>>, out: Out, single: bool): (Out, Result<()>)
    requires |keys| == |results|
    requires !single ==> out.Keyed?
  {
    if keys == [] then (out, Ok(()))
    else match results[0]
      case Err(e) => (out, Err(e))
      case Ok(t) => RunFrom(keys[1..], results[1..], Store(out, keys[0], t, single), single)
  }

  /** The loop from configuration i on: a failure stops it, a table is stored and the loop
      goes on with the next configuration. */
  lemma RunFromSuffix(keys: seq<string>, results: seq<Result<Table>>, out: Out, single: bool, i: nat)
    requires |keys| == |results| && i < |keys|
    requires !single ==> out.Keyed?
    ensures results[i].Err? ==> RunFrom(keys[i..], results[i..], out, single) == (out, Err(results[i].error))
    ensures results[i].Ok? ==>
      RunFrom(keys[i..], results[i..], out, single)
        == RunFrom(keys[i + 1..], results[i + 1..], Store(out, keys[i], results[i].value, single), single)
  {
    assert keys[i..][0] == keys[i] && results[i..][0] == results[i];
    assert keys[i..][1..] == keys[i + 1..] && results[i..][1..] == results[i + 1..];
  }

  function Results(data: seq<Trial>, labels: seq<real>, cfgs: seq<Config>, demean: bool, ext: Externals): (r: seq<Result<Table>>)
    requires |labels| == |data|
    ensures |r| == |cfgs|
    ensures forall i :: 0 <= i < |cfgs| ==> r[i] == ConfigTable(data, labels, cfgs[i], demean, ext)
  {
    seq(|cfgs|, i requires 0 <= i < |cfgs| => ConfigTable(data, labels, cfgs[i], demean, ext))
  }

  function KeysOfConfigs(cfgs: seq<Config>): (r: seq<string>)
    ensures |r| == |cfgs|
    ensures forall i :: 0 <= i < |cfgs| ==> r[i] == Key(cfgs[i])
  {
    seq(|cfgs|, i requires 0 <= i < |cfgs| => Key(cfgs[i]))
  }

  /** `run`: a label error leaves the output as it was; otherwise the output restarts as an
      empty dictionary and receives the configurations in order. */
  function RunOutcome(data: seq<Trial>, dts: seq<string>, wts: seq<string>, cts: seq<string>, demean: bool,
                      spec: LabelSpec, ext: Externals, before: Out): (Out, Result<()>)
  {
    match ResolveLabels(data, spec)
    case Err(e) => (before, Err(e))
    case Ok(labels) =>
      var cfgs := Configurations(dts, wts, cts);
      RunFrom(KeysOfConfigs(cfgs), Results(data, labels, cfgs, demean, ext), Keyed(map[]), |cfgs| == 1)
  }

  /** The index of the first failed configuration, or the number of configurations. */
  function FirstFailure(results: seq<Result<Table>>): (r: nat)
    ensures r <= |results|
    ensures forall j :: 0 <= j < r ==> results[j].Ok?
    ensures r < |results| ==> results[r].Err?
  {
    if results == [] then 0 else if results[0].Err? then 0 else 1 + FirstFailure(results[1..])
  }

  /** Unfolding one successful configuration of the loop over a dictionary. */
  lemma RunFromStep(keys: seq<string>, results: seq<Result<Table>>, acc: map<string, Table>)
    requires |keys| == |results| && |keys| > 0 && results[0].Ok?
    ensures RunFrom(keys, results, Keyed(acc), false)
         == RunFrom(keys[1..], results[1..], Keyed(acc[keys[0] := results[0].value]), false)
    ensures FirstFailure(results) == 1 + FirstFailure(results[1..])
  {
  }

  /** The loop reports the first failure, and succeeds when there is none. */
  lemma {:induction false} RunFromStatus(keys: seq<string>, results: seq<Result<Table>>, acc: map<string, Table>)
    requires |keys| == |results|
    ensures var (out, status) := RunFrom(keys, results, Keyed(acc), false);
      var f := FirstFailure(results);
      && out.Keyed?
      && (status.Ok? <==> f == |results|)
      && (status.Err? ==> status.error == results[f].error)
    decreases |keys|
  {
    if keys != [] && results[0].Ok? {
      RunFromStep(keys, results, acc);
      RunFromStatus(keys[1..], results[1..], acc[keys[0] := results[0].value]);
    }
  }

  /** The dictionary's keys are the earlier ones plus the keys of the configurations before the
      first failure. */
  lemma {:induction false} RunFromDomain(keys: seq<string>, results: seq<Result<Table>>, acc: map<string, Table>)
    requires |keys| == |results|
    ensures var out := RunFrom(keys, results, Keyed(acc), false).0;
      out.Keyed? && out.tables.Keys == acc.Keys + (set x | x in keys[..FirstFailure(results)])
    decreases |keys|
  {
    var f := FirstFailure(results);
    RunFromStatus(keys, results, acc);
    if keys == [] || results[0].Err? {
      assert keys[..f] == [];
    } else {
      var acc' := acc[keys[0] := results[0].value];
      RunFromStep(keys, results, acc);
      RunFromDomain(keys[1..], results[1..], acc');
      var stored, front := keys[..f], keys[1..][..f - 1];
      assert stored == [keys[0]] + front;
      ElementsOfCons(keys[0], front);
    }
  }

  lemma ElementsOfCons<T>(x: T, s: seq<T>)
    ensures (set y | y in [x] + s) == {x} + (set y | y in s)
  {
  }

  /** An earlier entry whose key no stored configuration uses is left alone. */
  lemma {:induction false} RunFromUntouched(keys: seq<string>, results: seq<Result<Table>>, acc: map<string, Table>, x: string)
    requires |keys| == |results|
    requires x in acc && x !in keys[..FirstFailure(results)]
    ensures var out := RunFrom(keys, results, Keyed(acc), false).0;
      out.Keyed? && x in out.tables && out.tables[x] == acc[x]
    decreases |keys|
  {
    var f := FirstFailure(results);
    RunFromStatus(keys, results, acc);
    if keys != [] && results[0].Ok? {
      var acc' := acc[keys[0] := results[0].value];
      RunFromStep(keys, results, acc);
      assert keys[..f] == [keys[0]] + keys[1..][..f - 1];
      RunFromUntouched(keys[1..], results[1..], acc', x);
    }
  }

  /** Under distinct keys, every configuration before the first failure is stored under its key. */
  lemma {:induction false} RunFromValue(keys: seq<string>, results: seq<Result<Table>>, acc: map<string, Table>, j: nat)
    requires |keys| == |results|
    requires forall a, b :: 0 <= a < b < |keys| ==> keys[a] != keys[b]
    requires j < FirstFailure(results)
    ensures var out := RunFrom(keys, results, Keyed(acc), false).0;
      out.Keyed? && keys[j] in out.tables && out.tables[keys[j]] == results[j].value
    decreases |keys|
  {
    var f := FirstFailure(results);
    RunFromStatus(keys, results, acc);
    var acc' := acc[keys[0] := results[0].value];
    RunFromStep(keys, results, acc);
    if j == 0 {
      var front := keys[1..][..f - 1];
      assert keys[..f] == [keys[0]] + front;
      assert keys[0] !in front by {
        forall l | 0 <= l < f - 1 ensures front[l] != keys[0] {
          assert front[l] == keys[l + 1];
        }
      }
      RunFromUntouched(keys[1..], results[1..], acc', keys[0]);
    } else {
      var ks := keys[1..];
      forall a, b | 0 <= a < b < |ks| ensures ks[a] != ks[b] {
        assert ks[a] == keys[a + 1] && ks[b] == keys[b + 1];
      }
      RunFromValue(ks, results[1..], acc', j - 1);
      assert ks[j - 1] == keys[j] && results[1..][j - 1] == results[j];
    }
  }

  /** With exactly one configuration, the output is that bare table, or the empty dictionary when
      it fails. */
  lemma SingleConfiguration(keys: seq<string>, results: seq<Result<Table>>)
    requires |keys| == |results| == 1
    ensures results[0].Ok? ==> RunFrom(keys, results, Keyed(map[]), true) == (Single(results[0].value), Ok(()))
    ensures results[0].Err? ==> RunFrom(keys, results, Keyed(map[]), true) == (Keyed(map[]), Err(results[0].error))
  {
  }

  /** `run` with several configurations and valid labels produces a dictionary, and succeeds
      exactly when every configuration computes. */
  lemma RunSucceedsIffEveryConfiguration(data: seq<Trial>, dts: seq<string>, wts: seq<string>, cts: seq<string>,
                                         demean: bool, spec: LabelSpec, ext: Externals, before: Out)
    requires ResolveLabels(data, spec).Ok?
    requires |Configurations(dts, wts, cts)| != 1
    requires var cfgs := Configurations(dts, wts, cts);
      forall a, b :: 0 <= a < b < |cfgs| ==> Key(cfgs[a]) != Key(cfgs[b])
    ensures var (out, status) := RunOutcome(data, dts, wts, cts, demean, spec, ext, before);
      var cfgs := Configurations(dts, wts, cts);
      && out.Keyed?
      && (status.Ok? <==> forall i :: 0 <= i < |cfgs| ==> ConfigTable(data, ResolveLabels(data, spec).value, cfgs[i], demean, ext).Ok?)
  {
    var cfgs := Configurations(dts, wts, cts);
    RunFromAll(KeysOfConfigs(cfgs), Results(data, ResolveLabels(data, spec).value, cfgs, demean, ext));
  }

  /** When it succeeds, the dictionary holds each configuration's table under its key, and
      nothing else, provided the keys are distinct. */
  lemma RunStoresEveryConfiguration(data: seq<Trial>, dts: seq<string>, wts: seq<string>, cts: seq<string>,
                                    demean: bool, spec: LabelSpec, ext: Externals, before: Out)
    requires ResolveLabels(data, spec).Ok?
    requires |Configurations(dts, wts, cts)| != 1
    requires var cfgs := Configurations(dts, wts, cts);
      forall a, b :: 0 <= a < b < |cfgs| ==> Key(cfgs[a]) != Key(cfgs[b])
    requires RunOutcome(data, dts, wts, cts, demean, spec, ext, before).1.Ok?
    ensures var out := RunOutcome(data, dts, wts, cts, demean, spec, ext, before).0;
      var cfgs := Configurations(dts, wts, cts);
      && out.Keyed?
      && out.tables.Keys == (set i | 0 <= i < |cfgs| :: Key(cfgs[i]))
      && forall i :: 0 <= i < |cfgs| ==> Ok(out.tables[Key(cfgs[i])]) == ConfigTable(data, ResolveLabels(data, spec).value, cfgs[i], demean, ext)
  {
    var cfgs := Configurations(dts, wts, cts);
    var keys := KeysOfConfigs(cfgs);
    var results := Results(data, ResolveLabels(data, spec).value, cfgs, demean, ext);
    RunFromAll(keys, results);
    assert (set i | 0 <= i < |keys| :: keys[i]) == (set i | 0 <= i < |cfgs| :: Key(cfgs[i]));
  }

  /** The configuration loop over distinct keys succeeds exactly when every result does, and then
      stores every result under its key. */
  lemma RunFromAll(keys: seq<string>, results: seq<Result<Table>>)
    requires |keys| == |results|
    requires forall a, b :: 0 <= a < b < |keys| ==> keys[a] != keys[b]
    ensures var (out, status) := RunFrom(keys, results, Keyed(map[]), false);
      && out.Keyed?
      && (status.Ok? <==> forall i :: 0 <= i < |results| ==> results[i].Ok?)
      && (status.Ok? ==> out.tables.Keys == (set i | 0 <= i < |keys| :: keys[i]))
      && (status.Ok? ==> forall i :: 0 <= i < |keys| ==> out.tables[keys[i]] == results[i].value)
  {
    RunFromStatus(keys, results, map[]);
    var f := FirstFailure(results);
    if f == |results| {
      RunFromDomain(keys, results, map[]);
      forall i | 0 <= i < |keys|
        ensures RunFrom(keys, results, Keyed(map[]), false).0.tables[keys[i]] == results[i].value
      {
        RunFromValue(keys, results, map[], i);
      }
      assert keys[..f] == keys;
      assert (set x | x in keys) == (set i | 0 <= i < |keys| :: keys[i]) by {
        forall x | x in keys
          ensures x in (set i | 0 <= i < |keys| :: keys[i])
        {
          var i :| 0 <= i < |keys| && keys[i] == x;
        }
      }
    }
  }

  /** `run` with exactly one configuration and valid labels stores the bare table, or leaves the
      empty dictionary when the configuration fails. */
  lemma RunSingleConfiguration(data: seq<Trial>, dts: seq<string>, wts: seq<string>, cts: seq<string>,
                               demean: bool, spec: LabelSpec, ext: Externals, before: Out)
    requires ResolveLabels(data, spec).Ok?
    requires |Configurations(dts, wts, cts)| == 1
    ensures var (out, status) := RunOutcome(data, dts, wts, cts, demean, spec, ext, before);
      var t := ConfigTable(data, ResolveLabels(data, spec).value, Configurations(dts, wts, cts)[0], demean, ext);
      && (t.Ok? ==> out == Single(t.value) && status == Ok(()))
      && (t.Err? ==> out == Keyed(map[]) && status == Err(t.error))
  {
    var cfgs := Configurations(dts, wts, cts);
    var labels := ResolveLabels(data, spec).value;
    SingleConfiguration(KeysOfConfigs(cfgs), Results(data, labels, cfgs, demean, ext));
  }

  /** A label error leaves the earlier output in place. */
  lemma RunLabelError(data: seq<Trial>, dts: seq<string>, wts: seq<string>, cts: seq<string>,
                      demean: bool, values: seq<real>, ext: Externals, before: Out)
    requires |values| != |data|
    ensures RunOutcome(data, dts, wts, cts, demean, GivenLabels(values), ext, before) == (before, Err(LabelLengthMismatch))
  {
  }

  class ComputeBehavior {
    var data: seq<Trial>
    var decisionTypes: seq<string>
    var weightTypes: seq<string>
    var coordTypes: seq<string>
    var demeanCoords: bool
    var out: Out

    /** `__init__` on a data frame that is already loaded: the flags are resolved to lists. */
    constructor (data: seq<Trial>, decisionTypes: Selection, weightTypes: Selection, coordTypes: Selection, demeanCoords: bool)
      ensures this.data == data
      ensures this.decisionTypes == ResolveDecisionTypes(decisionTypes)
      ensures this.weightTypes == ResolveWeightTypes(weightTypes)
      ensures this.coordTypes == ResolveCoordTypes(coordTypes)
      ensures this.demeanCoords == demeanCoords
      ensures this.out == Unset
    {
      this.data := data;
      this.decisionTypes := ResolveDecisionTypes(decisionTypes);
      this.weightTypes := ResolveWeightTypes(weightTypes);
      this.coordTypes := ResolveCoordTypes(coordTypes);
      this.demeanCoords := demeanCoords;
      this.out := Unset;
    }

    /** `run`: resolve the labels, reset the output, compute every configuration in order and
      store its table. */
    method Run(labels: LabelSpec, ext: Externals) returns (status: Result<()>)
      modifies this`out
      ensures (out, status) == RunOutcome(data, decisionTypes, weightTypes, coordTypes, demeanCoords, labels, ext, old(out))
    {
      ghost var goal := RunOutcome(data, decisionTypes, weightTypes, coordTypes, demeanCoords, labels, ext, out);
      var resolved := ResolveLabels(data, labels);
      if resolved.Err? {
        return Err(resolved.error);
      }
      var lv := resolved.value;
      var cfgs := Configurations(decisionTypes, weightTypes, coordTypes);
      var single := |cfgs| == 1;
      ghost var keys := KeysOfConfigs(cfgs);
      ghost var results := Results(data, lv, cfgs, demeanCoords, ext);
      // the dictionary `out` is reset, then filled one configuration at a time
      var tables: Out := Keyed(map[]);
      assert goal == RunFrom(keys, results, tables, single);
      for i := 0 to |cfgs|
        invariant !single ==> tables.Keyed?
        invariant goal == RunFrom(keys[i..], results[i..], tables, single)
      {
        var t := ComputeConfig(data, lv, cfgs[i], demeanCoords, ext);
        assert results[i] == t && keys[i] == Key(cfgs[i]);
        RunFromSuffix(keys, results, tables, single, i);
        if t.Err? {
          out := tables;
          return Err(t.error);
        }
        tables := Store(tables, Key(cfgs[i]), t.value, single);
      }
      out := tables;
      status := Ok(());
    }
  }
}
