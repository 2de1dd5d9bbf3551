# Behavioural geometry of the social navigation task

A Dafny model of `ComputeBehavior2`, the engine that turns a subject's per-trial decisions in the
social navigation task into behavioural geometry. Each decision is a pair (affiliation, power)
with entries in {-1, 0, 1}. Per character (or per any other label), the engine:

- selects the `current` or `previous` decisions;
- weights them (`constant`, `linear_decay`, `exponential_decay`);
- accumulates them into `actual` or `counterfactual` coordinates, optionally demeaned;
- computes running means over the answered trials, running centroids and the 1-D consistency
  scores.

It then merges the per-label tables back into trial order. From the merged table it computes:

- the cumulative shape of the space: the convex-hull size, the hull seen from the point of view
  (6, 0), the overlap with the quadrants, and the 3-D hull;
- overall running means of every eligible column.

It stores one table per configuration (decision × weight × coordinate policy) under the key
`dt_wt_ct`, or the bare table when there is only one configuration.

Modules, in the order of the pipeline:

- `Wrappers`: `Option` and `Result`, plus the error kinds the source can raise.
- `Floats`: extended reals (`Fin`, `PosInf`, `NegInf`, `NaN`) with IEEE addition and division.
  They stand in for the NaN and infinity values a division by a zero response count produces.
- `Decisions`: the policy names, decision selection (`get_decisions`) and weighting
  (`weight_decisions`).
- `Trajectory`: `get_coords`, which computes cumulative sums, counterfactual coordinates and
  demeaning.
- `RunningMean`: `np.nancumsum` and both branches of `calc_cumulative_mean`.
- `Consistency`: `simulate_consistent_decisions`, and the per-dimension part of
  `calc_cumulative_consistency`.
- `Shape`: the `cumulative` combinator and `calc_shape`. The hull, overlap and centroid are foreign
  geometry passed in as parameters that either give numbers or fail.
- `Grouping`: `np.unique`, `np.where`, and the sort by `trial_index`.
- `Behavior`: the flags, `check_input`, `calc_coords`, the per-label loop of `run`, the overall
  means, and the class `ComputeBehavior` with its `run` method and `out` field.

The loops of the source are imperative methods, each proved equal to its specification function:

- the copy into the tail of a filled array in `get_decisions`;
- the carry-forward loop of the circular mean;
- the column-by-column fill of the simulated decisions;
- the label loop;
- the overall-mean loop;
- the configuration loop of `run`.

The properties are proved as lemmas about those specification functions.

The source behaves as follows where a reader might expect otherwise:

- The linear running mean divides the running sum of the weighted decisions by the running count
  of answered raw decisions (`RunningMean.MaskedMeanAt`, `Behavior.MeanUsesRawMask`). Under
  `current` an unanswered trial adds 0 to the sum and nothing to the count, so the mean keeps its
  previous value. Under `previous` the trial adds the earlier trial's decision to the sum, which is
  non-zero when that trial was answered, and still nothing to the count, so the mean moves. The
  overall means use no mask at all and divide by the trial count (`Behavior.OverallMeanAt`).
- `run` checks only the length of explicit labels (`Behavior.RunLabelError`) and never calls
  `check_input`. Only `__init__` calls it, for data read from a file, where 63 rows are expected.
  File loading is not part of this model, so the model's class does no row-count check.
- `get_decisions` accepts any shift for the previous-decision policy, and a shift of 0 fails on
  non-empty data (`Decisions.PreviousZeroShiftFails`).

## Model

| member | source | states |
|---|---|---|
| Decisions.ParseDecisionType | social_navigation_analysis/preprocess.py:1254-1259 | a decision policy is recognised exactly for the names `current` and `previous` |
| Decisions.ParseWeightType | social_navigation_analysis/preprocess.py:1269-1276 | a weight policy is recognised exactly for `constant`, `linear_decay` and `exponential_decay` |
| Decisions.ParseCoordType | social_navigation_analysis/preprocess.py:1292-1297 | a coordinate policy is recognised exactly for `actual` and `counterfactual` |
| Decisions.PolicyNamesRoundTrip | social_navigation_analysis/preprocess.py:1208-1218 | every policy's name parses back to that policy, and a name that parses is that policy's name |
| Decisions.GetDecisions | social_navigation_analysis/preprocess.py:1254-1259 | the array-filling method returns the decision selection: the raw decisions for `current`, the filled and tail-copied array for `previous`, an error when the slices differ in length |
| Decisions.PreviousShifts | social_navigation_analysis/preprocess.py:1256-1258 | with a shift of at least one, `previous` succeeds, keeps the length, fills the first `shiftBy` positions and moves decision i to position i + shiftBy |
| Decisions.PreviousZeroShiftFails | social_navigation_analysis/preprocess.py:1257 | a shift of zero fails exactly when there is at least one decision |
| Decisions.Weights | social_navigation_analysis/preprocess.py:1269-1276 | one weight per trial, all equal to 1 for constant weighting |
| Decisions.WeightDecisions | social_navigation_analysis/preprocess.py:1269-1276 | keeps the trial count, and each weighted decision is that trial's decision scaled by that trial's weight |
| Decisions.ConstantWeightsKeepDecisions | social_navigation_analysis/preprocess.py:1270-1271 | constant weighting returns the decisions unchanged |
| Trajectory.CumSumAt | social_navigation_analysis/preprocess.py:1292-1293 | entry i of the running sum is the sum of decisions 0..i |
| Trajectory.ActualIsPrefixSum | social_navigation_analysis/preprocess.py:1292-1293 | the actual coordinate at trial i is the sum of the decisions of trials 0..i |
| Trajectory.CounterfactualReversesOwnChoice | social_navigation_analysis/preprocess.py:1294-1295 | the counterfactual coordinate is the actual one minus twice the trial's decision, i.e. the earlier sum with the trial's own choice reversed |
| Trajectory.SumShifted | social_navigation_analysis/preprocess.py:1296 | subtracting m from every entry lowers the sum by n·m |
| Trajectory.DemeanedColumnsSumToZero | social_navigation_analysis/preprocess.py:1296 | demeaned coordinates of either kind sum to zero in both columns |
| Trajectory.FirstCoordinateIsFirstDecision | social_navigation_analysis/preprocess.py:1292-1293 | the first actual coordinate is the first decision: trial 0 reflects only itself |
| RunningMean.NanCumSumAt | social_navigation_analysis/preprocess.py:1359 | entry i of `nancumsum` is the NaN-skipping sum of entries 0..i |
| RunningMean.NanSumOfFinite | social_navigation_analysis/preprocess.py:1359 | on finite values the NaN-skipping sum is the ordinary sum |
| RunningMean.LinearMeanAt | social_navigation_analysis/preprocess.py:1358-1360 | the linear running mean at i is the running sum of values over the running sum of the mask |
| RunningMean.MaskedMeanAt | social_navigation_analysis/preprocess.py:1358-1360 | with a boolean mask the denominator is the number of masked-in trials among 0..i |
| RunningMean.UnmaskedMeanAt | social_navigation_analysis/preprocess.py:1354-1360 | without a mask the denominator is i + 1 |
| RunningMean.UnansweredMeanIsUndefined | social_navigation_analysis/preprocess.py:1358-1360 | before any masked-in trial the running mean is not a finite number |
| RunningMean.FiniteMeanAt | social_navigation_analysis/preprocess.py:1358-1360 | once a trial is masked in, the mean of finite values is their sum over the count |
| RunningMean.CalcCircularMean | social_navigation_analysis/preprocess.py:1362-1370 | the zero-initialised loop computes the circular running means |
| RunningMean.CircularCarriesForward | social_navigation_analysis/preprocess.py:1368-1369 | across unmasked trials the circular mean keeps its last value |
| RunningMean.CircularMeanOfLastResponse | social_navigation_analysis/preprocess.py:1365-1369 | after the last masked-in trial j the circular mean is the first value when j = 0 and otherwise the circular mean of values 0..j |
| RunningMean.CircularMeanBeforeAnyResponse | social_navigation_analysis/preprocess.py:1363-1369 | before any masked-in trial the circular mean is 0, the array's initial value |
| Consistency.FillColumn | social_navigation_analysis/preprocess.py:1380-1382 | one pass writes the alternating pattern into the answered rows of its column and leaves the other column as it was |
| Consistency.SimulateConsistentDecisions | social_navigation_analysis/preprocess.py:1377-1383 | the method returns the least- and the most-consistent decision patterns |
| Consistency.SimulatedColumns | social_navigation_analysis/preprocess.py:1377-1382 | per column, the inconsistent pattern alternates the magnitudes and the consistent one is the absolute decisions |
| Consistency.InconsistentMagnitudes | social_navigation_analysis/preprocess.py:1378-1382 | both patterns keep each decision's magnitude, answered and unanswered trials stay so, and the consistent pattern is |d| |
| Consistency.SignsAlternate | social_navigation_analysis/preprocess.py:1382 | between two consecutive answered trials the inconsistent sign flips |
| Consistency.FirstAnsweredIsPositive | social_navigation_analysis/preprocess.py:1382 | the first answered trial of the inconsistent pattern is positive |
| Consistency.DecisionSum | social_navigation_analysis/preprocess.py:1411 | a column of decisions sums to (answered − 2·negatives) |
| Consistency.AlternatingSum | social_navigation_analysis/preprocess.py:1407 | the inconsistent column sums to the parity of the answered count |
| Consistency.AbsSumIsAnswered | social_navigation_analysis/preprocess.py:1405-1408 | the absolute decisions sum to the answered count |
| Consistency.EnvelopeQuotients | social_navigation_analysis/preprocess.py:1405-1411 | at trial i with k answered trials, the mean is (k − 2·neg)/k, the minimum envelope is (k mod 2)/k and the maximum is k/k |
| Consistency.EnvelopeAt | social_navigation_analysis/preprocess.py:1405-1412 | consistency at trial i depends only on the answered and negative counts of trials 0..i |
| Consistency.RatioOfSeveral | social_navigation_analysis/preprocess.py:1412 | with at least two answered trials the ratio is finite and lies in [0, 1] |
| Consistency.RatioOfOne | social_navigation_analysis/preprocess.py:1412 | with one answered trial the minimum and maximum envelopes are equal, so the ratio is NaN whatever the sign of that decision |
| Consistency.EnvelopeOfNone | social_navigation_analysis/preprocess.py:1407-1412 | with no answered trial the consistency is NaN |
| Consistency.EnvelopeOfOne | social_navigation_analysis/preprocess.py:1407-1412 | with one answered trial min equals max and the consistency is NaN |
| Consistency.EnvelopeOfSeveral | social_navigation_analysis/preprocess.py:1407-1412 | with at least two answered trials, min is (k mod 2)/k, max is 1, and the consistency is finite in [0, 1] |
| Consistency.CalcCumulativeConsistency | social_navigation_analysis/preprocess.py:1405-1412 | one score pair per trial, entry i being the per-dimension consistency of the affiliation column and of the power column at trial i |
| Consistency.ConstantWeightEnvelope | social_navigation_analysis/preprocess.py:1405-1412 | the three cases together: NaN for fewer than two answered trials, a score in [0, 1] otherwise |
| Shape.Prefixes | social_navigation_analysis/preprocess.py:1347 | one result per non-empty prefix, the i-th computed on values 0..i |
| Shape.Cumulative | social_navigation_analysis/preprocess.py:1343-1348 | stacking succeeds exactly on non-empty input, with row i the measure of prefix 0..i |
| Shape.Guard2 | social_navigation_analysis/preprocess.py:1440-1444 | a failing measure gives NaN in both entries, a succeeding one its numbers |
| Shape.Guard4 | social_navigation_analysis/preprocess.py:1452-1457 | a failing overlap gives NaN in all four entries, a succeeding one its numbers |
| Shape.ShapeDefinedIffNonEmpty | social_navigation_analysis/preprocess.py:1548-1570 | both shape tables exist exactly for non-empty coordinates, with one row per trial |
| Shape.ShapeRow2At | social_navigation_analysis/preprocess.py:1556-1564 | row i holds the hull size of trials 0..i, the hull size of (6, 0) followed by trials 0..i, and the quadrant overlaps of trials 0..i |
| Shape.ShapeRowsArePrefixLocal | social_navigation_analysis/preprocess.py:1556-1564 | a shape row depends only on its prefix, so a failure affects no other row |
| Shape.FailedSizeIsNaN | social_navigation_analysis/preprocess.py:1440-1444 | a hull that fails on trials 0..i gives NaN perimeter and area in row i |
| Shape.ShapeRow3At | social_navigation_analysis/preprocess.py:1566-1568 | row i of the 3-D table is the guarded hull size of points 0..i |
| Grouping.Unique | social_navigation_analysis/preprocess.py:1586 | the distinct labels, strictly ascending |
| Grouping.Positions | social_navigation_analysis/preprocess.py:1596 | the ascending positions carrying the label, and all of them |
| Grouping.PositionsCount | social_navigation_analysis/preprocess.py:1596 | each trial occurs once among its label's positions and never among another's |
| Grouping.GroupOrderCount | social_navigation_analysis/preprocess.py:1594-1605 | stacking the positions of distinct labels lists each trial with one of those labels exactly once |
| Grouping.GroupOrderIsPermutation | social_navigation_analysis/preprocess.py:1586-1605 | the per-label blocks of all unique labels are a permutation of the trials |
| Grouping.SortBy | social_navigation_analysis/preprocess.py:1608 | the sorted rows have ascending keys and are a permutation of the input |
| Grouping.SortedEqual | social_navigation_analysis/preprocess.py:1608 | two ascending sequences with the same elements are equal |
| Grouping.SortedPermutationIsRange | social_navigation_analysis/preprocess.py:1608-1609 | rows whose keys are a permutation of 0..n−1 sort into trial order |
| Behavior.FlagsSelectKnownPolicies | social_navigation_analysis/preprocess.py:1208-1218 | `False` selects the one default policy, `True` every policy once, and every selected name parses |
| Behavior.Matches | social_navigation_analysis/preprocess.py:1225 | the match count is positive exactly when the shape is among the expected ones |
| Behavior.CheckInput | social_navigation_analysis/preprocess.py:1223-1231 | returns true exactly when the shape is expected, otherwise raises a shape mismatch |
| Behavior.Answers | social_navigation_analysis/preprocess.py:1482 | the response mask marks the non-zero raw decisions of the dimension |
| Behavior.BuildRows | social_navigation_analysis/preprocess.py:1492-1498 | row i packs, unchanged, trial i's index, weighted decision, coordinate, running mean and centroid, and `responded` holds exactly when either raw decision is non-zero |
| Behavior.Centroids | social_navigation_analysis/preprocess.py:1490 | running centroids exist exactly for non-empty coordinates, one per trial, and entry i is the guarded centroid of coordinates 0..i |
| Behavior.TrajectoryRows | social_navigation_analysis/preprocess.py:1480-1499 | the coordinate rows exist exactly for a non-empty trajectory, one per trial; row i keeps the trial index and the response flag, and holds the i-th selected and weighted decision, its `get_coords` coordinate, the running mean over the raw response mask and the guarded centroid of coordinates 0..i |
| Behavior.CalcCoords | social_navigation_analysis/preprocess.py:1471-1499 | succeeds exactly when all three policy names are known and the trajectory is non-empty; an unknown name is reported; on success the rows are those of the trajectory under the parsed policies |
| Behavior.MeanUsesRawMask | social_navigation_analysis/preprocess.py:1482-1489 | on both dimensions, the running mean at i divides the NaN-skipping sum of weighted decisions 0..i by the count of answered raw decisions among 0..i |
| Behavior.PreviousWeightedShift | social_navigation_analysis/preprocess.py:1484-1485 | under `previous`, trial i carries trial i − 1's decision scaled by trial i's weight, and trial 0 carries zero |
| Behavior.WithConsistency | social_navigation_analysis/preprocess.py:1603 | the coordinate rows are kept unchanged, and row j's scores are entry j of the cumulative consistency of the rows' own weighted decisions |
| Behavior.LabelBlock | social_navigation_analysis/preprocess.py:1596-1603 | a label's block has one row per trial carrying the label |
| Behavior.LabelBlockRows | social_navigation_analysis/preprocess.py:1594-1603 | a label's block is computed afresh on that label's trials alone: row j is the label's j-th trial, with the j-th weighted decision of those trials, its coordinate under `get_coords` of those decisions and its consistency among those decisions |
| Behavior.BlockConsistencyBounds | social_navigation_analysis/preprocess.py:1405-1412 | with current decisions, constant weights and choices in [−1, 1], a label's score on a dimension is NaN until two of the label's trials are answered on it, and afterwards lies in [0, 1] |
| Behavior.LabelBlockKeys | social_navigation_analysis/preprocess.py:1596-1599 | a label's block is keyed by the label's positions, in order |
| Behavior.StackErrorPersists | social_navigation_analysis/preprocess.py:1594-1603 | once a label fails, the whole stack reports that first error |
| Behavior.StackLabels | social_navigation_analysis/preprocess.py:1594-1603 | the label loop returns the stacked blocks, or the first label's error |
| Behavior.BlocksKeys | social_navigation_analysis/preprocess.py:1594-1605 | the stacked blocks are keyed by the stacked positions of the labels |
| Behavior.MergedRowsAreTrialOrder | social_navigation_analysis/preprocess.py:1605-1609 | after the sort, the merged table has one row per trial and row i is trial i |
| Behavior.ContainsIff | social_navigation_analysis/preprocess.py:1629-1630 | the substring test holds exactly when the pattern occurs at some position |
| Behavior.OverallMeansSelect | social_navigation_analysis/preprocess.py:1628-1633 | a column gets an overall mean exactly when the column rule selects it, with the kind the rule assigns |
| Behavior.OverallMeanAt | social_navigation_analysis/preprocess.py:1630-1633 | the linear overall mean at i is the NaN-skipping sum of rows 0..i over i + 1; the circular one is the circular mean of rows 0..i |
| Behavior.AddOverallMeans | social_navigation_analysis/preprocess.py:1626-1633 | the column loop adds the selected overall means in column order |
| Behavior.Points3 | social_navigation_analysis/preprocess.py:1618-1619 | the 3-D points exist exactly when the merged table and the trial data have the same height, and point i is row i's coordinate with trial i's character decision number |
| Behavior.ConfigTableDefined | social_navigation_analysis/preprocess.py:1590-1641 | a configuration of known policies on non-empty data yields a table, with one row per trial in trial order and one 2-D and one 3-D shape row per trial |
| Behavior.AssembleDefined | social_navigation_analysis/preprocess.py:1612-1620 | merged rows of the data's height always give a table with those rows and one 2-D and one 3-D shape row per trial |
| Behavior.AssembleParts | social_navigation_analysis/preprocess.py:1612-1633 | the assembled table holds the trial data and the merged rows, its 2-D shapes are measured on the rows' coordinates, its 3-D shapes on the rows' points, and its overall means on the rows' columns |
| Behavior.ConfigTableRows | social_navigation_analysis/preprocess.py:1594-1609 | the merged rows of a configuration are its stacked label blocks sorted by trial index |
| Behavior.ShapePointsAreTrials | social_navigation_analysis/preprocess.py:1605-1620 | the 3-D shape is measured on points whose i-th entry pairs merged row i, which is trial i, with trial i's character decision number |
| Behavior.LabelBlockOk | social_navigation_analysis/preprocess.py:1596-1603 | a label that occurs in the data yields a block under known policies |
| Behavior.BlocksOk | social_navigation_analysis/preprocess.py:1594-1603 | under known policies every label of the data yields a block, so stacking succeeds |
| Behavior.ComputeConfig | social_navigation_analysis/preprocess.py:1590-1639 | the loop body computes the configuration's table, or the error that stops it |
| Behavior.LabelColumn | social_navigation_analysis/preprocess.py:1582 | a column exists exactly for the numeric label column names, with one entry per trial, entry i being trial i's value in the named column |
| Behavior.ResolveLabels | social_navigation_analysis/preprocess.py:1580-1585 | `None` gives all ones; a column name gives that column, or `UnknownColumn` exactly for a name that is not a label column; explicit labels are returned unchanged exactly when their length is the trial count, otherwise a length error; labels have one entry per trial |
| Behavior.ColumnLabelsSplitByValue | social_navigation_analysis/preprocess.py:1582-1596 | with a label column, trial i is in the trajectory of label l exactly when its value in that column is l |
| Behavior.CharacterTrajectories | social_navigation_analysis/preprocess.py:1573-1596 | with the default `char_role_num` labels there is one trajectory per character: trial i is in label l's trajectory exactly when its character role number is l |
| Behavior.NoLabelsIsOneTrajectory | social_navigation_analysis/preprocess.py:1581-1596 | without labels there is a single label, and its positions are all the trials in order |
| Behavior.ConfigurationsOrder | social_navigation_analysis/preprocess.py:1589 | the configurations are the product of the three lists in nested order: entry i·(W·C) + j·C + k is (dt_i, wt_j, ct_k) |
| Behavior.DefaultKey | social_navigation_analysis/preprocess.py:1589-1640 | the default flags give the one configuration `current_constant_actual` |
| Behavior.Store | social_navigation_analysis/preprocess.py:1640-1641 | with one configuration the output becomes the bare table; with several, the dictionary gains or overwrites the configuration's key with its table and keeps every other entry |
| Behavior.RunFromStatus | social_navigation_analysis/preprocess.py:1590-1641 | the loop succeeds exactly when no configuration fails, and otherwise reports the first failure |
| Behavior.RunFromDomain | social_navigation_analysis/preprocess.py:1590-1641 | the dictionary gains exactly the keys of the configurations before the first failure |
| Behavior.RunFromUntouched | social_navigation_analysis/preprocess.py:1590-1641 | an entry whose key the loop never reaches keeps its value |
| Behavior.RunFromValue | social_navigation_analysis/preprocess.py:1590-1641 | with distinct keys, each configuration before the first failure is stored under its key with its own table |
| Behavior.RunFromAll | social_navigation_analysis/preprocess.py:1588-1641 | from an empty dictionary, the loop succeeds exactly when every configuration does, and then holds exactly one entry per key, each its configuration's table |
| Behavior.SingleConfiguration | social_navigation_analysis/preprocess.py:1641 | a single configuration stores the bare table, or stops with its error and leaves the empty dictionary |
| Behavior.RunSucceedsIffEveryConfiguration | social_navigation_analysis/preprocess.py:1588-1641 | with several configurations, `run` succeeds exactly when every configuration's table exists, and `out` is a dictionary |
| Behavior.RunStoresEveryConfiguration | social_navigation_analysis/preprocess.py:1588-1641 | a successful `run` with several configurations keys `out` by exactly the configurations, each mapped to its own table |
| Behavior.RunSingleConfiguration | social_navigation_analysis/preprocess.py:1641 | with one configuration, `out` is that table, or the empty dictionary with the error |
| Behavior.RunLabelError | social_navigation_analysis/preprocess.py:1583-1585 | labels of the wrong length raise before `out` is reset, so `out` keeps its old value |
| Behavior.ComputeBehavior.constructor | social_navigation_analysis/preprocess.py:1207-1220 | the flags become policy lists, and `out` starts unset |
| Behavior.ComputeBehavior.Run | social_navigation_analysis/preprocess.py:1573-1641 | the configuration loop leaves `out` and the status exactly as the specification of `run` prescribes |

## Left out

- Polar descriptors (`calc_angle`, `calc_distance`, `calc_polar`) are not part of this model. So
  the merged table has no `angle` column, and the circular overall-mean branch never fires on it.
  The selection rule is still modelled and proved for any column name.
- The combined vector-length consistency (Euclidean norms of the envelopes) is not modelled, because
  it needs square roots of reals. Only the per-dimension scores are modelled.
- The convex hull, quadrant overlap, centroid, 3-D hull and circular mean are foreign numerical
  code. They are parameters that return numbers or fail. The decay schedules of the utilities
  module are parameters too, with one weight per trial.
- Decisions.Weights: states the values only for constant weighting, because the decay formulas
  belong to the utilities module, which is outside this model.
- Floating point is exact real arithmetic plus NaN and infinities. This leaves out float32
  rounding, signed zero and the `trial_index` cast to uint16: indices past 65535 are not
  representable there, while the model keeps them as natural numbers.
- File loading, column type casting, the affiliation/power projection in `__init__` and
  `np.seterr` are left out. The class receives a parsed trial table.
- The structured-array and data-frame packing, the column concatenation of `task`, the index reset
  and `del df['trial_index']` are left out. The model keeps the rows with their trial index, and
  the trial columns as the trial records.
- The model assumes the trial data carries the default 0..n−1 index, as it does when loaded.
  `self.data.loc[ixs]` and the column concatenation `pd.concat([task, out_df, shape_metrics])`
  (preprocess.py:1637) align by index and rely on this. The 3-D stacking joins by position.
- Labels are numeric, and NaN labels are not represented.
- Behavior.LabelColumn: only the numeric columns of the model's trial record serve as label
  columns. A column that the loaded table has but the record does not, such as `onset` or
  `slide_num`, gives `UnknownColumn`, where the source splits by it.
- Grouping.SortBy: states ascending keys and a permutation; the order of equal keys is not stated
  (pandas' default sort is not stable either). All keys are distinct trial indices, so that order
  never matters here.
- Behavior.CheckInput: takes the list form of the expected shapes only. Python wraps a single shape
  into a list.
- Behavior.CalcCoords: an empty trajectory under a decay weighting raises `ZeroDivisionError` in
  the source (preprocess.py:1273 and 1275 divide by the trial count); the model reports it as
  `NothingToConcatenate`, the error of the empty trajectory under constant weights. `run` never
  passes an empty trajectory, since every label occurs in the data.
- The different exceptions for an unknown policy name (`None` from `get_decisions`, an unbound
  local in the other two) are modelled as one error, `UnknownPolicy`.
- Behavior.RunFromValue: needs distinct configuration keys, because a repeated key in the Python
  dictionary would keep only its last table. The same holds for RunFromAll,
  RunSucceedsIffEveryConfiguration and RunStoresEveryConfiguration.
- `compute_behavior`, `summarize_behavior`, image extraction, the pairwise-distance (RDV)
  functions and the fake-data generator lie outside the engine and are not part of this model.
