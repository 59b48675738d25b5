# Probabilistic active learning (McPAL and XPAL), modelled in Dafny

This project models the pool-based query strategies of
`skactiveml/pool/_probal.py`:

- **McPAL** (multi-class probabilistic active learning). Each candidate's
  class frequency estimates, shifted by a prior pseudo-count, define a
  Dirichlet posterior. The expected reduction of the 0/1 cost after up to
  `m_max` hypothetical labels is the gain. The gain weighted by the
  candidate's density is its utility, and the query returns the candidate
  of largest utility.
- **XPAL** (expected probabilistic gain). A metric becomes a cost matrix or
  a performance function. The cost matrix gives an optimal class prior.
  Batches are built greedily: each step adds the candidate whose
  non-myopic candidate set gives the largest expected change in
  performance, averaged over simulated labellings.

The model is split by the program's own functions:

| module | file | models |
|---|---|---|
| `Common` | common.dfy | results and errors, `None`/NaN as `Option`, sums, numpy broadcasting, `rand_argmax` |
| `Combinatorics` | combinatorics.dfy | `_gen_l_vec_list` (imperative, its nested loops as methods), `multinomial` |
| `CostModel` | costmodel.dfy | `_transform_metric` and its cost matrices |
| `Scores` | scores.dfy | `score_recall`, `score_precision`, `f1_score_func`, `macro_accuracy_func`, `score_accuracy` |
| `PerformanceDelta` | dperf.dfy | `_dperf`: the decomposable branch and the confusion-matrix loop |
| `CostReduction` | costreduction.dfy | `_cost_reduction` |
| `HypotheticalLabels` | hypothetical_labels.dfy | `_get_y_sim_list` and the labelling probabilities |
| `Nonmyopic` | nonmyopic.dfy | `_get_nonmyopic_cand_set`, `nonmyopic_gain`, `dependent_cand_prob` |
| `PriorLearner` | prior_learner.dfy | class `BayesianPriorLearner` (`fit`, `predict_freq`) |
| `McPal` | mcpal.dfy | `McPAL.query` |
| `Xpal` | xpal.dfy | `calculate_optimal_prior` and `XPAL.query` |

**Numbers and NaN.** Numbers are exact reals. NaN is modelled as `None` in
`Float = Option<real>`, and a ratio 0/0 gives `None`. A NaN stored into an
integer array (`np.full(..., np.nan, dtype=int)`) becomes the value
`NaNIndex`, the most negative 64-bit integer. That is what the
float-to-integer conversion gives on x86-64; C leaves the conversion of NaN
undefined, and other processors give other values (0 on ARM64). The model
assumes x86-64.

**Errors.** Each Python exception is a `Result` error, named by its class.
The model reaches it on the same inputs as the source, and where several
checks could fail it reaches them in the same order, within the limits
listed under "## Left out".

**What the model takes as inputs.** These are functions it cannot see:

- The Euler beta function, as a positive function `beta`.
- The column sums of `np.linalg.inv`, as a function `inv`.
- The classifier's refits, given as their results:
  - frequency estimates `kVecs` for McPAL;
  - per-labelling performance deltas and probabilities for `nonmyopic_gain`;
  - a prediction function `predict` for `dependent_cand_prob`.
- The gain of a candidate set in the greedy loop, as a function `gain`.

The random tie-break of `rand_argmax` is a parameter `tie`. The model
proves that every maximiser is drawn for some `tie`.

## Model

| member | source | states |
|---|---|---|
| Common.BroadcastDim | skactiveml/pool/_probal.py:103 | two lengths broadcast exactly when they are equal or one of them is 1, and the result has the other length |
| Common.Max | skactiveml/pool/_probal.py:790 | the maximum bounds every entry and is one of them |
| Common.RandArgmax | skactiveml/pool/_probal.py:105 | the returned index is in range and holds a largest entry |
| Common.RandArgmaxConstant | skactiveml/pool/_probal.py:454-455 | on a vector of equal entries the draw alone decides the pick: position `tie mod n` |
| Common.RandArgmaxReachesEveryMaximiser | skactiveml/pool/_probal.py:454-455 | every position of a largest entry is returned for some tie-break |
| Combinatorics.GenLabelVectors | skactiveml/pool/_probal.py:793-827 | the loops compute `LabelVectorList(m, n)`; for n >= 1 every row has n non-negative entries summing to m, there are C(m+n-1, n-1) rows, and the rows are in strictly increasing lexicographic order |
| Combinatorics.BuildPrefixes | skactiveml/pool/_probal.py:811-820 | the n-1 passes of the outer loop produce the partial vectors `Prefixes(m, n-1)` |
| Combinatorics.ExtendAll | skactiveml/pool/_probal.py:814-820 | one pass replaces the list by the extensions of each prefix in turn |
| Combinatorics.ExtendPrefix | skactiveml/pool/_probal.py:815-819 | the innermost loop appends every count from 0 up to what the prefix leaves of m, which is what the 1e-10 filter keeps |
| Combinatorics.CompleteAll | skactiveml/pool/_probal.py:822-825 | the final loop appends to each prefix what it leaves of m |
| Combinatorics.ExtensionsRows | skactiveml/pool/_probal.py:816-819 | the extensions of p are p+[0], p+[1], … up to the count the filter keeps |
| Combinatorics.ExtensionsOccurrences | skactiveml/pool/_probal.py:816-819 | p+[x] occurs exactly once among the extensions when x is in range and fits what p leaves; nothing else occurs |
| Combinatorics.LevelOccurrences | skactiveml/pool/_probal.py:813-820 | after a pass, a vector occurs as often as its front did before, when its last entry fits; otherwise not at all |
| Combinatorics.PrefixesStep | skactiveml/pool/_probal.py:813-820 | one pass carries "each partial vector occurs exactly once" from length i-1 to length i |
| Combinatorics.PrefixesOccurrences | skactiveml/pool/_probal.py:811-820 | after i passes each non-negative vector of length i with sum at most m occurs exactly once, and nothing else occurs |
| Combinatorics.CompleteOccurrences | skactiveml/pool/_probal.py:822-825 | completion keeps a vector's multiplicity exactly when its last entry is what its front leaves |
| Combinatorics.LabelVectorSplit | skactiveml/pool/_probal.py:822-825 | a label vector is exactly a partial vector followed by the remainder of m |
| Combinatorics.LabelVectorListExact | skactiveml/pool/_probal.py:793-827 | every label vector of n classes summing to m occurs exactly once in the list, and nothing else does |
| Combinatorics.LabelVectorListRows | skactiveml/pool/_probal.py:811-825 | every row has length n, non-negative entries and sum m |
| Combinatorics.LevelMember | skactiveml/pool/_probal.py:813-820 | every row after a pass is a row of the previous list with one entry appended |
| Combinatorics.ExtensionsSorted | skactiveml/pool/_probal.py:816-819 | the extensions of one prefix are in strictly increasing lexicographic order |
| Combinatorics.LevelSorted | skactiveml/pool/_probal.py:813-820 | a pass over a lexicographically sorted list yields a sorted list |
| Combinatorics.LevelPrecedes | skactiveml/pool/_probal.py:814-819 | the extensions of earlier prefixes all precede those of a later prefix |
| Combinatorics.ExtensionPrecedes | skactiveml/pool/_probal.py:815-819 | one extension of an earlier prefix precedes every extension of a later one |
| Combinatorics.PrefixesSorted | skactiveml/pool/_probal.py:811-820 | the prefixes after any number of passes are lexicographically sorted |
| Combinatorics.CompleteRows | skactiveml/pool/_probal.py:822-825 | row i of the completed list is prefix i followed by what it leaves of m |
| Combinatorics.CompleteSorted | skactiveml/pool/_probal.py:822-825 | completion keeps the lexicographic order |
| Combinatorics.LabelVectorListSorted | skactiveml/pool/_probal.py:811-825 | the label vector list is in strictly increasing lexicographic order |
| Combinatorics.PrefixesPartial | skactiveml/pool/_probal.py:811-820 | every prefix built has i non-negative entries with sum between 0 and m |
| Combinatorics.PrefixesSums | skactiveml/pool/_probal.py:811-820 | every prefix built has a sum between 0 and m |
| Combinatorics.ExtensionsWeight | skactiveml/pool/_probal.py:816-819 | the weighted count of a prefix's extensions is a hockey-stick sum of binomials |
| Combinatorics.ExtensionsFullWeight | skactiveml/pool/_probal.py:816-819 | with the loop's bound m+1, extending a prefix moves its weight one level up |
| Combinatorics.LevelWeight | skactiveml/pool/_probal.py:813-820 | a pass preserves the weighted count at the next level |
| Combinatorics.PrefixesWeightBase | skactiveml/pool/_probal.py:811 | the weighted count of the initial `[[]]` is C(m+t, t) |
| Combinatorics.PrefixesWeightStep | skactiveml/pool/_probal.py:813-820 | one pass carries the closed form of the weighted count from i-1 to i |
| Combinatorics.PrefixesWeight | skactiveml/pool/_probal.py:811-820 | the weighted count of the prefixes after i passes is C(m+i+t, i+t) |
| Combinatorics.PrefixesWeightZero | skactiveml/pool/_probal.py:811-820 | at weight level 0 the weighted count is the number of prefixes |
| Combinatorics.CompleteLength | skactiveml/pool/_probal.py:822-825 | completion keeps the number of rows |
| Combinatorics.CompletedCount | skactiveml/pool/_probal.py:811-825 | after k passes and completion there are C(m+k, k) rows |
| Combinatorics.LabelVectorListCount | skactiveml/pool/_probal.py:793-827 | the list has C(m+n-1, n-1) rows, the number of label vectors |
| Combinatorics.MultinomialProductExact | skactiveml/pool/_probal.py:848-863 | the product of binomials times the product of the factorials is the factorial of the sum |
| Combinatorics.Multinomial | skactiveml/pool/_probal.py:848-863 | the coefficient times the product of the entries' factorials is the factorial of their sum, so the source's division is exact, and it equals the product of binomials |
| Combinatorics.MultinomialSingleNonZero | skactiveml/pool/_probal.py:848-863 | a vector with at most one non-zero entry has coefficient 1 |
| Combinatorics.MultinomialTwoOne | skactiveml/pool/_probal.py:863 | the coefficient of [2, 1] is 3 |
| CostModel.ErrorCostMatrix | skactiveml/pool/_probal.py:614 | the n×n matrix has 0 on the diagonal and 1 elsewhere |
| CostModel.MeanAbsCostMatrix | skactiveml/pool/_probal.py:636-638 | entry (i, j) is \|i - j\| |
| CostModel.CostVectorMatrix | skactiveml/pool/_probal.py:622-624 | entry (i, j) is v[i] off the diagonal and 0 on it |
| CostModel.CheckCostMatrix | skactiveml/pool/_probal.py:630 | a matrix is accepted exactly when it is n×n, and it is passed through unchanged |
| CostModel.TransformMetricWith | skactiveml/pool/_probal.py:611-656 | every result is well formed for n classes; every error is a ValueError, raised exactly for an unknown metric, a refused cost vector, or misclassification loss without a valid cost matrix |
| CostModel.TransformMetric | skactiveml/pool/_probal.py:611-656 | as written, 'cost-vector' is refused whatever the cost vector is |
| CostModel.TransformMetricCorrected | skactiveml/pool/_probal.py:611-656 | 'cost-vector' is refused exactly when no vector of n entries is given |
| CostModel.TransformError | skactiveml/pool/_probal.py:612-615 | 'error' becomes misclassification loss with the 0/1 cost matrix |
| CostModel.TransformMeanAbsError | skactiveml/pool/_probal.py:634-639 | 'mean-abs-error' becomes misclassification loss with costs \|i - j\| |
| CostModel.TransformMisclassificationLoss | skactiveml/pool/_probal.py:626-633 | a valid n×n cost matrix is passed through unchanged |
| CostModel.TransformCustom | skactiveml/pool/_probal.py:640-652 | the macro-accuracy, F1 and kappa metrics become custom performance functions, with no cost matrix |
| CostModel.CostVectorAlwaysRefused | skactiveml/pool/_probal.py:617-620 | even a cost vector of exactly n entries is refused |
| CostModel.CostVectorCorrected | skactiveml/pool/_probal.py:621-625 | with the check fixed, a vector of n entries gives the cost-vector matrix |
| Scores.Recall | skactiveml/pool/_probal.py:683-684 | the recall is NaN exactly when the last row is empty; otherwise it lies in [0, 1] and times the row sum gives the last diagonal entry |
| Scores.Precision | skactiveml/pool/_probal.py:695-697 | the precision lies in [0, 1]; it is 0 for an empty last column, and otherwise times the column sum gives the last diagonal entry |
| Scores.F1Score | skactiveml/pool/_probal.py:700-704 | the score lies in [0, 1] and is 0 when the recall is NaN or recall plus precision is 0 |
| Scores.F1IsHarmonicMean | skactiveml/pool/_probal.py:700-704 | with positive recall and precision, the score is their harmonic mean |
| Scores.MacroAccuracy | skactiveml/pool/_probal.py:687-688 | the score is NaN exactly when some row is empty; otherwise it lies in [0, 1] and is the mean of the per-class recalls (times n it is their sum) |
| Scores.ClassRecalls | skactiveml/pool/_probal.py:688 | each class's recall lies in [0, 1] and times its row sum gives its diagonal entry |
| Scores.Accuracy | skactiveml/pool/_probal.py:691-692 | the accuracy is NaN exactly for an all-zero matrix; otherwise it lies in [0, 1] and times the total gives the diagonal sum |
| Scores.PerfectRecallPrecision | skactiveml/pool/_probal.py:683-704 | a diagonal confusion matrix with every class present has recall, precision and F1 equal to 1 |
| Scores.PerfectAccuracy | skactiveml/pool/_probal.py:691-692 | a diagonal confusion matrix with every class present has accuracy 1 |
| Scores.PerfectMacroAccuracy | skactiveml/pool/_probal.py:687-688 | a diagonal confusion matrix with every class present has macro accuracy 1 |
| PerformanceDelta.AddColumnStep | skactiveml/pool/_probal.py:672-674 | one iteration adds, for predicted class i, the probability mass of those samples to column i |
| PerformanceDelta.ConfusionMatrices | skactiveml/pool/_probal.py:669-674 | the loop computes the expected confusion matrices of the old and the new predictions |
| PerformanceDelta.PartialConfusionComplete | skactiveml/pool/_probal.py:672-674 | after all n columns the partial matrix is the confusion matrix |
| PerformanceDelta.ConfusionIsConfusion | skactiveml/pool/_probal.py:669-674 | the result is n×n and non-negative, a valid input to the scores |
| PerformanceDelta.ConfusionRowTotal | skactiveml/pool/_probal.py:673-674 | for valid predictions, row c over the first k samples sums to their mass for class c |
| PerformanceDelta.ConfusionConservesMass | skactiveml/pool/_probal.py:672-674 | row c of the confusion matrix holds all probability mass of class c |
| PerformanceDelta.RowDeltaSum | skactiveml/pool/_probal.py:663-665 | one sample's term is the difference of its expected costs under the old and the new prediction |
| PerformanceDelta.ChangedSumIsRiskDifference | skactiveml/pool/_probal.py:662-665 | summing over the changed predictions only gives the full risk difference |
| PerformanceDelta.UnchangedSumZero | skactiveml/pool/_probal.py:662-665 | with no changed prediction the sum is 0 |
| PerformanceDelta.DecomposableDelta | skactiveml/pool/_probal.py:660-666 | IndexError exactly when a changed prediction lies outside -n .. n-1 (the old predictions checked first); otherwise NaN exactly for no samples, and, when every prediction indexes a row, the value times the sample count is the old risk minus the new risk, negative predictions reading rows from the end |
| PerformanceDelta.DecomposableWraps | skactiveml/pool/_probal.py:663-665 | a negative prediction acts as the row it reads from the end: the branch gives the same result on the wrapped predictions |
| PerformanceDelta.Dperf | skactiveml/pool/_probal.py:658-675 | the method's result is the decomposable delta (or its IndexError) or the difference of the performance function on the two confusion matrices, for any integer predictions |
| PerformanceDelta.DperfUnchanged | skactiveml/pool/_probal.py:658-675 | unchanged predictions give a delta of 0, or NaN when the performance function is NaN |
| CostReduction.EffectiveCost | skactiveml/pool/_probal.py:745 | the cost matrix used is n×n |
| CostReduction.ArgMin | skactiveml/pool/_probal.py:757 | the first index of a smallest entry |
| CostReduction.DecisionCosts | skactiveml/pool/_probal.py:755-757 | entry j is the cost of deciding class j given the counts k + l |
| CostReduction.YHat | skactiveml/pool/_probal.py:755-757 | the decision has least cost for the counts k + l, and no earlier class does as well |
| CostReduction.BlockRows | skactiveml/pool/_probal.py:748-750 | the rows generated for m are label vectors summing to m |
| CostReduction.AllRows | skactiveml/pool/_probal.py:748-750 | the stacked rows are label vectors summing to at most m_max |
| CostReduction.BinCountAppend | skactiveml/pool/_probal.py:775-781 | the bin count is additive over stacked rows |
| CostReduction.BinCountBlock | skactiveml/pool/_probal.py:775-781 | a block of rows with one sum s adds its terms to bin s and nothing to other bins |
| CostReduction.BinCountNone | skactiveml/pool/_probal.py:775-781 | a bin that no row's sum hits is 0 |
| CostReduction.BinCountSkip | skactiveml/pool/_probal.py:775-781 | stacking a block with another sum leaves bin m unchanged |
| CostReduction.BinCountSplit | skactiveml/pool/_probal.py:775-781 | stacking a block adds its terms to its own bin only |
| CostReduction.BinCountFirst | skactiveml/pool/_probal.py:748-781 | with m_max = 0, bin 0 is the sum over the single zero vector |
| CostReduction.BinCountLast | skactiveml/pool/_probal.py:748-781 | bin m_max is the sum over the vectors of m_max labels |
| CostReduction.BinCountNext | skactiveml/pool/_probal.py:748-781 | stacking the block of m_max labels leaves the earlier bins unchanged |
| CostReduction.BinCountEarlier | skactiveml/pool/_probal.py:748-781 | bin m < m_max is the sum over the vectors of m labels |
| CostReduction.BinCountIsBlockSum | skactiveml/pool/_probal.py:748-781 | bin m of the bin count over all stacked vectors is the sum of the terms over exactly the label vectors with m labels |
| CostReduction.MSums | skactiveml/pool/_probal.py:775-781 | one row of m_max+1 expected costs per candidate, entry m being the expected cost after m hypothetical labels |
| CostReduction.FillGains | skactiveml/pool/_probal.py:784-788 | gains[i, j] is (m_sums[i][0] - m_sums[i][j+1]) / (j+1) |
| CostReduction.GainTable | skactiveml/pool/_probal.py:784-788 | row i of the filled table is the gain of each number of labels for candidate i |
| CostReduction.MaxOfGains | skactiveml/pool/_probal.py:790 | the maximum of a row of gains is the candidate's best gain |
| CostReduction.BestGains | skactiveml/pool/_probal.py:790 | the row maxima are the candidates' best gains |
| CostReduction.CostReductionOf | skactiveml/pool/_probal.py:719-790 | succeeds exactly for at least one candidate, at least one class and m_max >= 1; then one result per candidate, each the largest per-label expected cost reduction over 1..m_max labels |
| HypotheticalLabels.AllEqualRows | skactiveml/pool/_probal.py:606 | one row per class c, holding c n_instances times |
| HypotheticalLabels.YSimList | skactiveml/pool/_probal.py:604-608 | the all-equal rows, or the n^k labellings in the order of their base-n value |
| HypotheticalLabels.ExtendEachLength | skactiveml/pool/_probal.py:608 | extending each row by every class multiplies the row count by n |
| HypotheticalLabels.ExtendEachIndex | skactiveml/pool/_probal.py:608 | row q·n + c of the extension is row q followed by c |
| HypotheticalLabels.ProductLength | skactiveml/pool/_probal.py:608 | the product has n^k rows |
| HypotheticalLabels.ProductIndex | skactiveml/pool/_probal.py:608 | row i of the product is the k base-n digits of i |
| HypotheticalLabels.ProductRows | skactiveml/pool/_probal.py:608 | every row is the digit vector of its position |
| HypotheticalLabels.DigitsRange | skactiveml/pool/_probal.py:608 | a digit vector is a labelling: k classes, each below n |
| HypotheticalLabels.ValueOfDigits | skactiveml/pool/_probal.py:608 | reading the digits of i back gives i |
| HypotheticalLabels.ValueDigits | skactiveml/pool/_probal.py:608 | the digits of a labelling's value give the labelling back |
| HypotheticalLabels.DigitsInjective | skactiveml/pool/_probal.py:608 | distinct positions have distinct digit vectors |
| HypotheticalLabels.ProductMembers | skactiveml/pool/_probal.py:608 | the product holds exactly the labellings of k instances with n classes |
| HypotheticalLabels.ProductDistinct | skactiveml/pool/_probal.py:608 | no labelling appears twice in the product |
| HypotheticalLabels.AllEqualInProduct | skactiveml/pool/_probal.py:605-608 | each all-equal labelling is one of the product's labellings |
| HypotheticalLabels.LabellingProbs | skactiveml/pool/_probal.py:545-546 | one probability per labelling: the product over instances of the probability of its label |
| HypotheticalLabels.LabellingProbAppend | skactiveml/pool/_probal.py:545-546 | labelling one more instance multiplies the probability by that label's probability |
| HypotheticalLabels.ProductTotalProb | skactiveml/pool/_probal.py:545-546 | under independent per-instance distributions the probabilities of all labellings sum to 1 |
| HypotheticalLabels.ProductProbsSumToOne | skactiveml/pool/_probal.py:545-546 | the vector of labelling probabilities sums to 1 |
| Nonmyopic.Insert | skactiveml/pool/_probal.py:473 | inserting a position keeps every position in range |
| Nonmyopic.InsertMembers | skactiveml/pool/_probal.py:473 | insertion adds exactly the new position |
| Nonmyopic.InsertOrdered | skactiveml/pool/_probal.py:473 | inserting a later position into a sorted order keeps it sorted, stably |
| Nonmyopic.Argsort | skactiveml/pool/_probal.py:473 | the argsort of the first k keys has k positions, all in range |
| Nonmyopic.ArgsortMembers | skactiveml/pool/_probal.py:473 | the argsort holds exactly the positions below k |
| Nonmyopic.ArgsortOrdered | skactiveml/pool/_probal.py:473 | the argsort lists positions by non-decreasing key, NaN last, ties by position |
| Nonmyopic.Restrict | skactiveml/pool/_probal.py:473 | the restricted similarity matrix is square with one row per index |
| Nonmyopic.Nearest | skactiveml/pool/_probal.py:473 | at most M neighbours are taken, fewer only when the row is shorter |
| Nonmyopic.NearestRows | skactiveml/pool/_probal.py:471-473 | the chosen neighbours are in similarity order, and each is at least as similar as every neighbour left out |
| Nonmyopic.InsertNaN | skactiveml/pool/_probal.py:473 | a NaN key is placed behind every position already sorted |
| Nonmyopic.ArgsortAllNaN | skactiveml/pool/_probal.py:473 | on all-NaN keys the argsort is the identity order |
| Nonmyopic.ArgsortSmallestFirst | skactiveml/pool/_probal.py:473 | a position with a strictly smallest key is sorted first |
| Nonmyopic.NearestAllNaN | skactiveml/pool/_probal.py:473 | on a row of NaN similarities the nearest neighbour is position 0 |
| Nonmyopic.NearestLargest | skactiveml/pool/_probal.py:473 | the nearest neighbour is the position of a strictly largest similarity |
| Nonmyopic.NonmyopicCandSet | skactiveml/pool/_probal.py:468-476 | 'same' repeats each candidate M times; 'nearest' takes each candidate's M most similar ones, raising IndexError for an index outside the matrix; any other mode raises ValueError |
| Nonmyopic.CandIdxSubsets | skactiveml/pool/_probal.py:524-531 | 'batch' yields the whole set; 'nonmyopic' one subset per element; any other mode leaves the subsets unbound |
| Nonmyopic.SubsetsArePrefixes | skactiveml/pool/_probal.py:526-528 | the subsets are the growing prefixes of the set, the last one the whole set |
| Nonmyopic.MultiplyLabelling | skactiveml/pool/_probal.py:587-601 | the inner loop turns entry i into the product of each label's probability given the labels before it; other entries are unchanged |
| Nonmyopic.DependentCandProb | skactiveml/pool/_probal.py:580-602 | one probability per labelling, each the chained product of its labels' conditional probabilities |
| Nonmyopic.DependentProbIndependent | skactiveml/pool/_probal.py:543-551 | when predictions ignore the earlier labels, the dependent probability equals the independent product |
| Nonmyopic.AccumulateRow | skactiveml/pool/_probal.py:554-573 | each entry of row i becomes the probability-weighted sum of the performance deltas; other rows are unchanged |
| Nonmyopic.DivideByDepth | skactiveml/pool/_probal.py:575-577 | one division divides column j by j+1 |
| Nonmyopic.NonmyopicGain | skactiveml/pool/_probal.py:497-578 | as written: the dependent branch raises TypeError as soon as it is reached, an unknown mode raises UnboundLocalError, and entry (i, j) is divided by (j+1) once per remaining row |
| Nonmyopic.NonmyopicGainCorrected | skactiveml/pool/_probal.py:497-578 | entry (i, j) is the weighted sum of subset j divided by its size j+1, exactly once |
| Nonmyopic.OverNormalised | skactiveml/pool/_probal.py:575-577 | the as-written entry equals the normalised one exactly when the sum is 0, the subset has size 1, or the row is the last one |
| PriorLearner.AddBroadcast | skactiveml/pool/_probal.py:174 | the sum exists exactly when both axes broadcast, otherwise ValueError; the result has the broadcast shape |
| PriorLearner.AddPriorRow | skactiveml/pool/_probal.py:174 | a one-row prior of n entries is added to column c of every row |
| PriorLearner.AddZeroPrior | skactiveml/pool/_probal.py:146-147 | the zero prior leaves the estimates unchanged |
| PriorLearner.BayesianPriorLearner.constructor | skactiveml/pool/_probal.py:114-121 | keeps the given prior; no fitted prior yet |
| PriorLearner.BayesianPriorLearner.Fit | skactiveml/pool/_probal.py:144-156 | succeeds exactly for no prior or a prior of n_classes entries, leaving one row of pseudo-counts; a mis-shaped prior raises ValueError after being stored |
| PriorLearner.BayesianPriorLearner.PredictFreq | skactiveml/pool/_probal.py:174 | before fit, AttributeError; after a successful fit, each estimate plus its class's pseudo-count |
| McPal.ValidateQuery | skactiveml/pool/_probal.py:78-98 | succeeds exactly for a frequency-estimator classifier, a positive prior, an integral m_max >= 1 and an int batch_size >= 1; errors come in that order, TypeError or ValueError |
| McPal.RangeBound | skactiveml/pool/_probal.py:748-749 | as written, `range` accepts only an int m_max; a float raises TypeError |
| McPal.RangeBoundCorrected | skactiveml/pool/_probal.py:748-749 | every m_max the check admits is used as the integer it equals |
| McPal.IntegralFloatMMax | skactiveml/pool/_probal.py:89-90 | a float m_max such as 2.0 passes validation but makes `range` fail |
| McPal.WeightedGains | skactiveml/pool/_probal.py:103-104 | each broadcast position holds the density times the best gain of its candidate |
| McPal.UtilityAt | skactiveml/pool/_probal.py:103-104 | one broadcast position holds the density times its candidate's best gain |
| McPal.McPalQuery | skactiveml/pool/_probal.py:78-109 | validation errors are returned unchanged; it succeeds exactly when validation passes, m_max is an int, and there are candidates, classes and broadcastable densities; the returned index holds a largest utility |
| Xpal.Uniform | skactiveml/pool/_probal.py:710 | n entries of 1/n |
| Xpal.UniformIsDistribution | skactiveml/pool/_probal.py:710 | the uniform prior is a probability distribution |
| Xpal.NormalisedIsDistribution | skactiveml/pool/_probal.py:714 | non-negative weights with a positive sum, divided by their sum, form a distribution |
| Xpal.PriorFromWeights | skactiveml/pool/_probal.py:712-716 | the prior is a distribution: proportional to the inverse's column sums when all are non-negative, uniform otherwise |
| Xpal.OptimalPrior | skactiveml/pool/_probal.py:707-716 | as written, no cost matrix raises TypeError; otherwise the prior is a distribution, uniform when some column sum is negative |
| Xpal.OptimalPriorCorrected | skactiveml/pool/_probal.py:707-716 | always a distribution over n classes, uniform when there is no cost matrix |
| Xpal.Times | skactiveml/pool/_probal.py:332-333 | each entry is scaled by the pseudo-count |
| Xpal.BatchModeOf | skactiveml/pool/_probal.py:378-382 | 'full' with look-ahead 1 or 'greedy' is accepted; 'full' with a longer look-ahead raises NotImplementedError; anything else raises ValueError |
| Xpal.XpalSetupWith | skactiveml/pool/_probal.py:318-333 | a successful setup has a well-formed metric and a prior distribution, and `_prior_cand` and `_prior_eval` are that distribution scaled (the latter is never read) |
| Xpal.XpalSetup | skactiveml/pool/_probal.py:318-333 | as written, the setup succeeds exactly when the transform, given cost vector and matrix swapped, yields a cost matrix and the batch mode is accepted |
| Xpal.XpalSetupCorrected | skactiveml/pool/_probal.py:318-333 | with the arguments in order, the setup succeeds exactly when the transform and the batch mode do, and keeps the transform's result |
| Xpal.SwappedCostArguments | skactiveml/pool/_probal.py:318-320 | a valid cost matrix for 'misclassification-loss' is refused as written and used when the arguments are in order |
| Xpal.ScoreMetricsRefused | skactiveml/pool/_probal.py:331 | the score metrics have no cost matrix, so the setup raises TypeError |
| Xpal.ScoreMetricsUniform | skactiveml/pool/_probal.py:707-710 | with the missing cost matrix handled, the score metrics get the uniform prior |
| Xpal.UnselectedSpec | skactiveml/pool/_probal.py:420-421 | the unselected candidates are exactly those not chosen, in increasing order |
| Xpal.UnselectedIgnoresOutside | skactiveml/pool/_probal.py:420-421 | chosen values outside the candidate range, such as the NaN sentinel, exclude nothing |
| Xpal.NothingSelected | skactiveml/pool/_probal.py:420-421 | with nothing chosen, every candidate is unselected |
| Xpal.SelectOne | skactiveml/pool/_probal.py:420-421 | choosing an unselected candidate removes exactly one |
| Xpal.Prefixed | skactiveml/pool/_probal.py:428-429 | each set is preceded by the selection so far |
| Xpal.CandSetPositions | skactiveml/pool/_probal.py:422-426 | over the unselected candidates, the candidate sets exist and are positions of the right width |
| Xpal.GainsOf | skactiveml/pool/_probal.py:430-453 | one gain per set, its row maximum `gain`, when there are sets of positive width, all in range, under independence; otherwise IndexError, ValueError or TypeError, in the order the call meets them |
| Xpal.SentinelRefused | skactiveml/pool/_probal.py:419-429 | once the selection holds the NaN sentinel, the gain computation fails with IndexError |
| Xpal.Scatter | skactiveml/pool/_probal.py:458 | the values are stored at the given columns of row i, and nothing else changes |
| Xpal.FirstSets | skactiveml/pool/_probal.py:422-429 | the first pass's sets are positions of the right width |
| Xpal.FirstStep | skactiveml/pool/_probal.py:420-453 | the first pass yields one gain per candidate exactly when there are candidates, M >= 1 and independence; otherwise IndexError, ValueError or TypeError |
| Xpal.SentinelPass | skactiveml/pool/_probal.py:416-453 | after the reset, pass 0 is the first step and pass 1 fails with IndexError |
| Xpal.SentinelGains | skactiveml/pool/_probal.py:420-453 | with the reset selection, every candidate is unselected and the gains are those of pass 0 or the sentinel's IndexError |
| Xpal.FreshPass | skactiveml/pool/_probal.py:416-419 | the arrays are fresh each pass, and a successful pass records its pick and utilities |
| Xpal.SentinelPassOnce | skactiveml/pool/_probal.py:416-458 | one pass of the loop as written, whose gains are the first step's or the sentinel's error |
| Xpal.SentinelLoop | skactiveml/pool/_probal.py:415-458 | batch size 1 returns a candidate of largest row maximum and the utilities; a larger batch fails with IndexError on the second pass |
| Xpal.GreedyOutcomeCases | skactiveml/pool/_probal.py:415-458 | as written, the greedy loop succeeds only for batch size 1; every other case's error is stated |
| Xpal.GreedyAsWritten | skactiveml/pool/_probal.py:415-458 | the loop as written computes `GreedyOutcome` |
| Xpal.CandSimilarity | skactiveml/pool/_probal.py:364-367 | `sim_c_c` is the kernel when `batch_size > 1` or the look-ahead is above 1, and otherwise an all-NaN n×n matrix |
| Xpal.RestrictAll | skactiveml/pool/_probal.py:425 | restricting the similarities to every candidate in order changes nothing |
| Xpal.FirstNearestSets | skactiveml/pool/_probal.py:422-426 | at look-ahead one, each first-step 'nearest' set is the nearest neighbour in that candidate's own row |
| Xpal.NaNSimilarityPick | skactiveml/pool/_probal.py:364-367 | as written, with a batch of one and look-ahead one, every 'nearest' set is `[0]` and the pick is `tie mod n`, whatever the gains |
| Xpal.KernelSimilarityPick | skactiveml/pool/_probal.py:364-367 | with the kernel as `sim_c_c` and every candidate its own nearest neighbour, each 'nearest' set is the candidate itself, the outcome equals that of 'same', and the pick has the largest own gain |
| Xpal.StepSets | skactiveml/pool/_probal.py:420-429 | one set per unselected candidate |
| Xpal.RestrictTwiceRefused | skactiveml/pool/_probal.py:425 | as written, once candidate 0 of n >= 2 is chosen, 'nearest' on the already restricted similarities raises IndexError |
| Xpal.StepSetsSpec | skactiveml/pool/_probal.py:420-429 | each set is the selection so far followed by unselected candidates; in mode 'same' one candidate repeated M times |
| Xpal.StepGainsCases | skactiveml/pool/_probal.py:420-453 | a greedy step yields one gain per unselected candidate exactly when the mode is known, a candidate is left and, on the first step, M >= 1 |
| Xpal.GreedyStepSelects | skactiveml/pool/_probal.py:453-458 | a greedy step picks an unselected candidate of largest gain; its utility row is NaN exactly at the candidates already chosen |
| Xpal.GreedyRunSelects | skactiveml/pool/_probal.py:453-458 | a greedy run picks distinct candidates, each with a largest gain among those not chosen before it |
| Xpal.NaNArrays | skactiveml/pool/_probal.py:417-419 | the selection starts as all sentinels and the utilities as all NaN |
| Xpal.Record | skactiveml/pool/_probal.py:457-458 | records the pick in the selection and the gains in the unselected columns of row i; nothing else changes |
| Xpal.StepOf | skactiveml/pool/_probal.py:420-453 | with the sentinels ignored, the step's candidates are the unselected ones and its gains are `StepGains` |
| Xpal.GreedyStep | skactiveml/pool/_probal.py:416-458 | one iteration of the corrected loop extends the greedy run by one pick and its utility row |
| Xpal.RecordStep | skactiveml/pool/_probal.py:457-458 | recording a step extends the run by the pick of largest gain |
| Xpal.CorrectedErrorCases | skactiveml/pool/_probal.py:415-458 | the corrected loop succeeds exactly for a batch size of 0, or one no larger than the candidate count with a known mode and M >= 1; a batch too large raises IndexError |
| Xpal.StepErrorIs | skactiveml/pool/_probal.py:420-453 | the first failing step fails with exactly the predicted error |
| Xpal.FillBatch | skactiveml/pool/_probal.py:416-458 | the loop fails exactly as predicted, or fills the whole batch with a greedy run |
| Xpal.GreedyCorrected | skactiveml/pool/_probal.py:415-458 | the corrected greedy query returns batch_size distinct candidates, each of largest gain given those before it, or the predicted error |

## Left out

- McPal.McPalQuery:
  - `check_classifier_params`, `check_array`, `check_X_y`, `clone` and the classifier's `fit` are not modelled. Whether the classifier is a frequency estimator is a flag, and `predict_freq`'s output is an input.
  - `batch_size` is validated but, as in the source, otherwise unused.
  - `return_utilities` is not a parameter; the model returns both the index and the utilities.
- McPal.CheckPrior: `check_scalar` is reduced to its type check and its positivity check; numpy scalar types are not distinguished.
- CostModel.CheckCostMatrix: `check_cost_matrix` is reduced to its shape check. Its checks on the values and the warnings it emits are not modelled.
- CostReduction.CostReductionOf:
  - `euler_beta` (`gammaln` in floating point) is a positive function `beta`.
  - The arithmetic is exact real arithmetic, not IEEE floating point.
  - An array prior is not modelled; the prior is a scalar, as McPAL passes it.
- Xpal.OptimalPrior: `np.linalg.inv` is the function `inv`, of which only the column sums are used. `LinAlgError` for a singular matrix is not modelled.
- Xpal.GainsOf: the row maximum `np.nanmax` takes for each candidate set is the function `gain` of that set. As written, `nonmyopic_gain` divides row a once per row from a on (lines 575-577, see Findings), so the source's row maximum also depends on the set's row and on the number of sets. `gain` stands for the value after that division; its computation is modelled separately by `Nonmyopic.NonmyopicGain`.
- Xpal.GreedyOutcomeCases, Xpal.SentinelLoop and Xpal.GreedyAsWritten: "largest" means largest `gain`, taken as the already over-divided row maximum described above. The model does not relate that value to the set alone, so the pick these members state is the source's pick only through that reading of `gain`.
- Xpal.XpalSetupWith: `self._prior_eval` (line 333) is computed and never read, because `prob_estimator_eval` is built with `prior=self._prior_cand` (line 373). `Setup.priorEval` keeps that unused value. The learners themselves are inputs, so whether the evaluation learner was meant to use `prior_eval` is not modelled.
- Xpal.GreedyCorrected: assumes `nonmyopic_independence`, since the dependent branch always raises (see Findings).
- Nonmyopic.NonmyopicGain: the classifier refits, `predict_proba` and `predict` are inputs (the per-labelling performance deltas and probabilities).
- Nonmyopic.Argsort: numpy's default sort is not stable. The model breaks ties by position.
- The 'full' batch mode's body (lines 383-413) is not modelled, only its dispatch. It enumerates `itertools.permutations` and has no greedy structure.
- The kernel computations are not part of this model: `pairwise_kernels`, `estimate_bandwidth`, the `PWC` classifier and the `X_`/kernel concatenations. The similarity matrix is an input.
- NaN propagation is modelled only for 0/0 in the scores and the empty-sample delta.
- The `random_state` draws are replaced by the parameter `tie`.
- `_validate_input`, commented out in the source, is not modelled. Warnings are not modelled either.

## Findings

| source | as written | input that shows it | evidently intended | confidence | as-written member | corrected member |
|---|---|---|---|---|---|---|
| skactiveml/pool/_probal.py:318-320 | `_transform_metric` is called with `self.cost_vector, self.cost_matrix` in the positions its signature (line 611) names `cost_matrix, cost_vector` | metric 'misclassification-loss' with a valid cost matrix and no cost vector: the matrix arrives as the cost vector and ValueError is raised | pass the cost matrix as `cost_matrix` and the vector as `cost_vector` | not executed | Xpal.SwappedCostArguments | Xpal.XpalSetupCorrected |
| skactiveml/pool/_probal.py:617 | `cost_vector.shape != (n_classes)` compares a tuple with an int, which is always unequal | metric 'cost-vector' with a vector of exactly n_classes entries: ValueError | compare with the tuple `(n_classes,)` | not executed | CostModel.CostVectorAlwaysRefused | CostModel.CostVectorCorrected |
| skactiveml/pool/_probal.py:575-577 | the division by the subset size is inside the loop over candidate sets, so row i is divided once per row from i on | three candidate sets with M = 2 and a non-zero gain in column 1 of row 0: that entry is divided by 2^3 instead of 2 | divide once, after the loop | not executed | Nonmyopic.OverNormalised | Nonmyopic.NonmyopicGainCorrected |
| skactiveml/pool/_probal.py:548-551 | `dependent_cand_prob` is called with ten arguments, but its signature (lines 580-582) takes nine | `nonmyopic_independence=False` with at least one candidate set: TypeError | call it without the surplus `nonmyopic_independence` | not executed | Nonmyopic.NonmyopicGain | Nonmyopic.NonmyopicGainCorrected |
| skactiveml/pool/_probal.py:416-419 | `utilities` and `best_indices` are re-created inside the greedy loop, so pass 1 sees the NaN sentinel again and indexes with it | batch_size = 2 with any candidates: IndexError on the second pass, assuming x86-64, where NaN converts to the most negative 64-bit integer (on ARM64 it converts to 0, and pass 1 treats candidate 0 as chosen instead) | create both arrays once before the loop | not executed | Xpal.GreedyOutcomeCases | Xpal.GreedyCorrected |
| skactiveml/pool/_probal.py:425 | the similarities passed to `_get_nonmyopic_cand_set` are already restricted to the unselected candidates, and line 473 restricts them again by those candidates' indices; the argsort positions are then used as candidate indices | batch_size = 2, 'nearest', 3 candidates, with the re-creation at lines 416-419 fixed and candidate 0 picked first: index 2 on a 2×2 matrix, IndexError on the second pass | restrict once and read the positions back through the unselected indices | not executed | Xpal.RestrictTwiceRefused | Xpal.StepSets |
| skactiveml/pool/_probal.py:364-367 | `sim_c_c` is left all NaN when `batch_size` and the look-ahead are at most 1, but 'nearest' still sorts it | batch_size = 1, look-ahead 1, 'nearest', two or more candidates: every candidate set is `[0]`, all gains are equal, and the pick is uniformly random | compute the kernel between the candidates; at look-ahead one each candidate is then its own nearest neighbour, as under 'same' | not executed | Xpal.NaNSimilarityPick | Xpal.KernelSimilarityPick |
| skactiveml/pool/_probal.py:708-709 | `len(cost_matrix)` runs before the `None` test | metric 'macro-accuracy', whose transform gives no cost matrix: TypeError | take the class count from the caller when there is no cost matrix | not executed | Xpal.ScoreMetricsRefused | Xpal.ScoreMetricsUniform |
| skactiveml/pool/_probal.py:89-90 | the check admits a float `m_max` with no fractional part, but `range(m_max + 1)` at lines 748-749 accepts only an int | m_max = 2.0: validation passes, then TypeError | convert `m_max` to int after the check | not executed | McPal.IntegralFloatMMax | McPal.RangeBoundCorrected |
