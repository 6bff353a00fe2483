# DockM8 core in Dafny

DockM8 is a consensus docking pipeline. It prepares a protein and a compound
library, docks the library with several programs (SMINA, GNINA, PLANTS, QVINAW,
QVINA2), selects poses by clustering or by best pose, rescores them, and fuses
the scores into consensus rankings whose enrichment it measures. Most of that
work happens in external programs. This project models the sequential logic
that sits between them, and proves what that logic promises:

- `Tables`, `Standardise`, `Ranks`, `Consensus`: min–max standardisation of
  score tables, the descending average rank, and the seven consensus methods of
  `scripts/ranking_functions.py`. Each of these reductions gives exactly one row
  per molecule ID.
- `Combinations`: the sweep over subsets of score columns, their count, and the
  names the subsets get.
- `Enrichment`: enrichment factors (`scripts/performance_calculation.py` and
  `calculate_EF1`): the top-N size, the sort direction, and the EF formula under
  numpy division semantics.
- `Clustering`: pose selection (`scripts/clustering_functions.py`): the symmetric
  pairwise matrix, the 3DScore pick, the choice of k, matching cluster centres
  back to poses, the `bestpose` filters, and `cluster_pebble` with its cache.
- `Utilities`: chunking the library with de-duplication across chunks, one file
  per compound, `Insert_row`, output file names, PDBQT truncation, and the format
  dispatch of `load_molecule`.
- `Docking`: pose numbering and Pose IDs, splitting PDBQT files into models and
  naming them, PLANTS Pose IDs, and which programs a sequential run starts.
- `ConfigParser` and `PocketPattern`: `check_config`, the ordered validator that
  raises or rewrites the configuration, including the `re.match` of the manual
  pocket definition.
- `LibraryPreparation`, `LibraryMain`: the two library preparation entry points,
  including the ID normalisation.
- `ProteinPreparation`: `prepare_protein`.
- `PoseIdentity`: ties ID normalisation, pose naming and ranking together. Every
  library ID is recovered exactly from the Pose IDs of its poses.

Data frames are sequences of rows, and missing values are `Option`. Where the
source updates state in place, the model does too: the configuration dictionary,
the output folders, the pairwise matrix, and the loops that fill lists. Those are
classes and methods, proved against the functions that specify them. External
programs, file contents and numeric library routines are parameters.

## Model

| member | source | states |
|---|---|---|
| Text.Split | scripts/ranking_functions.py:167 | `str.split(sep)` gives at least one field |
| Text.JoinSplit | scripts/ranking_functions.py:167 | joining the fields of `str.split(sep)` with sep gives the text back |
| Text.SplitFirstField | scripts/docking_functions.py:527 | the first `_` field of `a_b` is a when a has no `_`, and the other fields are those of b |
| Text.ReplaceChar | scripts/library_preparation.py:61 | `str.replace` of one character changes exactly the positions holding it |
| Text.NatToStringRoundTrip | scripts/utilities/config_parser.py:78 | `int(str(n))` is n |
| Text.Tokens | scripts/docking_functions.py:109 | `str.split()` gives non-empty fields without white space |
| Sorting.Sort | scripts/ranking_functions.py:204 | a sort returns a permutation of its input |
| Sorting.SortSorted | scripts/ranking_functions.py:204 | the sort's result is ordered by the comparison, when it is a total preorder |
| Sorting.SortedByKeyUnique | scripts/ranking_functions.py:204 | rows ordered by a key equal any strictly key-increasing arrangement of the same rows: the order leaves no choice |
| Tables.MeanSkipNa | scripts/ranking_functions.py:95 | the group mean skips missing cells and is missing exactly when no cell of the group is present |
| Tables.Distinct | scripts/ranking_functions.py:95 | the group keys: each ID of the column once, and no other |
| Tables.MeanBounds | scripts/ranking_functions.py:116 | a mean of values lies between any lower and upper bound of those values |
| Tables.RoundHalfEven | scripts/ranking_functions.py:205 | `round(x)` is the floor or the ceiling of `x`, within one half of it, and a value exactly halfway between two integers goes to the even one |
| Tables.RoundHalfEvenMonotone | scripts/ranking_functions.py:205 | `round` never reverses the order of two values |
| Tables.Round2Close | scripts/ranking_functions.py:103 | `.round(2)` moves a value by at most 0.005 |
| Tables.Round2Exact | scripts/ranking_functions.py:103 | `.round(2)` keeps a value that already has two decimals |
| Standardise.MinMax | scripts/ranking_functions.py:30-35 | every present score is mapped into [0, 1]; a missing score stays missing; a column with fewer than two distinct values becomes missing throughout (0/0) |
| Standardise.Scale | scripts/ranking_functions.py:31-34 | a value between the column's extremes maps into [0, 1] in either orientation |
| Standardise.StandardizeScores | scripts/ranking_functions.py:13-58 | fails exactly when some column has no orientation in the table (the `KeyError`), naming such a column; otherwise keeps the pose IDs and returns the standardised columns, sorted by name and a permutation of one `<col>_S_<metric>` column per input column |
| Standardise.FirstUnknown | scripts/ranking_functions.py:53-56 | the first column whose name has no orientation, with every earlier column known; none when all are known |
| Standardise.StandardizeKeepsShape | scripts/ranking_functions.py:53-58 | as many standardised columns as raw columns, each with one cell per pose |
| Standardise.NameLeIsTotalPreorder | scripts/ranking_functions.py:58 | ordering columns by name, as `sorted` does, is total and transitive |
| Standardise.BestMapsToOne | scripts/ranking_functions.py:30-35 | with two distinct values, the best raw value maps to 1 and the worst to 0, for either orientation |
| Standardise.MinMaxOrder | scripts/ranking_functions.py:30-35 | a larger-is-better score keeps the order of the values; a smaller-is-better score reverses it |
| Standardise.StandardiseIdempotent | scripts/ranking_functions.py:30-35 | standardising a standardised column again (as larger-is-better) changes nothing |
| Standardise.UnitColumn | scripts/ranking_functions.py:32 | a column already spanning exactly [0, 1] is a fixed point of the larger-is-better mapping |
| Ranks.CountsPartition | scripts/ranking_functions.py:61 | every value is above, tied with or below a given value, so the three counts add up to the column size |
| Ranks.RankBounds | scripts/ranking_functions.py:61 | an average rank lies between 1 and the number of present values |
| Ranks.RankStrict | scripts/ranking_functions.py:61 | for two distinct values, the better one (larger when descending, smaller when ascending) gets the strictly smaller rank, and conversely |
| Ranks.UniqueTopRanksFirst | scripts/ranking_functions.py:61 | the unique largest value ranks exactly 1 in descending order |
| Ranks.RankColumn | scripts/ranking_functions.py:61 | one rank per cell; a cell has a rank exactly when it has a value; every rank lies in [1, number of present values] |
| Ranks.RankColumnOrder | scripts/ranking_functions.py:61 | tied cells share a rank; a strictly better cell ranks strictly ahead |
| Ranks.RankScores | scripts/ranking_functions.py:60-63 | keeps the pose IDs and returns the `_RANK` columns, sorted by name and a permutation of one ranked column per input column |
| Ranks.MoleculeId | scripts/ranking_functions.py:167 | the ID of a pose has no underscore and is a prefix of the pose ID |
| Ranks.IdPrefix | scripts/ranking_functions.py:167 | the text before the first underscore is `split('_')[0]` and a prefix of the input |
| Ranks.AttachIds | scripts/ranking_functions.py:167 | one ID per pose, each being field 0 of the pose ID split on `_` |
| Consensus.Group | scripts/ranking_functions.py:95 | a `groupby('ID')` group is non-empty exactly when the ID occurs, and is no larger than the column |
| Consensus.GroupMembers | scripts/ranking_functions.py:95 | a group holds the value of every row with that ID and only such values |
| Consensus.GroupContains | scripts/ranking_functions.py:95 | every row with the ID contributes its value to the group |
| Consensus.GroupOnly | scripts/ranking_functions.py:95 | every value of the group comes from a row with that ID |
| Consensus.GroupSingle | scripts/ranking_functions.py:95 | the group of an ID with a single pose is that pose's value |
| Consensus.MaxSkipNa | scripts/ranking_functions.py:83 | the value kept for an ID after sorting descending and dropping duplicates: one of its present values and at least every other, NaN exactly when none is present |
| Consensus.MeanAtMostMaxSkipNa | scripts/ranking_functions.py:83-95 | the mean of a group never exceeds its best value |
| Consensus.PerId | scripts/ranking_functions.py:95 | exactly one row per distinct ID, each holding the value computed for that ID |
| Consensus.PermutationKeepsOneRowPerId | scripts/ranking_functions.py:83 | reordering rows keeps exactly one row per ID |
| Consensus.SortById | scripts/ranking_functions.py:95 | the group-by rows in ID order: a permutation of the rows, one per ID |
| Consensus.SortByValue | scripts/ranking_functions.py:83 | rows sorted descending by value with NaN last: a permutation of the rows, one per ID |
| Consensus.EcrSums | scripts/ranking_functions.py:78-80 | one summed ECR per pose; a pose with no rank sums to 0 (missing ranks are skipped), and a pose ranked in one column only has exactly exp(−r/σ)/σ·1000 with σ = 0.05 times the number of poses |
| Consensus.Method1 | scripts/ranking_functions.py:74-84 | one row per ID, sorted descending by value, each holding the largest summed ECR among that ID's poses |
| Consensus.Method1KeepsBestPose | scripts/ranking_functions.py:83 | method 1's value for an ID is the summed ECR of one of its poses, and no pose of that ID has a larger one |
| Consensus.Method2 | scripts/ranking_functions.py:86-96 | one row per ID in ID order, each holding the mean summed ECR of that ID's poses |
| Consensus.Method1AtLeastMethod2 | scripts/ranking_functions.py:74-96 | the best-pose ECR of an ID is at least its average ECR, and the two agree when every ID has a single pose |
| Consensus.IdMeans | scripts/ranking_functions.py:103 | one rounded per-ID mean per distinct ID |
| Consensus.IdRankBounds | scripts/ranking_functions.py:104 | every ascending re-rank that method 3 gives an ID's mean lies between 1 and the number of IDs |
| Consensus.Method3 | scripts/ranking_functions.py:98-108 | one row per ID in ID order; for a non-empty table, each value is the summed ECR of the re-ranked means, with sigma 0.05 times the number of IDs |
| Consensus.IdMeanRow | scripts/ranking_functions.py:115 | one rounded mean per selected column |
| Consensus.Method4 | scripts/ranking_functions.py:110-118 | one row per ID in ID order, each holding the mean over the columns of that ID's rounded means |
| Consensus.Round2Within | scripts/ranking_functions.py:115 | rounding to two decimals keeps a value inside integer bounds |
| Consensus.MeanSkipNaWithin | scripts/ranking_functions.py:116 | a mean that skips NaN stays within any bounds of the present cells |
| Consensus.IdMeanWithin | scripts/ranking_functions.py:115 | an ID's rounded mean rank stays within the bounds of that column's ranks |
| Consensus.Method4Bounds | scripts/ranking_functions.py:110-118 | when every rank lies in [1, n], every rank-by-rank value does too |
| Consensus.Quantile95 | scripts/ranking_functions.py:126 | `quantile(0.95)` is NaN exactly for a column without values, and otherwise lies between the column's minimum and maximum |
| Consensus.SortReals | scripts/ranking_functions.py:126 | the column's values in ascending order: a permutation of them, sorted |
| Consensus.QuantileAt | scripts/ranking_functions.py:126 | linear interpolation between neighbouring sorted values stays between the column's extremes |
| Consensus.Lerp | scripts/ranking_functions.py:126 | interpolation a fraction in [0, 1] of the way from `a` to `b` lies between them |
| Consensus.VoteCount | scripts/ranking_functions.py:125-126 | a pose's vote count after `m` columns is at most `m` |
| Consensus.Votes | scripts/ranking_functions.py:124-126 | one vote count per pose, none exceeding the number of selected columns |
| Consensus.ComputeVotes | scripts/ranking_functions.py:124-126 | the vote loop returns exactly the vote counts (one per pose, at most one vote per column) |
| Consensus.AddVotes | scripts/ranking_functions.py:126 | one pass adds column `j`'s votes: each count becomes the count over columns 0..j |
| Consensus.VotesFromCounts | scripts/ranking_functions.py:125-126 | counts over all the columns are the `vote` column |
| Consensus.Method5 | scripts/ranking_functions.py:120-129 | one row per ID in ID order, each holding the mean of its rounded column means and its rounded mean vote |
| Consensus.Method5Defined | scripts/ranking_functions.py:124-129 | every ID of the input gets a rank-by-vote value, since every pose has a vote |
| Consensus.Standardised | scripts/ranking_functions.py:137 | `(x - mean)/std` keeps the column's length and its missing cells |
| Consensus.ZColumn | scripts/ranking_functions.py:137 | z-scores have one cell per pose; fewer than two values or no spread gives NaN throughout |
| Consensus.PresentStandardised | scripts/ranking_functions.py:137 | the present z-scores are the present values, shifted and scaled in order |
| Consensus.SumShifted | scripts/ranking_functions.py:137 | the shifted values sum to (sum - n·mean)/std |
| Consensus.ZScoresSumToZero | scripts/ranking_functions.py:137 | the z-scores of a column with spread sum to zero |
| Consensus.ShiftedByMean | scripts/ranking_functions.py:137 | values less their own mean, over any nonzero scale, sum to zero |
| Consensus.RowZ | scripts/ranking_functions.py:138 | one consensus z-score per pose (the mean of its z-scores, skipping NaN) |
| Consensus.Method6 | scripts/ranking_functions.py:131-143 | one row per ID, sorted descending with NaN last, each holding the best consensus z-score of that ID's poses |
| Consensus.Method7 | scripts/ranking_functions.py:145-156 | one row per ID in ID order, each holding the mean consensus z-score of that ID's poses |
| Consensus.Method6AtLeastMethod7 | scripts/ranking_functions.py:131-156 | an ID's best z-score and its average z-score are NaN together, and otherwise the best is at least the average |
| Consensus.ScoreFrame.constructor | scripts/ranking_functions.py:174 | the shared standardised frame starts with the given columns |
| Consensus.ScoreFrame.Selected | scripts/ranking_functions.py:174 | the selected columns are the frame's columns other than `Pose ID` and `ID` |
| Consensus.ScoreFrame.AddVote | scripts/ranking_functions.py:124 | method 5 appends a `vote` column to the frame it was given |
| Consensus.ScoreFrame.AddMethod6 | scripts/ranking_functions.py:139 | method 6 appends its consensus column to the frame it was given |
| Consensus.SelectScores | scripts/ranking_functions.py:174 | a column is selected exactly when it is in the frame and is neither `Pose ID` nor `ID` |
| Consensus.ScoreSelectionsAsWritten | scripts/ranking_functions.py:174 | as written, method 6 sees the `vote` column and method 7 also sees method 6's column |
| Consensus.ScoreSelectionsLeak | scripts/ranking_functions.py:124-174 | method 5's selection has no `vote` column, method 6's does, and method 7's holds method 6's result |
| Consensus.ScoreSelections | scripts/ranking_functions.py:174 | corrected: the three score methods combine the same score columns, all from the original frame |
| Enrichment.Matches | scripts/performance_calculation.py:8 | the library entries joined to one consensus row: each carries that row's ID and scores and an activity of a library entry with that ID |
| Enrichment.InnerMerge | scripts/performance_calculation.py:8 | every joined row pairs a consensus row with a library entry of the same ID |
| Enrichment.MergeKeepsWidth | scripts/performance_calculation.py:8-10 | joined rows carry one score per method column |
| Enrichment.MatchesCount | scripts/performance_calculation.py:8 | a consensus row is repeated once per library entry with its ID |
| Enrichment.InnerMergeSize | scripts/performance_calculation.py:8 | the join has one row per (consensus row, library entry) pair with equal IDs |
| Enrichment.InnerMergeKeepsRows | scripts/performance_calculation.py:8 | when every consensus ID occurs exactly once in the library, the join has as many rows as the consensus table |
| Enrichment.SortAscending | scripts/performance_calculation.py:11-14 | the direction of the first `method_ranking` key in the name; `IndexError` exactly when the name holds none of ECR, Zscore, RbV, RbR; ascending exactly when only RbR is present |
| Enrichment.OrdersAreTotalPreorders | scripts/performance_calculation.py:15 | both sort orders, NaN last, are total preorders |
| Enrichment.SortScored | scripts/performance_calculation.py:15 | the rows sorted in the requested direction with NaN last: a permutation of the rows |
| Enrichment.TopCountBounds | scripts/performance_calculation.py:16-17 | `round(p·N)` for p in [0, 1] lies between 0 and N |
| Enrichment.EnrichmentFactor | scripts/performance_calculation.py:16-23 | the EF is a number exactly when the top set is non-empty and the total activity is non-zero (otherwise numpy yields NaN or an infinity) |
| Enrichment.WholeTableEnrichmentIsOne | scripts/performance_calculation.py:18-22 | taking the whole table as the top set gives an EF of exactly 1 |
| Enrichment.WholeTopValue | scripts/performance_calculation.py:22 | `round((H/N)·(N/H), 2)` is 1 |
| Enrichment.EnrichmentNonNegative | scripts/performance_calculation.py:16-23 | with non-negative activities the EF is non-negative |
| Enrichment.NoActiveOnTopGivesZero | scripts/performance_calculation.py:19-23 | a top set without actives has an EF of 0 |
| Enrichment.Column | scripts/performance_calculation.py:15 | one (score, activity) pair per joined row |
| Enrichment.MethodEf | scripts/performance_calculation.py:14-25 | the row of one method column carries the method's name, and fails exactly when the name has no sort direction; its EFs are those of `calculate_EF_column` on the column (`Enrichment.EfColumnAgrees`), with scores negated for an ascending method (`Enrichment.AscendingEfAgreesNegated`) |
| Enrichment.EfTable | scripts/performance_calculation.py:13-25 | succeeds exactly when every method name has a sort direction, and then row m is exactly the EF row `MethodEf` computes for method column m; an error is the error of some method column |
| Enrichment.MethodEfs | scripts/performance_calculation.py:13 | one outcome per method column |
| Enrichment.Collect | scripts/performance_calculation.py:13-25 | all the rows when every outcome is a row (one per outcome, in order), else the first error |
| Enrichment.CalculateEfs | scripts/performance_calculation.py:4-26 | the loop over the joined table's method columns returns exactly the EF table of the join |
| Enrichment.CollectRows | scripts/performance_calculation.py:13-25 | the row-by-row loop yields exactly the collection of the outcomes, stopping at the first error |
| Enrichment.CollectNext | scripts/performance_calculation.py:14 | a failing method ends the whole table with its error; a succeeding one appends its row |
| Enrichment.CollectErrorKept | scripts/performance_calculation.py:14 | once an error occurs, no later column changes the outcome |
| Enrichment.EfColumnAgrees | scripts/performance_calculation.py:28-37 | for a method ranked in descending order, `calculate_EFs` and `calculate_EF_column` give the same EF10% and EF1% |
| Enrichment.SortNegated | scripts/performance_calculation.py:15 | the stable descending sort of the negated scores is the negation of the stable ascending sort, ties in the same order |
| Enrichment.SameActivitiesSameEnrichment | scripts/performance_calculation.py:16-23 | the EF depends only on the activities in ranked order |
| Enrichment.AscendingEfAgreesNegated | scripts/performance_calculation.py:11-37 | for a method ranked in ascending order (RbR), `calculate_EFs` gives the EF10% and EF1% that `calculate_EF_column` gives on the negated scores |
| Enrichment.Ef1 | scripts/ranking_functions.py:197-210 | `calculate_EF1` fails exactly when the method name has no sort direction |
| Combinations.BinomialAll | scripts/ranking_functions.py:252 | `comb(n, n)` is 1 |
| Combinations.BinomialOne | scripts/ranking_functions.py:252 | `comb(n, 1)` is n |
| Combinations.BinomialBeyond | scripts/ranking_functions.py:252 | `comb(n, k)` is 0 for k > n |
| Combinations.RowSumIsPow2 | scripts/ranking_functions.py:252 | the binomial coefficients of a row add up to 2^n |
| Combinations.TotalCombinationsClosedForm | scripts/ranking_functions.py:252 | `total_combinations` is 2^n − n − 2: every subset except the empty one, the singletons and the full set |
| Combinations.Choose | scripts/ranking_functions.py:258 | `itertools.combinations(s, k)` yields only length-k tuples |
| Combinations.ChooseCount | scripts/ranking_functions.py:258 | there are C(\|s\|, k) combinations |
| Combinations.ChooseSound | scripts/ranking_functions.py:258 | every combination picks columns in the order they appear |
| Combinations.ChooseComplete | scripts/ranking_functions.py:258 | every order-preserving choice of k columns is one of the combinations |
| Combinations.Rewrite | scripts/ranking_functions.py:191-192 | rewriting with the table never makes a name longer |
| Combinations.SubsetName | scripts/ranking_functions.py:183-192 | the subset name is the columns joined by `_`, rewritten by every table entry in insertion order, and no longer than the joined text |
| Combinations.RewriteAbsent | scripts/ranking_functions.py:191-192 | a name that holds none of the patterns is kept |
| Combinations.SubsetRows | scripts/ranking_functions.py:195-224 | one summary row per consensus method, in method order, each with the clustering name, the rewritten subset name and that method's EF1% |
| Combinations.SubsetsRows | scripts/ranking_functions.py:261-263 | seven rows per subset |
| Combinations.SweepRowsCount | scripts/ranking_functions.py:257-263 | the sweep produces seven rows per subset of every evaluated size |
| Combinations.SizesFromSplit | scripts/ranking_functions.py:252 | adding one more subset size adds its binomial coefficient |
| Combinations.SummariseSubset | scripts/ranking_functions.py:211-224 | the loop over methods returns exactly the subset's summary rows |
| Combinations.SummariseSubsets | scripts/ranking_functions.py:259-263 | the loop over the combinations of one size returns the rows of each, in combination order |
| Combinations.Sweep | scripts/ranking_functions.py:248-267 | for one clustering metric, the rows of every subset of 2 … n−1 columns in combination order: exactly seven times `total_combinations` rows |
| Combinations.TotalCombinationsPositive | scripts/ranking_functions.py:252 | some subset is evaluated exactly when there are at least three score columns |
| Combinations.MetricRows | scripts/ranking_functions.py:248-263 | one metric contributes seven rows per evaluated subset |
| Combinations.SummaryRowsEmpty | scripts/ranking_functions.py:244-267 | `df_list` stays empty exactly when no clustering metric has three score columns |
| Combinations.CombineSweeps | scripts/ranking_functions.py:246-267 | the loop over clustering metrics and the final `pd.concat` give every metric's rows in turn, and raise exactly when no metric has three score columns |
| Clustering.ResolveMetric | scripts/clustering_functions.py:127-149 | a metric name resolves exactly when it is one of the six table keys; `3DScore` computes spyRMSD; any other name raises `ValueError` naming it |
| Clustering.ResolveMethodAsWritten | scripts/clustering_functions.py:136-139 | as written, only `KMedoids` and `AffProp` select an algorithm |
| Clustering.AffPropSpellingRejected | scripts/clustering_functions.py:136-139 | the spelling `Aff_Prop`, which the configuration accepts, raises `KeyError` in this table |
| Clustering.ResolveMethod | scripts/clustering_functions.py:136-139 | corrected: a name resolves exactly when it is `KMedoids`, `AffProp` or `Aff_Prop`; both affinity spellings select affinity propagation; agrees with the table wherever the table resolves |
| Clustering.Indices | scripts/clustering_functions.py:142 | the row indices lo … hi−1 |
| Clustering.PairInIndices | scripts/clustering_functions.py:141 | a two-element subsequence of the indices is exactly a pair i < j in range |
| Clustering.Pairs | scripts/clustering_functions.py:141-142 | exactly the pairs i < j of the n rows, C(n, 2) of them |
| Clustering.PairMatrix | scripts/clustering_functions.py:153-160 | the matrix filled in place holds the pair's metric at [i, j] and at [j, i], is symmetric and has a zero diagonal |
| Clustering.Entries | scripts/clustering_functions.py:173-175 | the frame built from the matrix has its rows and columns |
| Clustering.MatrixRows | scripts/clustering_functions.py:158-160 | n rows of n entries |
| Clustering.LowestRow | scripts/clustering_functions.py:166-168 | the 3DScore row: a row whose sum is no larger than any other row's |
| Clustering.FirstBest | scripts/clustering_functions.py:60 | `max(d, key=d.get)`: a largest score, and the first one among ties |
| Clustering.BestClusterCount | scripts/clustering_functions.py:46-60 | the cluster count is 2, 3 or 4, has the largest silhouette score, and is the smallest such count on ties |
| Clustering.ChooseClusterCount | scripts/clustering_functions.py:46-60 | the dict-filling loop picks exactly that best count |
| Clustering.CountOfPositive | scripts/clustering_functions.py:78 | a row matches some centre exactly when it is one of them |
| Clustering.MatchCentres | scripts/clustering_functions.py:78-79 | the merged Pose IDs are exactly those of the rows equal to some centre |
| Clustering.KMedoidsPick | scripts/clustering_functions.py:25-81 | fewer than five poses raise `ValueError` in the k = 2, 3, 4 loop, and only then; otherwise k-medoids selects only poses of the group |
| Clustering.AffinityPick | scripts/clustering_functions.py:83-112 | affinity propagation selects only poses of the group |
| Clustering.PoseIds | scripts/clustering_functions.py:164-165 | the Pose ID of each row, in order |
| Clustering.ClusterGroup | scripts/clustering_functions.py:114-178 | with the corrected algorithm table: an unknown metric raises `ValueError`; fewer than two poses cannot be indexed; an unknown algorithm raises `KeyError`; k-medoids on two to four poses raises `ValueError`; these are the only errors; `3DScore` selects exactly one pose; otherwise only poses of the group are selected |
| Clustering.ThreeDScoreIsCentral | scripts/clustering_functions.py:162-171 | the 3DScore pose has the smallest summed distance to the other poses |
| Clustering.CalculateAndCluster | scripts/clustering_functions.py:114-178 | filling the matrix in place gives exactly the selection (or error) of `ClusterGroup`, which uses the corrected algorithm table |
| Clustering.BestPoses | scripts/clustering_functions.py:207-211 | a pose is kept exactly when its Pose ID ends with one of the two suffixes, and the poses keep their order |
| Clustering.CleanPoseId | scripts/clustering_functions.py:241-242 | cleaning only removes characters, and removes every ( ) ' , |
| Clustering.SelectPoses | scripts/clustering_functions.py:243-244 | a pose is written exactly when its Pose ID was selected, in the order of `all_poses` |
| Clustering.GroupOf | scripts/clustering_functions.py:221 | the poses of one molecule are exactly those with its ID |
| Clustering.MoleculeIds | scripts/clustering_functions.py:199 | the `ID` of each pose, in order |
| Clustering.UniqueIds | scripts/clustering_functions.py:199 | `np.unique`: exactly the IDs that occur |
| Clustering.JobResults | scripts/clustering_functions.py:218-237 | at most one result per submitted ID; failed jobs contribute nothing |
| Clustering.SmallKMedoidsGroupsDropped | scripts/clustering_functions.py:218-237 | with k-medoids, IDs with fewer than five poses contribute nothing to the concatenated selection |
| Clustering.Concat | scripts/clustering_functions.py:238 | the concatenation holds exactly the Pose IDs of the parts |
| Clustering.RunJobs | scripts/clustering_functions.py:213-238 | the job loop collects the successful results in ID order; with none, `pd.concat` fails |
| Clustering.ClusteringFolder.constructor | scripts/clustering_functions.py:195-197 | the folder starts with the files already written |
| Clustering.ClusteringFolder.ClusterPebble | scripts/clustering_functions.py:181-248 | an existing file leaves the folder unchanged; a `bestpose` metric writes the poses with its suffixes; with more than one CPU the file holds the poses of the concatenated per-ID job results, and the call fails exactly when no job succeeded (a k-medoids job on fewer than five poses, or an unknown algorithm, fails); with one CPU it holds the poses `sequential` names; poses are written in input order; an error writes nothing |
| Clustering.Cleaned | scripts/clustering_functions.py:241-242 | each selected Pose ID cleaned, in order |
| Clustering.CleanKeepsPlainIds | scripts/clustering_functions.py:241-242 | cleaning leaves a Pose ID without ( ) ' , unchanged |
| Clustering.BestPoseSelection | scripts/clustering_functions.py:207-245 | for a `bestpose` metric the written poses are exactly the poses with one of its suffixes, when Pose IDs hold no ( ) ' , |
| Utilities.Ceil | scripts/utilities.py:25 | `math.ceil(x)` is the least integer not below x |
| Utilities.ChunkSize | scripts/utilities.py:25 | `compounds_per_core`: zero CPUs divide by zero; a zero step is refused by `range`; with CPUs and compounds, the step is the smallest number of compounds that covers the library in 2·ncpus chunks |
| Utilities.CeilBounds | scripts/utilities.py:25 | for a positive divisor, (step−1)·d < n ≤ step·d |
| Utilities.Unused | scripts/utilities.py:31 | filtering a chunk never adds records |
| Utilities.UnusedMembers | scripts/utilities.py:31 | a record is kept exactly when it is in the chunk and its ID was not used before |
| Utilities.SplitSdf | scripts/utilities.py:17-36 | `split_sdf` writes exactly the chunk files of the split, or fails as `ChunkSize` does |
| Utilities.WriteChunks | scripts/utilities.py:26-34 | the chunk loop writes exactly the chunks of the split, `file_counter` naming them 1, 2, … |
| Utilities.SplitAvoidsUsed | scripts/utilities.py:30-32 | no chunk repeats an ID written before |
| Utilities.NoSharedCons | scripts/utilities.py:30-32 | a file whose IDs are all marked used, put before files that avoid used IDs, shares no ID with them |
| Utilities.SplitNoRepeat | scripts/utilities.py:26-34 | no ID appears in two different files |
| Utilities.SplitCovers | scripts/utilities.py:26-34 | every record's ID is written to some file |
| Utilities.SplitWritesOnlyRows | scripts/utilities.py:26-34 | every written record is a record of the library |
| Utilities.BlocksBounds | scripts/utilities.py:28 | the number of `range` positions covers n items in blocks of `step` |
| Utilities.SplitCount | scripts/utilities.py:28 | one file per started block of `step` records |
| Utilities.AtMostTwoFilesPerCpu | scripts/utilities.py:25-34 | with CPUs, an empty library stops on a zero step, and a non-empty one is written to at most 2·ncpus files |
| Utilities.FilesBound | scripts/utilities.py:25-28 | files covering at most step·2·ncpus records number at most 2·ncpus |
| Utilities.SplitSdfSingle | scripts/utilities.py:39-54 | one file per record, file k holding exactly record k |
| Utilities.SplitByOneIsSingle | scripts/utilities.py:17-54 | with distinct IDs and a step of 1, `split_sdf` writes the same files as `split_sdf_single` |
| Utilities.IntRange | scripts/utilities.py:64-65 | `[*range(lo, hi)]`: the consecutive integers from lo below hi |
| Utilities.Zip | scripts/utilities.py:71 | each row paired with its index label |
| Utilities.LabelledFrame.constructor | scripts/utilities.py:58 | a frame with the given labels and rows |
| Utilities.LabelledFrame.SetIndex | scripts/utilities.py:71 | assigning an index relabels the rows when the length matches and fails otherwise, leaving the rows alone |
| Utilities.LabelledFrame.SetRow | scripts/utilities.py:73 | `df.loc[key] = value` overwrites the rows with that label, or appends a row with it |
| Utilities.LabelledFrame.SortIndex | scripts/utilities.py:75 | a new frame whose labelled rows are sorted by label |
| Utilities.InsertedOrder | scripts/utilities.py:64-75 | after relabelling with a gap and appending, sorting by label puts the new row at position `row_number` and labels the rows 0 … N |
| Utilities.SamePairs | scripts/utilities.py:64-75 | the relabelled frame and the expected frame hold the same labelled rows |
| Utilities.SourcePairs | scripts/utilities.py:64-73 | the relabelled frame: the rows before the gap, the rows after it moved down by one, then the new row |
| Utilities.TargetPairs | scripts/utilities.py:75 | the expected frame, split at the inserted row |
| Utilities.LabelSorted | scripts/utilities.py:75 | `sort_index` leaves the labels in non-decreasing order |
| Utilities.LabelsStrict | scripts/utilities.py:75 | the expected labels 0 … N strictly increase |
| Utilities.InsertRow | scripts/utilities.py:58-76 | succeeds exactly for a row number in 0 … len(df); then returns the rows with the new row at that position, labelled 0 … N, and leaves `df` relabelled with the row appended; on failure `df` is unchanged |
| Utilities.ValidFileName | scripts/utilities.py:121-126 | the PDBQT file name is the title filtered to letters, digits, space, `.` and `_`, less a run of trailing spaces; every valid character other than the space survives; an empty title gives `molecule_<idx>` |
| Utilities.ValidTitleKept | scripts/utilities.py:126 | a title made of valid characters and not ending in white space is its own file name |
| Utilities.ValidFileNameIdempotent | scripts/utilities.py:121-126 | cleaning a cleaned name again changes nothing |
| Utilities.Truncate | scripts/utilities.py:198 | `line[:66]`: a prefix of the line of length min(len, 66) |
| Utilities.PdbBlock | scripts/utilities.py:196-198 | the block accumulated line by line is exactly the truncated lines, each followed by a newline |
| Utilities.PdbBlockLength | scripts/utilities.py:196-198 | each line contributes at most 67 characters, and exactly 67 when it is at least 66 long |
| Utilities.PdbBlockEndsLines | scripts/utilities.py:198 | a non-empty block ends with a newline |
| Utilities.LoadMoleculeAsWritten | scripts/utilities.py:186-205 | as written, a molecule is returned exactly for `.mol`, `.sdf`, `.pdbqt` and `.pdb` paths |
| Utilities.Mol2IsRejected | scripts/utilities.py:186-204 | a `.mol2` file, a documented format, comes back as a `ValueError` |
| Utilities.LoadMolecule | scripts/utilities.py:174-205 | corrected: a molecule is returned exactly for the five documented formats, `.mol2` by the Mol2 reader, and otherwise as written |
| Docking.OneTo | scripts/docking_functions.py:304 | `[*range(1, n_poses + 1)]`: the numbers 1 … n_poses |
| Docking.Repeated | scripts/docking_functions.py:305 | `list_ * times`: position k holds element k mod len |
| Docking.ModUnique | scripts/docking_functions.py:305-306 | the remainder is the only r in [0, n) with x = q·n + r |
| Docking.PoseNumbers | scripts/docking_functions.py:304-306 | the pose numbers exist exactly when n_poses ≥ 1 (otherwise division by zero), and then pose k gets k mod n_poses + 1 |
| Docking.PoseIds | scripts/docking_functions.py:306 | one Pose ID per row, `<ID>_<PROGRAM>_<k mod n_poses + 1>`, exactly when n_poses ≥ 1 |
| Docking.BlocksNumberedFromOne | scripts/docking_functions.py:304-306 | the poses of each block of n_poses rows are numbered 1 … n_poses |
| Docking.SplitModels | scripts/docking_functions.py:98-104 | every model ends at its only `ENDMDL` line; the models are the input up to its last `ENDMDL`, in order; no later line is an `ENDMDL` |
| Docking.FlattenSnoc | scripts/docking_functions.py:103 | closing a model appends its lines to the lines of the models so far |
| Docking.CountEndsAppend | scripts/docking_functions.py:102 | `ENDMDL` lines of two parts add up |
| Docking.CountEndsFlatten | scripts/docking_functions.py:98-104 | whole models hold one `ENDMDL` line each |
| Docking.ModelCount | scripts/docking_functions.py:98-104 | a split of this shape has one model per `ENDMDL` line |
| Docking.FirstModelLine | scripts/docking_functions.py:107-110 | the first line starting with `MODEL`, or none when no line does |
| Docking.ModelNumber | scripts/docking_functions.py:106-110 | a model without a `MODEL` line keeps the previous model's number, and fails when there is none |
| Docking.ModelFileNames | scripts/docking_functions.py:106-113 | one file name per model when no model fails |
| Docking.NameStep | scripts/docking_functions.py:106-111 | naming one more model moves its name from the names to come to the names given |
| Docking.NameModels | scripts/docking_functions.py:105-113 | the loop names the models of one file exactly as `ModelFileNames` does, starting from the number the previous file left and returning the number it leaves |
| Docking.FilesModelNames | scripts/docking_functions.py:93-113 | one list of names per result file, each as long as the file's models |
| Docking.FilesStep | scripts/docking_functions.py:93-113 | naming one more file moves its names from the names to come to the names given, passing on the number it leaves |
| Docking.NameFiles | scripts/docking_functions.py:93-113 | the loop over result files names them exactly as `FilesModelNames` does, never resetting `model_number` between files |
| Docking.NumberCarriedToNextFile | scripts/docking_functions.py:106-111 | a file whose first model has no `MODEL` line names it with the number the previous file's last model left |
| Docking.NumberAfterDefined | scripts/docking_functions.py:106-110 | naming a non-empty file without error leaves a model number behind |
| Docking.HeaderTokens | scripts/docking_functions.py:109 | `"MODEL <n>\n".split()` is `["MODEL", "<n>"]` |
| Docking.HeaderGivesNumber | scripts/docking_functions.py:108-109 | a model whose first line is `MODEL <n>` gets number n |
| Docking.UnnumberedModelReusesName | scripts/docking_functions.py:106-113 | a model without a `MODEL` line gets the name of the model before it, so its file overwrites that one |
| Docking.ModelLabelAsWritten | scripts/docking_functions.py:111 | as written, only the sequential QVINAW run differs from its intended label |
| Docking.ModelLabel | scripts/docking_functions.py:111 | corrected: a run labels its models `QVINAW` exactly when it is a QVINAW run |
| Docking.SequentialQvinawBestPoseMisfiled | scripts/docking_functions.py:111 | as written, the best pose of a sequential QVINAW run escapes the `bestpose_QVINAW` filter and is taken by `bestpose_QVINA2` |
| Docking.QvinawBestPoseFiled | scripts/docking_functions.py:111 | with the intended label, the best QVINAW pose is kept by `bestpose_QVINAW` and not by `bestpose_QVINA2` |
| Docking.PlantsPoseId | scripts/docking_functions.py:526 | a PLANTS Pose ID exists exactly when the entry has at least five `_` fields |
| Docking.PlantsEntry | scripts/docking_functions.py:526-527 | for `<ID>_entry_<n>_conf_<m>` the Pose ID is `<ID>_PLANTS_<m>` and the ID is `<ID>` |
| Docking.FieldThen | scripts/docking_functions.py:526 | splitting `a_b` on `_` gives a, then the fields of b |
| Docking.DockSequential | scripts/docking_functions.py:924-935 | a sequential run starts exactly the programs of `Started`, in the order SMINA, GNINA, PLANTS, QVINAW, QVINA2 |
| Docking.StartedDispatch | scripts/docking_functions.py:926-935 | the five checks in sequence are the dispatch list |
| Docking.StartedMembers | scripts/docking_functions.py:926-935 | a program runs exactly when it is requested and its folder is absent |
| Docking.StartedInOrder | scripts/docking_functions.py:926-935 | the programs run in dispatch order, each at most once |
| Docking.Position | scripts/docking_functions.py:926-935 | each program's place in the order of the checks |
| Docking.SequentialDispatch | scripts/docking_functions.py:924-935 | a sequential run starts exactly the requested programs whose folder is absent, each once, in dispatch order |
| PocketPattern.NumberLen | scripts/utilities/config_parser.py:287 | a number `-?\d+(\.\d+)?` found at the start of the text is non-empty and fits in the text |
| PocketPattern.FillMatches | scripts/utilities/config_parser.py:286-288 | the pattern matches its own filling-in, whatever follows each number stops it |
| PocketPattern.MatchIsFill | scripts/utilities/config_parser.py:286-288 | every matching text is the pattern filled in with well-formed numerals, followed by the rest of the text |
| PocketPattern.Numbers | scripts/utilities/config_parser.py:287 | a match reads one numeral per number of the pattern |
| PocketPattern.MatchExtends | scripts/utilities/config_parser.py:286-288 | `re.match` anchors only at the start: appending text to a matching text keeps it matching |
| PocketPattern.EmptyNotMatched | scripts/utilities/config_parser.py:286-288 | the empty text does not match |
| PocketPattern.ManualPocketSeparated | scripts/utilities/config_parser.py:287 | in `center:x,y,z*size:x,y,z` every number is followed by a separator that cannot continue it |
| PocketPattern.ManualPocketCount | scripts/utilities/config_parser.py:287 | the pattern holds six numbers |
| PocketPattern.FilledMatches | scripts/utilities/config_parser.py:286-288 | a filled-in separated pattern matches, whatever text follows it |
| PocketPattern.ManualPocketAccepts | scripts/utilities/config_parser.py:286-288 | `center:a,b,c*size:d,e,f` with six numerals, followed by anything, is accepted |
| PocketPattern.ManualPocketOnlyAccepts | scripts/utilities/config_parser.py:286-288 | every accepted text is `center:a,b,c*size:d,e,f` with six well-formed numerals, followed by other text |
| ConfigParser.Truncate | scripts/utilities/config_parser.py:78-79 | `int()` of a float truncates toward zero |
| ConfigParser.FirstFailure | scripts/utilities/config_parser.py:187-192 | a `for … raise` loop passes exactly when every item passes its check |
| ConfigParser.FirstFailureStep | scripts/utilities/config_parser.py:187-192 | one iteration of such a loop raises the first failing item's error or moves on |
| ConfigParser.SoftwareFolder | scripts/utilities/config_parser.py:55-64 | "None" or a falsy value selects the default folder; the folder kept is that default or the given path, and it must be a directory |
| ConfigParser.CpuCountDefault | scripts/utilities/config_parser.py:75-79 | an absent or zero `n_cpus` becomes ⌊0.9 · cpu_count⌋, which is positive with two CPUs or more |
| ConfigParser.CpuCountKept | scripts/utilities/config_parser.py:75-79 | a non-zero `n_cpus`, written as a number or as digits, is kept |
| ConfigParser.CpuCountRejects | scripts/utilities/config_parser.py:76-83 | text that is not an integer raises the configuration error; a null raises a TypeError the validator does not catch |
| ConfigParser.ModeIgnoresCase | scripts/utilities/config_parser.py:66-72 | the mode check ignores case, rejects unknown modes and fails on a non-string |
| ConfigParser.DecoyError | scripts/utilities/config_parser.py:85-111 | decoy settings are only checked when `gen_decoys` is truthy, and then the actives folder exists, `n_decoys` converts to int and the model is DEKOIS, DUDE or DUDE_P |
| ConfigParser.ReceptorCodes | scripts/utilities/config_parser.py:142-151 | four- and six-character alphanumeric entries that are not all digits are codes; anything else is a path |
| ConfigParser.ReceptorsChecked | scripts/utilities/config_parser.py:142-160 | every receptor that is not a code ends in `.pdb` and is an existing file |
| ConfigParser.ReceptorCodesNeedNoFile | scripts/utilities/config_parser.py:142-151 | codes pass whatever the file system holds |
| ConfigParser.LibraryError | scripts/utilities/config_parser.py:163-172 | the library passes exactly when it is an existing file whose name ends in `.sdf` |
| ConfigParser.ProteinSwitchesAreBooleans | scripts/utilities/config_parser.py:176-192 | after validation, the six protein preparation switches are booleans |
| ConfigParser.HydrogensError | scripts/utilities/config_parser.py:194-209 | `add_hydrogens` passes exactly when it is absent or a number |
| ConfigParser.LigandError | scripts/utilities/config_parser.py:211-233 | ligand preparation passes exactly when protonation and conformers are known options and `n_conformers` is an integer |
| ConfigParser.ReferencesInSingleMode | scripts/utilities/config_parser.py:247-270 | Reference and RoG need at least one reference ligand; single mode keeps the first, other modes keep all |
| ConfigParser.ReferencesChecked | scripts/utilities/config_parser.py:254-262 | every reference ligand kept is an existing `.sdf` file |
| ConfigParser.ManualPocketError | scripts/utilities/config_parser.py:279-291 | the manual pocket passes exactly when it is a string the pattern matches |
| ConfigParser.ManualPocketAccepted | scripts/utilities/config_parser.py:279-291 | every `center:a,b,c*size:d,e,f` definition passes validation |
| ConfigParser.ProgramsKnown | scripts/utilities/config_parser.py:296-302 | every docking program that passes is a known program |
| ConfigParser.ExhaustivenessNeverDefaulted | scripts/utilities/config_parser.py:311-324 | an absent exhaustiveness fails the integer check, so the fallback to 8 never runs |
| ConfigParser.PostDockingError | scripts/utilities/config_parser.py:326-342 | post-docking passes exactly when the clash and strain cut-offs are integers or absent and `bust_poses` is a boolean |
| ConfigParser.Remove | scripts/utilities/config_parser.py:372 | `list.remove` drops one occurrence when there is one and changes nothing otherwise |
| ConfigParser.RemoveMembers | scripts/utilities/config_parser.py:372 | removing x keeps every other member and adds none |
| ConfigParser.RemoveOnce | scripts/utilities/config_parser.py:372 | removal keeps a method listed at most once, and removes a method listed once |
| ConfigParser.PruneAsWrittenErasesMethods | scripts/utilities/config_parser.py:372 | as written, the method list stored after one removal is `None` (the result of `list.remove`) |
| ConfigParser.PruneMirrored | scripts/utilities/config_parser.py:365-381 | corrected: the stored methods and programs stay equal to the lists through the loop |
| ConfigParser.PruneKeeps | scripts/utilities/config_parser.py:365-381 | pruning never empties a non-empty method list, keeps only methods that were listed and drops no docking program |
| ConfigParser.BestPoseKeyInjective | scripts/utilities/config_parser.py:367 | distinct programs have distinct `bestpose_` keys |
| ConfigParser.PruneDocksSelected | scripts/utilities/config_parser.py:365-381 | after the loop, a program's `bestpose_` method is kept only when that program docks |
| ConfigParser.PruneKeepsOnce | scripts/utilities/config_parser.py:365-381 | a method listed at most once stays so through the loop |
| ConfigParser.ClusteringMethodResolves | scripts/utilities/config_parser.py:383-396 | a clustering method that passes resolves to an algorithm of the clustering step; clustering metrics always get one |
| ConfigParser.ScoringError | scripts/utilities/config_parser.py:398-413 | scoring passes exactly when every rescoring method is known and the consensus method is known |
| ConfigParser.ThresholdDefault | scripts/utilities/config_parser.py:415-423 | the 1 % default applies only in `ensemble` and `active_learning` mode (exact spelling) and only when no threshold is given |
| ConfigParser.GeneralFolder | scripts/utilities/config_parser.py:55-64 | the software folder kept is a directory |
| ConfigParser.InputsReceptors | scripts/utilities/config_parser.py:137-161 | the receptor list stored is the whole list: line 161 overwrites the single-mode slice |
| ConfigParser.ValidatedInputs | scripts/utilities/config_parser.py:52-161 | a validated configuration has a software directory, an integer CPU count and every receptor |
| ConfigParser.PoseSelectionStored | scripts/utilities/config_parser.py:344-381 | with the corrected pruning: after the pose checks, the stored methods and programs are lists, non-empty methods stay non-empty, and every given program is still listed |
| ConfigParser.Config.constructor | scripts/utilities/config_parser.py:48 | the dictionary holds the entries as loaded |
| ConfigParser.Config.CheckGeneral | scripts/utilities/config_parser.py:52-83 | succeeds exactly when the general section is valid; stores the folder and CPU count and changes nothing else |
| ConfigParser.Config.CheckInputs | scripts/utilities/config_parser.py:85-233 | the checks run in order and the first error is raised; on success the receptor list is stored and nothing else changes |
| ConfigParser.Config.CheckPocket | scripts/utilities/config_parser.py:235-291 | succeeds exactly when pocket detection is valid, storing the reference ligands kept |
| ConfigParser.Config.CheckDocking | scripts/utilities/config_parser.py:293-324 | succeeds exactly when the docking section is valid, and the exhaustiveness is left as given |
| ConfigParser.Config.CheckPoses | scripts/utilities/config_parser.py:326-396 | the pose checks raise their first error; otherwise the corrected pruning loop and the clustering default are applied to the dictionary |
| ConfigParser.Config.CheckConfig | scripts/utilities/config_parser.py:43-427 | `check_config` raises the first failing check, or returns the dictionary with exactly the rewrites of `Validate`, whose pose pruning is the corrected one |
| PoseIdentity.IdOfPose | scripts/ranking_functions.py:167 | the compound ID ranking reads from a Pose ID `<ID>_<PROGRAM>_<n>` is `<ID>`, whenever `<ID>` has no underscore |
| PoseIdentity.LibraryIdRecovered | scripts/library_preparation.py:58-61 | every library ID survives the round trip through docking and ranking |
| PoseIdentity.ColumnRecovered | scripts/docking_functions.py:304-306 | the `ID` column ranking rebuilds from the Pose IDs of a docked library is the library's IDs, row by row |
| PoseIdentity.UnderscoreIdsCollide | scripts/library_preparation.py:60-61 | without the underscore rewriting, the distinct IDs `ZINC_1` and `ZINC_2` would both be read back as `ZINC` |
| LibraryPreparation.NormaliseIdShape | scripts/library_preparation.py:58-61 | a normalised ID has no underscore; all-digit IDs get the `DOCKM8-` prefix; other IDs keep their length, and are unchanged when they had no underscore |
| LibraryPreparation.NormaliseIdIdempotent | scripts/library_preparation.py:58-61 | normalising an ID twice gives the same ID as normalising it once |
| LibraryPreparation.StandardisedEntries | scripts/library_preparation.py:48-93 | standardisation keeps every compound, in order, with its ID normalised and its molecule standardised |
| LibraryPreparation.StandardisedIdsHaveNoUnderscore | scripts/library_preparation.py:59-61 | no standardised ID contains an underscore |
| LibraryPreparation.RdkitConformerEntries | scripts/library_preparation.py:125-138 | the RDKit step drops the first record and embeds each of the others, in order |
| LibraryPreparation.CleanupEntries | scripts/library_preparation.py:277-289 | cleanup drops the first record and keeps only the molecule and ID of the others |
| LibraryPreparation.ConformerPlan | scripts/library_preparation.py:322-338 | a route exists exactly when conformers is RDKit, MMFF or GypsumDL and protonation is GypsumDL or None; the conformer method is checked first |
| LibraryPreparation.RdkitAndMmffAgree | scripts/library_preparation.py:322 | RDKit and MMFF select the same route |
| LibraryPreparation.Workspace.constructor | scripts/library_preparation.py:307 | the output folder starts with the given files and no steps run |
| LibraryPreparation.Workspace.Write | scripts/library_preparation.py:295 | writing an SDF file replaces that one file |
| LibraryPreparation.Workspace.Unlink | scripts/library_preparation.py:298-300 | `unlink(missing_ok=True)` removes the file if it is there |
| LibraryPreparation.Workspace.Run | scripts/library_preparation.py:320 | a step run is recorded and leaves the files alone |
| LibraryPreparation.Standardise | scripts/library_preparation.py:317-320 | standardisation runs only when its output is missing |
| LibraryPreparation.GenerateConformers | scripts/library_preparation.py:322-336 | the chosen route runs its programs in order and writes `gypsum_dl_success.sdf` |
| LibraryPreparation.CleanupFolder | scripts/library_preparation.py:264-304 | cleanup writes the final library and removes the three intermediate files, or fails when there is nothing to read |
| LibraryPreparation.PrepareLibrary | scripts/library_preparation.py:307-341 | `prepare_library` standardises, raises on invalid methods after that, otherwise runs the route and cleans up; a rejected method leaves the folder with the standardised library written |
| LibraryPreparation.ValidMethodsComplete | scripts/library_preparation.py:317-341 | valid methods always complete and leave the final library and no intermediate SDF file |
| LibraryPreparation.ExistingStandardisationReused | scripts/library_preparation.py:319-320 | an existing standardised library is used whatever the input |
| LibraryPreparation.GypsumFinalLibrary | scripts/library_preparation.py:330-340 | with Gypsum-DL conformers the final library is what Gypsum-DL wrote after its first record, reduced to molecule and ID |
| LibraryPreparation.RdkitWithoutProtonationDropsTwo | scripts/library_preparation.py:132 | with RDKit and no protonation both the conformer step and the cleanup drop a first record, so the first two standardised compounds are lost |
| LibraryMain.FinalEntries | scripts/library_preparation/main.py:70-72 | `WriteSDF` without `properties` writes one record per generated record, in order, holding only its molecule and its ID as title |
| LibraryMain.OnlyMoleculeAndIdWritten | scripts/library_preparation/main.py:70-72 | the written library depends only on the molecules and IDs, so the column selection whose result line 71 drops has no effect on it |
| LibraryMain.AfterStandardisation | scripts/library_preparation/main.py:43-46 | after standardisation the standardised library exists |
| LibraryMain.ProtonationSource | scripts/library_preparation/main.py:48-57 | a protonation method is accepted exactly when it is GypsumDL or None |
| LibraryMain.AfterProtonation | scripts/library_preparation/main.py:48-51 | with GypsumDL protonation the protonated library exists afterwards |
| LibraryMain.AfterConformers | scripts/library_preparation/main.py:59-66 | a conformer step that succeeds leaves `generated_conformers.sdf` |
| LibraryMain.Standardise | scripts/library_preparation/main.py:43-46 | standardisation runs only when its output is missing |
| LibraryMain.Protonate | scripts/library_preparation/main.py:48-51 | Gypsum-DL protonation runs only for GypsumDL and only when its output is missing |
| LibraryMain.GenerateConformers | scripts/library_preparation/main.py:59-66 | RDKit/MMFF or Gypsum-DL writes the generated conformers from the chosen source; any other method raises and writes nothing |
| LibraryMain.Finish | scripts/library_preparation/main.py:68-77 | the final library is written as molecule and ID of each generated record and the three intermediate files are removed |
| LibraryMain.PrepareLibrary | scripts/library_preparation/main.py:25-80 | `prepare_library` returns the final library's path or the first ValueError, runs the programs in order, and leaves the folder `Prepared` describes, whose final library holds the molecule and ID of each generated record; a rejected method leaves the `RejectedFolder`, with the standardised (and protonated) library written |
| LibraryMain.ProtonationCheckedFirst | scripts/library_preparation/main.py:48-66 | an invalid protonation method is reported whatever the conformer method; the run succeeds exactly when both methods are valid |
| LibraryMain.ValidationOrderDiffers | scripts/library_preparation/main.py:48-66 | this entry point and the older one report different errors for the same pair of invalid methods |
| LibraryMain.NoProtonationReadsStandardised | scripts/library_preparation/main.py:52-53 | without protonation the conformer step reads the standardised library |
| LibraryMain.ProtonationReused | scripts/library_preparation/main.py:49-51 | an existing protonated library is reused; otherwise Gypsum-DL protonates the standardised library |
| LibraryMain.RejectedFolder | scripts/library_preparation/main.py:43-66 | a rejected run leaves the standardised library, and with GypsumDL the protonated one |
| LibraryMain.RejectedRunLeftoversReused | scripts/library_preparation/main.py:43-51 | the files a rejected run leaves are reused by the next run through the `is_file()` checks, whatever library that run is given |
| LibraryMain.FinalLibraryContents | scripts/library_preparation/main.py:70-77 | a completed run leaves the final library, with only molecule and ID, and none of the intermediate files |
| ProteinPreparation.InputType | scripts/protein_preparation/main.py:56-66 | a given type is kept; otherwise 4- and 6-character alphanumeric inputs are PDB and UniProt codes, and anything else must be an existing file |
| ProteinPreparation.SelectBestChain | scripts/protein_preparation/main.py:71-75 | best-chain selection stays on exactly when it was asked for and the input is PDB, in any case |
| ProteinPreparation.Protonates | scripts/protein_preparation/main.py:77-85 | protonation runs exactly when it is asked for, no pH is given, or the pH is 0 |
| ProteinPreparation.SourceOf | scripts/protein_preparation/main.py:88-107 | PDB input fails exactly when the stripped, upper-cased code is not 4 letters or digits; the best chain is fetched only for PDB input with selection on |
| ProteinPreparation.Unlink | scripts/protein_preparation/main.py:137 | `Path.unlink()` removes an existing file and raises for a missing one |
| ProteinPreparation.CleanupAsWrittenFailsWithoutFixing | scripts/protein_preparation/main.py:136-139 | as written, when the first and second files are the same and Protoss writes a new file, that file is unlinked twice and the second unlink raises |
| ProteinPreparation.Cleanup | scripts/protein_preparation/main.py:136-139 | corrected: every intermediate file that is not the final one is deleted exactly once |
| ProteinPreparation.CleanupAgrees | scripts/protein_preparation/main.py:136-139 | the corrected and the written cleanup agree whenever the first and second files differ |
| ProteinPreparation.Folder.constructor | scripts/protein_preparation/main.py:68 | the output folder starts with the given files |
| ProteinPreparation.Folder.Add | scripts/protein_preparation/main.py:97-132 | an external step adds its output file |
| ProteinPreparation.Folder.Delete | scripts/protein_preparation/main.py:137 | deleting removes an existing file and raises for a missing one, leaving the folder unchanged |
| ProteinPreparation.DecideSteps | scripts/protein_preparation/main.py:56-107 | reassigning the input type and the two switches in place gives the decisions `Decide` describes, with the same errors |
| ProteinPreparation.RunSteps | scripts/protein_preparation/main.py:109-141 | fetching, fixing and protonating, then the corrected cleanup, return the final file and leave the folder `Cleanup` describes |
| ProteinPreparation.PrepareProtein | scripts/protein_preparation/main.py:23-141 | `prepare_protein` with the corrected cleanup returns the prepared structure's path and leaves the folder `Prepared` describes, or raises its error |
| ProteinPreparation.NoFixingStillProtonates | scripts/protein_preparation/main.py:110-139 | a run that fixes nothing is still protonated, and the given file is replaced by the protonated one; as written it raises instead |
| ProteinPreparation.LocalInputReplaced | scripts/protein_preparation/main.py:105-139 | the final structure is kept, and a given file is deleted whenever another file replaced it |
| ProteinPreparation.MalformedPdbCodeRejected | scripts/protein_preparation/main.py:88-94 | a malformed PDB code is rejected before anything is fetched |
| ProteinPreparation.NumericCodeReadDifferently | scripts/protein_preparation/main.py:57-58 | an all-digit 4-character input is a PDB code here, while the configuration check treats the same receptor entry as a file path |

## Left out

- YAML parsing, SDF/PDBQT/MOL2 reading and writing, and logging (`printlog`, `print`, warnings) are not modelled. A configuration arrives parsed as a `Document`, and a file is the sequence of its records or lines.
- The docking and rescoring programs, Gypsum-DL, PDBFixer, Protoss, the structure downloads, RDKit, Meeko and Open Babel are not modelled. They appear as function parameters, each assumed to write its output file.
- `mkdir`, `rmtree` and temporary folders (`create_temp_folder`) are not modelled, nor are the paths that are built only to be passed to tools.
- Parallel execution (`ProcessPoolExecutor`, pebble pools and their timeouts, `parallel_executor`) is not modelled. Only the sequential paths are: `ncpus == 1`, or a parallel map whose result equals the sequential one.
- Floating point is modelled with exact `real` arithmetic. `exp` (ECR), the standard deviation (Z-score), the pose metrics, the scaler, k-medoids, affinity propagation and the silhouette score are parameters. Only structural properties are proved about them. The 0.95 quantile is computed, by numpy's linear interpolation.
- pandas' `sort_values` is not stable. The model sorts stably, so the order among tied rows (and the row kept by `drop_duplicates` among ties) is one valid choice, not necessarily pandas' own.
- Output row order of the group-by reductions is not modelled beyond what the contracts state. Results are stated per ID.
- Character classes are the ASCII ones: the receptor and protein input classification (`isalnum`/`isdigit`), the `\d` of the manual pocket pattern, the all-digit test of `LibraryPreparation.NormaliseId`, the `isalnum` and `rstrip` of the PDBQT file name. Unicode digits, letters and white space are not modelled.
- `int()` of a string accepts surrounding white space, an optional sign and decimal digits. Underscores between digits and non-ASCII digits are not modelled.
- `os.cpu_count()` returning `None` is not modelled. `int(cpu_count * 0.9)` is computed exactly as ⌊9·n/10⌋.
- An absent `docking_programs` key is modelled as an empty list, and an absent section as an empty one. The `KeyError` that writing into an absent section would raise is not modelled.
- The combination-count warning of `check_config` (`math.factorial`) is not modelled, because it only logs.
- ConfigParser.PruneDocksSelected: proved only when each `bestpose_<program>` method is listed at most once. With a duplicate, `list.remove` drops only one occurrence and the other survives.
- `show_correlation` (plotting), `meeko_to_pdbqt`, `convert_pdb_to_pdbqt` and `parallel_sdf_to_pdbqt` are not modelled. Their conversions are external, and only the file-name filter of `parallel_sdf_to_pdbqt` is modelled.
- `concat_all_poses`, the file merging of the docking functions and the PoseBusters filtering are not modelled. Of the docking functions, only the pose bookkeeping listed above is.
- `scripts/rescoring_functions.py`, the standardisation, protonation and conformer modules called by the new library entry point, `matrix_calculation_and_clustering`, and the registries that `check_config` imports are not part of this model. The registries are parameters.
- `scripts/pocket_finding/default.py` is not modelled (a coordinate mean computed by RDKit).
- Docking.NameModels: the numbers of the PDBQT files are threaded in the order the files are given; the order `Path.glob` yields them in is not modelled.
- Clustering.ClusteringFolder.ClusterPebble / Clustering.ClusterGroup / Clustering.CalculateAndCluster / Clustering.JobResults / Clustering.RunJobs: use the corrected algorithm table, `Clustering.ResolveMethod`, of the Findings row for clustering_functions.py:136-139. So `clustering_method: Aff_Prop` runs affinity propagation where `calculate_and_cluster` raises `KeyError`. In `cluster_pebble` the per-ID jobs therefore succeed for `Aff_Prop`, where each would raise and the concatenation would fail. `Clustering.AffPropSpellingRejected` states the code as written.
- Clustering.KMedoidsPick / Clustering.ClusterGroup / Clustering.CalculateAndCluster: with five or more poses, the `ValueError` the silhouette score raises when k-medoids finds fewer than two distinct clusters (identical rows) is not modelled. The silhouette score and the medoids are parameters.
- LibraryPreparation.AfterConformers / LibraryPreparation.GenerateConformers: a failure inside the conformer programs is not modelled. The handler of the RDKit step would itself raise `TypeError`, adding an exception to a string (scripts/library_preparation.py:139-140), so such a failure aborts the run.
- Combinations.SubsetRows / Combinations.Sweep / Combinations.SummariseSubset / Combinations.SummariseSubsets / Combinations.CombineSweeps: the EF1% cell is a parameter, standing for `calculate_EF1` (`Enrichment.Ef1`) of the consensus method's table on that subset. Running the seven consensus methods on each column subset and feeding their tables to `Enrichment.Ef1` is not composed in the model.
- ConfigParser.PoseSelectionStored / ConfigParser.PoseSection / ConfigParser.Validate / ConfigParser.Config.CheckPoses / ConfigParser.Config.CheckConfig: use the corrected pruning, `ConfigParser.Prune`, of the Findings row for config_parser.py:372. So `method: [bestpose_GNINA, bestpose]` with `docking_programs: [SMINA]` gives `["bestpose"]` where `check_config` stores `None`. `ConfigParser.PruneAsWrittenErasesMethods` states the code as written.
- ProteinPreparation.PrepareProtein / ProteinPreparation.Prepared / ProteinPreparation.RunSteps: use the corrected cleanup of the Findings row for protein_preparation/main.py:136-139. So a local file with no fixing and no pH returns the protonated file where `prepare_protein` raises `FileNotFoundError`. `ProteinPreparation.CleanupAsWrittenFailsWithoutFixing` states the code as written.
- The EF table is returned instead of written to `enrichement_factors.csv`, and `calculate_EF_column` returns its two EFs instead of printing them. `Activity` is taken to be numeric, as `pd.to_numeric` makes it.

## Findings

| source | as written | input that shows it | evidently intended | confidence | as-written member | corrected member |
|---|---|---|---|---|---|---|
| scripts/ranking_functions.py:174 | method 5 adds a `vote` column to the standardised frame shared with methods 6 and 7, so their selected columns include it, and method 7 also sees method 6's result | any score table: method 6 averages `vote` as if it were a score | methods 5–7 combine the same score columns | not executed | Consensus.ScoreSelectionsAsWritten | Consensus.ScoreSelections |
| scripts/clustering_functions.py:136-139 | the clustering table knows `AffProp`, while the configuration accepts only `Aff_Prop` | `clustering_method: Aff_Prop` raises `KeyError` | both spellings select affinity propagation | not executed | Clustering.AffPropSpellingRejected | Clustering.ResolveMethod |
| scripts/utilities.py:186-204 | the second extension chain has no `.mol2` branch, so a documented `.mol2` file falls to the `else` | `load_molecule("x.mol2")` returns a `ValueError` | `.mol2` is read by the Mol2 reader | not executed | Utilities.Mol2IsRejected | Utilities.LoadMolecule |
| scripts/docking_functions.py:111 | the sequential QVINAW run labels its models `_QVINA2_` | a sequential QVINAW run: its best pose is taken by `bestpose_QVINA2` and missed by `bestpose_QVINAW` | label `_QVINAW_`, as the parallel path does at line 776 | not executed | Docking.SequentialQvinawBestPoseMisfiled | Docking.QvinawBestPoseFiled |
| scripts/utilities/config_parser.py:372 | the method list is stored as the `None` returned by `list.remove` (and by `list.append` at 375-377) | `method: [bestpose_GNINA, bestpose]` with docking program SMINA stores `None` | the list with the method removed | not executed | ConfigParser.PruneAsWrittenErasesMethods | ConfigParser.PruneMirrored |
| scripts/protein_preparation/main.py:136-139 | a file equal to both step 1 and step 2 is unlinked twice | no fixing and no pH: protonation is forced, step 1 = step 2 ≠ final, and the second `unlink` raises `FileNotFoundError` | each intermediate file deleted once | not executed | ProteinPreparation.CleanupAsWrittenFailsWithoutFixing | ProteinPreparation.NoFixingStillProtonates |
