/** The sweep of `apply_consensus_methods_combinations` over subsets of score columns
    (scripts/ranking_functions.py): every subset of L columns for L = 2 … n−1, in
    `itertools.combinations` order, each evaluated by the seven consensus methods. */
module Combinations {
  import opened Wrappers
  import opened Text

  // ---------------------------------------------------------------- counting

  /** Pascal's rule for `math.comb(n, k)`. */
  function Binomial(n: nat, k: nat): nat
  {
    if k == 0 then 1 else if n == 0 then 0 else Binomial(n - 1, k - 1) + Binomial(n - 1, k)
  }

  lemma {:induction false} BinomialBeyond(n: nat, k: nat)
    requires k > n
    ensures Binomial(n, k) == 0
  {
    if n > 0 {
      BinomialBeyond(n - 1, k - 1);
      BinomialBeyond(n - 1, k);
    }
  }

  lemma {:induction false} BinomialAll(n: nat)
    ensures Binomial(n, n) == 1
  {
    if n > 0 {
      BinomialAll(n - 1);
      BinomialBeyond(n - 1, n);
    }
  }

  lemma {:induction false} BinomialOne(n: nat)
    ensures Binomial(n, 1) == n
  {
    if n > 0 {
      BinomialOne(n - 1);
    }
  }

  function Pow2(n: nat): nat
  {
    if n == 0 then 1 else 2 * Pow2(n - 1)
  }

  /** C(n, 0) + … + C(n, m − 1). */
  function RowSum(n: nat, m: nat): nat
  {
    if m == 0 then 0 else RowSum(n, m - 1) + Binomial(n, m - 1)
  }

  lemma {:induction false} RowSumPascal(n: nat, m: nat)
    ensures RowSum(n + 1, m + 1) == RowSum(n, m + 1) + RowSum(n, m)
  {
    if m > 0 {
      RowSumPascal(n, m - 1);
    }
  }

  /** The binomial coefficients of a row add up to 2^n. */
  lemma {:induction false} RowSumIsPow2(n: nat)
    ensures RowSum(n, n + 1) == Pow2(n)
  {
    if n > 0 {
      RowSumIsPow2(n - 1);
      RowSumPascal(n - 1, n);
      BinomialBeyond(n - 1, n);
    }
  }

  /** `sum(comb(n, L) for L in range(2, n))`: the number of subsets the sweep evaluates. */
  function TotalCombinations(n: nat): nat
  {
    SizesFrom(n, 2, n)
  }

  /** C(n, lo) + … + C(n, hi − 1). */
  function SizesFrom(n: nat, lo: nat, hi: nat): nat
    decreases hi - lo
  {
    if lo >= hi then 0 else Binomial(n, lo) + SizesFrom(n, lo + 1, hi)
  }

  lemma {:induction false} SizesFromRowSum(n: nat, lo: nat, hi: nat)
    requires lo <= hi
    ensures SizesFrom(n, lo, hi) + RowSum(n, lo) == RowSum(n, hi)
    decreases hi - lo
  {
    if lo < hi {
      SizesFromRowSum(n, lo + 1, hi);
    }
  }

  /** Every subset except the empty one, the singletons and the full set:
      2^n − n − 2 subsets. */
  lemma TotalCombinationsClosedForm(n: nat)
    requires n >= 2
    ensures TotalCombinations(n) == Pow2(n) - n - 2
  {
    SizesFromRowSum(n, 2, n);
    RowSumIsPow2(n);
    BinomialOne(n);
    BinomialAll(n);
    assert RowSum(n, 1) == 1;
    assert RowSum(n, 2) == 1 + n;
    assert RowSum(n, n + 1) == RowSum(n, n) + 1;
  }

  // ---------------------------------------------------------------- combinations

  /** `c` picks elements of `s` in the order they appear in `s`. */
  predicate IsSubsequence<T(==)>(c: seq<T>, s: seq<T>)
    decreases |s|
  {
    if c == [] then true
    else if s == [] then false
    else (c[0] == s[0] && IsSubsequence(c[1..], s[1..])) || IsSubsequence(c, s[1..])
  }

  function Prepend<T>(x: T, cs: seq<seq<T>>): (r: seq<seq<T>>)
    ensures |r| == |cs| && forall i :: 0 <= i < |cs| ==> r[i] == [x] + cs[i]
  {
    seq(|cs|, i requires 0 <= i < |cs| => [x] + cs[i])
  }

  /** `itertools.combinations(s, k)`: the subsequences of length k, those holding
      `s[0]` first. */
  function Choose<T>(s: seq<T>, k: nat): (r: seq<seq<T>>)
    ensures forall i :: 0 <= i < |r| ==> |r[i]| == k
  {
    if k == 0 then [[]]
    else if s == [] then []
    else Prepend(s[0], Choose(s[1..], k - 1)) + Choose(s[1..], k)
  }

  /** There are C(|s|, k) combinations. */
  lemma {:induction false} ChooseCount<T>(s: seq<T>, k: nat)
    ensures |Choose(s, k)| == Binomial(|s|, k)
  {
    if k > 0 && s != [] {
      ChooseCount(s[1..], k - 1);
      ChooseCount(s[1..], k);
    }
  }

  /** Every combination is a subsequence of `s`. */
  lemma {:induction false} ChooseSound<T>(s: seq<T>, k: nat)
    ensures forall c :: c in Choose(s, k) ==> IsSubsequence(c, s)
  {
    if k > 0 && s != [] {
      ChooseSound(s[1..], k - 1);
      ChooseSound(s[1..], k);
      forall c | c in Choose(s, k) ensures IsSubsequence(c, s) {
        var head := Prepend(s[0], Choose(s[1..], k - 1));
        if c in head {
          var i :| 0 <= i < |head| && head[i] == c;
          assert c[1..] == Choose(s[1..], k - 1)[i];
        }
      }
    }
  }

  /** Every subsequence of `s` of length k is one of the combinations. */
  lemma {:induction false} ChooseComplete<T>(s: seq<T>, c: seq<T>)
    requires IsSubsequence(c, s)
    ensures c in Choose(s, |c|)
    decreases |s|
  {
    if c == [] {
    } else if c[0] == s[0] && IsSubsequence(c[1..], s[1..]) {
      ChooseComplete(s[1..], c[1..]);
      var cs := Choose(s[1..], |c| - 1);
      var i :| 0 <= i < |cs| && cs[i] == c[1..];
      assert Prepend(s[0], cs)[i] == c;
    } else {
      ChooseComplete(s[1..], c);
    }
  }

  // ---------------------------------------------------------------- subset names

  /** A rewrite: a non-empty pattern and a replacement no longer than it. */
  type Rewriting = r: (string, string) | |r.0| > 0 && |r.1| <= |r.0| witness ("_", "_")

  /** The rewrites of `replacements_dict`, in insertion order: the score suffixes
      between underscores, the same at the end of a name, then the two program names. */
  const Replacements: seq<Rewriting> := InnerSuffixes + FinalSuffixes + ProgramNames

  const InnerSuffixes: seq<Rewriting> := [
    ("_R_", "_"), ("_S_", "_"), ("_Affinity_", "_"), ("_RMSD_", "_"),
    ("_spyRMSD_", "_"), ("_espsim_", "_"), ("_3DScore_", "_"), ("_bestpose_", "_"),
    ("_bestpose_GNINA_", "_"), ("_bestpose_SMINA_", "_"), ("_bestpose_PLANTS_", "_")]

  const FinalSuffixes: seq<Rewriting> := [
    ("_RMSD", "_"), ("_spyRMSD", "_"), ("_espsim", "_"), ("_3DScore", "_"), ("_bestpose", "_"),
    ("_bestpose_GNINA", "_"), ("_bestpose_SMINA", "_"), ("_bestpose_PLANTS", "_")]

  const ProgramNames: seq<Rewriting> := [("GNINA_CNN", "GNINA-CNN"), ("CNN_Score", "CNN-Score")]

  /** The name after the first `count` rewrites. */
  function Rewrite(name: string, reps: seq<Rewriting>, count: nat): (r: string)
    requires count <= |reps|
    ensures |r| <= |name|
  {
    if count == 0 then name
    else
      var before := Rewrite(name, reps, count - 1);
      ReplaceShortens(before, reps[count - 1].0, reps[count - 1].1);
      Replace(before, reps[count - 1].0, reps[count - 1].1)
  }

  /** `subset_name`: the selected columns joined by `_`, then rewritten by each entry
      of the replacement table in turn. */
  method SubsetName(columns: seq<string>) returns (name: string)
    ensures name == Rewrite(Join(columns, '_'), Replacements, |Replacements|)
    ensures |name| <= |Join(columns, '_')|
  {
    name := Join(columns, '_');
    for k := 0 to |Replacements|
      invariant name == Rewrite(Join(columns, '_'), Replacements, k)
    {
      name := Replace(name, Replacements[k].0, Replacements[k].1);
    }
  }

  /** A name that holds none of the patterns is kept as it is. */
  lemma {:induction false} RewriteAbsent(name: string, reps: seq<Rewriting>, count: nat)
    requires count <= |reps|
    requires forall k :: 0 <= k < |reps| ==> !Contains(name, reps[k].0)
    ensures Rewrite(name, reps, count) == name
  {
    if count > 0 {
      RewriteAbsent(name, reps, count - 1);
      ReplaceAbsent(name, reps[count - 1].0, reps[count - 1].1);
    }
  }

  // ---------------------------------------------------------------- the sweep

  /** The keys of `rank_methods` and `score_methods`, in order. */
  const MethodNames: seq<string> := ["method1", "method2", "method3", "method4", "method5", "method6", "method7"]

  /** One row of `consensus_summary.csv`. */
  datatype SummaryRow = SummaryRow(clustering: string, methodName: string, subset: string, ef1: Option<real>)

  /** The rows one subset contributes: one per consensus method, in method order.
      `ef` stands for `calculate_EF1` of the method's table on that subset. */
  function SubsetRows(clustering: string, subset: seq<string>, ef: (seq<string>, string) -> Option<real>): (r: seq<SummaryRow>)
    ensures |r| == |MethodNames|
    ensures forall m :: 0 <= m < |r| ==> r[m].methodName == MethodNames[m] && r[m].clustering == clustering &&
                                         r[m].subset == Rewrite(Join(subset, '_'), Replacements, |Replacements|) &&
                                         r[m].ef1 == ef(subset, MethodNames[m])
  {
    seq(|MethodNames|, m requires 0 <= m < |MethodNames| =>
      SummaryRow(clustering, MethodNames[m], Rewrite(Join(subset, '_'), Replacements, |Replacements|), ef(subset, MethodNames[m])))
  }

  /** The rows of the first `count` subsets. */
  function SubsetsRows(clustering: string, subsets: seq<seq<string>>, count: nat, ef: (seq<string>, string) -> Option<real>): (r: seq<SummaryRow>)
    requires count <= |subsets|
    ensures |r| == |MethodNames| * count
  {
    if count == 0 then [] else SubsetsRows(clustering, subsets, count - 1, ef) + SubsetRows(clustering, subsets[count - 1], ef)
  }

  /** The rows of all subsets with sizes 2 … size − 1. */
  function SweepRows(clustering: string, columns: seq<string>, size: nat, ef: (seq<string>, string) -> Option<real>): (r: seq<SummaryRow>)
    requires size >= 2
    decreases size
  {
    if size == 2 then []
    else
      var combos := Choose(columns, size - 1);
      SweepRows(clustering, columns, size - 1, ef) + SubsetsRows(clustering, combos, |combos|, ef)
  }

  /** The sweep produces seven rows per evaluated subset. */
  lemma {:induction false} SweepRowsCount(clustering: string, columns: seq<string>, size: nat, ef: (seq<string>, string) -> Option<real>)
    requires size >= 2
    ensures |SweepRows(clustering, columns, size, ef)| == |MethodNames| * SizesFrom(|columns|, 2, size)
    decreases size
  {
    if size > 2 {
      SweepRowsCount(clustering, columns, size - 1, ef);
      ChooseCount(columns, size - 1);
      SizesFromSplit(|columns|, 2, size - 1);
    }
  }

  lemma {:induction false} SizesFromSplit(n: nat, lo: nat, hi: nat)
    requires lo <= hi
    ensures SizesFrom(n, lo, hi + 1) == SizesFrom(n, lo, hi) + Binomial(n, hi)
    decreases hi - lo
  {
    if lo < hi {
      SizesFromSplit(n, lo + 1, hi);
    }
  }

  /** `process_combination`'s result for one subset: one summary row per consensus
      method, each labelled with the rewritten subset name. */
  method SummariseSubset(clustering: string, subset: seq<string>, ef: (seq<string>, string) -> Option<real>) returns (added: seq<SummaryRow>)
    ensures added == SubsetRows(clustering, subset, ef)
  {
    var name := SubsetName(subset);
    added := [];
    for m := 0 to |MethodNames|
      invariant added == SubsetRows(clustering, subset, ef)[..m]
    {
      added := added + [SummaryRow(clustering, MethodNames[m], name, ef(subset, MethodNames[m]))];
    }
  }

  /** The rows of every combination of one size, in combination order. */
  method SummariseSubsets(clustering: string, combos: seq<seq<string>>, ef: (seq<string>, string) -> Option<real>) returns (rows: seq<SummaryRow>)
    ensures rows == SubsetsRows(clustering, combos, |combos|, ef)
  {
    rows := [];
    for i := 0 to |combos|
      invariant rows == SubsetsRows(clustering, combos, i, ef)
    {
      var added := SummariseSubset(clustering, combos[i], ef);
      rows := rows + added;
    }
  }

  /** The inner loops of `apply_consensus_methods_combinations` for one clustering
      metric: for L in 2 … n−1, for each combination, the seven method rows appended
      to `df_list`. The full column set is never evaluated. */
  method Sweep(clustering: string, columns: seq<string>, ef: (seq<string>, string) -> Option<real>) returns (rows: seq<SummaryRow>)
    ensures |columns| >= 2 ==> rows == SweepRows(clustering, columns, |columns|, ef)
    ensures |rows| == |MethodNames| * TotalCombinations(|columns|)
  {
    rows := [];
    if |columns| < 2 {
      return;
    }
    for size := 2 to |columns|
      invariant rows == SweepRows(clustering, columns, size, ef)
    {
      var part := SummariseSubsets(clustering, Choose(columns, size), ef);
      rows := rows + part;
    }
    SweepRowsCount(clustering, columns, |columns|, ef);
  }

  /** The sweep evaluates some subset exactly when there are at least three columns. */
  lemma TotalCombinationsPositive(n: nat)
    ensures TotalCombinations(n) > 0 <==> n >= 3
  {
    if n >= 3 {
      BinomialOne(n - 1);
      assert Binomial(n, 2) == Binomial(n - 1, 1) + Binomial(n - 1, 2);
    }
  }

  // ---------------------------------------------------------------- the summary

  /** The score columns of the standardised table of one clustering metric. */
  datatype MetricColumns = MetricColumns(clustering: string, columns: seq<string>)

  /** The error `pd.concat` raises on an empty list ("No objects to concatenate"). */
  datatype SummaryError = NoObjectsToConcatenate

  /** The rows one clustering metric contributes. */
  function MetricRows(m: MetricColumns, efOf: string -> ((seq<string>, string) -> Option<real>)): (r: seq<SummaryRow>)
    ensures |r| == |MethodNames| * TotalCombinations(|m.columns|)
  {
    if |m.columns| < 2 then []
    else
      SweepRowsCount(m.clustering, m.columns, |m.columns|, efOf(m.clustering));
      SweepRows(m.clustering, m.columns, |m.columns|, efOf(m.clustering))
  }

  /** `df_list` after the first `count` clustering metrics. */
  function SummaryRows(metrics: seq<MetricColumns>, count: nat, efOf: string -> ((seq<string>, string) -> Option<real>)): seq<SummaryRow>
    requires count <= |metrics|
  {
    if count == 0 then [] else SummaryRows(metrics, count - 1, efOf) + MetricRows(metrics[count - 1], efOf)
  }

  /** `pd.concat(df_list)`: the rows of every metric in turn, or the error of an
      empty list. */
  function ConsensusSummary(metrics: seq<MetricColumns>, efOf: string -> ((seq<string>, string) -> Option<real>)): Result<seq<SummaryRow>, SummaryError>
  {
    var rows := SummaryRows(metrics, |metrics|, efOf);
    if rows == [] then Err(NoObjectsToConcatenate) else Ok(rows)
  }

  /** The summary is empty (so `pd.concat` raises) exactly when rows are missing
      for every metric. */
  lemma {:induction false} SummaryRowsEmpty(metrics: seq<MetricColumns>, count: nat, efOf: string -> ((seq<string>, string) -> Option<real>))
    requires count <= |metrics|
    ensures SummaryRows(metrics, count, efOf) == [] <==> forall k :: 0 <= k < count ==> |metrics[k].columns| < 3
  {
    if count > 0 {
      SummaryRowsEmpty(metrics, count - 1, efOf);
      TotalCombinationsPositive(|metrics[count - 1].columns|);
    }
  }

  /** Lines 246-267: the loop over clustering metrics, then the final `pd.concat`,
      which raises when no metric had three score columns. */
  method CombineSweeps(metrics: seq<MetricColumns>, efOf: string -> ((seq<string>, string) -> Option<real>))
    returns (r: Result<seq<SummaryRow>, SummaryError>)
    ensures r == ConsensusSummary(metrics, efOf)
    ensures r.Err? <==> forall k :: 0 <= k < |metrics| ==> |metrics[k].columns| < 3
  {
    var rows: seq<SummaryRow> := [];
    for k := 0 to |metrics|
      invariant rows == SummaryRows(metrics, k, efOf)
    {
      var part := Sweep(metrics[k].clustering, metrics[k].columns, efOf(metrics[k].clustering));
      rows := rows + part;
    }
    SummaryRowsEmpty(metrics, |metrics|, efOf);
    if rows == [] {
      return Err(NoObjectsToConcatenate);
    }
    return Ok(rows);
  }
}
