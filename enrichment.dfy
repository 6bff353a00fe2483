/** Enrichment factors of the consensus rankings (scripts/performance_calculation.py,
    and `calculate_EF1` inside `process_combination` of scripts/ranking_functions.py).
    A division by zero follows numpy scalar semantics: it yields NaN or an infinity,
    never an exception; such a non-finite EF is `None`. */
module Enrichment {
  import opened Wrappers
  import opened Tables
  import opened Text
  import Sorting

  /** One molecule of the docking library: its ID and its `Activity` value. */
  datatype LibraryEntry = LibraryEntry(id: string, activity: real)

  /** One row of the consensus results table: an ID and one value per method column. */
  datatype ScoredRow = ScoredRow(id: string, scores: seq<Option<real>>)

  /** A consensus row joined with the activity of its molecule. */
  datatype MergedRow = MergedRow(id: string, scores: seq<Option<real>>, activity: real)

  /** One method's score of a molecule and the molecule's activity. */
  datatype Scored = Scored(score: Option<real>, activity: real)

  /** The EF10% and EF1% of one method. */
  datatype EfRow = EfRow(name: string, ef10: Option<real>, ef1: Option<real>)

  datatype EfError = NoSortDirection(name: string)

  // ---------------------------------------------------------------- merge

  /** The library entries with the ID of `l`, each joined to `l`, in library order. */
  function Matches(l: ScoredRow, lib: seq<LibraryEntry>): (r: seq<MergedRow>)
    ensures |r| <= |lib|
    ensures forall k :: 0 <= k < |r| ==> r[k].id == l.id && r[k].scores == l.scores
    ensures forall k :: 0 <= k < |r| ==> LibraryEntry(l.id, r[k].activity) in lib
  {
    if lib == [] then []
    else
      var rest := Matches(l, lib[1..]);
      assert forall k :: 0 <= k < |rest| ==> LibraryEntry(l.id, rest[k].activity) in lib[1..];
      if lib[0].id == l.id then [MergedRow(l.id, l.scores, lib[0].activity)] + rest else rest
  }

  /** `ranking_results.merge(original_df, on='ID')`: an inner join that keeps the
      order of the consensus rows and repeats a row once per library entry with its ID.
      Every joined row pairs a consensus row with a library entry of the same ID. */
  function InnerMerge(left: seq<ScoredRow>, lib: seq<LibraryEntry>): (r: seq<MergedRow>)
    ensures forall k :: 0 <= k < |r| ==>
              ScoredRow(r[k].id, r[k].scores) in left && LibraryEntry(r[k].id, r[k].activity) in lib
  {
    if left == [] then []
    else
      var head := Matches(left[0], lib);
      var rest := InnerMerge(left[1..], lib);
      assert forall k :: 0 <= k < |rest| ==> ScoredRow(rest[k].id, rest[k].scores) in left[1..];
      assert forall k :: 0 <= k < |head| ==> ScoredRow(head[k].id, head[k].scores) == left[0];
      head + rest
  }

  /** Joined rows carry the score columns of their consensus row. */
  lemma MergeKeepsWidth(left: seq<ScoredRow>, lib: seq<LibraryEntry>, width: nat)
    requires forall i :: 0 <= i < |left| ==> |left[i].scores| == width
    ensures forall k :: 0 <= k < |InnerMerge(left, lib)| ==> |InnerMerge(left, lib)[k].scores| == width
  {
    var merged := InnerMerge(left, lib);
    forall k | 0 <= k < |merged| ensures |merged[k].scores| == width {
      var i :| 0 <= i < |left| && left[i] == ScoredRow(merged[k].id, merged[k].scores);
    }
  }

  /** The number of library entries with a given ID. */
  function CountId(lib: seq<LibraryEntry>, id: string): nat
  {
    if lib == [] then 0 else (if lib[0].id == id then 1 else 0) + CountId(lib[1..], id)
  }

  lemma {:induction false} MatchesCount(l: ScoredRow, lib: seq<LibraryEntry>)
    ensures |Matches(l, lib)| == CountId(lib, l.id)
  {
    if lib != [] {
      MatchesCount(l, lib[1..]);
    }
  }

  /** The number of consensus rows whose ID is in the library. */
  function CountKnown(left: seq<ScoredRow>, lib: seq<LibraryEntry>): nat
  {
    if left == [] then 0 else CountId(lib, left[0].id) + CountKnown(left[1..], lib)
  }

  /** The join has one row per (consensus row, library entry) pair with equal IDs. */
  lemma {:induction false} InnerMergeSize(left: seq<ScoredRow>, lib: seq<LibraryEntry>)
    ensures |InnerMerge(left, lib)| == CountKnown(left, lib)
  {
    if left != [] {
      MatchesCount(left[0], lib);
      InnerMergeSize(left[1..], lib);
    }
  }

  /** With a library listing each ID once and every consensus ID in the library,
      every consensus row is counted exactly once. */
  lemma {:induction false} InnerMergeKeepsRows(left: seq<ScoredRow>, lib: seq<LibraryEntry>)
    requires forall i :: 0 <= i < |left| ==> CountId(lib, left[i].id) == 1
    ensures |InnerMerge(left, lib)| == |left|
  {
    InnerMergeSize(left, lib);
    CountKnownAllOnce(left, lib);
  }

  lemma {:induction false} CountKnownAllOnce(left: seq<ScoredRow>, lib: seq<LibraryEntry>)
    requires forall i :: 0 <= i < |left| ==> CountId(lib, left[i].id) == 1
    ensures CountKnown(left, lib) == |left|
  {
    if left != [] {
      assert CountId(lib, left[0].id) == 1;
      forall i | 0 <= i < |left[1..]| ensures CountId(lib, left[1..][i].id) == 1 {
        assert left[1..][i] == left[i + 1];
      }
      CountKnownAllOnce(left[1..], lib);
    }
  }

  // ---------------------------------------------------------------- sort direction

  /** The direction of the first key of `method_ranking` (ECR, Zscore, RbV, RbR, in
      that order) the method name contains; a name holding none of them makes
      `[...][0]` raise IndexError. Only `RbR` sorts ascending. */
  function SortAscending(name: string): (r: Result<bool, EfError>)
    ensures r.Err? <==> !Contains(name, "ECR") && !Contains(name, "Zscore") && !Contains(name, "RbV") && !Contains(name, "RbR")
    ensures r == Ok(true) <==> !Contains(name, "ECR") && !Contains(name, "Zscore") && !Contains(name, "RbV") && Contains(name, "RbR")
  {
    if Contains(name, "ECR") then Ok(false)
    else if Contains(name, "Zscore") then Ok(false)
    else if Contains(name, "RbV") then Ok(false)
    else if Contains(name, "RbR") then Ok(true)
    else Err(NoSortDirection(name))
  }

  // ---------------------------------------------------------------- sorting

  /** `sort_values(ascending=True)`: increasing, NaN last. */
  predicate AscendingNaNLast(a: Scored, b: Scored) {
    b.score.None? || (a.score.Some? && a.score.value <= b.score.value)
  }

  /** `sort_values(ascending=False)`: decreasing, NaN last. */
  predicate DescendingNaNLast(a: Scored, b: Scored) {
    b.score.None? || (a.score.Some? && a.score.value >= b.score.value)
  }

  lemma OrdersAreTotalPreorders()
    ensures Sorting.TotalPreorder(AscendingNaNLast) && Sorting.TotalPreorder(DescendingNaNLast)
  {
  }

  /** The rows of one method, sorted in the given direction. */
  function SortScored(rows: seq<Scored>, ascending: bool): (r: seq<Scored>)
    ensures multiset(r) == multiset(rows) && |r| == |rows|
    ensures ascending ==> Sorting.SortedBy(r, AscendingNaNLast)
    ensures !ascending ==> Sorting.SortedBy(r, DescendingNaNLast)
  {
    OrdersAreTotalPreorders();
    if ascending then
      Sorting.SortSorted(rows, AscendingNaNLast);
      Sorting.Sort(rows, AscendingNaNLast)
    else
      Sorting.SortSorted(rows, DescendingNaNLast);
      Sorting.Sort(rows, DescendingNaNLast)
  }

  // ---------------------------------------------------------------- EF formula

  function Activities(rows: seq<Scored>): (a: seq<real>)
    ensures |a| == |rows| && forall i :: 0 <= i < |rows| ==> a[i] == rows[i].activity
  {
    seq(|rows|, i requires 0 <= i < |rows| => rows[i].activity)
  }

  /** `round(p * N)`: the size of the top set. */
  function TopCount(fraction: real, n: nat): int
  {
    RoundHalfEven(fraction * n as real)
  }

  lemma FractionOf(fraction: real, x: real)
    requires 0.0 <= fraction <= 1.0 && 0.0 <= x
    ensures 0.0 <= fraction * x <= x
  {
    assert fraction * x + (1.0 - fraction) * x == x;
    assert 0.0 <= (1.0 - fraction) * x;
  }

  /** For a fraction in [0, 1] the top set is no larger than the table. */
  lemma TopCountBounds(fraction: real, n: nat)
    requires 0.0 <= fraction <= 1.0
    ensures 0 <= TopCount(fraction, n) <= n
  {
    var x, m := fraction * n as real, n as real;
    FractionOf(fraction, m);
    assert 0.0 <= x <= m;
    RoundHalfEvenMonotone(0.0, x);
    RoundHalfEvenMonotone(x, m);
    RoundInteger(0);
    RoundInteger(n);
  }

  /** `round((hits_top/N_top)*(N/hits_total), 2)` over the rows in ranked order; NaN
      (or an infinity) when the top set is empty or the total activity is zero. */
  function EnrichmentFactor(sorted: seq<Scored>, fraction: real): (ef: Option<real>)
    requires 0.0 <= fraction <= 1.0
    ensures ef.Some? <==> TopCount(fraction, |sorted|) > 0 && Sum(Activities(sorted)) != 0.0
  {
    var n := |sorted|;
    var top := TopCount(fraction, n);
    TopCountBounds(fraction, n);
    var acts := Activities(sorted);
    var hits := Sum(acts);
    if top == 0 || hits == 0.0 then None
    else Some(EnrichmentValue(Sum(acts[..top]), top, n, hits))
  }

  /** The enrichment of a top set of `top` rows holding `hitsTop` of the `hits` actives. */
  function EnrichmentValue(hitsTop: real, top: nat, n: nat, hits: real): real
    requires top > 0 && hits != 0.0
  {
    Round2((hitsTop / top as real) * (n as real / hits))
  }

  /** Taking every row as the top set gives an enrichment of exactly 1. */
  lemma WholeTableEnrichmentIsOne(sorted: seq<Scored>)
    requires |sorted| > 0 && Sum(Activities(sorted)) != 0.0
    ensures EnrichmentFactor(sorted, 1.0) == Some(1.0)
  {
    var n := |sorted|;
    var acts := Activities(sorted);
    assert 1.0 * n as real == n as real;
    RoundInteger(n);
    assert acts[..n] == acts;
    WholeTopValue(Sum(acts), n);
  }

  lemma WholeTopValue(hits: real, n: nat)
    requires n > 0 && hits != 0.0
    ensures EnrichmentValue(hits, n, n, hits) == 1.0
  {
    var x := (hits / n as real) * (n as real / hits);
    assert EnrichmentValue(hits, n, n, hits) == Round2(x);
    RatiosCancel(hits, n as real);
    assert x == 100 as real / 100.0;
    Round2Exact(100);
  }

  lemma RatiosCancel(a: real, b: real)
    requires a != 0.0 && b != 0.0
    ensures (a / b) * (b / a) == 1.0
  {
  }

  /** With non-negative activities the enrichment is non-negative. */
  lemma EnrichmentNonNegative(sorted: seq<Scored>, fraction: real)
    requires 0.0 <= fraction <= 1.0
    requires forall i :: 0 <= i < |sorted| ==> sorted[i].activity >= 0.0
    requires EnrichmentFactor(sorted, fraction).Some?
    ensures EnrichmentFactor(sorted, fraction).value >= 0.0
  {
    var n := |sorted|;
    var top := TopCount(fraction, n);
    TopCountBounds(fraction, n);
    var acts := Activities(sorted);
    NonNegativeSum(acts[..top]);
    NonNegativeSum(acts);
    ValueNonNegative(Sum(acts[..top]), top, n, Sum(acts));
  }

  lemma ValueNonNegative(hitsTop: real, top: nat, n: nat, hits: real)
    requires top > 0 && hits > 0.0 && hitsTop >= 0.0
    ensures EnrichmentValue(hitsTop, top, n, hits) >= 0.0
  {
    var x := (hitsTop / top as real) * (n as real / hits);
    assert EnrichmentValue(hitsTop, top, n, hits) == Round2(x);
    RoundNonNegative(x);
  }

  /** A sum of non-negative terms is non-negative. */
  lemma {:induction false} NonNegativeSum(s: seq<real>)
    requires forall i :: 0 <= i < |s| ==> s[i] >= 0.0
    ensures Sum(s) >= 0.0
  {
    if s != [] {
      NonNegativeSum(s[..|s| - 1]);
    }
  }

  lemma RoundNonNegative(x: real)
    requires x >= 0.0
    ensures Round2(x) >= 0.0
  {
    RoundHalfEvenMonotone(0.0, x * 100.0);
    RoundInteger(0);
  }

  /** A top set without actives has an enrichment of zero. */
  lemma NoActiveOnTopGivesZero(sorted: seq<Scored>, fraction: real)
    requires 0.0 <= fraction <= 1.0
    requires EnrichmentFactor(sorted, fraction).Some?
    requires forall i :: 0 <= i < TopCount(fraction, |sorted|) && i < |sorted| ==> sorted[i].activity == 0.0
    ensures EnrichmentFactor(sorted, fraction) == Some(0.0)
  {
    var n := |sorted|;
    var top := TopCount(fraction, n);
    TopCountBounds(fraction, n);
    var acts := Activities(sorted);
    ZeroSum(acts[..top]);
    RoundInteger(0);
  }

  lemma {:induction false} ZeroSum(s: seq<real>)
    requires forall i :: 0 <= i < |s| ==> s[i] == 0.0
    ensures Sum(s) == 0.0
  {
    if s != [] {
      ZeroSum(s[..|s| - 1]);
    }
  }

  // ---------------------------------------------------------------- per method

  /** The rows of method column `m` of the joined table. */
  function Column(merged: seq<MergedRow>, m: nat): (r: seq<Scored>)
    requires forall k :: 0 <= k < |merged| ==> m < |merged[k].scores|
    ensures |r| == |merged|
  {
    seq(|merged|, k requires 0 <= k < |merged| => Scored(merged[k].scores[m], merged[k].activity))
  }

  /** The EF10% and EF1% of one method column, or the error its name raises. */
  function MethodEf(merged: seq<MergedRow>, name: string, m: nat): (r: Result<EfRow, EfError>)
    requires forall k :: 0 <= k < |merged| ==> m < |merged[k].scores|
    ensures r.Err? <==> SortAscending(name).Err?
    ensures r.Ok? ==> r.value.name == name
  {
    match SortAscending(name)
    case Err(e) => Err(e)
    case Ok(asc) =>
      var sorted := SortScored(Column(merged, m), asc);
      Ok(EfRow(name, EnrichmentFactor(sorted, 0.10), EnrichmentFactor(sorted, 0.01)))
  }

  /** The EF table `calculate_EFs` writes: one row per method column, in column order,
      or the error of the first method without a sort direction. */
  function EfTable(merged: seq<MergedRow>, methods: seq<string>): (r: Result<seq<EfRow>, EfError>)
    requires forall k :: 0 <= k < |merged| ==> |merged[k].scores| == |methods|
    ensures r.Ok? ==> |r.value| == |methods| && forall m :: 0 <= m < |methods| ==> r.value[m].name == methods[m]
    ensures r.Ok? <==> forall m :: 0 <= m < |methods| ==> SortAscending(methods[m]).Ok?
    ensures r.Ok? ==> forall m :: 0 <= m < |methods| ==> MethodEf(merged, methods[m], m) == Ok(r.value[m])
    ensures r.Err? ==> exists m :: 0 <= m < |methods| && MethodEf(merged, methods[m], m) == Err(r.error)
  {
    var results := MethodEfs(merged, methods);
    assert forall m :: 0 <= m < |methods| ==> results[m] == MethodEf(merged, methods[m], m);
    Collect(results)
  }

  /** The outcome of every method column, in column order. */
  function MethodEfs(merged: seq<MergedRow>, methods: seq<string>): (rs: seq<Result<EfRow, EfError>>)
    requires forall k :: 0 <= k < |merged| ==> |merged[k].scores| == |methods|
    ensures |rs| == |methods|
  {
    seq(|methods|, m requires 0 <= m < |methods| => MethodEf(merged, methods[m], m))
  }

  /** The rows of the outcomes when every one is a row, else the first error. */
  function Collect(rs: seq<Result<EfRow, EfError>>): (r: Result<seq<EfRow>, EfError>)
    ensures r.Ok? <==> forall k :: 0 <= k < |rs| ==> rs[k].Ok?
    ensures r.Ok? ==> |r.value| == |rs| && forall k :: 0 <= k < |rs| ==> r.value[k] == rs[k].value
    ensures r.Err? ==> exists k :: 0 <= k < |rs| && rs[k] == Err(r.error) && forall i :: 0 <= i < k ==> rs[i].Ok?
  {
    if rs == [] then Ok([])
    else
      var n := |rs| - 1;
      var prefix := rs[..n];
      assert forall k :: 0 <= k < n ==> prefix[k] == rs[k];
      match Collect(prefix)
      case Err(e) => Err(e)
      case Ok(rows) =>
        match rs[n]
        case Err(e) => Err(e)
        case Ok(row) => Ok(rows + [row])
  }

  /** `calculate_EFs`: joins the consensus table with the library, then fills the EF
      table one method column at a time. */
  method CalculateEfs(results: seq<ScoredRow>, methods: seq<string>, lib: seq<LibraryEntry>) returns (r: Result<seq<EfRow>, EfError>)
    requires forall k :: 0 <= k < |results| ==> |results[k].scores| == |methods|
    ensures r == EfTable(InnerMerge(results, lib), methods)
  {
    var merged := InnerMerge(results, lib);
    MergeKeepsWidth(results, lib, |methods|);
    var outcomes := MethodEfs(merged, methods);
    r := CollectRows(outcomes);
  }

  /** The loop of `calculate_EFs` over the method columns: each column's row is
      appended in turn, and the first method without a sort direction raises. */
  method CollectRows(rs: seq<Result<EfRow, EfError>>) returns (r: Result<seq<EfRow>, EfError>)
    ensures r == Collect(rs)
  {
    var table: seq<EfRow> := [];
    var m := 0;
    while m < |rs|
      invariant 0 <= m <= |rs|
      invariant Collect(rs[..m]) == Ok(table)
    {
      CollectNext(rs, m, table);
      if rs[m].Err? {
        return Err(rs[m].error);
      }
      table := table + [rs[m].value];
      m := m + 1;
    }
    assert rs[..m] == rs;
    return Ok(table);
  }

  /** The loop step: the next outcome ends the whole collection with its error, or
      extends the rows so far by its row. */
  lemma CollectNext(rs: seq<Result<EfRow, EfError>>, m: nat, table: seq<EfRow>)
    requires m < |rs| && Collect(rs[..m]) == Ok(table)
    ensures rs[m].Err? ==> Collect(rs) == Err(rs[m].error)
    ensures rs[m].Ok? ==> Collect(rs[..m + 1]) == Ok(table + [rs[m].value])
  {
    assert rs[..m + 1][..m] == rs[..m];
    if rs[m].Err? {
      assert Collect(rs[..m + 1]) == Err(rs[m].error);
      CollectErrorKept(rs, m + 1, |rs|);
      assert rs[..|rs|] == rs;
    }
  }

  /** Once an outcome is an error, longer prefixes keep that error. */
  lemma {:induction false} CollectErrorKept(rs: seq<Result<EfRow, EfError>>, m: nat, n: nat)
    requires m <= n <= |rs| && Collect(rs[..m]).Err?
    ensures Collect(rs[..n]) == Collect(rs[..m])
    decreases n - m
  {
    if m < n {
      assert rs[..m + 1][..m] == rs[..m];
      CollectErrorKept(rs, m + 1, n);
    }
  }

  /** `calculate_EF_column`: the EF10% and EF1% of one column, always ranked in
      descending order. */
  function EfColumn(rows: seq<Scored>): (r: (Option<real>, Option<real>))
  {
    var sorted := SortScored(rows, false);
    (EnrichmentFactor(sorted, 0.10), EnrichmentFactor(sorted, 0.01))
  }

  /** For every method ranked in descending order, the EF table agrees with
      `calculate_EF_column` on that method's column. */
  lemma EfColumnAgrees(merged: seq<MergedRow>, name: string, m: nat)
    requires forall k :: 0 <= k < |merged| ==> m < |merged[k].scores|
    requires SortAscending(name) == Ok(false)
    ensures MethodEf(merged, name, m) == Ok(EfRow(name, EfColumn(Column(merged, m)).0, EfColumn(Column(merged, m)).1))
  {
  }

  /** A row with its score negated, NaN staying NaN. */
  function Negated(x: Scored): (y: Scored)
    ensures y.activity == x.activity && y.score.Some? == x.score.Some?
    ensures y.score.Some? ==> y.score.value == -x.score.value
  {
    Scored(if x.score.Some? then Some(-x.score.value) else None, x.activity)
  }

  function NegateAll(rows: seq<Scored>): (r: seq<Scored>)
    ensures |r| == |rows| && forall i :: 0 <= i < |rows| ==> r[i] == Negated(rows[i])
  {
    seq(|rows|, i requires 0 <= i < |rows| => Negated(rows[i]))
  }

  /** Ascending order on scores is descending order on negated scores. */
  lemma OrderFlips(a: Scored, b: Scored)
    ensures AscendingNaNLast(a, b) == DescendingNaNLast(Negated(a), Negated(b))
  {
  }

  lemma NegateAllCons(x: Scored, s: seq<Scored>)
    ensures NegateAll([x] + s) == [Negated(x)] + NegateAll(s)
  {
    assert forall i :: 0 <= i < |s| + 1 ==> NegateAll([x] + s)[i] == ([Negated(x)] + NegateAll(s))[i];
  }

  lemma {:induction false} InsertNegated(x: Scored, s: seq<Scored>)
    ensures Sorting.Insert(Negated(x), NegateAll(s), DescendingNaNLast) == NegateAll(Sorting.Insert(x, s, AscendingNaNLast))
  {
    if s == [] {
      NegateAllCons(x, []);
    } else {
      OrderFlips(x, s[0]);
      assert s == [s[0]] + s[1..];
      NegateAllCons(s[0], s[1..]);
      if AscendingNaNLast(x, s[0]) {
        NegateAllCons(x, s);
      } else {
        InsertNegated(x, s[1..]);
        NegateAllCons(s[0], Sorting.Insert(x, s[1..], AscendingNaNLast));
      }
    }
  }

  /** The stable sort of the negated rows in descending order is the negation of the
      stable sort in ascending order: ties keep the same order in both. */
  lemma {:induction false} SortNegated(s: seq<Scored>)
    ensures Sorting.Sort(NegateAll(s), DescendingNaNLast) == NegateAll(Sorting.Sort(s, AscendingNaNLast))
  {
    if s != [] {
      SortNegated(s[1..]);
      assert NegateAll(s)[1..] == NegateAll(s[1..]);
      InsertNegated(s[0], Sorting.Sort(s[1..], AscendingNaNLast));
    }
  }

  /** The enrichment depends only on the activities in ranked order. */
  lemma SameActivitiesSameEnrichment(a: seq<Scored>, b: seq<Scored>, fraction: real)
    requires 0.0 <= fraction <= 1.0 && |a| == |b|
    requires forall i :: 0 <= i < |a| ==> a[i].activity == b[i].activity
    ensures EnrichmentFactor(a, fraction) == EnrichmentFactor(b, fraction)
  {
    assert Activities(a) == Activities(b);
  }

  /** For a method ranked in ascending order (`RbR`), the EF table agrees with
      `calculate_EF_column` on that method's column with every score negated. */
  lemma AscendingEfAgreesNegated(merged: seq<MergedRow>, name: string, m: nat)
    requires forall k :: 0 <= k < |merged| ==> m < |merged[k].scores|
    requires SortAscending(name) == Ok(true)
    ensures var flipped := NegateAll(Column(merged, m));
      MethodEf(merged, name, m) == Ok(EfRow(name, EfColumn(flipped).0, EfColumn(flipped).1))
  {
    var col := Column(merged, m);
    var up := SortScored(col, true);
    var down := SortScored(NegateAll(col), false);
    SortNegated(col);
    assert down == NegateAll(up);
    SameActivitiesSameEnrichment(up, down, 0.10);
    SameActivitiesSameEnrichment(up, down, 0.01);
  }

  /** `calculate_EF1` of `process_combination`: the EF1% of a one-method consensus
      table, in the direction its method name selects. */
  function Ef1(rows: seq<(string, Option<real>)>, name: string, lib: seq<LibraryEntry>): (r: Result<Option<real>, EfError>)
    ensures r.Err? <==> SortAscending(name).Err?
  {
    var left := seq(|rows|, k requires 0 <= k < |rows| => ScoredRow(rows[k].0, [rows[k].1]));
    var merged := InnerMerge(left, lib);
    MergeKeepsWidth(left, lib, 1);
    match SortAscending(name)
    case Err(e) => Err(e)
    case Ok(asc) => Ok(EnrichmentFactor(SortScored(Column(merged, 0), asc), 0.01))
  }
}
