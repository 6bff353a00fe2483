/** The seven consensus reductions of scripts/ranking_functions.py (`method1_ECR_best`
    … `method7_Zscore_avg`): each turns a per-pose table of ranks or standardised
    scores into one value per molecule ID. The exponential of ECR and the standard
    deviation of the Z-score are parameters. */
module Consensus {
  import opened Wrappers
  import opened Tables
  import Sorting
  import Ranks

  /** The selected numeric columns of a per-pose table, with the `ID` of each pose. */
  datatype Table = Table(ids: seq<string>, columns: seq<seq<Option<real>>>)

  predicate WellFormed(t: Table) {
    forall j :: 0 <= j < |t.columns| ==> |t.columns[j]| == |t.ids|
  }

  /** One output row: a molecule ID and its consensus value (`None` is NaN). */
  datatype ConsensusRow = ConsensusRow(id: string, value: Option<real>)

  function RowIds(rows: seq<ConsensusRow>): (r: seq<string>)
    ensures |r| == |rows| && forall k :: 0 <= k < |rows| ==> r[k] == rows[k].id
  {
    seq(|rows|, k requires 0 <= k < |rows| => rows[k].id)
  }

  predicate NoDuplicates(s: seq<string>) {
    forall i, j :: 0 <= i < j < |s| ==> s[i] != s[j]
  }

  /** Exactly one row for each distinct ID of `ids`. */
  ghost predicate OneRowPerId(rows: seq<ConsensusRow>, ids: seq<string>) {
    NoDuplicates(RowIds(rows)) && forall x :: x in RowIds(rows) <==> x in ids
  }

  // ---------------------------------------------------------------- grouping

  /** The values of the rows whose ID is `id`, in row order (one group of `groupby('ID')`). */
  function Group<T>(ids: seq<string>, vals: seq<T>, id: string): (g: seq<T>)
    requires |ids| == |vals|
    ensures |g| <= |vals|
    ensures |g| > 0 <==> id in ids
    decreases |ids|
  {
    if ids == [] then []
    else
      var n := |ids| - 1;
      assert ids == ids[..n] + [ids[n]];
      Group(ids[..n], vals[..n], id) + (if ids[n] == id then [vals[n]] else [])
  }

  /** A group holds exactly the values of the rows with that ID. */
  lemma GroupMembers<T>(ids: seq<string>, vals: seq<T>, id: string)
    requires |ids| == |vals|
    ensures forall i :: 0 <= i < |ids| && ids[i] == id ==> vals[i] in Group(ids, vals, id)
    ensures forall v :: v in Group(ids, vals, id) ==> exists i :: 0 <= i < |ids| && ids[i] == id && vals[i] == v
  {
    GroupContains(ids, vals, id);
    GroupOnly(ids, vals, id);
  }

  /** A group holds the value of every row with that ID. */
  lemma {:induction false} GroupContains<T>(ids: seq<string>, vals: seq<T>, id: string)
    requires |ids| == |vals|
    ensures forall i :: 0 <= i < |ids| && ids[i] == id ==> vals[i] in Group(ids, vals, id)
    decreases |ids|
  {
    if ids != [] {
      var n := |ids| - 1;
      GroupContains(ids[..n], vals[..n], id);
      forall i | 0 <= i < |ids| && ids[i] == id ensures vals[i] in Group(ids, vals, id) {
        if i < n {
          assert ids[..n][i] == ids[i] && vals[..n][i] == vals[i];
        }
      }
    }
  }

  /** A group holds only values of rows with that ID. */
  lemma {:induction false} GroupOnly<T>(ids: seq<string>, vals: seq<T>, id: string)
    requires |ids| == |vals|
    ensures forall v :: v in Group(ids, vals, id) ==> exists i :: 0 <= i < |ids| && ids[i] == id && vals[i] == v
    decreases |ids|
  {
    if ids != [] {
      var n := |ids| - 1;
      GroupOnly(ids[..n], vals[..n], id);
      forall v | v in Group(ids, vals, id) ensures exists i :: 0 <= i < |ids| && ids[i] == id && vals[i] == v {
        if v in Group(ids[..n], vals[..n], id) {
          var i :| 0 <= i < n && ids[..n][i] == id && vals[..n][i] == v;
          assert ids[i] == id && vals[i] == v;
        } else {
          assert ids[n] == id && vals[n] == v;
        }
      }
    }
  }

  /** A group of a single pose is that pose's value. */
  lemma {:induction false} GroupSingle<T>(ids: seq<string>, vals: seq<T>, i: nat)
    requires |ids| == |vals| && i < |ids|
    requires forall k :: 0 <= k < |ids| && k != i ==> ids[k] != ids[i]
    ensures Group(ids, vals, ids[i]) == [vals[i]]
    decreases |ids|
  {
    var n := |ids| - 1;
    if i < n {
      forall k | 0 <= k < n && k != i ensures ids[..n][k] != ids[..n][i] {
        assert ids[..n][k] == ids[k];
      }
      GroupSingle(ids[..n], vals[..n], i);
      assert ids[..n][i] == ids[i];
    } else {
      GroupAbsent(ids[..n], vals[..n], ids[i]);
    }
  }

  lemma {:induction false} GroupAbsent<T>(ids: seq<string>, vals: seq<T>, id: string)
    requires |ids| == |vals| && id !in ids
    ensures Group(ids, vals, id) == []
  {
  }

  /** The largest present value, NaN when there is none (`sort_values` descending,
      NaN last, then the first row of each ID). */
  function MaxSkipNa(g: seq<Option<real>>): (r: Option<real>)
    ensures r.None? <==> Present(g) == []
    ensures r.Some? ==> r.value in Present(g) && forall k :: 0 <= k < |g| && g[k].Some? ==> g[k].value <= r.value
  {
    var p := Present(g);
    PresentCells(g);
    if p == [] then None else Some(Max(p))
  }

  /** The mean of a group never exceeds its maximum. */
  lemma MeanAtMostMaxSkipNa(g: seq<Option<real>>)
    requires Present(g) != []
    ensures MeanSkipNa(g).value <= MaxSkipNa(g).value
  {
    MeanAtMostMax(Present(g));
  }

  /** One row per distinct ID, in order of first appearance, holding `f` of its ID. */
  function PerId(ids: seq<string>, f: string -> Option<real>): (r: seq<ConsensusRow>)
    ensures OneRowPerId(r, ids)
    ensures forall row :: row in r ==> row.value == f(row.id)
  {
    var d := Distinct(ids);
    var r := seq(|d|, k requires 0 <= k < |d| => ConsensusRow(d[k], f(d[k])));
    assert RowIds(r) == d;
    r
  }

  // ---------------------------------------------------------------- ordering

  /** `groupby('ID')` lists its groups in ID order. */
  predicate IdLe(a: ConsensusRow, b: ConsensusRow) { Sorting.LexLe(a.id, b.id) }

  /** Descending by value, NaN last (`sort_values(ascending=False)`). */
  predicate ValueGe(a: ConsensusRow, b: ConsensusRow) {
    b.value.None? || (a.value.Some? && a.value.value >= b.value.value)
  }

  lemma IdLeIsTotalPreorder()
    ensures Sorting.TotalPreorder(IdLe)
  {
    forall a: ConsensusRow, b: ConsensusRow ensures IdLe(a, b) || IdLe(b, a) {
      Sorting.LexLeTotal(a.id, b.id);
    }
    forall a: ConsensusRow, b: ConsensusRow, c: ConsensusRow | IdLe(a, b) && IdLe(b, c) ensures IdLe(a, c) {
      Sorting.LexLeTransitive(a.id, b.id, c.id);
    }
  }

  lemma ValueGeIsTotalPreorder()
    ensures Sorting.TotalPreorder(ValueGe)
  {
  }

  lemma CountTwo<T>(s: seq<T>, i: nat, j: nat)
    requires i < j < |s| && s[i] == s[j]
    ensures multiset(s)[s[i]] >= 2
  {
    assert s == s[..j] + [s[j]] + s[j + 1..];
    assert s[..j][i] == s[i];
    assert multiset(s[..j])[s[i]] >= 1;
  }

  lemma {:induction false} TwoPositions<T>(s: seq<T>, x: T) returns (i: nat, j: nat)
    requires multiset(s)[x] >= 2
    ensures i < j < |s| && s[i] == x && s[j] == x
  {
    var n := |s| - 1;
    assert s == s[..n] + [s[n]];
    if s[n] == x {
      assert x in multiset(s[..n]);
      var k :| 0 <= k < n && s[..n][k] == x;
      i, j := k, n;
    } else {
      i, j := TwoPositions(s[..n], x);
      assert s[..n][i] == s[i] && s[..n][j] == s[j];
    }
  }

  /** Reordering the rows keeps exactly one row per ID. */
  lemma PermutationKeepsOneRowPerId(a: seq<ConsensusRow>, b: seq<ConsensusRow>, ids: seq<string>)
    requires multiset(a) == multiset(b) && OneRowPerId(a, ids)
    ensures OneRowPerId(b, ids)
  {
    forall x ensures x in RowIds(b) <==> x in ids {
      if x in RowIds(b) {
        var k :| 0 <= k < |b| && RowIds(b)[k] == x;
        assert b[k] in multiset(a);
        var k' :| 0 <= k' < |a| && a[k'] == b[k];
        assert RowIds(a)[k'] == x;
      }
      if x in ids {
        var k :| 0 <= k < |a| && RowIds(a)[k] == x;
        assert a[k] in multiset(b);
        var k' :| 0 <= k' < |b| && b[k'] == a[k];
        assert RowIds(b)[k'] == x;
      }
    }
    forall i, j | 0 <= i < j < |b| ensures RowIds(b)[i] != RowIds(b)[j] {
      var i', j' := DistinctPositions(a, b, i, j);
      assert RowIds(a)[i'] != RowIds(a)[j'] by {
        if i' > j' {
          assert RowIds(a)[j'] != RowIds(a)[i'];
        }
      }
    }
  }

  /** Two positions of a permutation come from two positions of the original. */
  lemma DistinctPositions<T>(a: seq<T>, b: seq<T>, i: nat, j: nat) returns (i': nat, j': nat)
    requires multiset(a) == multiset(b) && i < j < |b|
    ensures i' < |a| && j' < |a| && i' != j' && a[i'] == b[i] && a[j'] == b[j]
  {
    if b[i] == b[j] {
      CountTwo(b, i, j);
      i', j' := TwoPositions(a, b[i]);
    } else {
      assert b[i] in multiset(a) && b[j] in multiset(a);
      i' :| 0 <= i' < |a| && a[i'] == b[i];
      j' :| 0 <= j' < |a| && a[j'] == b[j];
    }
  }

  /** Rows sorted by ID, with their per-row property kept. */
  function SortById(rows: seq<ConsensusRow>, ghost ids: seq<string>): (r: seq<ConsensusRow>)
    requires OneRowPerId(rows, ids)
    ensures OneRowPerId(r, ids)
    ensures Sorting.SortedBy(r, IdLe)
    ensures multiset(r) == multiset(rows)
    ensures forall row :: row in r ==> row in rows
  {
    IdLeIsTotalPreorder();
    Sorting.SortSorted(rows, IdLe);
    var r := Sorting.Sort(rows, IdLe);
    PermutationKeepsOneRowPerId(rows, r, ids);
    forall row | row in r ensures row in rows {
      assert row in multiset(r);
    }
    r
  }

  /** Rows sorted by value, descending, NaN last. */
  function SortByValue(rows: seq<ConsensusRow>, ghost ids: seq<string>): (r: seq<ConsensusRow>)
    requires OneRowPerId(rows, ids)
    ensures OneRowPerId(r, ids)
    ensures Sorting.SortedBy(r, ValueGe)
    ensures multiset(r) == multiset(rows)
    ensures forall row :: row in r ==> row in rows
  {
    ValueGeIsTotalPreorder();
    Sorting.SortSorted(rows, ValueGe);
    var r := Sorting.Sort(rows, ValueGe);
    PermutationKeepsOneRowPerId(rows, r, ids);
    forall row | row in r ensures row in rows {
      assert row in multiset(r);
    }
    r
  }

  // ---------------------------------------------------------------- ECR (methods 1-3)

  /** The exponential consensus score of one rank: `exp(-(r/σ))/σ·1000`. */
  function Ecr(exp: real -> real, sigma: real, rank: Option<real>): Option<real>
    requires sigma > 0.0
  {
    match rank
    case None => None
    case Some(r) => Some(exp(-(r / sigma)) / sigma * 1000.0)
  }

  /** The summed ECR of every pose, σ being 0.05 times the number of poses
      (`df.sum(axis=1)` skips NaN, so every pose has a sum): a pose without any
      rank sums to 0, and a pose ranked in one column only has that column's ECR. */
  function EcrSums(t: Table, exp: real -> real): (sums: seq<real>)
    requires WellFormed(t)
    ensures |sums| == |t.ids|
    ensures forall i :: 0 <= i < |sums| && Unranked(t, i) ==> sums[i] == 0.0
    ensures forall i, j :: 0 <= i < |sums| && 0 <= j < |t.columns| && RankedOnlyIn(t, i, j) ==>
      sums[i] == exp(-(t.columns[j][i].value / (0.05 * |t.ids| as real))) / (0.05 * |t.ids| as real) * 1000.0
  {
    PoseEcrFacts(t, exp);
    seq(|t.ids|, i requires 0 <= i < |t.ids| => SumSkipNa(PoseEcrs(t, exp, i)))
  }

  /** Pose `i` has no rank in any column. */
  predicate Unranked(t: Table, i: int)
    requires WellFormed(t) && 0 <= i < |t.ids|
  {
    forall j :: 0 <= j < |t.columns| ==> t.columns[j][i].None?
  }

  /** Pose `i` has a rank in column `j` and in no other column. */
  predicate RankedOnlyIn(t: Table, i: int, j: int)
    requires WellFormed(t) && 0 <= i < |t.ids| && 0 <= j < |t.columns|
  {
    t.columns[j][i].Some? && forall k :: 0 <= k < |t.columns| && k != j ==> t.columns[k][i].None?
  }

  /** The ECR of each rank of one pose. */
  function PoseEcrs(t: Table, exp: real -> real, i: int): (r: seq<Option<real>>)
    requires WellFormed(t) && 0 <= i < |t.ids|
    ensures |r| == |t.columns|
  {
    var sigma := 0.05 * |t.ids| as real;
    seq(|t.columns|, j requires 0 <= j < |t.columns| => Ecr(exp, sigma, t.columns[j][i]))
  }

  lemma PoseEcrFacts(t: Table, exp: real -> real)
    requires WellFormed(t)
    ensures forall i :: 0 <= i < |t.ids| && Unranked(t, i) ==> SumSkipNa(PoseEcrs(t, exp, i)) == 0.0
    ensures forall i, j :: 0 <= i < |t.ids| && 0 <= j < |t.columns| && RankedOnlyIn(t, i, j) ==>
      SumSkipNa(PoseEcrs(t, exp, i)) == exp(-(t.columns[j][i].value / (0.05 * |t.ids| as real))) / (0.05 * |t.ids| as real) * 1000.0
  {
    forall i | 0 <= i < |t.ids| && Unranked(t, i)
      ensures SumSkipNa(PoseEcrs(t, exp, i)) == 0.0
    {
      PresentNone(PoseEcrs(t, exp, i));
    }
    forall i, j | 0 <= i < |t.ids| && 0 <= j < |t.columns| && RankedOnlyIn(t, i, j)
      ensures SumSkipNa(PoseEcrs(t, exp, i)) == exp(-(t.columns[j][i].value / (0.05 * |t.ids| as real))) / (0.05 * |t.ids| as real) * 1000.0
    {
      var e := PoseEcrs(t, exp, i);
      PresentSingle(e, j);
      assert Present(e) == [e[j].value];
      assert Sum([e[j].value]) == Sum([]) + e[j].value;
    }
  }

  function AllPresent(s: seq<real>): (r: seq<Option<real>>)
    ensures |r| == |s| && forall i :: 0 <= i < |s| ==> r[i] == Some(s[i])
  {
    seq(|s|, i requires 0 <= i < |s| => Some(s[i]))
  }

  /** `method1_ECR_best`: for each ID, the largest summed ECR among its poses; rows
      listed by descending value. */
  function Method1(t: Table, exp: real -> real): (r: seq<ConsensusRow>)
    requires WellFormed(t)
    ensures OneRowPerId(r, t.ids)
    ensures Sorting.SortedBy(r, ValueGe)
    ensures forall row :: row in r ==> row.value == MaxSkipNa(Group(t.ids, AllPresent(EcrSums(t, exp)), row.id))
  {
    var sums := AllPresent(EcrSums(t, exp));
    SortByValue(PerId(t.ids, id => MaxSkipNa(Group(t.ids, sums, id))), t.ids)
  }

  /** Method 1 keeps the pose of each ID with the largest summed ECR: its value is
      one of that ID's sums and no sum of that ID is larger. */
  lemma Method1KeepsBestPose(t: Table, exp: real -> real, row: ConsensusRow)
    requires WellFormed(t) && row in Method1(t, exp)
    ensures row.value.Some?
    ensures exists i :: 0 <= i < |t.ids| && t.ids[i] == row.id && EcrSums(t, exp)[i] == row.value.value
    ensures forall i :: 0 <= i < |t.ids| && t.ids[i] == row.id ==> EcrSums(t, exp)[i] <= row.value.value
  {
    var sums := AllPresent(EcrSums(t, exp));
    var g := Group(t.ids, sums, row.id);
    assert row.id in RowIds(Method1(t, exp));
    GroupMembers(t.ids, sums, row.id);
    PresentMembers(g);
    assert g[0] in g;
    var i0 :| 0 <= i0 < |t.ids| && t.ids[i0] == row.id && sums[i0] == g[0];
    assert g[0].value in Present(g);
    assert Some(row.value.value) in g;
    var i :| 0 <= i < |t.ids| && t.ids[i] == row.id && sums[i] == Some(row.value.value);
    forall k | 0 <= k < |t.ids| && t.ids[k] == row.id ensures EcrSums(t, exp)[k] <= row.value.value {
      assert sums[k] in g;
      var m :| 0 <= m < |g| && g[m] == sums[k];
    }
  }

  /** `method2_ECR_average`: for each ID, the mean summed ECR over its poses; rows in ID order. */
  function Method2(t: Table, exp: real -> real): (r: seq<ConsensusRow>)
    requires WellFormed(t)
    ensures OneRowPerId(r, t.ids)
    ensures Sorting.SortedBy(r, IdLe)
    ensures forall row :: row in r ==> row.value == MeanSkipNa(Group(t.ids, AllPresent(EcrSums(t, exp)), row.id))
  {
    var sums := AllPresent(EcrSums(t, exp));
    SortById(PerId(t.ids, id => MeanSkipNa(Group(t.ids, sums, id))), t.ids)
  }

  /** The best pose of an ID scores at least the average of its poses, and the two
      agree for an ID docked as a single pose. */
  lemma Method1AtLeastMethod2(t: Table, exp: real -> real, id: string)
    requires WellFormed(t) && id in t.ids
    ensures var g := Group(t.ids, AllPresent(EcrSums(t, exp)), id);
            MaxSkipNa(g).Some? && MeanSkipNa(g).Some? && MeanSkipNa(g).value <= MaxSkipNa(g).value
    ensures (forall i, j :: 0 <= i < j < |t.ids| ==> t.ids[i] != t.ids[j]) ==>
            MeanSkipNa(Group(t.ids, AllPresent(EcrSums(t, exp)), id)) == MaxSkipNa(Group(t.ids, AllPresent(EcrSums(t, exp)), id))
  {
    var sums := EcrSums(t, exp);
    BestAtLeastAverage(t.ids, sums, id);
    if forall i, j :: 0 <= i < j < |t.ids| ==> t.ids[i] != t.ids[j] {
      SinglePoseAgrees(t.ids, sums, id);
    }
  }

  lemma BestAtLeastAverage(ids: seq<string>, sums: seq<real>, id: string)
    requires |ids| == |sums| && id in ids
    ensures var g := Group(ids, AllPresent(sums), id);
            MaxSkipNa(g).Some? && MeanSkipNa(g).Some? && MeanSkipNa(g).value <= MaxSkipNa(g).value
  {
    var cells := AllPresent(sums);
    var g := Group(ids, cells, id);
    GroupMembers(ids, cells, id);
    assert g[0] in g;
    var i :| 0 <= i < |ids| && ids[i] == id && cells[i] == g[0];
    PresentCells(g);
    assert g[0].value in Present(g);
    MeanAtMostMaxSkipNa(g);
  }

  lemma SinglePoseAgrees(ids: seq<string>, sums: seq<real>, id: string)
    requires |ids| == |sums| && id in ids
    requires forall i, j :: 0 <= i < j < |ids| ==> ids[i] != ids[j]
    ensures MeanSkipNa(Group(ids, AllPresent(sums), id)) == MaxSkipNa(Group(ids, AllPresent(sums), id))
  {
    var cells := AllPresent(sums);
    var i :| 0 <= i < |ids| && ids[i] == id;
    forall k | 0 <= k < |ids| && k != i ensures ids[k] != ids[i] {
      if k < i { assert ids[k] != ids[i]; } else { assert ids[i] != ids[k]; }
    }
    GroupSingle(ids, cells, i);
    var g := Group(ids, cells, id);
    assert g == [Some(sums[i])];
    assert Present(g) == [sums[i]] by {
      assert g[..0] == [];
    }
    var p := Present(g);
    assert p[..0] == [];
    assert Sum(p) == sums[i];
    assert MeanSkipNa(g) == Some(sums[i] / 1.0);
  }

  /** `groupby('ID').mean().round(2)` of column `j` for one ID. */
  function IdMean(t: Table, j: nat, id: string): Option<real>
    requires WellFormed(t) && j < |t.columns|
  {
    match MeanSkipNa(Group(t.ids, t.columns[j], id))
    case None => None
    case Some(m) => Some(Round2(m))
  }

  /** The rounded per-ID means of column `j`, one per distinct ID. */
  function IdMeans(t: Table, j: nat): (r: seq<Option<real>>)
    requires WellFormed(t) && j < |t.columns|
    ensures |r| == |Distinct(t.ids)|
  {
    var d := Distinct(t.ids);
    seq(|d|, k requires 0 <= k < |d| => IdMean(t, j, d[k]))
  }

  /** Method 3's ascending average rank of an ID's mean in column `j`, among the
      means of all IDs. */
  function IdRank(t: Table, j: nat, id: string): Option<real>
    requires WellFormed(t) && j < |t.columns|
  {
    match IdMean(t, j, id)
    case None => None
    case Some(m) => Some(Ranks.AverageRank(Present(IdMeans(t, j)), m, false))
  }

  /** Every rank method 3 assigns lies between 1 and the number of IDs. */
  lemma IdRankBounds(t: Table, j: nat, id: string)
    requires WellFormed(t) && j < |t.columns| && id in t.ids && IdRank(t, j, id).Some?
    ensures 1.0 <= IdRank(t, j, id).value <= |Distinct(t.ids)| as real
  {
    var d := Distinct(t.ids);
    var ms := IdMeans(t, j);
    var k :| 0 <= k < |d| && d[k] == id;
    PresentCells(ms);
    assert ms[k] == IdMean(t, j, id);
    Ranks.RankBounds(Present(ms), IdMean(t, j, id).value, false);
  }

  /** Method 3's value for one ID: its summed ECR over the re-ranked means, σ being
      0.05 times the number of IDs. */
  function Method3Value(t: Table, exp: real -> real, id: string): real
    requires WellFormed(t) && |t.ids| > 0
  {
    var sigma := 0.05 * |Distinct(t.ids)| as real;
    assert t.ids[0] in Distinct(t.ids);
    SumSkipNa(seq(|t.columns|, j requires 0 <= j < |t.columns| => Ecr(exp, sigma, IdRank(t, j, id))))
  }

  /** `method3_avg_ECR`: average per ID first, re-rank ascending, then ECR; rows in ID order. */
  function Method3(t: Table, exp: real -> real): (r: seq<ConsensusRow>)
    requires WellFormed(t)
    ensures OneRowPerId(r, t.ids)
    ensures Sorting.SortedBy(r, IdLe)
    ensures |t.ids| > 0 ==> forall row :: row in r ==> row.value == Some(Method3Value(t, exp, row.id))
  {
    if t.ids == [] then
      assert OneRowPerId([], t.ids);
      []
    else SortById(PerId(t.ids, id => Some(Method3Value(t, exp, id))), t.ids)
  }

  // ---------------------------------------------------------------- rank by rank (method 4)

  /** The rounded means of one ID over the selected columns. */
  function IdMeanRow(t: Table, id: string): (r: seq<Option<real>>)
    requires WellFormed(t)
    ensures |r| == |t.columns|
  {
    seq(|t.columns|, j requires 0 <= j < |t.columns| => IdMean(t, j, id))
  }

  /** `method4_RbR`: the mean over the columns of the rounded per-ID means; rows in ID order. */
  function Method4(t: Table): (r: seq<ConsensusRow>)
    requires WellFormed(t)
    ensures OneRowPerId(r, t.ids)
    ensures Sorting.SortedBy(r, IdLe)
    ensures forall row :: row in r ==> row.value == MeanSkipNa(IdMeanRow(t, row.id))
  {
    SortById(PerId(t.ids, id => MeanSkipNa(IdMeanRow(t, id))), t.ids)
  }

  /** Rounding to two decimals keeps a value inside integer bounds. */
  lemma Round2Within(x: real, lo: int, hi: int)
    requires lo as real <= x <= hi as real
    ensures lo as real <= Round2(x) <= hi as real
  {
    RoundHalfEvenMonotone(lo as real * 100.0, x * 100.0);
    RoundHalfEvenMonotone(x * 100.0, hi as real * 100.0);
    RoundInteger(lo * 100);
    RoundInteger(hi * 100);
    assert lo as real * 100.0 == (lo * 100) as real;
    assert hi as real * 100.0 == (hi * 100) as real;
  }

  lemma MeanSkipNaWithin(g: seq<Option<real>>, lo: real, hi: real)
    requires MeanSkipNa(g).Some?
    requires forall k :: 0 <= k < |g| && g[k].Some? ==> lo <= g[k].value <= hi
    ensures lo <= MeanSkipNa(g).value <= hi
  {
    PresentWithin(g, lo, hi);
    MeanBounds(Present(g), lo, hi);
  }

  /** When every rank lies in [1, n], so does every rank-by-rank value. */
  lemma Method4Bounds(t: Table, n: nat, row: ConsensusRow)
    requires WellFormed(t) && row in Method4(t) && row.value.Some?
    requires forall j, i :: 0 <= j < |t.columns| && 0 <= i < |t.ids| && t.columns[j][i].Some? ==>
               1.0 <= t.columns[j][i].value <= n as real
    ensures 1.0 <= row.value.value <= n as real
  {
    var means := IdMeanRow(t, row.id);
    assert row.value == MeanSkipNa(means);
    forall j | 0 <= j < |means| && means[j].Some? ensures 1.0 <= means[j].value <= n as real {
      IdMeanWithin(t, n, row.id, j);
    }
    MeanSkipNaWithin(means, 1.0, n as real);
  }

  /** The rounded mean of one ID in one column stays within the column's bounds. */
  lemma IdMeanWithin(t: Table, n: nat, id: string, j: nat)
    requires WellFormed(t) && j < |t.columns| && IdMean(t, j, id).Some?
    requires forall i :: 0 <= i < |t.ids| && t.columns[j][i].Some? ==> 1.0 <= t.columns[j][i].value <= n as real
    ensures 1.0 <= IdMean(t, j, id).value <= n as real
  {
    var g := Group(t.ids, t.columns[j], id);
    GroupMembers(t.ids, t.columns[j], id);
    forall k | 0 <= k < |g| && g[k].Some? ensures 1.0 <= g[k].value <= n as real {
      assert g[k] in g;
      var i :| 0 <= i < |t.ids| && t.ids[i] == id && t.columns[j][i] == g[k];
    }
    MeanSkipNaWithin(g, 1.0, n as real);
    Round2Within(MeanSkipNa(g).value, 1, n);
  }

  // ---------------------------------------------------------------- rank by vote (method 5)

  predicate RealLe(a: real, b: real) { a <= b }

  lemma RealLeIsTotalPreorder()
    ensures Sorting.TotalPreorder(RealLe)
  {
  }

  /** `Series.quantile(0.95)`: linear interpolation between the two sorted values
      around position 0.95·(n−1); NaN for a column without values. */
  function Quantile95(p: seq<real>): (q: Option<real>)
    ensures q.None? <==> p == []
    ensures q.Some? ==> Min(p) <= q.value <= Max(p)
  {
    if p == [] then None
    else
      var s := SortReals(p);
      var h := (|s| - 1) as real * 0.95;
      QuantileAt(p, s, h.Floor, h - h.Floor as real)
  }

  /** The values of `p` in ascending order. */
  function SortReals(p: seq<real>): (s: seq<real>)
    ensures multiset(s) == multiset(p) && |s| == |p|
    ensures forall i, j :: 0 <= i < j < |s| ==> s[i] <= s[j]
  {
    RealLeIsTotalPreorder();
    Sorting.SortSorted(p, RealLe);
    Sorting.Sort(p, RealLe)
  }

  /** The value at fractional position `lo + frac` of the sorted values `s` of `p`. */
  function QuantileAt(p: seq<real>, s: seq<real>, lo: int, frac: real): (q: Option<real>)
    requires multiset(s) == multiset(p) && |s| == |p| > 0
    requires forall i, j :: 0 <= i < j < |s| ==> s[i] <= s[j]
    requires 0 <= lo < |s| && 0.0 <= frac < 1.0
    ensures q.Some? && Min(p) <= q.value <= Max(p)
  {
    SortedWithinExtremes(p, s, lo);
    if lo + 1 < |s| then
      SortedWithinExtremes(p, s, lo + 1);
      assert s[lo] <= s[lo + 1];
      Some(Lerp(s[lo], s[lo + 1], frac))
    else Some(s[lo])
  }

  /** The point a fraction `f` of the way from `a` to `b`. */
  function Lerp(a: real, b: real, f: real): (r: real)
    requires a <= b && 0.0 <= f <= 1.0
    ensures a <= r <= b
  {
    var d := b - a;
    assert 0.0 <= f * d by { ProductNonNegative(f, d); }
    assert f * d <= d by { ProductNonNegative(1.0 - f, d); }
    a + f * d
  }

  lemma ProductNonNegative(x: real, y: real)
    requires 0.0 <= x && 0.0 <= y
    ensures 0.0 <= x * y
  {
  }

  /** Every value of a reordering of `p` lies between the extremes of `p`. */
  lemma SortedWithinExtremes(p: seq<real>, s: seq<real>, k: int)
    requires multiset(s) == multiset(p) && 0 <= k < |s|
    ensures Min(p) <= s[k] <= Max(p)
  {
    assert s[k] in multiset(s);
    WithinExtremes(p, s[k]);
  }

  /** Every value lies between the smallest and the largest. */
  lemma WithinExtremes(p: seq<real>, x: real)
    requires x in p
    ensures Min(p) <= x <= Max(p)
  {
    var i :| 0 <= i < |p| && p[i] == x;
  }

  /** A cell votes when it is strictly above its column's 0.95 quantile. */
  predicate Exceeds(cell: Option<real>, q: Option<real>) {
    cell.Some? && q.Some? && cell.value > q.value
  }

  /** The number of the first `m` columns in which pose `i` votes. */
  function VoteCount(t: Table, i: nat, m: nat): (v: nat)
    requires WellFormed(t) && i < |t.ids| && m <= |t.columns|
    ensures v <= m
  {
    if m == 0 then 0
    else VoteCount(t, i, m - 1) + Vote(t.columns[m - 1][i], Quantile95(Present(t.columns[m - 1])))
  }

  /** 1 when the cell votes, 0 otherwise. */
  function Vote(cell: Option<real>, q: Option<real>): (v: nat)
    ensures v <= 1
  {
    if Exceeds(cell, q) then 1 else 0
  }

  /** The `vote` column after the loop over all selected columns. */
  function Votes(t: Table): (v: seq<nat>)
    requires WellFormed(t)
    ensures |v| == |t.ids| && forall i :: 0 <= i < |v| ==> v[i] <= |t.columns|
  {
    seq(|t.ids|, i requires 0 <= i < |t.ids| => VoteCount(t, i, |t.columns|))
  }

  /** The vote loop of `method5_RbV`: one pass per selected column adds 1 to each
      pose above that column's 0.95 quantile. */
  method ComputeVotes(t: Table) returns (votes: seq<nat>)
    requires WellFormed(t)
    ensures votes == Votes(t)
    ensures forall i :: 0 <= i < |votes| ==> votes[i] <= |t.columns|
  {
    votes := seq(|t.ids|, i => 0);
    var j := 0;
    while j < |t.columns|
      invariant 0 <= j <= |t.columns|
      invariant |votes| == |t.ids|
      invariant forall i :: 0 <= i < |votes| ==> votes[i] == VoteCount(t, i, j)
    {
      votes := AddVotes(t, j, votes);
      j := j + 1;
    }
    VotesFromCounts(t, votes);
  }

  /** Counts over all the columns are the `vote` column. */
  lemma VotesFromCounts(t: Table, votes: seq<nat>)
    requires WellFormed(t) && |votes| == |t.ids|
    requires forall i :: 0 <= i < |votes| ==> votes[i] == VoteCount(t, i, |t.columns|)
    ensures votes == Votes(t)
  {
    assert forall i :: 0 <= i < |votes| ==> votes[i] == Votes(t)[i];
  }

  /** One pass of the vote loop: column `j` adds its votes to the running counts. */
  method AddVotes(t: Table, j: nat, votes: seq<nat>) returns (next: seq<nat>)
    requires WellFormed(t) && j < |t.columns| && |votes| == |t.ids|
    requires forall i :: 0 <= i < |votes| ==> votes[i] == VoteCount(t, i, j)
    ensures |next| == |t.ids|
    ensures forall i :: 0 <= i < |next| ==> next[i] == VoteCount(t, i, j + 1)
  {
    var q := Quantile95(Present(t.columns[j]));
    var column := t.columns[j];
    next := seq(|votes|, i requires 0 <= i < |votes| => votes[i] + Vote(column[i], q));
  }

  /** Method 5's value for one ID: the mean of its rounded column means and its
      rounded mean vote. */
  function Method5Value(t: Table, id: string): Option<real>
    requires WellFormed(t)
  {
    var votes := Votes(t);
    var voteCells := seq(|votes|, i requires 0 <= i < |votes| => Some(votes[i] as real));
    var meanVote := match MeanSkipNa(Group(t.ids, voteCells, id)) case None => None case Some(m) => Some(Round2(m));
    MeanSkipNa(IdMeanRow(t, id) + [meanVote])
  }

  /** `method5_RbV`: rows in ID order, each with a value, because every pose has a vote. */
  function Method5(t: Table): (r: seq<ConsensusRow>)
    requires WellFormed(t)
    ensures OneRowPerId(r, t.ids)
    ensures Sorting.SortedBy(r, IdLe)
    ensures forall row :: row in r ==> row.value == Method5Value(t, row.id)
  {
    SortById(PerId(t.ids, id => Method5Value(t, id)), t.ids)
  }

  /** Every ID of the input gets a rank-by-vote value. */
  lemma Method5Defined(t: Table, id: string)
    requires WellFormed(t) && id in t.ids
    ensures Method5Value(t, id).Some?
  {
    var votes := Votes(t);
    var voteCells := seq(|votes|, i requires 0 <= i < |votes| => Some(votes[i] as real));
    var g := Group(t.ids, voteCells, id);
    GroupMembers(t.ids, voteCells, id);
    assert g[0] in g;
    PresentCells(g);
    var meanVote := match MeanSkipNa(g) case None => None case Some(m) => Some(Round2(m));
    var row := IdMeanRow(t, id) + [meanVote];
    assert row[|row| - 1] == meanVote;
    PresentCells(row);
  }

  // ---------------------------------------------------------------- Z-score (methods 6, 7)

  /** `(x - mean)/std` of each present cell. */
  function Standardised(cells: seq<Option<real>>, m: real, s: real): (r: seq<Option<real>>)
    requires s != 0.0
    ensures |r| == |cells|
    ensures forall i :: 0 <= i < |r| ==> (r[i].Some? <==> cells[i].Some?)
  {
    if cells == [] then []
    else
      var n := |cells| - 1;
      Standardised(cells[..n], m, s) + [match cells[n] case None => None case Some(x) => Some((x - m) / s)]
  }

  /** The z-scores of one column; with fewer than two values, or no spread, the
      standard deviation is NaN or zero and every z-score is NaN. */
  function ZColumn(cells: seq<Option<real>>, std: seq<real> -> real): (r: seq<Option<real>>)
    ensures |r| == |cells|
  {
    var p := Present(cells);
    if |p| < 2 || std(p) == 0.0 then seq(|cells|, i => None)
    else Standardised(cells, Mean(p), std(p))
  }

  function Shifted(p: seq<real>, m: real, s: real): (r: seq<real>)
    requires s != 0.0
    ensures |r| == |p|
  {
    if p == [] then [] else Shifted(p[..|p| - 1], m, s) + [(p[|p| - 1] - m) / s]
  }

  lemma {:induction false} PresentStandardised(cells: seq<Option<real>>, m: real, s: real)
    requires s != 0.0
    ensures Present(Standardised(cells, m, s)) == Shifted(Present(cells), m, s)
  {
    if cells != [] {
      var n := |cells| - 1;
      PresentStandardised(cells[..n], m, s);
      var r := Standardised(cells, m, s);
      var last := match cells[n] case None => None case Some(x) => Some((x - m) / s);
      assert r == Standardised(cells[..n], m, s) + [last];
      assert r[..n] == Standardised(cells[..n], m, s);
      assert Present(r) == Present(r[..n]) + (if last.Some? then [last.value] else []);
      var p := Present(cells);
      assert p == Present(cells[..n]) + (if cells[n].Some? then [cells[n].value] else []);
      if cells[n].Some? {
        assert p[..|p| - 1] == Present(cells[..n]);
        assert Shifted(p, m, s) == Shifted(Present(cells[..n]), m, s) + [(cells[n].value - m) / s];
      } else {
        assert p == Present(cells[..n]);
        assert Present(r) == Present(r[..n]);
      }
    }
  }

  lemma {:induction false} SumShifted(p: seq<real>, m: real, s: real)
    requires s != 0.0
    ensures Sum(Shifted(p, m, s)) == (Sum(p) - |p| as real * m) / s
  {
    if p != [] {
      var n := |p| - 1;
      SumShifted(p[..n], m, s);
      var q := Shifted(p, m, s);
      assert q[..n] == Shifted(p[..n], m, s) && q[n] == (p[n] - m) / s;
      assert Sum(q) == Sum(q[..n]) + q[n];
      assert Sum(p) == Sum(p[..n]) + p[n];
      ShiftStep(Sum(p[..n]), p[n], m, s, n as real);
    }
  }

  /** Adding one more shifted value to a shifted sum. */
  lemma ShiftStep(a: real, x: real, m: real, s: real, n: real)
    requires s != 0.0
    ensures (a - n * m) / s + (x - m) / s == ((a + x) - (n + 1.0) * m) / s
  {
    DivAdd(a - n * m, x - m, s);
  }

  lemma DivAdd(x: real, y: real, d: real)
    requires d != 0.0
    ensures x / d + y / d == (x + y) / d
  {
  }

  /** The z-scores of a column with spread sum to zero. */
  lemma ZScoresSumToZero(cells: seq<Option<real>>, std: seq<real> -> real)
    requires |Present(cells)| >= 2 && std(Present(cells)) != 0.0
    ensures SumSkipNa(ZColumn(cells, std)) == 0.0
  {
    var p := Present(cells);
    var m, s := Mean(p), std(p);
    assert ZColumn(cells, std) == Standardised(cells, m, s);
    PresentStandardised(cells, m, s);
    ShiftedByMean(p, s);
  }

  /** Values less their mean, over any nonzero scale, sum to zero. */
  lemma ShiftedByMean(p: seq<real>, s: real)
    requires |p| > 0 && s != 0.0
    ensures Sum(Shifted(p, Mean(p), s)) == 0.0
  {
    var m := Mean(p);
    var t := Sum(p) - |p| as real * m;
    assert Sum(Shifted(p, m, s)) == t / s by { SumShifted(p, m, s); }
    assert t / s == 0.0 by { MeanCancels(Sum(p), |p| as real, m, s); }
  }

  /** Subtracting the mean from every value leaves nothing to sum. */
  lemma MeanCancels(total: real, n: real, m: real, s: real)
    requires n > 0.0 && m == total / n && s != 0.0
    ensures (total - n * m) / s == 0.0
  {
    assert n * m == total;
  }

  /** The consensus z-score of every pose: the mean over the selected columns of its
      z-scores, NaN when all are NaN. */
  function RowZ(t: Table, std: seq<real> -> real): (r: seq<Option<real>>)
    requires WellFormed(t)
    ensures |r| == |t.ids|
  {
    var z := seq(|t.columns|, j requires 0 <= j < |t.columns| => ZColumn(t.columns[j], std));
    seq(|t.ids|, i requires 0 <= i < |t.ids| =>
      MeanSkipNa(seq(|t.columns|, j requires 0 <= j < |t.columns| => z[j][i])))
  }

  /** `method6_Zscore_best`: for each ID, the best consensus z-score of its poses;
      rows by descending value, NaN last. */
  function Method6(t: Table, std: seq<real> -> real): (r: seq<ConsensusRow>)
    requires WellFormed(t)
    ensures OneRowPerId(r, t.ids)
    ensures Sorting.SortedBy(r, ValueGe)
    ensures forall row :: row in r ==> row.value == MaxSkipNa(Group(t.ids, RowZ(t, std), row.id))
  {
    var z := RowZ(t, std);
    SortByValue(PerId(t.ids, id => MaxSkipNa(Group(t.ids, z, id))), t.ids)
  }

  /** `method7_Zscore_avg`: for each ID, the mean consensus z-score of its poses; rows in ID order. */
  function Method7(t: Table, std: seq<real> -> real): (r: seq<ConsensusRow>)
    requires WellFormed(t)
    ensures OneRowPerId(r, t.ids)
    ensures Sorting.SortedBy(r, IdLe)
    ensures forall row :: row in r ==> row.value == MeanSkipNa(Group(t.ids, RowZ(t, std), row.id))
  {
    var z := RowZ(t, std);
    SortById(PerId(t.ids, id => MeanSkipNa(Group(t.ids, z, id))), t.ids)
  }

  /** The best z-score of an ID is at least its average z-score, and both are NaN together. */
  lemma Method6AtLeastMethod7(t: Table, std: seq<real> -> real, id: string)
    requires WellFormed(t)
    ensures var g := Group(t.ids, RowZ(t, std), id);
            (MaxSkipNa(g).Some? <==> MeanSkipNa(g).Some?) &&
            (MaxSkipNa(g).Some? ==> MeanSkipNa(g).value <= MaxSkipNa(g).value)
  {
    var g := Group(t.ids, RowZ(t, std), id);
    if Present(g) != [] {
      MeanAtMostMaxSkipNa(g);
    }
  }

  // ---------------------------------------------------------------- shared frame

  /** The standardised table of one clustering metric as `apply_consensus_methods`
      hands it to methods 5, 6 and 7: the same object each time, so columns a method
      adds are seen by the next one. */
  class ScoreFrame {
    var columns: seq<string>

    constructor (columns: seq<string>)
      ensures this.columns == columns
    {
      this.columns := columns;
    }

    /** The columns a method is asked to combine: every column but `Pose ID` and `ID`. */
    function Selected(): (r: seq<string>)
      reads this
      ensures forall c :: c in r <==> c in columns && c != "Pose ID" && c != "ID"
    {
      SelectScores(columns)
    }

    /** `df['vote'] = 0` in method 5. */
    method AddVote()
      modifies this
      ensures columns == old(columns) + ["vote"]
    {
      columns := columns + ["vote"];
    }

    /** The consensus column method 6 stores in the frame it was given. */
    method AddMethod6(metric: string)
      modifies this
      ensures columns == old(columns) + ["Method6_Zscore_" + metric]
    {
      columns := columns + ["Method6_Zscore_" + metric];
    }
  }

  function SelectScores(columns: seq<string>): (r: seq<string>)
    ensures forall c :: c in r <==> c in columns && c != "Pose ID" && c != "ID"
  {
    if columns == [] then []
    else (if columns[0] != "Pose ID" && columns[0] != "ID" then [columns[0]] else []) + SelectScores(columns[1..])
  }

  /** The column lists methods 5, 6 and 7 receive as the source computes them: each
      list is taken from the shared frame just before the call. */
  method ScoreSelectionsAsWritten(columns: seq<string>, metric: string) returns (s5: seq<string>, s6: seq<string>, s7: seq<string>)
    ensures s5 == SelectScores(columns)
    ensures s6 == SelectScores(columns + ["vote"])
    ensures s7 == SelectScores(columns + ["vote", "Method6_Zscore_" + metric])
  {
    var frame := new ScoreFrame(columns);
    s5 := frame.Selected();
    frame.AddVote();
    s6 := frame.Selected();
    frame.AddMethod6(metric);
    s7 := frame.Selected();
    assert frame.columns == columns + ["vote", "Method6_Zscore_" + metric];
  }

  /** As written, method 6 combines the vote count with the scores and method 7 also
      combines method 6's result. */
  lemma ScoreSelectionsLeak(columns: seq<string>, metric: string)
    requires "vote" !in columns
    ensures "vote" !in SelectScores(columns)
    ensures "vote" in SelectScores(columns + ["vote"])
    ensures "Method6_Zscore_" + metric in SelectScores(columns + ["vote", "Method6_Zscore_" + metric])
  {
    assert "vote" in columns + ["vote"];
    assert "Method6_Zscore_" + metric in columns + ["vote", "Method6_Zscore_" + metric];
    assert "Method6_Zscore_" + metric != "Pose ID";
  }

  /** The intended behaviour: the three score methods combine the same score columns,
      computed once before any method adds a column. */
  method ScoreSelections(columns: seq<string>, metric: string) returns (s5: seq<string>, s6: seq<string>, s7: seq<string>)
    ensures s5 == s6 == s7 == SelectScores(columns)
    ensures forall c :: c in s6 ==> c in columns
  {
    var frame := new ScoreFrame(columns);
    var selected := frame.Selected();
    s5 := selected;
    frame.AddVote();
    s6 := selected;
    frame.AddMethod6(metric);
    s7 := selected;
  }
}
