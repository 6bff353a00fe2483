/** Average ranking of standardised columns (scripts/ranking_functions.py,
    `rank_scores`, and the re-ranking inside method 3): tied values share the mean of
    the positions they occupy, and missing cells stay missing. */
module Ranks {
  import opened Wrappers
  import opened Tables
  import opened Text
  import opened Standardise
  import Sorting

  /** The number of values strictly above, equal to, and strictly below `x`. */
  function Above(p: seq<real>, x: real): (n: nat)
    ensures n <= |p|
  {
    if p == [] then 0 else Above(p[..|p| - 1], x) + (if p[|p| - 1] > x then 1 else 0)
  }

  function Same(p: seq<real>, x: real): (n: nat)
    ensures n <= |p|
  {
    if p == [] then 0 else Same(p[..|p| - 1], x) + (if p[|p| - 1] == x then 1 else 0)
  }

  function Below(p: seq<real>, x: real): (n: nat)
    ensures n <= |p|
  {
    if p == [] then 0 else Below(p[..|p| - 1], x) + (if p[|p| - 1] < x then 1 else 0)
  }

  /** Every value is above, equal to or below `x`. */
  lemma {:induction false} CountsPartition(p: seq<real>, x: real)
    ensures Above(p, x) + Same(p, x) + Below(p, x) == |p|
  {
    if p != [] {
      CountsPartition(p[..|p| - 1], x);
    }
  }

  lemma {:induction false} SamePositive(p: seq<real>, x: real)
    requires x in p
    ensures Same(p, x) >= 1
  {
    var q := p[..|p| - 1];
    if p[|p| - 1] != x {
      assert p == q + [p[|p| - 1]];
      assert x in q;
      SamePositive(q, x);
    }
  }

  /** A smaller value has every value above the larger one above it, and the larger one too. */
  lemma {:induction false} AboveGrows(p: seq<real>, x: real, y: real)
    requires y < x
    ensures Above(p, y) >= Above(p, x) + Same(p, x)
  {
    if p != [] {
      AboveGrows(p[..|p| - 1], x, y);
    }
  }

  lemma {:induction false} BelowGrows(p: seq<real>, x: real, y: real)
    requires x < y
    ensures Below(p, y) >= Below(p, x) + Same(p, x)
  {
    if p != [] {
      BelowGrows(p[..|p| - 1], x, y);
    }
  }

  /** `rank(method='average')`: the values ahead of `x` (above it when ranking in
      descending order, below it otherwise) plus the mean position among its ties. */
  function AverageRank(p: seq<real>, x: real, descending: bool): real
  {
    (if descending then Above(p, x) else Below(p, x)) as real + (Same(p, x) as real + 1.0) / 2.0
  }

  /** Every rank of a present value lies between 1 and the number of present values. */
  lemma RankBounds(p: seq<real>, x: real, descending: bool)
    requires x in p
    ensures 1.0 <= AverageRank(p, x, descending) <= |p| as real
  {
    CountsPartition(p, x);
    SamePositive(p, x);
  }

  /** A strictly better value gets a strictly smaller rank. */
  lemma RankStrict(p: seq<real>, x: real, y: real, descending: bool)
    requires x in p && y in p && x != y
    ensures descending ==> (x > y <==> AverageRank(p, x, descending) < AverageRank(p, y, descending))
    ensures !descending ==> (x < y <==> AverageRank(p, x, descending) < AverageRank(p, y, descending))
  {
    SamePositive(p, x);
    SamePositive(p, y);
    if x > y {
      AboveGrows(p, x, y);
      BelowGrows(p, y, x);
    } else {
      AboveGrows(p, y, x);
      BelowGrows(p, x, y);
    }
  }

  /** A value above all the others ranks first in descending order. */
  lemma {:induction false} UniqueTopRanksFirst(p: seq<real>, x: real)
    requires x in p
    requires forall i :: 0 <= i < |p| ==> p[i] == x || p[i] < x
    requires Same(p, x) == 1
    ensures AverageRank(p, x, true) == 1.0
  {
    NoneAbove(p, x);
  }

  lemma {:induction false} NoneAbove(p: seq<real>, x: real)
    requires forall i :: 0 <= i < |p| ==> p[i] <= x
    ensures Above(p, x) == 0
  {
    if p != [] {
      NoneAbove(p[..|p| - 1], x);
    }
  }

  /** `Series.rank(method='average', ascending=not descending)`; missing cells keep no rank. */
  function RankColumn(cells: seq<Option<real>>, descending: bool): (r: seq<Option<real>>)
    ensures |r| == |cells|
    ensures forall i :: 0 <= i < |r| ==> (r[i].Some? <==> cells[i].Some?)
    ensures forall i :: 0 <= i < |r| && r[i].Some? ==> 1.0 <= r[i].value <= |Present(cells)| as real
  {
    var p := Present(cells);
    PresentCells(cells);
    forall i | 0 <= i < |cells| && cells[i].Some? ensures 1.0 <= AverageRank(p, cells[i].value, descending) <= |p| as real {
      RankBounds(p, cells[i].value, descending);
    }
    seq(|cells|, i requires 0 <= i < |cells| =>
      match cells[i]
      case None => None
      case Some(x) => Some(AverageRank(p, x, descending)))
  }

  /** Ranks order the cells the way their values do, and tied cells share a rank. */
  lemma RankColumnOrder(cells: seq<Option<real>>, descending: bool, i: nat, j: nat)
    requires i < |cells| && j < |cells| && cells[i].Some? && cells[j].Some?
    ensures cells[i].value == cells[j].value ==> RankColumn(cells, descending)[i] == RankColumn(cells, descending)[j]
    ensures descending && cells[i].value > cells[j].value ==>
              RankColumn(cells, descending)[i].value < RankColumn(cells, descending)[j].value
    ensures !descending && cells[i].value < cells[j].value ==>
              RankColumn(cells, descending)[i].value < RankColumn(cells, descending)[j].value
  {
    PresentCells(cells);
    if cells[i].value != cells[j].value {
      RankStrict(Present(cells), cells[i].value, cells[j].value, descending);
    }
  }

  /** The ranked column that replaces a standardised column. */
  function RankedColumn(c: Column): Column
  {
    Column(c.name + "_RANK", RankColumn(c.cells, true))
  }

  /** `rank_scores`: each column ranked in descending order and renamed with a
      `_RANK` suffix; the result holds only the ranked columns, in name order. */
  function RankScores(f: Frame): (r: Frame)
    ensures r.poseIds == f.poseIds
    ensures Sorting.SortedBy(r.columns, NameLe)
    ensures multiset(r.columns) == multiset(seq(|f.columns|, k requires 0 <= k < |f.columns| => RankedColumn(f.columns[k])))
  {
    var ranked := seq(|f.columns|, k requires 0 <= k < |f.columns| => RankedColumn(f.columns[k]));
    NameLeIsTotalPreorder();
    Sorting.SortSorted(ranked, NameLe);
    Frame(f.poseIds, Sorting.Sort(ranked, NameLe))
  }

  /** The molecule ID of a pose: the text before its first underscore. */
  function MoleculeId(poseId: string): (id: string)
    ensures '_' !in id
    ensures StartsWith(poseId, id)
  {
    IdPrefix(poseId)
  }

  function IdPrefix(s: string): (r: string)
    ensures '_' !in r
    ensures r == Split(s, '_')[0]
    ensures |r| <= |s| && s[..|r|] == r
    decreases |s|
  {
    if s == [] || s[0] == '_' then "" else [s[0]] + IdPrefix(s[1..])
  }

  /** The `ID` column derived from the `Pose ID` column. */
  function AttachIds(poseIds: seq<string>): (ids: seq<string>)
    ensures |ids| == |poseIds|
    ensures forall k :: 0 <= k < |ids| ==> ids[k] == Split(poseIds[k], '_')[0]
  {
    seq(|poseIds|, k requires 0 <= k < |poseIds| => MoleculeId(poseIds[k]))
  }
}
