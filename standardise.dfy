/** Min-max standardisation of rescoring columns (scripts/ranking_functions.py,
    `standardize_scores`): every score is mapped onto [0, 1] with 1 for the best
    raw value, where "best" is the largest or the smallest value depending on the
    scoring function. */
module Standardise {
  import opened Wrappers
  import opened Tables
  import Sorting

  /** Which raw value of a scoring function is the best one. */
  datatype Orientation = BestIsMax | BestIsMin

  /** The orientation of every scoring function the pipeline knows. */
  const Orientations: map<string, Orientation> := map[
    "GNINA_Affinity" := BestIsMin,
    "GNINA_CNN_Score" := BestIsMax,
    "GNINA_CNN_Affinity" := BestIsMax,
    "CNN_VS" := BestIsMax,
    "Vinardo_Affinity" := BestIsMin,
    "AD4_Affinity" := BestIsMin,
    "LinF9_Affinity" := BestIsMin,
    "RFScoreVS" := BestIsMax,
    "PLP" := BestIsMin,
    "CHEMPLP" := BestIsMin,
    "NNScore" := BestIsMax,
    "PLECnn" := BestIsMax,
    "AAScore" := BestIsMin,
    "ECIF" := BestIsMax,
    "SCORCH" := BestIsMax,
    "SCORCH_pose_score" := BestIsMax,
    "RTMScore" := BestIsMax
  ]

  /** A named numeric column; a cell that did not parse as a number is missing. */
  datatype Column = Column(name: string, cells: seq<Option<real>>)

  /** A table with a `Pose ID` column and numeric columns. */
  datatype Frame = Frame(poseIds: seq<string>, columns: seq<Column>)

  predicate WellFormed(f: Frame) {
    forall k :: 0 <= k < |f.columns| ==> |f.columns[k].cells| == |f.poseIds| && f.columns[k].name != "Pose ID"
  }

  datatype StandardiseError = UnknownScoringFunction(name: string)

  /** The min-max mapping of one column. A column with fewer than two distinct
      values divides zero by zero and becomes missing throughout. */
  function MinMax(cells: seq<Option<real>>, o: Orientation): (r: seq<Option<real>>)
    ensures |r| == |cells|
    ensures forall i :: 0 <= i < |r| && r[i].Some? ==> cells[i].Some? && 0.0 <= r[i].value <= 1.0
    ensures forall i :: 0 <= i < |r| && cells[i].None? ==> r[i].None?
    ensures |Present(cells)| == 0 || Max(Present(cells)) == Min(Present(cells)) ==>
      forall i :: 0 <= i < |r| ==> r[i].None?
    ensures |Present(cells)| > 0 && Max(Present(cells)) != Min(Present(cells)) ==>
      forall i :: 0 <= i < |r| && cells[i].Some? ==> r[i].Some?
  {
    var p := Present(cells);
    if |p| == 0 || Max(p) == Min(p) then seq(|cells|, i => None)
    else
      var lo, hi := Min(p), Max(p);
      PresentCells(cells);
      seq(|cells|, i requires 0 <= i < |cells| =>
        match cells[i]
        case None => None
        case Some(x) => Some(Scale(x, lo, hi, o)))
  }

  /** One value placed on the unit interval between the worst and the best value. */
  function Scale(x: real, lo: real, hi: real, o: Orientation): (r: real)
    requires lo <= x <= hi && lo < hi
    ensures 0.0 <= r <= 1.0
  {
    UnitFraction(x - lo, hi - lo);
    UnitFraction(hi - x, hi - lo);
    if o == BestIsMax then (x - lo) / (hi - lo) else (hi - x) / (hi - lo)
  }

  lemma UnitFraction(a: real, d: real)
    requires 0.0 <= a <= d && d > 0.0
    ensures 0.0 <= a / d <= 1.0
  {
    assert a / d * d == a;
  }

  /** Columns are compared by name, as Python compares strings. */
  predicate NameLe(a: Column, b: Column) { Sorting.LexLe(a.name, b.name) }

  lemma NameLeIsTotalPreorder()
    ensures Sorting.TotalPreorder(NameLe)
  {
    forall a: Column, b: Column ensures NameLe(a, b) || NameLe(b, a) {
      Sorting.LexLeTotal(a.name, b.name);
    }
    forall a: Column, b: Column, c: Column | NameLe(a, b) && NameLe(b, c) ensures NameLe(a, c) {
      Sorting.LexLeTransitive(a.name, b.name, c.name);
    }
  }

  /** The standardised column that replaces a raw column. */
  function StandardisedColumn(c: Column, metric: string): Column
    requires c.name in Orientations
  {
    Column(c.name + "_S_" + metric, MinMax(c.cells, Orientations[c.name]))
  }

  /** `standardize_scores`: every raw column must be a known scoring function; the
      result holds only the standardised columns, in name order. */
  function StandardizeScores(f: Frame, metric: string): (r: Result<Frame, StandardiseError>)
    ensures r.Err? <==> exists k :: 0 <= k < |f.columns| && f.columns[k].name !in Orientations
    ensures r.Err? ==> r.error.name !in Orientations
    ensures r.Ok? ==>
      && r.value.poseIds == f.poseIds
      && Sorting.SortedBy(r.value.columns, NameLe)
      && multiset(r.value.columns) == multiset(seq(|f.columns|, k requires 0 <= k < |f.columns| => StandardisedColumn(f.columns[k], metric)))
  {
    var bad := FirstUnknown(f.columns);
    if bad.Some? then Err(UnknownScoringFunction(f.columns[bad.value].name))
    else
      var mapped := seq(|f.columns|, k requires 0 <= k < |f.columns| => StandardisedColumn(f.columns[k], metric));
      NameLeIsTotalPreorder();
      Sorting.SortSorted(mapped, NameLe);
      Ok(Frame(f.poseIds, Sorting.Sort(mapped, NameLe)))
  }

  /** The index of the first column whose name has no orientation: the column at
      which the dictionary lookup raises `KeyError`. */
  function FirstUnknown(cs: seq<Column>): (r: Option<nat>)
    ensures r.Some? ==> r.value < |cs| && cs[r.value].name !in Orientations
                        && forall k :: 0 <= k < r.value ==> cs[k].name in Orientations
    ensures r.None? ==> forall k :: 0 <= k < |cs| ==> cs[k].name in Orientations
  {
    if cs == [] then None
    else if cs[0].name !in Orientations then Some(0)
    else
      match FirstUnknown(cs[1..])
      case None => None
      case Some(k) => Some(k + 1)
  }

  /** A well-formed frame stays well formed: every standardised column has one
      cell per pose. */
  lemma StandardizeKeepsShape(f: Frame, metric: string)
    requires WellFormed(f)
    requires StandardizeScores(f, metric).Ok?
    ensures |StandardizeScores(f, metric).value.columns| == |f.columns|
    ensures forall c :: c in StandardizeScores(f, metric).value.columns ==> |c.cells| == |f.poseIds|
  {
    var r := StandardizeScores(f, metric).value;
    var mapped := seq(|f.columns|, k requires 0 <= k < |f.columns| => StandardisedColumn(f.columns[k], metric));
    assert multiset(r.columns) == multiset(mapped);
    forall c | c in r.columns ensures |c.cells| == |f.poseIds| {
      assert c in multiset(r.columns);
      assert c in multiset(mapped);
      var k :| 0 <= k < |mapped| && mapped[k] == c;
    }
    assert |r.columns| == |multiset(r.columns)| == |multiset(mapped)| == |mapped|;
  }

  /** `a` is at least as good a raw value as `b`. */
  predicate AtLeastAsGood(o: Orientation, a: real, b: real) {
    if o == BestIsMax then a >= b else a <= b
  }

  /** With at least two distinct values, the best raw value maps to 1 and the worst to 0. */
  lemma BestMapsToOne(cells: seq<Option<real>>, o: Orientation, i: nat, j: nat)
    requires i < |cells| && j < |cells| && cells[i].Some? && cells[j].Some?
    requires forall k :: 0 <= k < |cells| && cells[k].Some? ==>
               AtLeastAsGood(o, cells[i].value, cells[k].value) && AtLeastAsGood(o, cells[k].value, cells[j].value)
    requires cells[i].value != cells[j].value
    ensures MinMax(cells, o)[i] == Some(1.0)
    ensures MinMax(cells, o)[j] == Some(0.0)
  {
    var ci, cj := cells[i].value, cells[j].value;
    ExtremeCells(cells, o, i, j);
    var lo, hi := Min(Present(cells)), Max(Present(cells));
    MinMaxCell(cells, o, i);
    MinMaxCell(cells, o, j);
    ScaleEnds(lo, hi, o);
  }

  lemma ScaleEnds(lo: real, hi: real, o: Orientation)
    requires lo < hi
    ensures Scale(if o == BestIsMax then hi else lo, lo, hi, o) == 1.0
    ensures Scale(if o == BestIsMax then lo else hi, lo, hi, o) == 0.0
  {
    assert (hi - lo) / (hi - lo) == 1.0;
    assert 0.0 / (hi - lo) == 0.0;
  }

  /** The best and the worst cell hold the extremes of the column. */
  lemma ExtremeCells(cells: seq<Option<real>>, o: Orientation, i: nat, j: nat)
    requires i < |cells| && j < |cells| && cells[i].Some? && cells[j].Some?
    requires forall k :: 0 <= k < |cells| && cells[k].Some? ==>
               AtLeastAsGood(o, cells[i].value, cells[k].value) && AtLeastAsGood(o, cells[k].value, cells[j].value)
    ensures |Present(cells)| > 0
    ensures o == BestIsMax ==> Max(Present(cells)) == cells[i].value && Min(Present(cells)) == cells[j].value
    ensures o == BestIsMin ==> Min(Present(cells)) == cells[i].value && Max(Present(cells)) == cells[j].value
  {
    var p := Present(cells);
    var ci, cj := cells[i].value, cells[j].value;
    PresentCells(cells);
    assert ci in p && cj in p;
    forall v | v in p ensures AtLeastAsGood(o, ci, v) && AtLeastAsGood(o, v, cj) {
      PresentMembers(cells);
      assert Some(v) in cells;
      var k :| 0 <= k < |cells| && cells[k] == Some(v);
    }
    var lo, hi := Min(p), Max(p);
    assert AtLeastAsGood(o, ci, hi) && AtLeastAsGood(o, ci, lo);
    assert AtLeastAsGood(o, hi, cj) && AtLeastAsGood(o, lo, cj);
  }

  /** A present cell of a column with two distinct values is scaled between its extremes. */
  lemma MinMaxCell(cells: seq<Option<real>>, o: Orientation, i: nat)
    requires i < |cells| && cells[i].Some?
    requires |Present(cells)| > 0 && Min(Present(cells)) != Max(Present(cells))
    ensures cells[i].value in Present(cells)
    ensures MinMax(cells, o)[i] == Some(Scale(cells[i].value, Min(Present(cells)), Max(Present(cells)), o))
  {
    PresentCells(cells);
  }

  /** For a larger-is-better score the mapping keeps the order of the values; for a
      smaller-is-better score it reverses it. */
  lemma MinMaxOrder(cells: seq<Option<real>>, o: Orientation, i: nat, j: nat)
    requires i < |cells| && j < |cells|
    requires MinMax(cells, o)[i].Some? && MinMax(cells, o)[j].Some?
    requires cells[i].value <= cells[j].value
    ensures o == BestIsMax ==> MinMax(cells, o)[i].value <= MinMax(cells, o)[j].value
    ensures o == BestIsMin ==> MinMax(cells, o)[i].value >= MinMax(cells, o)[j].value
  {
    var p := Present(cells);
    var lo, hi := Min(p), Max(p);
    assert hi - lo > 0.0;
    if o == BestIsMax {
      assert cells[i].value - lo <= cells[j].value - lo;
      DivMonotone(cells[i].value - lo, cells[j].value - lo, hi - lo);
    } else {
      assert hi - cells[i].value >= hi - cells[j].value;
      DivMonotone(hi - cells[j].value, hi - cells[i].value, hi - lo);
    }
  }

  lemma DivMonotone(a: real, b: real, d: real)
    requires a <= b && d > 0.0
    ensures a / d <= b / d
  {
    assert b / d - a / d == (b - a) / d;
  }

  /** Standardising an already standardised column again changes nothing. */
  lemma StandardiseIdempotent(cells: seq<Option<real>>, o: Orientation)
    ensures MinMax(MinMax(cells, o), BestIsMax) == MinMax(cells, o)
  {
    var r := MinMax(cells, o);
    var p := Present(cells);
    if |p| == 0 || Max(p) == Min(p) {
      PresentNone(r);
    } else {
      PresentMembers(cells);
      PresentCells(cells);
      var lo, hi := Min(p), Max(p);
      assert Some(hi) in cells;
      var iHi :| 0 <= iHi < |cells| && cells[iHi] == Some(hi);
      assert Some(lo) in cells;
      var iLo :| 0 <= iLo < |cells| && cells[iLo] == Some(lo);
      var iBest, iWorst := if o == BestIsMax then iHi else iLo, if o == BestIsMax then iLo else iHi;
      forall k | 0 <= k < |cells| && cells[k].Some?
        ensures AtLeastAsGood(o, cells[iBest].value, cells[k].value) && AtLeastAsGood(o, cells[k].value, cells[iWorst].value)
      {
        assert cells[k].value in p;
      }
      BestMapsToOne(cells, o, iBest, iWorst);
      UnitColumn(r, iBest, iWorst);
    }
  }

  /** A column whose present values lie in [0, 1] and include both 0 and 1 is a
      fixed point of the larger-is-better mapping. */
  lemma UnitColumn(r: seq<Option<real>>, i: nat, j: nat)
    requires i < |r| && j < |r| && r[i] == Some(1.0) && r[j] == Some(0.0)
    requires forall k :: 0 <= k < |r| && r[k].Some? ==> 0.0 <= r[k].value <= 1.0
    ensures MinMax(r, BestIsMax) == r
  {
    var q := Present(r);
    PresentMembers(r);
    PresentCells(r);
    assert 1.0 in q && 0.0 in q;
    forall v | v in q ensures 0.0 <= v <= 1.0 {
      assert Some(v) in r;
      var k :| 0 <= k < |r| && r[k] == Some(v);
    }
    assert Max(q) == 1.0;
    assert Min(q) == 0.0;
    var rr := MinMax(r, BestIsMax);
    forall k | 0 <= k < |r| ensures rr[k] == r[k] {
      if r[k].Some? {
        assert rr[k] == Some(Scale(r[k].value, 0.0, 1.0, BestIsMax));
      }
    }
  }
}
