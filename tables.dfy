/** Column arithmetic with missing cells, as pandas does it with `skipna`, and the
    group-by keys of a table. A missing cell (`None`) stands for NaN. */
module Tables {
  import opened Wrappers

  function Sum(s: seq<real>): real
  {
    if s == [] then 0.0 else Sum(s[..|s| - 1]) + s[|s| - 1]
  }

  /** The values of the cells that are present, in order. */
  function Present(s: seq<Option<real>>): (r: seq<real>)
    ensures |r| <= |s|
  {
    if s == [] then [] else Present(s[..|s| - 1]) + (if s[|s| - 1].Some? then [s[|s| - 1].value] else [])
  }

  lemma {:induction false} PresentMembers(s: seq<Option<real>>)
    ensures forall v :: v in Present(s) <==> Some(v) in s
  {
    if s != [] {
      PresentMembers(s[..|s| - 1]);
      assert s == s[..|s| - 1] + [s[|s| - 1]];
    }
  }

  /** Every present cell contributes its value. */
  lemma PresentCells(s: seq<Option<real>>)
    ensures forall i :: 0 <= i < |s| && s[i].Some? ==> s[i].value in Present(s)
  {
    PresentMembers(s);
    forall i | 0 <= i < |s| && s[i].Some? ensures s[i].value in Present(s) {
      assert s[i] in s;
    }
  }

  /** Bounds on the present cells are bounds on the present values. */
  lemma {:induction false} PresentWithin(s: seq<Option<real>>, lo: real, hi: real)
    requires forall k :: 0 <= k < |s| && s[k].Some? ==> lo <= s[k].value <= hi
    ensures forall i :: 0 <= i < |Present(s)| ==> lo <= Present(s)[i] <= hi
  {
    if s != [] {
      PresentWithin(s[..|s| - 1], lo, hi);
    }
  }

  /** A column with no present cell has no values. */
  lemma {:induction false} PresentNone(s: seq<Option<real>>)
    requires forall i :: 0 <= i < |s| ==> s[i].None?
    ensures Present(s) == []
  {
    if s != [] {
      PresentNone(s[..|s| - 1]);
    }
  }

  /** A column with one present cell has exactly that value. */
  lemma {:induction false} PresentSingle(s: seq<Option<real>>, j: int)
    requires 0 <= j < |s| && s[j].Some?
    requires forall k :: 0 <= k < |s| && k != j ==> s[k].None?
    ensures Present(s) == [s[j].value]
  {
    if j == |s| - 1 {
      PresentNone(s[..|s| - 1]);
    } else {
      PresentSingle(s[..|s| - 1], j);
    }
  }

  /** `Series.sum()`: missing cells are skipped, and an empty sum is 0. */
  function SumSkipNa(s: seq<Option<real>>): real { Sum(Present(s)) }

  /** `Series.mean()`: the mean of the present cells, NaN when there are none. */
  function MeanSkipNa(s: seq<Option<real>>): (r: Option<real>)
    ensures r.None? <==> Present(s) == []
  {
    var p := Present(s);
    if |p| == 0 then None else Some(Sum(p) / |p| as real)
  }

  function Mean(s: seq<real>): real
    requires |s| > 0
  {
    Sum(s) / |s| as real
  }

  lemma {:induction false} SumBounds(s: seq<real>, lo: real, hi: real)
    requires forall i :: 0 <= i < |s| ==> lo <= s[i] <= hi
    ensures |s| as real * lo <= Sum(s) <= |s| as real * hi
  {
    if s != [] {
      SumBounds(s[..|s| - 1], lo, hi);
    }
  }

  /** A mean lies between the smallest and the largest value averaged. */
  lemma MeanBounds(s: seq<real>, lo: real, hi: real)
    requires |s| > 0
    requires forall i :: 0 <= i < |s| ==> lo <= s[i] <= hi
    ensures lo <= Mean(s) <= hi
  {
    SumBounds(s, lo, hi);
    var n := |s| as real;
    assert n * lo <= Sum(s) <= n * hi;
    assert Mean(s) * n == Sum(s);
  }

  /** The largest value of a non-empty sequence. */
  function Max(s: seq<real>): (m: real)
    requires |s| > 0
    ensures m in s && forall i :: 0 <= i < |s| ==> s[i] <= m
  {
    if |s| == 1 then s[0]
    else
      var m := Max(s[..|s| - 1]);
      assert forall i :: 0 <= i < |s| - 1 ==> s[..|s| - 1][i] == s[i];
      if s[|s| - 1] > m then s[|s| - 1] else m
  }

  /** The smallest value of a non-empty sequence. */
  function Min(s: seq<real>): (m: real)
    requires |s| > 0
    ensures m in s && forall i :: 0 <= i < |s| ==> m <= s[i]
  {
    if |s| == 1 then s[0]
    else
      var m := Min(s[..|s| - 1]);
      assert forall i :: 0 <= i < |s| - 1 ==> s[..|s| - 1][i] == s[i];
      if s[|s| - 1] < m then s[|s| - 1] else m
  }

  /** The mean never exceeds the maximum. */
  lemma MeanAtMostMax(s: seq<real>)
    requires |s| > 0
    ensures Mean(s) <= Max(s)
  {
    MeanBounds(s, Min(s), Max(s));
  }

  /** The distinct keys of a column in the order they first appear (the rows a
      group-by produces). */
  function Distinct(s: seq<string>): (r: seq<string>)
    ensures forall i, j :: 0 <= i < j < |r| ==> r[i] != r[j]
    ensures forall x :: x in r <==> x in s
    ensures |r| <= |s|
  {
    if s == [] then []
    else
      var d := Distinct(s[..|s| - 1]);
      assert s == s[..|s| - 1] + [s[|s| - 1]];
      if s[|s| - 1] in d then d else d + [s[|s| - 1]]
  }

  /** Python's `round(x)`: to the nearest integer, halves to the even neighbour. */
  function RoundHalfEven(x: real): (n: int)
    ensures -(1.0 / 2.0) <= n as real - x <= 1.0 / 2.0
    ensures n == x.Floor || n == x.Floor + 1
    ensures x - x.Floor as real == 1.0 / 2.0 ==> n % 2 == 0
  {
    var f := x.Floor;
    var d := x - f as real;
    if d < 1.0 / 2.0 then f
    else if d > 1.0 / 2.0 then f + 1
    else if f % 2 == 0 then f else f + 1
  }

  /** An integer rounds to itself. */
  lemma RoundInteger(n: int)
    ensures RoundHalfEven(n as real) == n
  {
    assert (n as real).Floor == n;
  }

  /** Rounding is monotone. */
  lemma RoundHalfEvenMonotone(x: real, y: real)
    requires x <= y
    ensures RoundHalfEven(x) <= RoundHalfEven(y)
  {
    var fx, fy := x.Floor, y.Floor;
    assert fx <= fy;
    if fx == fy {
      assert x - fx as real <= y - fy as real;
    } else {
      assert RoundHalfEven(x) <= fx + 1 <= fy;
    }
  }

  /** `round(x, 2)` (and pandas `.round(2)`): to two decimals, halves to even. */
  function Round2(x: real): real
  {
    RoundHalfEven(x * 100.0) as real / 100.0
  }

  lemma Round2Close(x: real)
    ensures -(1.0 / 200.0) <= Round2(x) - x <= 1.0 / 200.0
  {
  }

  /** A value that already has two decimals is kept. */
  lemma Round2Exact(k: int)
    ensures Round2(k as real / 100.0) == k as real / 100.0
  {
    assert (k as real / 100.0) * 100.0 == k as real;
    RoundInteger(k);
  }
}
