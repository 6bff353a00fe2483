/** File-splitting and string helpers (scripts/utilities.py): chunking a library for
    parallel docking, one file per compound, inserting a row into a data frame,
    output file names, PDBQT-to-PDB truncation and the format dispatch of
    `load_molecule`. Reading and writing SDF files is not modelled: a library is the
    sequence of its records. */
module Utilities {
  import opened Wrappers
  import opened Text
  import Sorting

  /** One SDF record: its `ID` and its molecule block. */
  datatype Record = Record(id: string, molecule: string)

  datatype SplitError =
    | ZeroDivision      // ncpus == 0
    | ZeroStep          // range() with a step of 0

  // ---------------------------------------------------------------- split_sdf

  /** `math.ceil`. */
  function Ceil(x: real): (n: int)
    ensures x <= n as real < x + 1.0
  {
    -((-x).Floor)
  }

  /** `compounds_per_core = math.ceil(len(df['ID'])/(ncpus*2))`, and the range step
      it must be. */
  function ChunkSize(n: nat, ncpus: int): (r: Result<int, SplitError>)
    ensures ncpus == 0 <==> r == Err(ZeroDivision)
    ensures r.Ok? ==> r.value != 0
    ensures ncpus > 0 && n > 0 ==> r.Ok? && r.value > 0 && (r.value - 1) * 2 * ncpus < n <= r.value * 2 * ncpus
  {
    if ncpus == 0 then Err(ZeroDivision)
    else
      var step := Ceil(n as real / (2 * ncpus) as real);
      if step == 0 then Err(ZeroStep)
      else
        CeilBounds(n, 2 * ncpus, step);
        Ok(step)
  }

  lemma CeilBounds(n: nat, d: int, step: int)
    requires d != 0 && step == Ceil(n as real / d as real)
    ensures d > 0 && n > 0 ==> step > 0 && (step - 1) * d < n <= step * d
  {
    if d > 0 && n > 0 {
      CeilBoundsPositive(n, d, step);
    }
  }

  lemma CeilBoundsPositive(n: nat, d: int, step: int)
    requires d > 0 && n > 0 && step == Ceil(n as real / d as real)
    ensures step > 0 && (step - 1) * d < n <= step * d
  {
    var q := n as real / d as real;
    assert q > 0.0;
    assert q * d as real == n as real;
    assert (step - 1) as real < q <= step as real;
    assert (step - 1) as real * d as real < n as real;
    assert n as real <= step as real * d as real;
  }

  function Min(a: int, b: int): int { if a < b then a else b }

  /** The records of `chunk` whose ID was not written before. */
  function Unused(chunk: seq<Record>, used: set<string>): (r: seq<Record>)
    ensures |r| <= |chunk|
  {
    if chunk == [] then []
    else (if chunk[0].id !in used then [chunk[0]] else []) + Unused(chunk[1..], used)
  }

  /** A record is kept exactly when it is in the chunk and its ID is new. */
  lemma {:induction false} UnusedMembers(chunk: seq<Record>, used: set<string>)
    ensures forall x :: x in Unused(chunk, used) <==> x in chunk && x.id !in used
  {
    if chunk != [] {
      UnusedMembers(chunk[1..], used);
      assert forall x :: x in chunk <==> x == chunk[0] || x in chunk[1..];
    }
  }

  /** The IDs of a chunk. */
  function IdSet(chunk: seq<Record>): set<string>
  {
    if chunk == [] then {} else {chunk[0].id} + IdSet(chunk[1..])
  }

  lemma {:induction false} IdSetHas(chunk: seq<Record>, x: Record)
    requires x in chunk
    ensures x.id in IdSet(chunk)
  {
    if x != chunk[0] {
      IdSetHas(chunk[1..], x);
    }
  }

  /** The IDs written to a sequence of files. */
  function WrittenIds(chunks: seq<seq<Record>>): set<string>
  {
    if chunks == [] then {} else IdSet(chunks[0]) + WrittenIds(chunks[1..])
  }

  /** The chunk written at position `i`. */
  function Head(rows: seq<Record>, step: nat, i: nat, used: set<string>): seq<Record>
    requires i < |rows|
  {
    Unused(rows[i..Min(i + step, |rows|)], used)
  }

  /** The chunks written from position `i` on, the IDs in `used` already written. */
  function SplitFrom(rows: seq<Record>, step: nat, i: nat, used: set<string>): (chunks: seq<seq<Record>>)
    requires step > 0
    decreases |rows| - i
  {
    if i >= |rows| then []
    else [Head(rows, step, i, used)] + SplitFrom(rows, step, i + step, used + IdSet(Head(rows, step, i, used)))
  }

  /** The files `split_sdf` writes, `split_1.sdf`, `split_2.sdf`, … in order. */
  function SplitChunks(rows: seq<Record>, ncpus: int): Result<seq<seq<Record>>, SplitError>
  {
    match ChunkSize(|rows|, ncpus)
    case Err(e) => Err(e)
    case Ok(step) => if step < 0 then Ok([]) else Ok(SplitFrom(rows, step, 0, {}))
  }

  /** `split_sdf`: one pass over the library in steps of `compounds_per_core`,
      dropping the records whose ID an earlier chunk already holds. */
  method SplitSdf(rows: seq<Record>, ncpus: int) returns (r: Result<seq<seq<Record>>, SplitError>)
    ensures r == SplitChunks(rows, ncpus)
  {
    var size := ChunkSize(|rows|, ncpus);
    if size.Err? {
      return Err(size.error);
    }
    var step := size.value;
    if step < 0 {
      return Ok([]);
    }
    var files := WriteChunks(rows, step);
    return Ok(files);
  }

  /** The loop of `split_sdf` for a positive step. */
  method WriteChunks(rows: seq<Record>, step: nat) returns (files: seq<seq<Record>>)
    requires step > 0
    ensures files == SplitFrom(rows, step, 0, {})
  {
    var used: set<string> := {};
    files := [];
    var fileCounter := 1;
    var i := 0;
    while i < |rows|
      invariant fileCounter == |files| + 1
      invariant files + SplitFrom(rows, step, i, used) == SplitFrom(rows, step, 0, {})
      decreases |rows| - i
    {
      var chunk := rows[i..Min(i + step, |rows|)];
      chunk := Unused(chunk, used);
      assert chunk == Head(rows, step, i, used);
      ghost var rest := SplitFrom(rows, step, i + step, used + IdSet(chunk));
      assert SplitFrom(rows, step, i, used) == [chunk] + rest;
      assert files + ([chunk] + rest) == (files + [chunk]) + rest;
      used := used + IdSet(chunk);
      files := files + [chunk];
      fileCounter := fileCounter + 1;
      i := i + step;
    }
    assert files + [] == files;
  }

  /** Chunks never repeat an ID already written. */
  lemma {:induction false} SplitAvoidsUsed(rows: seq<Record>, step: nat, i: nat, used: set<string>)
    requires step > 0
    ensures forall k, x: Record :: 0 <= k < |SplitFrom(rows, step, i, used)| && x in SplitFrom(rows, step, i, used)[k] ==> x.id !in used
    decreases |rows| - i
  {
    if i < |rows| {
      var c := Head(rows, step, i, used);
      UnusedMembers(rows[i..Min(i + step, |rows|)], used);
      var rest := SplitFrom(rows, step, i + step, used + IdSet(c));
      SplitAvoidsUsed(rows, step, i + step, used + IdSet(c));
      var chunks := SplitFrom(rows, step, i, used);
      assert chunks == [c] + rest;
      forall k, x: Record | 0 <= k < |chunks| && x in chunks[k] ensures x.id !in used {
        if k > 0 {
          assert chunks[k] == rest[k - 1];
        }
      }
    }
  }

  /** No ID appears in two different files. */
  predicate NoSharedIds(chunks: seq<seq<Record>>)
  {
    forall k1, k2, x: Record, y: Record :: 0 <= k1 < k2 < |chunks| && x in chunks[k1] && y in chunks[k2] ==> x.id != y.id
  }

  /** A file whose IDs no later file repeats, put in front of files that share none. */
  lemma NoSharedCons(c: seq<Record>, rest: seq<seq<Record>>, used: set<string>)
    requires NoSharedIds(rest) && IdSet(c) <= used
    requires forall k, y: Record :: 0 <= k < |rest| && y in rest[k] ==> y.id !in used
    ensures NoSharedIds([c] + rest)
  {
    var chunks := [c] + rest;
    forall k1, k2, x: Record, y: Record | 0 <= k1 < k2 < |chunks| && x in chunks[k1] && y in chunks[k2]
      ensures x.id != y.id
    {
      assert chunks[k2] == rest[k2 - 1];
      if k1 == 0 {
        IdSetHas(c, x);
      } else {
        assert chunks[k1] == rest[k1 - 1];
      }
    }
  }

  /** An ID written to one file appears in no later file. */
  lemma {:induction false} SplitNoRepeat(rows: seq<Record>, step: nat, i: nat, used: set<string>)
    requires step > 0
    ensures NoSharedIds(SplitFrom(rows, step, i, used))
    decreases |rows| - i
  {
    if i < |rows| {
      var c := Head(rows, step, i, used);
      var rest := SplitFrom(rows, step, i + step, used + IdSet(c));
      assert SplitFrom(rows, step, i, used) == [c] + rest;
      SplitNoRepeat(rows, step, i + step, used + IdSet(c));
      SplitAvoidsUsed(rows, step, i + step, used + IdSet(c));
      NoSharedCons(c, rest, used + IdSet(c));
    }
  }

  /** Every record's ID is written to some file (or was written before). */
  lemma {:induction false} SplitCovers(rows: seq<Record>, step: nat, i: nat, used: set<string>)
    requires step > 0
    ensures forall j :: i <= j < |rows| ==> rows[j].id in used + WrittenIds(SplitFrom(rows, step, i, used))
    decreases |rows| - i
  {
    if i < |rows| {
      var c := Head(rows, step, i, used);
      UnusedMembers(rows[i..Min(i + step, |rows|)], used);
      var rest := SplitFrom(rows, step, i + step, used + IdSet(c));
      SplitCovers(rows, step, i + step, used + IdSet(c));
      var chunks := SplitFrom(rows, step, i, used);
      assert chunks == [c] + rest;
      assert chunks[1..] == rest;
      assert WrittenIds(chunks) == IdSet(c) + WrittenIds(rest);
      forall j | i <= j < |rows| && rows[j].id !in used
        ensures rows[j].id in WrittenIds(chunks)
      {
        if j < Min(i + step, |rows|) {
          assert rows[j] == rows[i..Min(i + step, |rows|)][j - i];
          assert rows[j] in c;
          IdSetHas(c, rows[j]);
        }
      }
    }
  }

  /** Every written ID is the ID of some record. */
  lemma {:induction false} SplitWritesOnlyRows(rows: seq<Record>, step: nat, i: nat, used: set<string>)
    requires step > 0
    ensures forall k, x: Record :: 0 <= k < |SplitFrom(rows, step, i, used)| && x in SplitFrom(rows, step, i, used)[k] ==> x in rows
    decreases |rows| - i
  {
    if i < |rows| {
      var c := Head(rows, step, i, used);
      UnusedMembers(rows[i..Min(i + step, |rows|)], used);
      var rest := SplitFrom(rows, step, i + step, used + IdSet(c));
      SplitWritesOnlyRows(rows, step, i + step, used + IdSet(c));
      var chunks := SplitFrom(rows, step, i, used);
      assert chunks == [c] + rest;
      forall k, x: Record | 0 <= k < |chunks| && x in chunks[k] ensures x in rows {
        if k > 0 {
          assert chunks[k] == rest[k - 1];
        } else {
          var j :| 0 <= j < |rows[i..Min(i + step, |rows|)]| && rows[i..Min(i + step, |rows|)][j] == x;
          assert x == rows[i + j];
        }
      }
    }
  }

  /** The number of blocks of `step` that cover `n` items. */
  function Blocks(n: int, step: nat): nat
    requires step > 0
    decreases n
  {
    if n <= 0 then 0 else 1 + Blocks(n - step, step)
  }

  /** (blocks − 1)·step < n ≤ blocks·step. */
  lemma {:induction false} BlocksBounds(n: int, step: nat)
    requires step > 0 && n > 0
    ensures (Blocks(n, step) - 1) * step < n <= Blocks(n, step) * step
    decreases n
  {
    if n - step > 0 {
      BlocksBounds(n - step, step);
      CountStep(Blocks(n - step, step), step, n);
    } else {
      assert Blocks(n - step, step) == 0;
    }
  }

  lemma CountStep(m: int, step: int, n: int)
    requires (m - 1) * step < n - step <= m * step
    ensures m * step < n <= (m + 1) * step
  {
    assert (m - 1) * step == m * step - step;
    assert (m + 1) * step == m * step + step;
  }

  /** From position `i`, one file per started block of `step` records. */
  lemma {:induction false} SplitCount(rows: seq<Record>, step: nat, i: nat, used: set<string>)
    requires step > 0
    ensures |SplitFrom(rows, step, i, used)| == Blocks(|rows| - i, step)
    decreases |rows| - i
  {
    if i < |rows| {
      var c := Head(rows, step, i, used);
      SplitCount(rows, step, i + step, used + IdSet(c));
    }
  }

  /** With `compounds_per_core` from `ChunkSize`, `split_sdf` writes at most two
      files per CPU; an empty library makes the step 0, which `range` refuses. */
  lemma AtMostTwoFilesPerCpu(rows: seq<Record>, ncpus: int)
    requires ncpus > 0
    ensures |rows| == 0 ==> SplitChunks(rows, ncpus) == Err(ZeroStep)
    ensures |rows| > 0 ==> SplitChunks(rows, ncpus).Ok? && |SplitChunks(rows, ncpus).value| <= 2 * ncpus
  {
    if |rows| > 0 {
      var n := |rows|;
      var step := ChunkSize(n, ncpus).value;
      assert step > 0 && n <= step * 2 * ncpus;
      var files := |SplitFrom(rows, step, 0, {})|;
      assert files == Blocks(n, step) by { SplitCount(rows, step, 0, {}); }
      assert (files - 1) * step < n by { BlocksBounds(n, step); }
      FilesBound(files, step, n, ncpus);
    } else {
      assert Ceil(0 as real / (2 * ncpus) as real) == 0;
    }
  }

  lemma FilesBound(files: int, step: int, n: int, ncpus: int)
    requires step > 0 && (files - 1) * step < n <= step * 2 * ncpus
    ensures files <= 2 * ncpus
  {
    assert step * 2 * ncpus == (2 * ncpus) * step;
    FewerBlocks(files - 1, 2 * ncpus, step);
  }

  lemma FewerBlocks(a: int, b: int, step: int)
    requires step > 0 && a * step < b * step
    ensures a < b
  {
    assert (b - a) * step > 0;
    assert (b - a) > 0;
  }

  // ---------------------------------------------------------------- split_sdf_single

  /** `split_sdf_single`: one file per record, file k holding record k − 1. */
  method SplitSdfSingle(rows: seq<Record>) returns (files: seq<seq<Record>>)
    ensures |files| == |rows|
    ensures forall k :: 0 <= k < |rows| ==> files[k] == [rows[k]]
  {
    files := [];
    var fileCounter := 1;
    for i := 0 to |rows|
      invariant fileCounter == i + 1 && |files| == i
      invariant forall k :: 0 <= k < i ==> files[k] == [rows[k]]
    {
      files := files + [rows[i..i + 1]];
      fileCounter := fileCounter + 1;
    }
  }

  /** With distinct IDs and one compound per core-pair, `split_sdf` writes the same
      files as `split_sdf_single`. */
  lemma {:induction false} SplitByOneIsSingle(rows: seq<Record>, i: nat, used: set<string>)
    requires i <= |rows|
    requires forall j :: i <= j < |rows| ==> rows[j].id !in used
    requires forall j, k :: i <= j < k < |rows| ==> rows[j].id != rows[k].id
    ensures |SplitFrom(rows, 1, i, used)| == |rows| - i
    ensures forall k :: 0 <= k < |rows| - i ==> SplitFrom(rows, 1, i, used)[k] == [rows[i + k]]
    decreases |rows| - i
  {
    if i < |rows| {
      var chunk := rows[i..i + 1];
      assert chunk == [rows[i]];
      var c := Unused(chunk, used);
      assert c == [rows[i]];
      assert IdSet(c) == {rows[i].id};
      SplitByOneIsSingle(rows, i + 1, used + IdSet(c));
    }
  }

  // ---------------------------------------------------------------- Insert_row

  /** `[*range(lo, hi)]`. */
  function IntRange(lo: int, hi: int): (r: seq<int>)
    ensures |r| == if lo <= hi then hi - lo else 0
    ensures forall k :: 0 <= k < |r| ==> r[k] == lo + k
  {
    seq(if lo <= hi then hi - lo else 0, k requires 0 <= k < (if lo <= hi then hi - lo else 0) => lo + k)
  }

  /** Rows with their index labels. */
  function Zip<T>(labels: seq<int>, rows: seq<T>): (r: seq<(int, T)>)
    requires |labels| == |rows|
    ensures |r| == |rows| && forall k :: 0 <= k < |r| ==> r[k] == (labels[k], rows[k])
  {
    seq(|rows|, k requires 0 <= k < |rows| => (labels[k], rows[k]))
  }

  function Label<T>(p: (int, T)): int { p.0 }

  predicate LabelLe<T>(a: (int, T), b: (int, T)) { a.0 <= b.0 }

  predicate LabelsAscending<T>(s: seq<(int, T)>)
  {
    forall i, j :: 0 <= i < j < |s| ==> Label(s[i]) <= Label(s[j])
  }

  predicate LabelsStrictlyAscending<T>(s: seq<(int, T)>)
  {
    forall i, j :: 0 <= i < j < |s| ==> Label(s[i]) < Label(s[j])
  }

  lemma LabelLeIsTotalPreorder<T(!new)>()
    ensures Sorting.TotalPreorder(LabelLe<T>)
  {
  }

  datatype FrameError = LengthMismatch   // ValueError when the new index has the wrong length

  /** A pandas frame reduced to what `Insert_row` touches: its index labels and rows. */
  class LabelledFrame<T(!new)> {
    var labels: seq<int>
    var rows: seq<T>

    ghost predicate Valid()
      reads this
    {
      |labels| == |rows|
    }

    constructor(labels: seq<int>, rows: seq<T>)
      requires |labels| == |rows|
      ensures Valid() && this.labels == labels && this.rows == rows
    {
      this.labels := labels;
      this.rows := rows;
    }

    function Pairs(): seq<(int, T)>
      reads this
      requires Valid()
    {
      Zip(labels, rows)
    }

    /** `df.index = index_`: refused when the lengths differ. */
    method SetIndex(index: seq<int>) returns (r: Result<(), FrameError>)
      requires Valid()
      modifies this
      ensures Valid() && rows == old(rows)
      ensures r.Ok? <==> |index| == |old(rows)|
      ensures labels == if r.Ok? then index else old(labels)
    {
      if |index| != |rows| {
        return Err(LengthMismatch);
      }
      labels := index;
      return Ok(());
    }

    /** `df.loc[label] = value`: overwrites the rows with that label, or appends a row. */
    method SetRow(key: int, value: T)
      requires Valid()
      modifies this
      ensures Valid()
      ensures key in old(labels) ==>
                labels == old(labels) && |rows| == |old(rows)| &&
                forall k :: 0 <= k < |rows| ==> rows[k] == if labels[k] == key then value else old(rows)[k]
      ensures key !in old(labels) ==> labels == old(labels) + [key] && rows == old(rows) + [value]
    {
      if key in labels {
        var ls, rs := labels, rows;
        rows := seq(|rs|, k requires 0 <= k < |rs| => if ls[k] == key then value else rs[k]);
      } else {
        labels := labels + [key];
        rows := rows + [value];
      }
    }

    /** `df.sort_index()`: a new frame with the rows ordered by label. */
    method SortIndex() returns (sorted: LabelledFrame<T>)
      requires Valid()
      ensures fresh(sorted) && sorted.Valid()
      ensures sorted.Pairs() == Sorting.Sort(Pairs(), LabelLe<T>)
    {
      var pairs := Sorting.Sort(Pairs(), LabelLe<T>);
      var ls := seq(|pairs|, k requires 0 <= k < |pairs| => pairs[k].0);
      var rs := seq(|pairs|, k requires 0 <= k < |pairs| => pairs[k].1);
      sorted := new LabelledFrame(ls, rs);
      assert sorted.Pairs() == pairs;
    }
  }

  /** The rows in label order after `Insert_row`: the new row lands at position `r`. */
  lemma InsertedOrder<T(!new)>(rows: seq<T>, r: int, v: T)
    requires 0 <= r <= |rows|
    ensures var index := IntRange(0, r) + IntRange(r + 1, |rows| + 1) + [r];
            Sorting.Sort(Zip(index, rows + [v]), LabelLe<T>) ==
            Zip(IntRange(0, |rows| + 1), rows[..r] + [v] + rows[r..])
  {
    var index := IntRange(0, r) + IntRange(r + 1, |rows| + 1) + [r];
    var source := Zip(index, rows + [v]);
    var target := Zip(IntRange(0, |rows| + 1), rows[..r] + [v] + rows[r..]);
    SamePairs(rows, r, v);
    var sorted := Sorting.Sort(source, LabelLe<T>);
    LabelSorted(source);
    LabelsStrict(rows, r, v);
    Sorting.SortedByKeyUnique(sorted, target, Label);
  }

  /** The relabelled frame and the expected frame hold the same labelled rows. */
  lemma SamePairs<T>(rows: seq<T>, r: int, v: T)
    requires 0 <= r <= |rows|
    ensures multiset(Zip(IntRange(0, r) + IntRange(r + 1, |rows| + 1) + [r], rows + [v])) ==
            multiset(Zip(IntRange(0, |rows| + 1), rows[..r] + [v] + rows[r..]))
  {
    var low := Zip(IntRange(0, r), rows[..r]);
    var high := Zip(IntRange(r + 1, |rows| + 1), rows[r..]);
    SourcePairs(rows, r, v);
    TargetPairs(rows, r, v);
    assert multiset(low + high + [(r, v)]) == multiset(low + [(r, v)] + high);
  }

  /** The labels of the rows moved down, then the new label, paired with the rows and the new row. */
  lemma SourcePairs<T>(rows: seq<T>, r: int, v: T)
    requires 0 <= r <= |rows|
    ensures Zip(IntRange(0, r) + IntRange(r + 1, |rows| + 1) + [r], rows + [v]) ==
            Zip(IntRange(0, r), rows[..r]) + Zip(IntRange(r + 1, |rows| + 1), rows[r..]) + [(r, v)]
  {
    assert rows == rows[..r] + rows[r..];
    ZipAppend(IntRange(0, r) + IntRange(r + 1, |rows| + 1), [r], rows, [v]);
    ZipAppend(IntRange(0, r), IntRange(r + 1, |rows| + 1), rows[..r], rows[r..]);
  }

  /** The consecutive labels paired with the rows after the insertion. */
  lemma TargetPairs<T>(rows: seq<T>, r: int, v: T)
    requires 0 <= r <= |rows|
    ensures Zip(IntRange(0, |rows| + 1), rows[..r] + [v] + rows[r..]) ==
            Zip(IntRange(0, r), rows[..r]) + [(r, v)] + Zip(IntRange(r + 1, |rows| + 1), rows[r..])
  {
    assert IntRange(0, |rows| + 1) == IntRange(0, r) + [r] + IntRange(r + 1, |rows| + 1);
    ZipAppend(IntRange(0, r) + [r], IntRange(r + 1, |rows| + 1), rows[..r] + [v], rows[r..]);
    ZipAppend(IntRange(0, r), [r], rows[..r], [v]);
  }

  lemma ZipAppend<T>(a: seq<int>, b: seq<int>, c: seq<T>, d: seq<T>)
    requires |a| == |c| && |b| == |d|
    ensures Zip(a + b, c + d) == Zip(a, c) + Zip(b, d)
  {
  }

  /** Sorting by label leaves the labels in non-decreasing order. */
  lemma LabelSorted<T(!new)>(source: seq<(int, T)>)
    ensures LabelsAscending(Sorting.Sort(source, LabelLe<T>))
  {
    LabelLeIsTotalPreorder<T>();
    Sorting.SortSorted(source, LabelLe<T>);
    var sorted := Sorting.Sort(source, LabelLe<T>);
    forall i, j | 0 <= i < j < |sorted| ensures Label(sorted[i]) <= Label(sorted[j]) {
      assert LabelLe(sorted[i], sorted[j]);
    }
  }

  /** The expected frame's labels 0 … N strictly increase. */
  lemma LabelsStrict<T>(rows: seq<T>, r: int, v: T)
    requires 0 <= r <= |rows|
    ensures LabelsStrictlyAscending(Zip(IntRange(0, |rows| + 1), rows[..r] + [v] + rows[r..]))
  {
  }

  /** `Insert_row(row_number, df, row_value)`: relabels `df` in place with a gap at
      `row_number`, appends the row under that label, and returns the frame sorted
      by label. A row number outside 0 … len(df) makes the relabelling fail. */
  method InsertRow<T(!new)>(rowNumber: int, df: LabelledFrame<T>, value: T) returns (r: Result<LabelledFrame<T>, FrameError>)
    requires df.Valid()
    modifies df
    ensures df.Valid()
    ensures r.Ok? <==> 0 <= rowNumber <= |old(df.rows)|
    ensures r.Ok? ==>
              fresh(r.value) && r.value.Valid() &&
              r.value.rows == old(df.rows)[..rowNumber] + [value] + old(df.rows)[rowNumber..] &&
              r.value.labels == IntRange(0, |old(df.rows)| + 1)
    ensures r.Ok? ==>
              df.rows == old(df.rows) + [value] &&
              df.labels == IntRange(0, rowNumber) + IntRange(rowNumber + 1, |old(df.rows)| + 1) + [rowNumber]
    ensures r.Err? ==> df.rows == old(df.rows) && df.labels == old(df.labels)
  {
    var n := |df.rows|;
    var upper := IntRange(0, rowNumber);
    var lower := IntRange(rowNumber, n);
    lower := seq(|lower|, k requires 0 <= k < |lower| => lower[k] + 1);
    assert lower == IntRange(rowNumber + 1, n + 1);
    var set_ := df.SetIndex(upper + lower);
    if set_.Err? {
      return Err(LengthMismatch);
    }
    assert rowNumber !in df.labels;
    df.SetRow(rowNumber, value);
    var sorted := df.SortIndex();
    InsertedOrder(old(df.rows), rowNumber, value);
    var expected := Zip(IntRange(0, n + 1), old(df.rows)[..rowNumber] + [value] + old(df.rows)[rowNumber..]);
    assert sorted.Pairs() == expected;
    assert sorted.rows == old(df.rows)[..rowNumber] + [value] + old(df.rows)[rowNumber..] by {
      forall k | 0 <= k < |sorted.rows| ensures sorted.rows[k] == expected[k].1 {
        assert sorted.Pairs()[k] == (sorted.labels[k], sorted.rows[k]);
      }
    }
    assert sorted.labels == IntRange(0, n + 1) by {
      forall k | 0 <= k < |sorted.labels| ensures sorted.labels[k] == expected[k].0 {
        assert sorted.Pairs()[k] == (sorted.labels[k], sorted.rows[k]);
      }
    }
    return Ok(sorted);
  }

  // ---------------------------------------------------------------- file names

  /** The characters a PDBQT file name keeps. */
  predicate FileNameChar(c: char) { IsAlnum(c) || c == ' ' || c == '.' || c == '_' }

  /** The title `convert_molecule` starts from: the molecule's own, or `molecule_<idx>`
      when that is empty. */
  function NameSource(title: string, idx: nat): string
  {
    if title == [] then "molecule_" + NatToString(idx) else title
  }

  /** The output name of `convert_molecule`: the title with every character other than
      the alphanumerics, space, `.` and `_` dropped, and then trailing spaces removed.
      So the name is the filtered title less a run of trailing spaces, every valid
      character of the title other than the space survives, and an empty title gives
      `molecule_<idx>` itself. */
  function ValidFileName(title: string, idx: nat): (r: string)
    ensures forall i :: 0 <= i < |r| ==> FileNameChar(r[i])
    ensures r == [] || !IsSpace(r[|r| - 1])
    ensures var kept := Filter(NameSource(title, idx), FileNameChar);
      |r| <= |kept| && r == kept[..|r|] && forall i :: |r| <= i < |kept| ==> kept[i] == ' '
    ensures forall c :: c in title && FileNameChar(c) && c != ' ' ==> c in r
    ensures title == [] ==> r == "molecule_" + NatToString(idx)
  {
    StrippedName(title, idx);
    DefaultNameKept(title, idx);
    RStrip(Filter(NameSource(title, idx), FileNameChar))
  }

  lemma StrippedName(title: string, idx: nat)
    ensures var kept := Filter(NameSource(title, idx), FileNameChar); var r := RStrip(kept);
      (forall i :: 0 <= i < |r| ==> FileNameChar(r[i])) &&
      |r| <= |kept| && r == kept[..|r|] && (forall i :: |r| <= i < |kept| ==> kept[i] == ' ') &&
      forall c :: c in title && FileNameChar(c) && c != ' ' ==> c in r
  {
    var kept := Filter(NameSource(title, idx), FileNameChar);
    FilterMembers(NameSource(title, idx), FileNameChar);
    RStripRemovesSpaces(kept);
    StripKeepsNonSpaces(kept);
    var r := RStrip(kept);
    assert forall i :: |r| <= i < |kept| ==> kept[i] == ' ' by {
      forall i | |r| <= i < |kept| ensures kept[i] == ' ' {
        assert IsSpace(kept[i]) && FileNameChar(kept[i]);
      }
    }
    assert forall c :: c in title && FileNameChar(c) && c != ' ' ==> c in kept && !IsSpace(c);
  }

  lemma StripKeepsNonSpaces(s: string)
    ensures var r := RStrip(s); forall c :: c in s && !IsSpace(c) ==> c in r
  {
    var r := RStrip(s);
    RStripRemovesSpaces(s);
    forall c | c in s && !IsSpace(c) ensures c in r {
      var i :| 0 <= i < |s| && s[i] == c;
      assert i < |r|;
      assert r[i] == c;
    }
  }

  lemma DefaultNameKept(title: string, idx: nat)
    ensures title == [] ==> RStrip(Filter(NameSource(title, idx), FileNameChar)) == "molecule_" + NatToString(idx)
  {
    if title == [] {
      var name := "molecule_" + NatToString(idx);
      assert forall i :: 0 <= i < |name| ==> FileNameChar(name[i]) by {
        forall i | 0 <= i < |name| ensures FileNameChar(name[i]) {
          if i >= 9 {
            assert name[i] == NatToString(idx)[i - 9];
          }
        }
      }
      FilterKeepsAll(name, FileNameChar);
      assert IsDigit(name[|name| - 1]);
      RStripKeeps(name);
    }
  }

  /** A name that is already valid comes back unchanged. */
  lemma ValidFileNameIdempotent(title: string, idx: nat)
    requires ValidFileName(title, idx) != []
    ensures ValidFileName(ValidFileName(title, idx), idx) == ValidFileName(title, idx)
  {
    var r := ValidFileName(title, idx);
    FilterKeepsAll(r, FileNameChar);
    RStripKeeps(r);
  }

  /** A non-empty title made of valid characters and not ending in white space is
      its own file name. */
  lemma ValidTitleKept(title: string, idx: nat)
    requires title != [] && !IsSpace(title[|title| - 1])
    requires forall i :: 0 <= i < |title| ==> FileNameChar(title[i])
    ensures ValidFileName(title, idx) == title
  {
    FilterKeepsAll(title, FileNameChar);
    RStripKeeps(title);
  }

  lemma RStripKeeps(s: string)
    requires s == [] || !IsSpace(s[|s| - 1])
    ensures RStrip(s) == s
  {
  }

  // ---------------------------------------------------------------- PDBQT to PDB

  /** `line[:66]`. */
  function Truncate(line: string): (r: string)
    ensures |r| == if |line| < 66 then |line| else 66
    ensures r == line[..|r|]
  {
    if |line| <= 66 then line else line[..66]
  }

  /** The PDB block built from the PDBQT lines: each line cut to 66 characters,
      followed by a newline. */
  function PdbBlockOf(lines: seq<string>): (block: string)
  {
    if lines == [] then "" else PdbBlockOf(lines[..|lines| - 1]) + Truncate(lines[|lines| - 1]) + "\n"
  }

  /** Lines 196-198: the block accumulated line by line. */
  method PdbBlock(lines: seq<string>) returns (block: string)
    ensures block == PdbBlockOf(lines)
  {
    block := "";
    for k := 0 to |lines|
      invariant block == PdbBlockOf(lines[..k])
    {
      assert lines[..k + 1][..k] == lines[..k];
      block := block + Truncate(lines[k]) + "\n";
    }
    assert lines[..|lines|] == lines;
  }

  /** Each line contributes at most 67 characters, and exactly its 66-character
      prefix plus a newline when it is that long. */
  lemma {:induction false} PdbBlockLength(lines: seq<string>)
    ensures |PdbBlockOf(lines)| <= 67 * |lines|
    ensures (forall k :: 0 <= k < |lines| ==> |lines[k]| >= 66) ==> |PdbBlockOf(lines)| == 67 * |lines|
  {
    if lines != [] {
      PdbBlockLength(lines[..|lines| - 1]);
    }
  }

  /** The block ends each line with a newline, so its newlines number at least the lines. */
  lemma {:induction false} PdbBlockEndsLines(lines: seq<string>)
    requires lines != []
    ensures PdbBlockOf(lines)[|PdbBlockOf(lines)| - 1] == '\n'
  {
  }

  // ---------------------------------------------------------------- load_molecule

  /** The reader `load_molecule` ends up using. */
  datatype Reader = Mol2File | MolFile | SdfFirstRecord | PdbqtBlock | PdbFile

  /** What `load_molecule` hands back: a molecule read by some reader, or a
      `ValueError` object returned as a value. */
  datatype Loaded = Molecule(reader: Reader) | ReturnedValueError(path: string)

  /** As written: an `if` for `.mol2` followed by a separate `if/elif` chain, so a
      `.mol2` path is parsed and then falls to the final `else`. */
  function LoadMoleculeAsWritten(path: string): (r: Loaded)
    ensures r.Molecule? <==> EndsWith(path, ".mol") || EndsWith(path, ".sdf") || EndsWith(path, ".pdbqt") || EndsWith(path, ".pdb")
  {
    if EndsWith(path, ".mol") then Molecule(MolFile)
    else if EndsWith(path, ".sdf") then Molecule(SdfFirstRecord)
    else if EndsWith(path, ".pdbqt") then Molecule(PdbqtBlock)
    else if EndsWith(path, ".pdb") then Molecule(PdbFile)
    else ReturnedValueError(path)
  }

  /** A `.mol2` file, a documented format, comes back as a ValueError. */
  lemma Mol2IsRejected()
    ensures LoadMoleculeAsWritten("ligand.mol2") == ReturnedValueError("ligand.mol2")
  {
    assert !EndsWith("ligand.mol2", ".mol");
    assert !EndsWith("ligand.mol2", ".pdb");
  }

  /** As intended: one `if/elif` chain over the five documented formats. */
  function LoadMolecule(path: string): (r: Loaded)
    ensures r.Molecule? <==> EndsWith(path, ".mol2") || EndsWith(path, ".mol") || EndsWith(path, ".sdf") || EndsWith(path, ".pdbqt") || EndsWith(path, ".pdb")
    ensures EndsWith(path, ".mol2") ==> r == Molecule(Mol2File)
    ensures !EndsWith(path, ".mol2") ==> r == LoadMoleculeAsWritten(path)
  {
    if EndsWith(path, ".mol2") then Molecule(Mol2File) else LoadMoleculeAsWritten(path)
  }
}
