/** Pose bookkeeping around the docking programs (scripts/docking_functions.py):
    the cyclic pose numbers given to the poses a program writes, their Pose IDs,
    splitting a multi-model PDBQT file at `ENDMDL` lines and naming each model,
    the PLANTS pose IDs, and which programs a sequential run starts. The docking
    programs themselves are not modelled. */
module Docking {
  import opened Wrappers
  import opened Text
  import Clustering

  // ---------------------------------------------------------------- pose numbers

  /** `[*range(1, n + 1)]`. */
  function OneTo(n: int): (r: seq<nat>)
    ensures |r| == if n > 0 then n else 0
    ensures forall k :: 0 <= k < |r| ==> r[k] == k + 1
  {
    if n <= 0 then [] else OneTo(n - 1) + [n]
  }

  /** `list_ * times`. */
  function Repeated(s: seq<nat>, times: nat): (r: seq<nat>)
    ensures |r| == |s| * times
    ensures forall k :: 0 <= k < |r| ==> r[k] == s[k % |s|]
  {
    if times == 0 then []
    else
      var r := Repeated(s, times - 1) + s;
      assert |r| == |s| * (times - 1) + |s|;
      forall k | |s| * (times - 1) <= k < |r| ensures r[k] == s[k % |s|] {
        ModShift(k - |s| * (times - 1), |s|, times - 1);
      }
      r
  }

  lemma ModShift(j: nat, n: nat, m: nat)
    requires j < n
    ensures (n * m + j) % n == j
  {
    ModUnique(n * m + j, n, m, j);
  }

  /** The remainder is the only r in [0, n) with x = q·n + r. */
  lemma ModUnique(x: int, n: int, q: int, r: int)
    requires n > 0 && 0 <= r < n && x == q * n + r
    ensures x % n == r
  {
    var q0 := x / n;
    var r0 := x % n;
    assert x == q0 * n + r0;
    var d := q - q0;
    assert d * n == r0 - r by {
      assert q * n - q0 * n == (q - q0) * n;
    }
    if d >= 1 {
      MulMono(n, 1, d);
      assert false;
    }
    if d <= -1 {
      MulMono(n, d, -1);
      assert false;
    }
  }

  lemma MulMono(n: nat, a: int, b: int)
    requires a <= b
    ensures n * a <= n * b
  {
    assert n * b - n * a == n * (b - a);
  }

  datatype NumberingError = NoPoseNumbers   // ZeroDivisionError: n_poses < 1 leaves `list_` empty

  /** The pose numbers given to `count` poses (lines 304-306, and the same expression
      for GNINA, PLANTS and the split runs): `list_` repeated `count // n_poses` times,
      then the first `count - len(ser)` numbers once more. */
  function PoseNumbers(count: nat, nPoses: int): (r: Result<seq<nat>, NumberingError>)
    ensures r.Ok? <==> nPoses > 0
    ensures r.Ok? ==> |r.value| == count && forall k :: 0 <= k < count ==> r.value[k] == k % nPoses + 1
  {
    var list := OneTo(nPoses);
    if |list| == 0 then Err(NoPoseNumbers)
    else
      var ser := Repeated(list, count / |list|);
      var numbers := ser + list[..count - |ser|];
      assert |numbers| == count;
      forall k | 0 <= k < count ensures numbers[k] == k % nPoses + 1 {
        if k >= |ser| {
          ModShift(k - |ser|, nPoses, count / nPoses);
        }
      }
      Ok(numbers)
  }

  /** `f"{ID}_{PROGRAM}_{num}"`. */
  function PoseId(id: string, program: string, num: nat): string
  {
    id + "_" + program + "_" + NatToString(num)
  }

  /** The `Pose ID` column a program's poses receive, one per row in order. */
  function PoseIds(ids: seq<string>, program: string, nPoses: int): (r: Result<seq<string>, NumberingError>)
    ensures r.Ok? <==> nPoses > 0
    ensures r.Ok? ==> |r.value| == |ids| && forall k :: 0 <= k < |ids| ==> r.value[k] == PoseId(ids[k], program, k % nPoses + 1)
  {
    match PoseNumbers(|ids|, nPoses)
    case Err(e) => Err(e)
    case Ok(numbers) => Ok(seq(|ids|, k requires 0 <= k < |ids| => PoseId(ids[k], program, numbers[k])))
  }

  /** When every molecule has exactly `n_poses` rows in a block, the poses of each
      block are numbered 1 … n_poses. */
  lemma BlocksNumberedFromOne(count: nat, nPoses: nat, block: nat, j: nat)
    requires nPoses > 0 && j < nPoses && block * nPoses + j < count
    ensures PoseNumbers(count, nPoses).value[block * nPoses + j] == j + 1
  {
    ModShift(j, nPoses, block);
  }

  // ---------------------------------------------------------------- PDBQT models

  predicate IsModelEnd(line: string) { StartsWith(line, "ENDMDL") }

  /** The lines of a sequence of models, in order. */
  function Flatten(models: seq<seq<string>>): seq<string>
  {
    if models == [] then [] else Flatten(models[..|models| - 1]) + models[|models| - 1]
  }

  /** A model as the split produces it: its last line starts with `ENDMDL`, and no
      other line does. */
  predicate WholeModel(m: seq<string>)
  {
    |m| > 0 && IsModelEnd(m[|m| - 1]) && forall i :: 0 <= i < |m| - 1 ==> !IsModelEnd(m[i])
  }

  /** Lines 98-104: collect lines into the current model and close it at each
      `ENDMDL` line. The models are the input up to its last `ENDMDL`; the lines after
      it belong to no model. */
  method SplitModels(lines: seq<string>) returns (models: seq<seq<string>>)
    ensures forall k :: 0 <= k < |models| ==> WholeModel(models[k])
    ensures |Flatten(models)| <= |lines| && lines[..|Flatten(models)|] == Flatten(models)
    ensures forall i :: |Flatten(models)| <= i < |lines| ==> !IsModelEnd(lines[i])
  {
    models := [];
    var current: seq<string> := [];
    for i := 0 to |lines|
      invariant forall k :: 0 <= k < |models| ==> WholeModel(models[k])
      invariant Flatten(models) + current == lines[..i]
      invariant forall j :: 0 <= j < |current| ==> !IsModelEnd(current[j])
    {
      assert lines[..i + 1] == lines[..i] + [lines[i]];
      current := current + [lines[i]];
      if IsModelEnd(lines[i]) {
        FlattenSnoc(models, current);
        models := models + [current];
        current := [];
      }
    }
    assert lines[..|lines|] == lines;
    var t := |Flatten(models)|;
    assert lines[..t] == Flatten(models);
    forall i | t <= i < |lines| ensures !IsModelEnd(lines[i]) {
      assert lines[i] == current[i - t];
    }
  }

  lemma FlattenSnoc(models: seq<seq<string>>, m: seq<string>)
    ensures Flatten(models + [m]) == Flatten(models) + m
  {
    assert (models + [m])[..|models|] == models;
  }

  /** The number of `ENDMDL` lines. */
  function CountEnds(lines: seq<string>): nat
  {
    if lines == [] then 0 else CountEnds(lines[..|lines| - 1]) + (if IsModelEnd(lines[|lines| - 1]) then 1 else 0)
  }

  lemma {:induction false} CountEndsAppend(a: seq<string>, b: seq<string>)
    ensures CountEnds(a + b) == CountEnds(a) + CountEnds(b)
    decreases |b|
  {
    if b != [] {
      CountEndsAppend(a, b[..|b| - 1]);
      assert (a + b)[..|a + b| - 1] == a + b[..|b| - 1];
      assert (a + b)[|a + b| - 1] == b[|b| - 1];
    } else {
      assert a + b == a;
    }
  }

  lemma {:induction false} CountEndsNone(lines: seq<string>)
    requires forall i :: 0 <= i < |lines| ==> !IsModelEnd(lines[i])
    ensures CountEnds(lines) == 0
  {
    if lines != [] {
      CountEndsNone(lines[..|lines| - 1]);
    }
  }

  lemma {:induction false} CountEndsFlatten(models: seq<seq<string>>)
    requires forall k :: 0 <= k < |models| ==> WholeModel(models[k])
    ensures CountEnds(Flatten(models)) == |models|
  {
    if models != [] {
      var m := models[|models| - 1];
      CountEndsFlatten(models[..|models| - 1]);
      CountEndsAppend(Flatten(models[..|models| - 1]), m);
      CountEndsNone(m[..|m| - 1]);
      assert m == m[..|m| - 1] + [m[|m| - 1]];
      CountEndsAppend(m[..|m| - 1], [m[|m| - 1]]);
      assert CountEnds([m[|m| - 1]]) == 1 by {
        assert [m[|m| - 1]][..0] == [];
      }
    }
  }

  /** A split of this shape has one model per `ENDMDL` line. */
  lemma ModelCount(lines: seq<string>, models: seq<seq<string>>)
    requires forall k :: 0 <= k < |models| ==> WholeModel(models[k])
    requires |Flatten(models)| <= |lines| && lines[..|Flatten(models)|] == Flatten(models)
    requires forall i :: |Flatten(models)| <= i < |lines| ==> !IsModelEnd(lines[i])
    ensures |models| == CountEnds(lines)
  {
    var t := |Flatten(models)|;
    assert lines == lines[..t] + lines[t..];
    CountEndsAppend(lines[..t], lines[t..]);
    CountEndsNone(lines[t..]);
    CountEndsFlatten(models);
  }

  // ---------------------------------------------------------------- model numbers

  datatype NamingError =
    | NoModelNumber             // `model_number` read before any `MODEL` line assigned it
    | BadModelNumber(line: string)   // `int(line.split()[-1])` fails

  /** The first line of a model that starts with `MODEL`. */
  function FirstModelLine(model: seq<string>): (r: Option<string>)
    ensures r.Some? ==> r.value in model && StartsWith(r.value, "MODEL")
    ensures r.None? ==> forall i :: 0 <= i < |model| ==> !StartsWith(model[i], "MODEL")
  {
    if model == [] then None
    else if StartsWith(model[0], "MODEL") then Some(model[0])
    else FirstModelLine(model[1..])
  }

  /** Lines 106-110: the last token of the first `MODEL` line, read as an integer; a
      model without such a line keeps the number of the model before it. */
  function ModelNumber(model: seq<string>, previous: Option<int>): (r: Result<int, NamingError>)
    ensures FirstModelLine(model).None? ==> (r.Ok? <==> previous.Some?) && (r.Ok? ==> r.value == previous.value)
  {
    match FirstModelLine(model)
    case None => if previous.Some? then Ok(previous.value) else Err(NoModelNumber)
    case Some(line) =>
      var tokens := Tokens(line);
      if tokens == [] then Err(BadModelNumber(line))
      else match ParseInt(tokens[|tokens| - 1])
        case None => Err(BadModelNumber(line))
        case Some(n) => Ok(n)
  }

  /** `f"{file.stem}_{LABEL}_{model_number}.pdbqt"`. */
  function ModelFileName(stem: string, tag: string, number: int): string
  {
    stem + "_" + tag + "_" + IntToString(number) + ".pdbqt"
  }

  function IntToString(n: int): string
  {
    if n < 0 then "-" + NatToString(-n) else NatToString(n)
  }

  /** The file names given to the models in order, carrying the model number from one
      model to the next; the first failure ends the pass. */
  function ModelFileNames(stem: string, tag: string, models: seq<seq<string>>, previous: Option<int>): (r: Result<seq<string>, NamingError>)
    ensures r.Ok? ==> |r.value| == |models|
  {
    if models == [] then Ok([])
    else match ModelNumber(models[0], previous)
      case Err(e) => Err(e)
      case Ok(n) =>
        match ModelFileNames(stem, tag, models[1..], Some(n))
        case Err(e) => Err(e)
        case Ok(rest) => Ok([ModelFileName(stem, tag, n)] + rest)
  }

  /** The names already given, followed by those still to come. */
  function After(names: seq<string>, rest: Result<seq<string>, NamingError>): Result<seq<string>, NamingError>
  {
    if rest.Ok? then Ok(names + rest.value) else rest
  }

  /** Naming one more model moves its name from what is to come to what is given. */
  lemma NameStep(stem: string, tag: string, names: seq<string>, models: seq<seq<string>>, previous: Option<int>)
    requires models != [] && ModelNumber(models[0], previous).Ok?
    ensures var n := ModelNumber(models[0], previous).value;
            After(names, ModelFileNames(stem, tag, models, previous)) ==
            After(names + [ModelFileName(stem, tag, n)], ModelFileNames(stem, tag, models[1..], Some(n)))
  {
    var n := ModelNumber(models[0], previous).value;
    var rest := ModelFileNames(stem, tag, models[1..], Some(n));
    if rest.Ok? {
      assert names + ([ModelFileName(stem, tag, n)] + rest.value) == (names + [ModelFileName(stem, tag, n)]) + rest.value;
    }
  }

  /** The model number left in `model_number` once the models of one file are named:
      the loop variable is never reset, so it carries over to the next file. */
  function NumberAfter(models: seq<seq<string>>, previous: Option<int>): Option<int>
  {
    if models == [] then previous
    else match ModelNumber(models[0], previous)
      case Err(_) => None
      case Ok(n) => NumberAfter(models[1..], Some(n))
  }

  /** Lines 105-113: name each model of one PDBQT file, starting from the number the
      previous file left behind, and return the number this file leaves behind. */
  method NameModels(stem: string, tag: string, models: seq<seq<string>>, previous: Option<int>)
    returns (r: Result<seq<string>, NamingError>, carried: Option<int>)
    ensures r == ModelFileNames(stem, tag, models, previous)
    ensures r.Ok? ==> carried == NumberAfter(models, previous)
  {
    var names: seq<string> := [];
    var modelNumber := previous;
    assert models[0..] == models;
    assert After([], ModelFileNames(stem, tag, models, previous)) == ModelFileNames(stem, tag, models, previous) by {
      var all := ModelFileNames(stem, tag, models, previous);
      if all.Ok? {
        assert [] + all.value == all.value;
      }
    }
    for i := 0 to |models|
      invariant ModelFileNames(stem, tag, models, previous) == After(names, ModelFileNames(stem, tag, models[i..], modelNumber))
      invariant NumberAfter(models, previous) == NumberAfter(models[i..], modelNumber)
    {
      assert models[i..][1..] == models[i + 1..];
      assert models[i..][0] == models[i];
      var n := ModelNumber(models[i], modelNumber);
      if n.Err? {
        assert ModelFileNames(stem, tag, models[i..], modelNumber) == Err(n.error);
        return Err(n.error), None;
      }
      NameStep(stem, tag, names, models[i..], modelNumber);
      modelNumber := Some(n.value);
      names := names + [ModelFileName(stem, tag, n.value)];
    }
    assert models[|models|..] == [];
    assert names + [] == names;
    return Ok(names), modelNumber;
  }

  /** The models of one result file, named after the file's stem. */
  datatype ResultFile = ResultFile(stem: string, models: seq<seq<string>>)

  /** Lines 93-113: the names of every file's models, the model number carrying over
      from one file to the next; the first failure ends the pass. */
  function FilesModelNames(tag: string, files: seq<ResultFile>, previous: Option<int>): (r: Result<seq<seq<string>>, NamingError>)
    ensures r.Ok? ==> |r.value| == |files| && forall k :: 0 <= k < |files| ==> |r.value[k]| == |files[k].models|
  {
    if files == [] then Ok([])
    else match ModelFileNames(files[0].stem, tag, files[0].models, previous)
      case Err(e) => Err(e)
      case Ok(names) =>
        match FilesModelNames(tag, files[1..], NumberAfter(files[0].models, previous))
        case Err(e) => Err(e)
        case Ok(rest) => Ok([names] + rest)
  }

  /** The names already given per file, followed by those still to come. */
  function FilesAfter(names: seq<seq<string>>, rest: Result<seq<seq<string>>, NamingError>): Result<seq<seq<string>>, NamingError>
  {
    if rest.Ok? then Ok(names + rest.value) else rest
  }

  /** Naming one more file moves its names from what is to come to what is given. */
  lemma FilesStep(tag: string, names: seq<seq<string>>, files: seq<ResultFile>, previous: Option<int>)
    requires files != [] && ModelFileNames(files[0].stem, tag, files[0].models, previous).Ok?
    ensures var first := ModelFileNames(files[0].stem, tag, files[0].models, previous).value;
            FilesAfter(names, FilesModelNames(tag, files, previous)) ==
            FilesAfter(names + [first], FilesModelNames(tag, files[1..], NumberAfter(files[0].models, previous)))
  {
    var first := ModelFileNames(files[0].stem, tag, files[0].models, previous).value;
    var rest := FilesModelNames(tag, files[1..], NumberAfter(files[0].models, previous));
    if rest.Ok? {
      assert names + ([first] + rest.value) == (names + [first]) + rest.value;
    }
  }

  /** Lines 93-113: the loop over the result files, threading `model_number`. */
  method NameFiles(tag: string, files: seq<ResultFile>) returns (r: Result<seq<seq<string>>, NamingError>)
    ensures r == FilesModelNames(tag, files, None)
  {
    var names: seq<seq<string>> := [];
    var modelNumber: Option<int> := None;
    assert files[0..] == files;
    assert FilesAfter([], FilesModelNames(tag, files, None)) == FilesModelNames(tag, files, None) by {
      var all := FilesModelNames(tag, files, None);
      if all.Ok? {
        assert [] + all.value == all.value;
      }
    }
    for i := 0 to |files|
      invariant FilesModelNames(tag, files, None) == FilesAfter(names, FilesModelNames(tag, files[i..], modelNumber))
    {
      assert files[i..][1..] == files[i + 1..];
      assert files[i..][0] == files[i];
      var fileNames, carried := NameModels(files[i].stem, tag, files[i].models, modelNumber);
      if fileNames.Err? {
        return Err(fileNames.error);
      }
      FilesStep(tag, names, files[i..], modelNumber);
      modelNumber := carried;
      names := names + [fileNames.value];
    }
    assert files[|files|..] == [];
    assert names + [] == names;
    return Ok(names);
  }

  /** A file whose first model has no `MODEL` line names it with the number the
      previous file's last model left behind. */
  lemma NumberCarriedToNextFile(tag: string, first: ResultFile, second: ResultFile)
    requires ModelFileNames(first.stem, tag, first.models, None).Ok? && first.models != []
    requires second.models != [] && FirstModelLine(second.models[0]).None?
    ensures NumberAfter(first.models, None).Some?
    ensures var r := FilesModelNames(tag, [first, second], None);
            r.Ok? ==> r.value[1][0] == ModelFileName(second.stem, tag, NumberAfter(first.models, None).value)
  {
    NumberAfterDefined(first.stem, tag, first.models, None);
    var p := NumberAfter(first.models, None).value;
    assert [first, second][1..] == [second];
    assert ModelNumber(second.models[0], Some(p)) == Ok(p);
  }

  /** Naming that succeeds on a non-empty file leaves a model number behind. */
  lemma {:induction false} NumberAfterDefined(stem: string, tag: string, models: seq<seq<string>>, previous: Option<int>)
    requires ModelFileNames(stem, tag, models, previous).Ok?
    requires models != [] || previous.Some?
    ensures NumberAfter(models, previous).Some?
  {
    if models != [] {
      var n := ModelNumber(models[0], previous).value;
      NumberAfterDefined(stem, tag, models[1..], Some(n));
    }
  }

  lemma TokensOfWord(a: string, rest: string)
    requires |a| > 0 && forall i :: 0 <= i < |a| ==> !IsSpace(a[i])
    requires rest == [] || IsSpace(rest[0])
    ensures Tokens(a + rest) == [a] + Tokens(rest)
  {
    WordOf(a, rest);
    assert (a + rest)[|a|..] == rest;
  }

  lemma {:induction false} WordOf(a: string, rest: string)
    requires forall i :: 0 <= i < |a| ==> !IsSpace(a[i])
    requires rest == [] || IsSpace(rest[0])
    ensures Word(a + rest) == a
  {
    if a == [] {
      assert a + rest == rest;
    } else {
      WordOf(a[1..], rest);
      assert (a + rest)[1..] == a[1..] + rest;
    }
  }

  /** `"MODEL <n>\n".split()` is `["MODEL", "<n>"]`. */
  lemma HeaderTokens(d: string)
    requires IsDigits(d)
    ensures Tokens("MODEL " + d + "\n") == ["MODEL", d]
  {
    var line := "MODEL " + d + "\n";
    assert line == "MODEL" + (" " + d + "\n");
    TokensOfWord("MODEL", " " + d + "\n");
    NumberTokens(d);
  }

  lemma NumberTokens(d: string)
    requires IsDigits(d)
    ensures Tokens(" " + d + "\n") == [d]
  {
    assert Tokens(" " + d + "\n") == Tokens(d + "\n") by {
      assert (" " + d + "\n")[1..] == d + "\n";
    }
    TokensOfWord(d, "\n");
    assert Tokens("\n") == [];
  }

  /** A model whose first line is `MODEL <n>` gets number n. */
  lemma HeaderGivesNumber(n: nat, rest: seq<string>, previous: Option<int>)
    ensures ModelNumber(["MODEL " + NatToString(n) + "\n"] + rest, previous) == Ok(n)
  {
    var d := NatToString(n);
    var line := "MODEL " + d + "\n";
    assert line[..5] == "MODEL";
    assert FirstModelLine([line] + rest) == Some(line);
    HeaderTokens(d);
    NatToStringRoundTrip(n);
  }

  /** Two models in a row where the second has no `MODEL` line get the same file
      name, so the second file overwrites the first. */
  lemma UnnumberedModelReusesName(stem: string, tag: string, first: seq<string>, second: seq<string>)
    requires ModelNumber(first, None).Ok?
    requires FirstModelLine(second).None?
    ensures ModelFileNames(stem, tag, [first, second], None).Ok?
    ensures var names := ModelFileNames(stem, tag, [first, second], None).value;
            names[0] == names[1]
  {
    var n := ModelNumber(first, None).value;
    assert ModelNumber(second, Some(n)) == Ok(n);
    assert [first, second][1..] == [second];
    assert [second][1..] == [];
    assert ModelFileNames(stem, tag, [], Some(n)) == Ok([]);
    assert [ModelFileName(stem, tag, n)] + [] == [ModelFileName(stem, tag, n)];
    assert ModelFileNames(stem, tag, [second], Some(n)) == Ok([ModelFileName(stem, tag, n)]);
  }

  // ---------------------------------------------------------------- which label

  /** The four places that split Quick Vina results into one file per model. */
  datatype QvinaRun = SequentialQvinaw | SequentialQvina2 | SplitQvinaw | SplitQvina2

  /** As written: the sequential QVINAW path (line 111) labels its models `QVINA2`. */
  function ModelLabelAsWritten(run: QvinaRun): (tag: string)
    ensures run != SequentialQvinaw ==> tag == ModelLabel(run)
  {
    match run
    case SequentialQvinaw => "QVINA2"
    case SequentialQvina2 => "QVINA2"
    case SplitQvinaw => "QVINAW"
    case SplitQvina2 => "QVINA2"
  }

  /** As intended: each run labels its models with its own program. */
  function ModelLabel(run: QvinaRun): (tag: string)
    ensures tag == "QVINAW" <==> run == SequentialQvinaw || run == SplitQvinaw
  {
    match run
    case SequentialQvinaw => "QVINAW"
    case SequentialQvina2 => "QVINA2"
    case SplitQvinaw => "QVINAW"
    case SplitQvina2 => "QVINA2"
  }

  /** The Pose ID a model file becomes: its stem. */
  function ModelPoseId(stem: string, run: QvinaRun, number: nat, labelOf: QvinaRun -> string): string
  {
    stem + "_" + labelOf(run) + "_" + NatToString(number)
  }

  /** As written, the best QVINAW pose of a sequential run is invisible to the
      `bestpose_QVINAW` filter and is picked by `bestpose_QVINA2` instead. */
  lemma SequentialQvinawBestPoseMisfiled(stem: string)
    ensures var poseId := ModelPoseId(stem, SequentialQvinaw, 1, ModelLabelAsWritten);
            !Clustering.EndsWithEither(poseId, Clustering.BestPoseFilters["bestpose_QVINAW"]) &&
            Clustering.EndsWithEither(poseId, Clustering.BestPoseFilters["bestpose_QVINA2"])
  {
    var poseId := ModelPoseId(stem, SequentialQvinaw, 1, ModelLabelAsWritten);
    assert NatToString(1) == "1";
    assert poseId == stem + "_QVINA2_1";
    assert poseId[|poseId| - 8..] == "QVINA2_1";
    assert poseId[|poseId| - 8..] != "QVINAW_1";
    assert poseId[|poseId| - 9..] != "QVINAW_01";
  }

  /** With the intended labels, the best pose of either QVINAW run is kept by the
      `bestpose_QVINAW` filter and not by `bestpose_QVINA2`. */
  lemma QvinawBestPoseFiled(stem: string, run: QvinaRun)
    requires run == SequentialQvinaw || run == SplitQvinaw
    ensures var poseId := ModelPoseId(stem, run, 1, ModelLabel);
            Clustering.EndsWithEither(poseId, Clustering.BestPoseFilters["bestpose_QVINAW"]) &&
            !Clustering.EndsWithEither(poseId, Clustering.BestPoseFilters["bestpose_QVINA2"])
  {
    var poseId := ModelPoseId(stem, run, 1, ModelLabel);
    assert NatToString(1) == "1";
    assert poseId == stem + "_QVINAW_1";
    assert poseId[|poseId| - 8..] == "QVINAW_1";
    assert poseId[|poseId| - 8..] != "QVINA2_1";
    assert poseId[|poseId| - 9..] != "QVINA2_01";
  }

  // ---------------------------------------------------------------- PLANTS

  /** Lines 526-527: PLANTS names its entries `<ID>_entry_<n>_conf_<m>`; the Pose ID
      is field 0, `_PLANTS_`, field 4, and the ID is field 0. pandas gives NaN (here
      `None`) for an entry with fewer than five fields. */
  function PlantsPoseId(entry: string): (r: Option<string>)
    ensures r.Some? <==> |Split(entry, '_')| > 4
  {
    var fields := Split(entry, '_');
    if |fields| > 4 then Some(fields[0] + "_PLANTS_" + fields[4]) else None
  }

  function PlantsId(entry: string): string
  {
    Split(entry, '_')[0]
  }

  /** For the entry names PLANTS writes, the Pose ID is `<ID>_PLANTS_<m>` and the ID
      is `<ID>`, provided the ID itself has no underscore. */
  lemma PlantsEntry(id: string, n: string, m: string)
    requires '_' !in id && '_' !in n && '_' !in m
    ensures PlantsPoseId(id + "_entry_" + n + "_conf_" + m) == Some(id + "_PLANTS_" + m)
    ensures PlantsId(id + "_entry_" + n + "_conf_" + m) == id
  {
    var entry := id + "_entry_" + n + "_conf_" + m;
    var t1 := "entry_" + n + "_conf_" + m;
    var t2 := n + "_conf_" + m;
    var t3 := "conf_" + m;
    assert Split(t3, '_') == ["conf", m] by {
      assert t3 == "conf" + "_" + m;
      FieldThen("conf", m);
      SplitNoSeparator(m, '_');
    }
    assert Split(t2, '_') == [n, "conf", m] by {
      assert t2 == n + "_" + t3;
      FieldThen(n, t3);
    }
    assert Split(t1, '_') == ["entry", n, "conf", m] by {
      assert t1 == "entry" + "_" + t2;
      FieldThen("entry", t2);
    }
    assert Split(entry, '_') == [id, "entry", n, "conf", m] by {
      assert entry == id + "_" + t1;
      FieldThen(id, t1);
    }
  }

  /** One step of splitting an entry name: a field without underscores, then the rest. */
  lemma FieldThen(a: string, b: string)
    requires '_' !in a
    ensures Split(a + "_" + b, '_') == [a] + Split(b, '_')
  {
    assert a + "_" + b == a + ['_'] + b;
    SplitFirstField(a, '_', b);
  }

  // ---------------------------------------------------------------- dispatch

  datatype Program = SMINA | GNINA | PLANTS | QVINAW | QVINA2

  /** The name a program has in `docking_programs`. */
  function ProgramName(p: Program): string
  {
    match p
    case SMINA => "SMINA"
    case GNINA => "GNINA"
    case PLANTS => "PLANTS"
    case QVINAW => "QVINAW"
    case QVINA2 => "QVINA2"
  }

  /** The folder whose presence means the program already ran. */
  function ProgramFolder(p: Program): string
  {
    match p
    case SMINA => "smina"
    case GNINA => "gnina"
    case PLANTS => "plants"
    case QVINAW => "qvinaw"
    case QVINA2 => "qvina2"
  }

  /** The order of the checks at lines 926-935. */
  const DispatchOrder: seq<Program> := [SMINA, GNINA, PLANTS, QVINAW, QVINA2]

  predicate Runs(p: Program, requested: seq<string>, folders: set<string>)
  {
    ProgramName(p) in requested && ProgramFolder(p) !in folders
  }

  /** The programs of `order` that run, in that order. */
  function Started(order: seq<Program>, requested: seq<string>, folders: set<string>): (ran: seq<Program>)
  {
    if order == [] then []
    else (if Runs(order[0], requested, folders) then [order[0]] else []) + Started(order[1..], requested, folders)
  }

  /** Lines 924-935 (ncpus == 1): each requested program whose folder is absent runs,
      in the fixed order above; the folders are those present when the run starts. */
  method DockSequential(requested: seq<string>, folders: set<string>) returns (ran: seq<Program>)
    ensures ran == Started(DispatchOrder, requested, folders)
  {
    ran := [];
    if Runs(SMINA, requested, folders) { ran := ran + [SMINA]; }
    assert ran == When(SMINA, requested, folders);
    if Runs(GNINA, requested, folders) { ran := ran + [GNINA]; }
    assert ran == When(SMINA, requested, folders) + When(GNINA, requested, folders);
    if Runs(PLANTS, requested, folders) { ran := ran + [PLANTS]; }
    assert ran == When(SMINA, requested, folders) + When(GNINA, requested, folders) + When(PLANTS, requested, folders);
    if Runs(QVINAW, requested, folders) { ran := ran + [QVINAW]; }
    assert ran == When(SMINA, requested, folders) + When(GNINA, requested, folders) + When(PLANTS, requested, folders) +
      When(QVINAW, requested, folders);
    if Runs(QVINA2, requested, folders) { ran := ran + [QVINA2]; }
    assert ran == When(SMINA, requested, folders) + When(GNINA, requested, folders) + When(PLANTS, requested, folders) +
      When(QVINAW, requested, folders) + When(QVINA2, requested, folders);
    StartedDispatch(requested, folders);
  }

  function When(p: Program, requested: seq<string>, folders: set<string>): seq<Program>
  {
    if Runs(p, requested, folders) then [p] else []
  }

  lemma StartedDispatch(requested: seq<string>, folders: set<string>)
    ensures Started(DispatchOrder, requested, folders) ==
      When(SMINA, requested, folders) + When(GNINA, requested, folders) + When(PLANTS, requested, folders) +
      When(QVINAW, requested, folders) + When(QVINA2, requested, folders)
  {
    var s5 := Started([QVINA2], requested, folders);
    assert s5 == When(QVINA2, requested, folders) by {
      assert [QVINA2][1..] == [];
      assert Started([], requested, folders) == [];
      assert When(QVINA2, requested, folders) + [] == When(QVINA2, requested, folders);
    }
    var s4 := Started([QVINAW, QVINA2], requested, folders);
    assert s4 == When(QVINAW, requested, folders) + s5 by { assert [QVINAW, QVINA2][1..] == [QVINA2]; }
    var s3 := Started([PLANTS, QVINAW, QVINA2], requested, folders);
    assert s3 == When(PLANTS, requested, folders) + s4 by { assert [PLANTS, QVINAW, QVINA2][1..] == [QVINAW, QVINA2]; }
    var s2 := Started([GNINA, PLANTS, QVINAW, QVINA2], requested, folders);
    assert s2 == When(GNINA, requested, folders) + s3 by { assert [GNINA, PLANTS, QVINAW, QVINA2][1..] == [PLANTS, QVINAW, QVINA2]; }
    assert DispatchOrder[1..] == [GNINA, PLANTS, QVINAW, QVINA2];
    var w1, w2, w3 := When(SMINA, requested, folders), When(GNINA, requested, folders), When(PLANTS, requested, folders);
    var w4, w5 := When(QVINAW, requested, folders), When(QVINA2, requested, folders);
    Regroup(w1, w2, w3, w4, w5);
  }

  lemma Regroup<T>(a: seq<T>, b: seq<T>, c: seq<T>, d: seq<T>, e: seq<T>)
    ensures a + (b + (c + (d + e))) == a + b + c + d + e
  {
  }

  /** A program runs exactly when it is requested and its folder is absent. */
  lemma {:induction false} StartedMembers(order: seq<Program>, requested: seq<string>, folders: set<string>)
    ensures forall p :: p in Started(order, requested, folders) <==> p in order && Runs(p, requested, folders)
  {
    if order != [] {
      StartedMembers(order[1..], requested, folders);
      assert forall p :: p in order <==> p == order[0] || p in order[1..];
    }
  }

  /** Programs listed in dispatch order, none twice. */
  predicate InDispatchOrder(ps: seq<Program>)
  {
    forall i, j :: 0 <= i < j < |ps| ==> Position(ps[i]) < Position(ps[j])
  }

  /** The programs run in dispatch order, each at most once. */
  lemma {:induction false} StartedInOrder(order: seq<Program>, requested: seq<string>, folders: set<string>)
    requires InDispatchOrder(order)
    ensures InDispatchOrder(Started(order, requested, folders))
  {
    if order != [] {
      assert InDispatchOrder(order[1..]) by {
        forall i, j | 0 <= i < j < |order[1..]| ensures Position(order[1..][i]) < Position(order[1..][j]) {
          assert order[1..][i] == order[i + 1] && order[1..][j] == order[j + 1];
        }
      }
      StartedInOrder(order[1..], requested, folders);
      StartedMembers(order[1..], requested, folders);
      var rest := Started(order[1..], requested, folders);
      forall k | 0 <= k < |rest| ensures Position(order[0]) < Position(rest[k]) {
        assert rest[k] in order[1..];
        var j :| 0 <= j < |order[1..]| && order[1..][j] == rest[k];
        assert order[j + 1] == rest[k];
      }
      var ran := Started(order, requested, folders);
      if Runs(order[0], requested, folders) {
        assert ran == [order[0]] + rest;
        forall i, j | 0 <= i < j < |ran| ensures Position(ran[i]) < Position(ran[j]) {
          assert ran[j] == rest[j - 1];
          if i > 0 {
            assert ran[i] == rest[i - 1];
          }
        }
      } else {
        assert ran == rest;
      }
    }
  }

  /** A program's place in the dispatch order. */
  function Position(p: Program): (k: nat)
    ensures k < |DispatchOrder| && DispatchOrder[k] == p
  {
    match p
    case SMINA => 0
    case GNINA => 1
    case PLANTS => 2
    case QVINAW => 3
    case QVINA2 => 4
  }

  /** A sequential run starts exactly the requested programs whose folder is absent,
      each once, in the order SMINA, GNINA, PLANTS, QVINAW, QVINA2. */
  lemma SequentialDispatch(requested: seq<string>, folders: set<string>)
    ensures forall p :: p in Started(DispatchOrder, requested, folders) <==> Runs(p, requested, folders)
    ensures InDispatchOrder(Started(DispatchOrder, requested, folders))
  {
    StartedMembers(DispatchOrder, requested, folders);
    forall p: Program ensures p in DispatchOrder {
      assert DispatchOrder[Position(p)] == p;
    }
    StartedInOrder(DispatchOrder, requested, folders);
  }
}
