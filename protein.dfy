/** Protein preparation (scripts/protein_preparation/main.py, `prepare_protein`):
    what the input is, which options are forced, which structure is fetched, when
    the structure is fixed and protonated, and which intermediate files are
    deleted. Fetching, chain selection, PDBFixer and Protoss are parameters that
    return the path they write. */
module ProteinPreparation {
  import opened Wrappers
  import opened Text
  import ConfigParser

  /** The options of `prepare_protein`; `pH` is `add_missing_hydrogens_pH`. */
  datatype Options = Options(
    inputType: string, selectBestChain: bool, fixProtein: bool,
    fixNonstandardResidues: bool, fixMissingResidues: bool, pH: Option<real>,
    removeHetero: bool, removeWater: bool, protonate: bool)

  /** The external steps, each as the path of the file it writes. */
  datatype Tools = Tools(
    bestChain: string -> string,        // get_best_chain_edia
    fetchPdb: string -> string,         // fetch_pdb_structure
    fetchAlphafold: string -> string,   // fetch_alphafold_structure
    fix: string -> string,              // fix_pdb_file
    protoss: string -> string)          // protonate_protein_protoss

  datatype ProteinError =
    | InvalidInputPath          // ValueError: not a code and not a file
    | InvalidPdbCode            // ValueError: not 4 letters or digits
    | FileNotFound(path: string)  // Path.unlink of a file that is not there

  // ------------------------------------------------------------ decisions

  /** The input type: when none is given, a 4-character alphanumeric input is a PDB
      code, a 6-character one a UniProt accession, and anything else must be an
      existing file. */
  function InputType(input: string, inputType: string, isFile: string -> bool): (r: Result<string, ProteinError>)
    ensures inputType != "" ==> r == Ok(inputType)
    ensures inputType == "" && |input| == 4 && IsAlnumString(input) ==> r == Ok("PDB")
    ensures inputType == "" && |input| == 6 && IsAlnumString(input) ==> r == Ok("Uniprot")
    ensures inputType == "" && !(IsAlnumString(input) && (|input| == 4 || |input| == 6)) ==>
      (r.Ok? <==> isFile(input)) && (r.Ok? ==> r.value == "File") && (r.Err? ==> r.error == InvalidInputPath)
  {
    if inputType != "" then Ok(inputType)
    else if |input| == 4 && IsAlnumString(input) then Ok("PDB")
    else if |input| == 6 && IsAlnumString(input) then Ok("Uniprot")
    else if !isFile(input) then Err(InvalidInputPath)
    else Ok("File")
  }

  /** Best-chain selection stays on only for PDB input, in any case of the type name. */
  function SelectBestChain(selectBestChain: bool, inputType: string): (r: bool)
    ensures r <==> selectBestChain && ToUpper(inputType) == "PDB"
  {
    if selectBestChain && ToUpper(inputType) != "PDB" then false else selectBestChain
  }

  /** Protonation is forced on when no pH is given, or when the pH is 0 and
      protonation is off (`and` binds tighter than `or`): it is off only when
      asked to be off with a non-zero pH. */
  function Protonates(pH: Option<real>, protonate: bool): (r: bool)
    ensures r <==> protonate || pH.None? || pH == Some(0.0)
  {
    if pH.None? || (pH == Some(0.0) && !protonate) then true else protonate
  }

  /** The fixing step runs when any fix or removal is asked for or a pH is given. */
  predicate FixRuns(o: Options)
  {
    o.fixProtein || o.fixNonstandardResidues || o.fixMissingResidues || o.pH.Some? || o.removeHetero || o.removeWater
  }

  /** The PDB code as checked: stripped and upper-cased, 4 letters or digits. */
  predicate ValidPdbCode(input: string)
  {
    var code := ToUpper(Strip(input));
    |code| == 4 && IsAlnumString(code)
  }

  /** Where the first structure comes from. */
  datatype Source = BestChain(code: string) | PdbEntry(input: string) | Alphafold(input: string) | LocalFile(path: string)

  function SourceOf(input: string, inputType: string, selectBestChain: bool): (r: Result<Source, ProteinError>)
    ensures r.Err? <==> ToUpper(inputType) == "PDB" && !ValidPdbCode(input)
    ensures r.Ok? && r.value.BestChain? ==> selectBestChain && ToUpper(inputType) == "PDB"
  {
    if ToUpper(inputType) == "PDB" then
      if !ValidPdbCode(input) then Err(InvalidPdbCode)
      else if selectBestChain then Ok(BestChain(ToUpper(Strip(input))))
      else Ok(PdbEntry(input))
    else if ToUpper(inputType) == "UNIPROT" then Ok(Alphafold(input))
    else Ok(LocalFile(input))
  }

  /** The path of the first structure; fetched files are new in the folder. */
  function Step1(source: Source, tools: Tools): string
  {
    match source
    case BestChain(code) => tools.bestChain(code)
    case PdbEntry(input) => tools.fetchPdb(input)
    case Alphafold(input) => tools.fetchAlphafold(input)
    case LocalFile(path) => path
  }

  // ------------------------------------------------------------ deleting intermediates

  /** `Path.unlink()`: a missing file raises. */
  function Unlink(files: set<string>, path: string): (r: Result<set<string>, ProteinError>)
    ensures r.Ok? <==> path in files
    ensures r.Ok? ==> r.value == files - {path}
  {
    if path in files then Ok(files - {path}) else Err(FileNotFound(path))
  }

  /** Lines 136-139 as written: each of the two earlier files is unlinked when it is
      not the final one, even when they are the same file. */
  function CleanupAsWritten(files: set<string>, step1: string, step2: string, final: string): Result<set<string>, ProteinError>
  {
    var afterFirst := if step1 != final then Unlink(files, step1) else Ok(files);
    match afterFirst
    case Err(e) => Err(e)
    case Ok(rest) => if step2 != final then Unlink(rest, step2) else Ok(rest)
  }

  /** When no fixing runs, the first and second files are the same; if Protoss then
      writes a new file, that file is unlinked twice and the second unlink raises. */
  lemma CleanupAsWrittenFailsWithoutFixing(files: set<string>, step1: string, final: string)
    requires step1 in files && step1 != final
    ensures CleanupAsWritten(files, step1, step1, final) == Err(FileNotFound(step1))
  {
  }

  /** The intended cleanup: every earlier file that is not the final one is
      deleted once. */
  function Cleanup(files: set<string>, step1: string, step2: string, final: string): (r: Result<set<string>, ProteinError>)
    ensures step1 in files && step2 in files ==> r == Ok(files - ({step1, step2} - {final}))
    ensures step1 != final && step1 !in files ==> r == Err(FileNotFound(step1))
  {
    assert step1 in files && step2 in files && step1 != final && step2 != final && step2 != step1 ==>
      files - {step1} - {step2} == files - ({step1, step2} - {final});
    assert step1 != final && (step2 == final || step2 == step1) ==> {step1, step2} - {final} == {step1};
    assert step1 == final && step2 == final ==> files - ({step1, step2} - {final}) == files;
    assert step1 == final && step2 != final ==> {step1, step2} - {final} == {step2};
    var afterFirst := if step1 != final then Unlink(files, step1) else Ok(files);
    match afterFirst
    case Err(e) => Err(e)
    case Ok(rest) => if step2 != final && step2 != step1 then Unlink(rest, step2) else Ok(rest)
  }

  /** The two agree whenever the first and second files differ. */
  lemma CleanupAgrees(files: set<string>, step1: string, step2: string, final: string)
    requires step1 != step2
    ensures Cleanup(files, step1, step2, final) == CleanupAsWritten(files, step1, step2, final)
  {
  }

  // ------------------------------------------------------------ the whole run

  /** The decisions taken before any file is touched: the input type, the forced
      switches and where the first structure comes from. */
  datatype Decisions = Decisions(inputType: string, selectBestChain: bool, protonate: bool, source: Source)

  function Decide(input: string, o: Options, isFile: string -> bool): Result<Decisions, ProteinError>
  {
    match InputType(input, o.inputType, isFile)
    case Err(e) => Err(e)
    case Ok(inputType) =>
      var select := SelectBestChain(o.selectBestChain, inputType);
      match SourceOf(input, inputType, select)
      case Err(e) => Err(e)
      case Ok(source) => Ok(Decisions(inputType, select, Protonates(o.pH, o.protonate), source))
  }

  /** The three structure files of a run: fetched or given, fixed, protonated. */
  datatype Structures = Structures(step1: string, step2: string, final: string)

  function StructuresOf(d: Decisions, o: Options, tools: Tools): Structures
  {
    var step1 := Step1(d.source, tools);
    var step2 := if FixRuns(o) then tools.fix(step1) else step1;
    Structures(step1, step2, if d.protonate then tools.protoss(step2) else step2)
  }

  /** The files present once every step has written its file. */
  function Written(files: set<string>, d: Decisions, o: Options, tools: Tools): set<string>
  {
    var st := StructuresOf(d, o, tools);
    var files1 := if d.source.LocalFile? then files else files + {st.step1};
    var files2 := if FixRuns(o) then files1 + {st.step2} else files1;
    if d.protonate then files2 + {st.final} else files2
  }

  /** The outcome of `prepare_protein` on the set of files: the final path and the
      files left, or the error raised. */
  function Prepared(files: set<string>, input: string, o: Options, isFile: string -> bool, tools: Tools)
    : Result<(string, set<string>), ProteinError>
  {
    match Decide(input, o, isFile)
    case Err(e) => Err(e)
    case Ok(d) =>
      var st := StructuresOf(d, o, tools);
      match Cleanup(Written(files, d, o, tools), st.step1, st.step2, st.final)
      case Err(e) => Err(e)
      case Ok(left) => Ok((st.final, left))
  }

  /** The folder of the run. */
  class Folder {
    var files: set<string>

    constructor (files: set<string>)
      ensures this.files == files
    {
      this.files := files;
    }

    /** An external step writes its file. */
    method Add(path: string)
      modifies this
      ensures files == old(files) + {path}
    {
      files := files + {path};
    }

    method Delete(path: string) returns (r: Result<(), ProteinError>)
      modifies this
      ensures r.Ok? <==> Unlink(old(files), path).Ok?
      ensures r.Ok? ==> files == Unlink(old(files), path).value
      ensures r.Err? ==> r.error == Unlink(old(files), path).error && files == old(files)
    {
      if path !in files {
        return Err(FileNotFound(path));
      }
      files := files - {path};
      return Ok(());
    }
  }

  /** The decisions of `prepare_protein`, reassigning the input type and the two
      switches as the source does. */
  method DecideSteps(input: string, o: Options, isFile: string -> bool) returns (r: Result<Decisions, ProteinError>)
    ensures r == Decide(input, o, isFile)
  {
    var inputType := o.inputType;
    if inputType == "" {
      if |input| == 4 && IsAlnumString(input) {
        inputType := "PDB";
      } else if |input| == 6 && IsAlnumString(input) {
        inputType := "Uniprot";
      } else if !isFile(input) {
        return Err(InvalidInputPath);
      } else {
        inputType := "File";
      }
    }
    var selectBestChain := o.selectBestChain;
    if selectBestChain && ToUpper(inputType) != "PDB" {
      selectBestChain := false;
    }
    var protonate := o.protonate;
    if o.pH.None? || (o.pH == Some(0.0) && !protonate) {
      protonate := true;
    }
    var source := SourceOf(input, inputType, selectBestChain);
    if source.Err? {
      return Err(source.error);
    }
    return Ok(Decisions(inputType, selectBestChain, protonate, source.value));
  }

  /** Fetching, fixing and protonating, then deleting the intermediate files with
      the intended cleanup. */
  method RunSteps(folder: Folder, d: Decisions, o: Options, tools: Tools) returns (r: Result<string, ProteinError>)
    modifies folder
    ensures var st := StructuresOf(d, o, tools);
      var expected := Cleanup(Written(old(folder.files), d, o, tools), st.step1, st.step2, st.final);
      (r.Ok? <==> expected.Ok?) &&
      (r.Ok? ==> r.value == st.final && folder.files == expected.value) &&
      (r.Err? ==> r.error == expected.error)
  {
    var step1 := Step1(d.source, tools);
    if !d.source.LocalFile? {
      folder.Add(step1);
    }
    var step2 := step1;
    if FixRuns(o) {
      step2 := tools.fix(step1);
      folder.Add(step2);
    }
    var final := step2;
    if d.protonate {
      final := tools.protoss(step2);
      folder.Add(final);
    }
    assert folder.files == Written(old(folder.files), d, o, tools);
    if step1 != final {
      var deleted := folder.Delete(step1);
      if deleted.Err? {
        return Err(deleted.error);
      }
    }
    if step2 != final && step2 != step1 {
      var deleted := folder.Delete(step2);
      if deleted.Err? {
        return Err(deleted.error);
      }
    }
    return Ok(final);
  }

  /** `prepare_protein`: the path of the prepared structure, or the error raised. */
  method PrepareProtein(folder: Folder, input: string, o: Options, isFile: string -> bool, tools: Tools)
    returns (r: Result<string, ProteinError>)
    modifies folder
    ensures var expected := Prepared(old(folder.files), input, o, isFile, tools);
      (r.Ok? <==> expected.Ok?) &&
      (r.Ok? ==> r.value == expected.value.0 && folder.files == expected.value.1) &&
      (r.Err? ==> r.error == expected.error)
  {
    var d := DecideSteps(input, o, isFile);
    if d.Err? {
      return Err(d.error);
    }
    r := RunSteps(folder, d.value, o, tools);
  }

  // ------------------------------------------------------------ properties

  /** A run that fixes nothing and gives no pH is still protonated, and its fetched
      or given structure is deleted once; as written it would be deleted twice. */
  lemma NoFixingStillProtonates(files: set<string>, input: string, o: Options, isFile: string -> bool, tools: Tools)
    requires !FixRuns(o) && o.inputType == "File" && input in files && tools.protoss(input) != input
    ensures Prepared(files, input, o, isFile, tools) == Ok((tools.protoss(input), files + {tools.protoss(input)} - {input}))
    ensures CleanupAsWritten(files + {tools.protoss(input)}, input, input, tools.protoss(input)) == Err(FileNotFound(input))
  {
    assert ToUpper("File") == "FILE";
    assert ToUpper("File") != "PDB" && ToUpper("File") != "UNIPROT";
  }

  /** A given file is deleted whenever fixing or protonation produced another file:
      the final structure replaces the input. */
  lemma LocalInputReplaced(files: set<string>, input: string, o: Options, isFile: string -> bool, tools: Tools)
    requires o.inputType == "File" && input in files
    requires Prepared(files, input, o, isFile, tools).Ok?
    ensures var (final, left) := Prepared(files, input, o, isFile, tools).value;
      final in left && (final != input ==> input !in left)
  {
    assert ToUpper("File") == "FILE";
    assert ToUpper("File") != "PDB" && ToUpper("File") != "UNIPROT";
  }

  /** A PDB input must be a 4-character code after stripping; a malformed one is
      rejected before anything is fetched. */
  lemma MalformedPdbCodeRejected(files: set<string>, input: string, o: Options, isFile: string -> bool, tools: Tools)
    requires o.inputType == "PDB" && !ValidPdbCode(input)
    ensures Prepared(files, input, o, isFile, tools) == Err(InvalidPdbCode)
  {
    assert ToUpper("PDB") == "PDB";
    var select := SelectBestChain(o.selectBestChain, "PDB");
    assert SourceOf(input, "PDB", select) == Err(InvalidPdbCode);
    assert Decide(input, o, isFile) == Err(InvalidPdbCode);
  }

  /** With no input type, an all-digit 4-character input is taken for a PDB code here,
      while the configuration check treats the same receptor entry as a file path. */
  lemma NumericCodeReadDifferently(isFile: string -> bool)
    ensures InputType("1234", "", isFile) == Ok("PDB")
    ensures ConfigParser.Classify("1234") == ConfigParser.PdbFile
  {
    var s := "1234";
    assert s[0] == '1' && s[1] == '2' && s[2] == '3' && s[3] == '4';
    assert IsAlnumString(s) && IsDigits(s);
  }
}
