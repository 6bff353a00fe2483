/** Preparation of the compound library (scripts/library_preparation.py): the ID
    rewriting done while standardising, the choice of protonation and conformer
    steps in `prepare_library`, the row handling of `generate_conformers_RDKit`
    and `cleanup`, and the files these steps leave in the output folder.
    The chemistry (ChEMBL standardiser, RDKit embedding, Gypsum-DL) is a parameter. */
module LibraryPreparation {
  import opened Wrappers
  import opened Text

  // ------------------------------------------------------------ IDs

  /** The ID a compound gets: an all-digit ID is prefixed with `DOCKM8-`, then every
      underscore becomes a hyphen. */
  function NormaliseId(id: string): string
  {
    ReplaceChar(if IsDigits(id) then "DOCKM8-" + id else id, '_', '-')
  }

  /** No normalised ID contains an underscore; all-digit IDs get the prefix and
      the others keep their length. */
  lemma NormaliseIdShape(id: string)
    ensures '_' !in NormaliseId(id)
    ensures IsDigits(id) ==> NormaliseId(id) == "DOCKM8-" + id
    ensures !IsDigits(id) ==> |NormaliseId(id)| == |id|
    ensures '_' !in id && !IsDigits(id) ==> NormaliseId(id) == id
  {
    var n := NormaliseId(id);
    if IsDigits(id) {
      var p := "DOCKM8-" + id;
      forall i | 0 <= i < |p| ensures n[i] == p[i] {
        if i >= 7 {
          assert p[i] == id[i - 7];
        }
      }
    }
    if '_' !in id && !IsDigits(id) {
      forall i | 0 <= i < |id| ensures n[i] == id[i] {
        assert id[i] != '_';
      }
    }
  }

  /** Normalising twice gives the same IDs as normalising once. */
  lemma NormaliseIdIdempotent(id: string)
    ensures NormaliseId(NormaliseId(id)) == NormaliseId(id)
  {
    var n := NormaliseId(id);
    NormaliseIdShape(id);
    assert !IsDigits(n) by {
      if IsDigits(id) {
        assert n[0] == 'D';
      } else if |n| > 0 {
        var i :| 0 <= i < |id| && !IsDigit(id[i]);
        assert !IsDigit(n[i]);
      }
    }
    NormaliseIdShape(n);
  }

  // ------------------------------------------------------------ records and files

  /** One compound of an SDF file: its ID, its molecule block and its other columns. */
  datatype Entry = Entry(id: string, molecule: string, properties: map<string, string>)

  /** `df[['Molecule', 'ID']]`. */
  function MoleculeAndId(e: Entry): Entry
  {
    e.(properties := map[])
  }

  /** The programs and chemistry steps of the pipeline, recorded in the order they run. */
  datatype Step =
    | StandardiseLibrary
    | GypsumProtonation
    | RdkitConformers
    | GypsumConformers(protonate: bool)
    | Cleanup

  /** The output folder: the SDF files it holds, by name, and the steps run so far. */
  class Workspace {
    var files: map<string, seq<Entry>>
    var steps: seq<Step>

    constructor (files: map<string, seq<Entry>>)
      ensures this.files == files && steps == []
    {
      this.files := files;
      steps := [];
    }

    /** `PandasTools.WriteSDF`. */
    method Write(name: string, entries: seq<Entry>)
      modifies this
      ensures files == old(files)[name := entries] && steps == old(steps)
    {
      files := files[name := entries];
    }

    /** `Path.unlink(missing_ok=True)`. */
    method Unlink(name: string)
      modifies this
      ensures files == old(files) - {name} && steps == old(steps)
    {
      files := files - {name};
    }

    method Run(step: Step)
      modifies this
      ensures steps == old(steps) + [step] && files == old(files)
    {
      steps := steps + [step];
    }
  }

  const Standardised := "standardized_library.sdf"
  const GypsumSuccess := "gypsum_dl_success.sdf"
  const GypsumFailed := "gypsum_dl_failed.smi"
  const FinalLibrary := "final_library.sdf"

  /** The external chemistry: the ChEMBL standardiser on one molecule, RDKit
      embedding of one molecule, and the records a Gypsum-DL run writes for its
      input, its parameter record first. */
  datatype Tools = Tools(
    standardise: string -> string,
    embed: string -> string,
    gypsum: (GypsumRun, seq<Entry>) -> seq<Entry>)

  datatype GypsumRun = OnlyProtonation | WithProtonation | NoProtonation

  // ------------------------------------------------------------ standardisation

  /** `standardize_library`: every compound kept, its ID normalised and its molecule
      standardised. */
  function StandardisedEntries(input: seq<Entry>, tools: Tools): (r: seq<Entry>)
    ensures |r| == |input|
    ensures forall i :: 0 <= i < |r| ==>
      r[i].id == NormaliseId(input[i].id) && r[i].molecule == tools.standardise(input[i].molecule)
  {
    seq(|input|, i requires 0 <= i < |input| =>
      input[i].(id := NormaliseId(input[i].id), molecule := tools.standardise(input[i].molecule)))
  }

  /** Every standardised ID is free of underscores. */
  lemma StandardisedIdsHaveNoUnderscore(input: seq<Entry>, tools: Tools)
    ensures forall i :: 0 <= i < |input| ==> '_' !in StandardisedEntries(input, tools)[i].id
  {
    forall i | 0 <= i < |input|
      ensures '_' !in StandardisedEntries(input, tools)[i].id
    {
      NormaliseIdShape(input[i].id);
    }
  }

  // ------------------------------------------------------------ conformers and cleanup

  /** `generate_conformers_RDKit`: the first record is dropped and the others embedded. */
  function RdkitConformerEntries(rows: seq<Entry>, tools: Tools): (r: seq<Entry>)
    ensures |rows| > 0 ==> |r| == |rows| - 1
    ensures |rows| == 0 ==> r == []
    ensures forall i :: 0 <= i < |r| ==>
      r[i] == rows[i + 1].(molecule := tools.embed(rows[i + 1].molecule))
  {
    var rest := if |rows| > 0 then rows[1..] else [];
    seq(|rest|, i requires 0 <= i < |rest| => rest[i].(molecule := tools.embed(rest[i].molecule)))
  }

  /** `cleanup`: the first record (Gypsum-DL's parameter record) is dropped and only
      the molecule and the ID are kept. */
  function CleanupEntries(rows: seq<Entry>): (r: seq<Entry>)
    ensures |rows| > 0 ==> |r| == |rows| - 1
    ensures |rows| == 0 ==> r == []
    ensures forall i :: 0 <= i < |r| ==>
      r[i].id == rows[i + 1].id && r[i].molecule == rows[i + 1].molecule && r[i].properties == map[]
  {
    var rest := if |rows| > 0 then rows[1..] else [];
    seq(|rest|, i requires 0 <= i < |rest| => MoleculeAndId(rest[i]))
  }

  // ------------------------------------------------------------ prepare_library

  datatype PrepError =
    | InvalidProtonation(protonation: string)   // ValueError
    | InvalidConformers(conformers: string)     // ValueError
    | MissingFile(name: string)                 // reading an SDF file that is not there

  /** The route from the standardised library to conformers. */
  datatype Plan = ProtonateThenRdkit | Rdkit | Gypsum(protonate: bool)

  /** The steps a route runs. */
  function PlanSteps(plan: Plan): seq<Step>
  {
    match plan
    case ProtonateThenRdkit => [GypsumProtonation, RdkitConformers]
    case Rdkit => [RdkitConformers]
    case Gypsum(p) => [GypsumConformers(p)]
  }

  /** The route chosen: the conformer method is checked first, then the
      protonation method within it. */
  function ConformerPlan(conformers: string, protonation: string): (r: Result<Plan, PrepError>)
    ensures r.Ok? <==> conformers in {"RDKit", "MMFF", "GypsumDL"} && protonation in {"GypsumDL", "None"}
    ensures conformers !in {"RDKit", "MMFF", "GypsumDL"} ==> r == Err(InvalidConformers(conformers))
    ensures conformers in {"RDKit", "MMFF", "GypsumDL"} && protonation !in {"GypsumDL", "None"} ==>
      r == Err(InvalidProtonation(protonation))
  {
    if conformers == "RDKit" || conformers == "MMFF" then
      if protonation == "GypsumDL" then Ok(ProtonateThenRdkit)
      else if protonation == "None" then Ok(Rdkit)
      else Err(InvalidProtonation(protonation))
    else if conformers == "GypsumDL" then
      if protonation == "GypsumDL" then Ok(Gypsum(true))
      else if protonation == "None" then Ok(Gypsum(false))
      else Err(InvalidProtonation(protonation))
    else Err(InvalidConformers(conformers))
  }

  /** RDKit and MMFF are the same conformer method. */
  lemma RdkitAndMmffAgree(protonation: string)
    ensures ConformerPlan("RDKit", protonation) == ConformerPlan("MMFF", protonation)
  {
  }

  /** The folder after standardisation: the existing standardised file is reused. */
  function AfterStandardisation(files: map<string, seq<Entry>>, input: seq<Entry>, tools: Tools): map<string, seq<Entry>>
  {
    if Standardised in files then files else files[Standardised := StandardisedEntries(input, tools)]
  }

  /** The folder after the conformer steps. `prepare_library` always reaches them
      with the standardised library present; without it nothing is written. */
  function AfterConformers(files: map<string, seq<Entry>>, plan: Plan, tools: Tools): map<string, seq<Entry>>
  {
    if Standardised !in files then files
    else
      var std := files[Standardised];
      match plan
      case ProtonateThenRdkit =>
        var prot := tools.gypsum(OnlyProtonation, std);
        files[GypsumSuccess := RdkitConformerEntries(prot, tools)]
      case Rdkit => files[GypsumSuccess := RdkitConformerEntries(std, tools)]
      case Gypsum(p) =>
        files[GypsumSuccess := tools.gypsum(if p then WithProtonation else NoProtonation, std)]
  }

  /** The folder after `cleanup`: the final library written, the intermediates removed. */
  function AfterCleanup(files: map<string, seq<Entry>>): Result<map<string, seq<Entry>>, PrepError>
  {
    if GypsumSuccess !in files then Err(MissingFile(GypsumSuccess))
    else Ok(files[FinalLibrary := CleanupEntries(files[GypsumSuccess])] - {GypsumSuccess, Standardised, GypsumFailed})
  }

  /** `prepare_library`: the outcome on the folder, or the error raised. */
  function Prepared(files: map<string, seq<Entry>>, input: seq<Entry>, conformers: string, protonation: string, tools: Tools)
    : Result<map<string, seq<Entry>>, PrepError>
  {
    match ConformerPlan(conformers, protonation)
    case Err(e) => Err(e)
    case Ok(plan) => AfterCleanup(AfterConformers(AfterStandardisation(files, input, tools), plan, tools))
  }

  /** `standardize_library`, unless its output already exists. */
  method Standardise(w: Workspace, input: seq<Entry>, tools: Tools)
    modifies w
    ensures w.files == AfterStandardisation(old(w.files), input, tools)
    ensures w.steps == old(w.steps) + if Standardised in old(w.files) then [] else [StandardiseLibrary]
  {
    if Standardised !in w.files {
      w.Run(StandardiseLibrary);
      w.Write(Standardised, StandardisedEntries(input, tools));
    }
  }

  /** The protonation and conformer programs of the chosen route. */
  method GenerateConformers(w: Workspace, plan: Plan, tools: Tools)
    modifies w
    ensures w.files == AfterConformers(old(w.files), plan, tools)
    ensures Standardised in old(w.files) ==> w.steps == old(w.steps) + PlanSteps(plan)
  {
    if Standardised !in w.files {
      return;
    }
    var std := w.files[Standardised];
    match plan
    case ProtonateThenRdkit =>
      w.Run(GypsumProtonation);
      w.Write(GypsumSuccess, tools.gypsum(OnlyProtonation, std));
      w.Run(RdkitConformers);
      w.Write(GypsumSuccess, RdkitConformerEntries(w.files[GypsumSuccess], tools));
    case Rdkit =>
      w.Run(RdkitConformers);
      w.Write(GypsumSuccess, RdkitConformerEntries(std, tools));
    case Gypsum(p) =>
      w.Run(GypsumConformers(p));
      w.Write(GypsumSuccess, tools.gypsum(if p then WithProtonation else NoProtonation, std));
  }

  /** `cleanup`: writes the final library and removes the intermediate files. */
  method CleanupFolder(w: Workspace) returns (r: Result<(), PrepError>)
    modifies w
    ensures r.Ok? <==> AfterCleanup(old(w.files)).Ok?
    ensures r.Err? ==> r.error == AfterCleanup(old(w.files)).error && w.files == old(w.files)
    ensures r.Ok? ==> w.files == AfterCleanup(old(w.files)).value
    ensures w.steps == old(w.steps) + [Cleanup]
  {
    w.Run(Cleanup);
    if GypsumSuccess !in w.files {
      return Err(MissingFile(GypsumSuccess));
    }
    var rows := w.files[GypsumSuccess];
    w.Write(FinalLibrary, CleanupEntries(rows));
    w.Unlink(GypsumSuccess);
    w.Unlink(Standardised);
    w.Unlink(GypsumFailed);
    return Ok(());
  }

  /** `prepare_library`: runs the chosen steps on the folder, in the order of the source. */
  method PrepareLibrary(w: Workspace, input: seq<Entry>, conformers: string, protonation: string, tools: Tools)
    returns (r: Result<(), PrepError>)
    modifies w
    ensures r.Ok? <==> Prepared(old(w.files), input, conformers, protonation, tools).Ok?
    ensures r.Err? ==> r.error == Prepared(old(w.files), input, conformers, protonation, tools).error
    ensures r.Ok? ==> w.files == Prepared(old(w.files), input, conformers, protonation, tools).value
    ensures r.Err? ==> w.files == AfterStandardisation(old(w.files), input, tools)
    ensures var standardise := if Standardised in old(w.files) then [] else [StandardiseLibrary];
      var plan := ConformerPlan(conformers, protonation);
      w.steps == old(w.steps) + standardise + (if plan.Ok? then PlanSteps(plan.value) + [Cleanup] else [])
  {
    Standardise(w, input, tools);
    var plan := ConformerPlan(conformers, protonation);
    if plan.Err? {
      return Err(plan.error);
    }
    GenerateConformers(w, plan.value, tools);
    r := CleanupFolder(w);
  }

  /** Valid methods always complete, and leave the final library and none of the
      intermediate SDF files. */
  lemma ValidMethodsComplete(files: map<string, seq<Entry>>, input: seq<Entry>, conformers: string, protonation: string, tools: Tools)
    requires conformers in {"RDKit", "MMFF", "GypsumDL"} && protonation in {"GypsumDL", "None"}
    ensures var r := Prepared(files, input, conformers, protonation, tools);
      r.Ok? && FinalLibrary in r.value && Standardised !in r.value && GypsumSuccess !in r.value
  {
    var plan := ConformerPlan(conformers, protonation).value;
    var std := AfterStandardisation(files, input, tools);
    assert Standardised in std;
    assert GypsumSuccess in AfterConformers(std, plan, tools);
  }

  /** An existing standardised library is used as it is, whatever the input. */
  lemma ExistingStandardisationReused(files: map<string, seq<Entry>>, input: seq<Entry>, other: seq<Entry>, tools: Tools)
    requires Standardised in files
    ensures AfterStandardisation(files, input, tools) == AfterStandardisation(files, other, tools) == files
  {
  }

  /** With Gypsum-DL conformers the final library is everything Gypsum-DL wrote
      after its parameter record, reduced to molecule and ID. */
  lemma GypsumFinalLibrary(files: map<string, seq<Entry>>, input: seq<Entry>, protonation: string, tools: Tools)
    requires protonation in {"GypsumDL", "None"}
    ensures var std := AfterStandardisation(files, input, tools)[Standardised];
      var run := if protonation == "GypsumDL" then WithProtonation else NoProtonation;
      Prepared(files, input, "GypsumDL", protonation, tools).Ok? &&
      Prepared(files, input, "GypsumDL", protonation, tools).value[FinalLibrary] == CleanupEntries(tools.gypsum(run, std))
  {
    ValidMethodsComplete(files, input, "GypsumDL", protonation, tools);
  }

  /** With RDKit conformers and no protonation, both the conformer step and the
      cleanup drop a first record, so the first two standardised compounds never
      reach the final library. */
  lemma RdkitWithoutProtonationDropsTwo(files: map<string, seq<Entry>>, input: seq<Entry>, tools: Tools)
    ensures var std := AfterStandardisation(files, input, tools)[Standardised];
      var r := Prepared(files, input, "RDKit", "None", tools);
      r.Ok? && |r.value[FinalLibrary]| == (if |std| >= 2 then |std| - 2 else 0) &&
      forall i :: 0 <= i < |r.value[FinalLibrary]| ==> r.value[FinalLibrary][i].id == std[i + 2].id
  {
    ValidMethodsComplete(files, input, "RDKit", "None", tools);
    var std := AfterStandardisation(files, input, tools)[Standardised];
    var embedded := RdkitConformerEntries(std, tools);
    var fin := Prepared(files, input, "RDKit", "None", tools).value[FinalLibrary];
    assert fin == CleanupEntries(embedded);
    forall i | 0 <= i < |fin| ensures fin[i].id == std[i + 2].id {
      assert fin[i].id == embedded[i + 1].id;
    }
  }
}
