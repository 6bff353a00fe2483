/** The current library preparation entry point (scripts/library_preparation/main.py,
    `prepare_library`): standardise unless already done, protonate with Gypsum-DL
    or not at all, generate conformers with RDKit or Gypsum-DL, write the final
    library and delete the intermediate files. The standardisation, protonation
    and conformer modules it calls are parameters. */
module LibraryMain {
  import opened Wrappers
  import LibraryPreparation

  type Entry = LibraryPreparation.Entry
  type Workspace = LibraryPreparation.Workspace

  const Standardised := "standardized_library.sdf"
  const Protonated := "protonated_library.sdf"
  const Generated := "generated_conformers.sdf"
  const FinalLibrary := "final_library.sdf"

  /** `standardize_library`, `protonate_GypsumDL`, `generate_conformers_RDKit` and
      `generate_conformers_GypsumDL`, as what each writes for the records it reads. */
  datatype Tools = Tools(
    standardise: seq<Entry> -> seq<Entry>,
    protonate: seq<Entry> -> seq<Entry>,
    rdkit: seq<Entry> -> seq<Entry>,
    gypsum: seq<Entry> -> seq<Entry>)

  datatype PrepError =
    | InvalidProtonation(protonation: string)   // ValueError
    | InvalidConformers(conformers: string)     // ValueError

  /** `output_dir / name`. */
  function JoinPath(dir: string, name: string): string
  {
    dir + "/" + name
  }

  /** `WriteSDF` of the generated library without a `properties` list: each record
      is written as its molecule with its ID as title, and no other column. */
  function FinalEntries(rows: seq<Entry>): (r: seq<Entry>)
    ensures |r| == |rows|
    ensures forall i :: 0 <= i < |r| ==>
      r[i].id == rows[i].id && r[i].molecule == rows[i].molecule && r[i].properties == map[]
  {
    seq(|rows|, i requires 0 <= i < |rows| => LibraryPreparation.MoleculeAndId(rows[i]))
  }

  /** The written library depends only on the molecules and IDs, so selecting those
      two columns first, as line 71 does without keeping the result, changes nothing. */
  lemma OnlyMoleculeAndIdWritten(a: seq<Entry>, b: seq<Entry>)
    requires |a| == |b|
    requires forall i :: 0 <= i < |a| ==> a[i].id == b[i].id && a[i].molecule == b[i].molecule
    ensures FinalEntries(a) == FinalEntries(b)
  {
  }

  // ------------------------------------------------------------ the outcome on the folder

  function AfterStandardisation(files: map<string, seq<Entry>>, input: seq<Entry>, tools: Tools): (r: map<string, seq<Entry>>)
    ensures Standardised in r
  {
    if Standardised in files then files else files[Standardised := tools.standardise(input)]
  }

  /** The file the conformer step reads: the protonated library, or the standardised
      one when protonation is `None`; any other method is a ValueError. */
  function ProtonationSource(protonation: string): (r: Result<string, PrepError>)
    ensures r.Ok? <==> protonation == "GypsumDL" || protonation == "None"
  {
    if protonation == "GypsumDL" then Ok(Protonated)
    else if protonation == "None" then Ok(Standardised)
    else Err(InvalidProtonation(protonation))
  }

  /** Gypsum-DL protonation, skipped when its output already exists. */
  function AfterProtonation(files: map<string, seq<Entry>>, protonation: string, tools: Tools): (r: map<string, seq<Entry>>)
    requires Standardised in files
    ensures Standardised in r && (protonation == "GypsumDL" ==> Protonated in r)
  {
    if protonation == "GypsumDL" && Protonated !in files then files[Protonated := tools.protonate(files[Standardised])]
    else files
  }

  function AfterConformers(files: map<string, seq<Entry>>, source: string, conformers: string, tools: Tools)
    : (r: Result<map<string, seq<Entry>>, PrepError>)
    requires source in files
    ensures r.Ok? ==> Generated in r.value
  {
    if conformers == "RDKit" || conformers == "MMFF" then Ok(files[Generated := tools.rdkit(files[source])])
    else if conformers == "GypsumDL" then Ok(files[Generated := tools.gypsum(files[source])])
    else Err(InvalidConformers(conformers))
  }

  /** The final library written and the three intermediate files removed. */
  function Finished(files: map<string, seq<Entry>>): map<string, seq<Entry>>
    requires Generated in files
  {
    files[FinalLibrary := FinalEntries(files[Generated])] - {Standardised, Protonated, Generated}
  }

  /** `prepare_library`: the folder it leaves, or the error it raises. */
  function Prepared(files: map<string, seq<Entry>>, input: seq<Entry>, protonation: string, conformers: string, tools: Tools)
    : Result<map<string, seq<Entry>>, PrepError>
  {
    var standardised := AfterStandardisation(files, input, tools);
    match ProtonationSource(protonation)
    case Err(e) => Err(e)
    case Ok(source) =>
      var protonated := AfterProtonation(standardised, protonation, tools);
      match AfterConformers(protonated, source, conformers, tools)
      case Err(e) => Err(e)
      case Ok(conformed) => Ok(Finished(conformed))
  }

  /** The folder a rejected run leaves: the standardised library is written before
      the protonation method is checked, and the protonated library before the
      conformer method is. */
  function RejectedFolder(files: map<string, seq<Entry>>, input: seq<Entry>, protonation: string, tools: Tools): (r: map<string, seq<Entry>>)
    ensures Standardised in r
    ensures protonation == "GypsumDL" ==> Protonated in r
  {
    var standardised := AfterStandardisation(files, input, tools);
    if ProtonationSource(protonation).Err? then standardised
    else AfterProtonation(standardised, protonation, tools)
  }

  /** The programs run, in order; those before a ValueError have already run. */
  function StepsRun(files: map<string, seq<Entry>>, protonation: string, conformers: string): seq<LibraryPreparation.Step>
  {
    (if Standardised in files then [] else [LibraryPreparation.StandardiseLibrary]) +
    (if protonation == "GypsumDL" && Protonated !in files then [LibraryPreparation.GypsumProtonation] else []) +
    (if protonation != "GypsumDL" && protonation != "None" then []
     else if conformers == "RDKit" || conformers == "MMFF" then [LibraryPreparation.RdkitConformers]
     else if conformers == "GypsumDL" then [LibraryPreparation.GypsumConformers(false)]
     else [])
  }

  // ------------------------------------------------------------ the steps

  method Standardise(w: Workspace, input: seq<Entry>, tools: Tools)
    modifies w
    ensures w.files == AfterStandardisation(old(w.files), input, tools)
    ensures w.steps == old(w.steps) + if Standardised in old(w.files) then [] else [LibraryPreparation.StandardiseLibrary]
  {
    if Standardised !in w.files {
      w.Run(LibraryPreparation.StandardiseLibrary);
      w.Write(Standardised, tools.standardise(input));
    }
  }

  method Protonate(w: Workspace, protonation: string, tools: Tools)
    requires Standardised in w.files
    modifies w
    ensures w.files == AfterProtonation(old(w.files), protonation, tools)
    ensures w.steps == old(w.steps) +
      if protonation == "GypsumDL" && Protonated !in old(w.files) then [LibraryPreparation.GypsumProtonation] else []
  {
    if protonation == "GypsumDL" && Protonated !in w.files {
      w.Run(LibraryPreparation.GypsumProtonation);
      w.Write(Protonated, tools.protonate(w.files[Standardised]));
    }
  }

  method GenerateConformers(w: Workspace, source: string, conformers: string, tools: Tools) returns (r: Result<(), PrepError>)
    requires source in w.files
    modifies w
    ensures r.Ok? <==> AfterConformers(old(w.files), source, conformers, tools).Ok?
    ensures r.Err? ==> r.error == AfterConformers(old(w.files), source, conformers, tools).error
    ensures r.Ok? ==> w.files == AfterConformers(old(w.files), source, conformers, tools).value
    ensures r.Err? ==> w.files == old(w.files)
    ensures w.steps == old(w.steps) +
      if conformers == "RDKit" || conformers == "MMFF" then [LibraryPreparation.RdkitConformers]
      else if conformers == "GypsumDL" then [LibraryPreparation.GypsumConformers(false)]
      else []
  {
    if conformers == "RDKit" || conformers == "MMFF" {
      w.Run(LibraryPreparation.RdkitConformers);
      w.Write(Generated, tools.rdkit(w.files[source]));
    } else if conformers == "GypsumDL" {
      w.Run(LibraryPreparation.GypsumConformers(false));
      w.Write(Generated, tools.gypsum(w.files[source]));
    } else {
      return Err(InvalidConformers(conformers));
    }
    return Ok(());
  }

  method Finish(w: Workspace)
    requires Generated in w.files
    modifies w
    ensures w.files == Finished(old(w.files)) && w.steps == old(w.steps)
  {
    var rows := w.files[Generated];
    w.Write(FinalLibrary, FinalEntries(rows));
    w.Unlink(Standardised);
    w.Unlink(Protonated);
    w.Unlink(Generated);
  }

  /** `prepare_library`: the path of the final library, or the first ValueError. */
  method PrepareLibrary(w: Workspace, input: seq<Entry>, outputDir: string, protonation: string, conformers: string, tools: Tools)
    returns (r: Result<string, PrepError>)
    modifies w
    ensures r.Ok? <==> Prepared(old(w.files), input, protonation, conformers, tools).Ok?
    ensures r.Err? ==> r.error == Prepared(old(w.files), input, protonation, conformers, tools).error
    ensures r.Ok? ==> r.value == JoinPath(outputDir, FinalLibrary) &&
                      w.files == Prepared(old(w.files), input, protonation, conformers, tools).value
    ensures r.Err? ==> w.files == RejectedFolder(old(w.files), input, protonation, tools)
    ensures w.steps == old(w.steps) + StepsRun(old(w.files), protonation, conformers)
  {
    Standardise(w, input, tools);
    var source := ProtonationSource(protonation);
    if source.Err? {
      return Err(source.error);
    }
    Protonate(w, protonation, tools);
    var conformed := GenerateConformers(w, source.value, conformers, tools);
    if conformed.Err? {
      return Err(conformed.error);
    }
    Finish(w);
    return Ok(JoinPath(outputDir, FinalLibrary));
  }

  // ------------------------------------------------------------ properties

  /** Protonation is validated first: an invalid protonation method is reported
      whatever the conformer method, and the run succeeds exactly when both are valid. */
  lemma ProtonationCheckedFirst(files: map<string, seq<Entry>>, input: seq<Entry>, protonation: string, conformers: string, tools: Tools)
    ensures var r := Prepared(files, input, protonation, conformers, tools);
      (protonation != "GypsumDL" && protonation != "None" ==> r == Err(InvalidProtonation(protonation))) &&
      ((protonation == "GypsumDL" || protonation == "None") && conformers !in {"RDKit", "MMFF", "GypsumDL"} ==>
        r == Err(InvalidConformers(conformers))) &&
      (r.Ok? <==> (protonation == "GypsumDL" || protonation == "None") && conformers in {"RDKit", "MMFF", "GypsumDL"})
  {
  }

  /** The older entry point checks the conformer method first, so the same pair of
      invalid methods is reported differently by the two. */
  lemma ValidationOrderDiffers(files: map<string, seq<Entry>>, input: seq<Entry>, tools: Tools)
    ensures Prepared(files, input, "Amber", "OMEGA", tools) == Err(InvalidProtonation("Amber"))
    ensures LibraryPreparation.ConformerPlan("OMEGA", "Amber") == Err(LibraryPreparation.InvalidConformers("OMEGA"))
  {
  }

  /** Without protonation the conformer step reads the standardised library itself. */
  lemma NoProtonationReadsStandardised(files: map<string, seq<Entry>>, input: seq<Entry>, tools: Tools)
    ensures var std := AfterStandardisation(files, input, tools)[Standardised];
      Prepared(files, input, "None", "RDKit", tools) == Ok(Finished(AfterStandardisation(files, input, tools)[Generated := tools.rdkit(std)]))
  {
  }

  /** An existing protonated library is used as it is; otherwise Gypsum-DL protonates
      the standardised library. */
  lemma ProtonationReused(files: map<string, seq<Entry>>, protonation: string, tools: Tools)
    requires Standardised in files && protonation == "GypsumDL"
    ensures Protonated in files ==> AfterProtonation(files, protonation, tools) == files
    ensures Protonated !in files ==>
      AfterProtonation(files, protonation, tools)[Protonated] == tools.protonate(files[Standardised])
  {
  }

  /** A rejected run leaves its standardised library (and, with GypsumDL, its
      protonated library) in the folder, and a later run reuses them whatever
      library it is given. */
  lemma RejectedRunLeftoversReused(files: map<string, seq<Entry>>, input: seq<Entry>, other: seq<Entry>, protonation: string, tools: Tools)
    ensures var left := RejectedFolder(files, input, protonation, tools);
      AfterStandardisation(left, other, tools) == left &&
      left[Standardised] == AfterStandardisation(files, input, tools)[Standardised] &&
      (protonation == "GypsumDL" ==> AfterProtonation(left, protonation, tools) == left)
  {
  }

  /** A completed run leaves the final library, holding exactly the generated
      records reduced to molecule and ID, and none of the intermediate files. */
  lemma FinalLibraryContents(files: map<string, seq<Entry>>, input: seq<Entry>, protonation: string, conformers: string, tools: Tools)
    requires Prepared(files, input, protonation, conformers, tools).Ok?
    ensures var out := Prepared(files, input, protonation, conformers, tools).value;
      FinalLibrary in out && Standardised !in out && Protonated !in out && Generated !in out &&
      forall i :: 0 <= i < |out[FinalLibrary]| ==> out[FinalLibrary][i].properties == map[]
  {
  }
}
