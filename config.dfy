/** Validation of the DockM8 configuration (scripts/utilities/config_parser.py,
    `check_config`). The checks run in the order of the source and the first one
    that fails raises; on success the configuration is returned with the entries
    the source rewrites in place. The YAML document arrives already parsed
    (`Document`); the file system, the CPU count and the default software folder
    are parameters (`Environment`), and so are the tables of programs and methods
    the source imports (`Registries`). */
module ConfigParser {
  import opened Wrappers
  import opened Text
  import Clustering
  import PocketPattern

  // ------------------------------------------------------------ values

  /** A scalar of the YAML document; `Missing` stands for an absent key. */
  datatype Value = Missing | Null | Bool(b: bool) | Int(i: int) | Float(x: real) | Str(s: string)

  /** Python truthiness. */
  predicate Truthy(v: Value)
  {
    match v
    case Missing => false
    case Null => false
    case Bool(b) => b
    case Int(i) => i != 0
    case Float(x) => x != 0.0
    case Str(s) => s != ""
  }

  /** `.get(key)` gives None both for an absent key and for an explicit null. */
  predicate IsNone(v: Value) { v == Missing || v == Null }

  /** `isinstance(v, int)`: `bool` is a subclass of `int`. */
  predicate IsInt(v: Value) { v.Int? || v.Bool? }

  /** `isinstance(v, (int, float))`. */
  predicate IsNumber(v: Value) { IsInt(v) || v.Float? }

  /** `v in options` for a list of strings. */
  predicate OneOf(v: Value, options: seq<string>) { v.Str? && v.s in options }

  /** What `int(v)` raises. */
  datatype IntFailure = ValueErrorRaised | TypeErrorOnInt

  /** `int(x)` for a float truncates toward zero. */
  function Truncate(x: real): (n: int)
    ensures 0.0 <= x ==> n as real <= x < n as real + 1.0
    ensures x < 0.0 ==> n as real - 1.0 < x <= n as real
  {
    if x >= 0.0 then x.Floor else -((-x).Floor)
  }

  /** `int(v)`. */
  function IntOf(v: Value): Result<int, IntFailure>
  {
    match v
    case Int(i) => Ok(i)
    case Bool(b) => Ok(if b then 1 else 0)
    case Float(x) => Ok(Truncate(x))
    case Str(s) => if ParseInt(s).Some? then Ok(ParseInt(s).value) else Err(ValueErrorRaised)
    case _ => Err(TypeErrorOnInt)
  }

  /** `d.get(key)`. */
  function Get(d: map<string, Value>, key: string): Value
  {
    if key in d then d[key] else Missing
  }

  // ------------------------------------------------------------ inputs

  datatype DecoySection = DecoySection(genDecoys: Value, actives: Value, nDecoys: Value, decoyModel: Value)

  /** The parsed configuration file. Lists that are absent are empty. */
  datatype Document = Document(
    software: Value, mode: Value, nCpus: Value,
    decoys: DecoySection,
    rescoring: seq<string>,
    receptors: seq<string>,
    dockingLibrary: Value,
    protein: map<string, Value>,
    ligandProtonation: Value, conformers: Value, nConformers: Value,
    pocketMethod: Value, referenceLigands: seq<string>, radius: Value, manualPocket: Value,
    dockingPrograms: seq<string>, nPoses: Value, exhaustiveness: Value,
    clashCutoff: Value, strainCutoff: Value, bustPoses: Value,
    poseMethods: seq<string>, clusteringMethod: Value,
    consensus: Value, threshold: Value)

  /** `Path.is_dir`, `Path.is_file`, `os.cpu_count()` and `dockm8_path / "software"`. */
  datatype Environment = Environment(isDir: string -> bool, isFile: string -> bool, cpuCount: nat, defaultSoftware: string)

  /** The keys of CLUSTERING_METRICS, RESCORING_FUNCTIONS, DOCKING_PROGRAMS (in their
      order) and CONSENSUS_METHODS, and the option lists of ligand preparation and
      pocket detection. */
  datatype Registries = Registries(
    clusteringMetrics: seq<string>, rescoringFunctions: seq<string>, dockingPrograms: seq<string>,
    consensusMethods: seq<string>, protonationOptions: seq<string>, conformerOptions: seq<string>,
    pocketOptions: seq<string>)

  /** The validation step that failed, one per `DockM8Error` the validator raises. */
  datatype Check =
    | SoftwarePath | Mode | NCpus | ActivesPath | NDecoys | DecoyModel
    | ReceptorFormat(receptor: string) | ReceptorPath(receptor: string)
    | LibraryPath | LibraryFormat
    | ProteinFlag(flag: string) | AddHydrogens
    | LigandProtonation | Conformers | NConformers
    | PocketMethod | ReferenceRequired | ReferenceFormat(ligand: string) | ReferencePath(ligand: string)
    | Radius | ManualPocketRequired | ManualPocketFormat
    | DockingProgram(program: string) | NPoses | Exhaustiveness
    | ClashCutoff | StrainCutoff | BustPoses
    | PoseSelectionMethod(name: string) | ClusteringMethod
    | RescoringMethod(name: string) | ConsensusMethod

  /** `DockM8Error`, or a Python error the validator does not catch. */
  datatype ConfigError = DockM8Error(check: Check) | TypeErrorRaised | AttributeErrorRaised

  /** The entries of the configuration that the validator rewrites. `None` in a
      list entry is a YAML null. */
  datatype Settings = Settings(
    software: Value, nCpus: Value, receptors: seq<string>, referenceLigands: seq<string>,
    exhaustiveness: Value, poseMethods: Option<seq<string>>, dockingPrograms: Option<seq<string>>,
    clusteringMethod: Value, threshold: Value)

  /** The entries as read from the file. */
  function Loaded(doc: Document): Settings
  {
    Settings(doc.software, doc.nCpus, doc.receptors, doc.referenceLigands, doc.exhaustiveness,
             Some(doc.poseMethods), Some(doc.dockingPrograms), doc.clusteringMethod, doc.threshold)
  }

  /** The first item of a list whose check fails, as the source's `for ... raise` loops report it. */
  function FirstFailure(items: seq<string>, check: string -> Option<ConfigError>): (r: Option<ConfigError>)
    ensures r.None? <==> forall i :: 0 <= i < |items| ==> check(items[i]).None?
  {
    if items == [] then None
    else if check(items[0]).Some? then check(items[0])
    else FirstFailure(items[1..], check)
  }

  /** One step of such a loop: the first failure of a longer prefix. */
  lemma {:induction false} FirstFailureStep(items: seq<string>, i: nat, check: string -> Option<ConfigError>)
    requires i < |items| && FirstFailure(items[..i], check).None?
    ensures check(items[i]).Some? ==> FirstFailure(items, check) == check(items[i])
    ensures check(items[i]).None? ==> FirstFailure(items[..i + 1], check).None?
  {
    if i > 0 {
      assert check(items[0]) == check(items[..i][0]);
      assert items[1..][..i - 1] == items[..i][1..];
      FirstFailureStep(items[1..], i - 1, check);
    }
  }

  // ------------------------------------------------------------ general

  /** The `software` entry: "None" or a falsy value selects the default folder,
      which, like a given path, must be a directory. */
  function SoftwareFolder(software: Value, env: Environment): (r: Result<string, ConfigError>)
    ensures r.Ok? ==> env.isDir(r.value)
    ensures r.Ok? ==> r.value == env.defaultSoftware || software == Str(r.value)
    ensures software.Str? && software.s != "" && software.s != "None" ==>
      (r.Ok? <==> env.isDir(software.s))
    ensures IsNone(software) ==> (r.Ok? <==> env.isDir(env.defaultSoftware))
  {
    if software == Str("None") || !Truthy(software) then
      if env.isDir(env.defaultSoftware) then Ok(env.defaultSoftware) else Err(DockM8Error(SoftwarePath))
    else if !software.Str? then Err(TypeErrorRaised)
    else if env.isDir(software.s) then Ok(software.s)
    else Err(DockM8Error(SoftwarePath))
  }

  /** The mode used by the later checks: `general.get("mode", "single")`. */
  function ModeOf(doc: Document): Value
  {
    if doc.mode == Missing then Str("single") else doc.mode
  }

  /** `mode.lower()` must be one of the three modes; a non-string has no `lower`. */
  function ModeError(mode: Value): (r: Option<ConfigError>)
  {
    if !mode.Str? then Some(AttributeErrorRaised)
    else if ToLower(mode.s) in ["single", "ensemble", "active_learning"] then None
    else Some(DockM8Error(Mode))
  }

  /** `n_cpus`: `int(n_cpus)` unless it is 0, else `int(os.cpu_count() * 0.9)`;
      only a ValueError is reported as a configuration error. */
  function CpuCount(nCpus: Value, cpuCount: nat): (r: Result<int, ConfigError>)
  {
    var v := if nCpus == Missing then Int(0) else nCpus;
    match IntOf(v)
    case Err(ValueErrorRaised) => Err(DockM8Error(NCpus))
    case Err(TypeErrorOnInt) => Err(TypeErrorRaised)
    case Ok(n) => Ok(if n != 0 then n else cpuCount * 9 / 10)
  }

  /** Software folder, mode and CPU count, in that order. */
  function GeneralSection(doc: Document, env: Environment): Result<(string, int), ConfigError>
  {
    match SoftwareFolder(doc.software, env)
    case Err(e) => Err(e)
    case Ok(folder) =>
      var mode := if doc.mode == Missing then Str("single") else doc.mode;
      if ModeError(mode).Some? then Err(ModeError(mode).value)
      else match CpuCount(doc.nCpus, env.cpuCount)
        case Err(e) => Err(e)
        case Ok(n) => Ok((folder, n))
  }

  /** An absent or zero CPU count falls back to nine tenths of the machine's CPUs. */
  lemma CpuCountDefault(nCpus: Value, cpuCount: nat)
    requires nCpus == Missing || nCpus == Int(0) || nCpus == Bool(false) || nCpus == Float(0.0)
    ensures CpuCount(nCpus, cpuCount) == Ok(cpuCount * 9 / 10)
    ensures cpuCount >= 2 ==> CpuCount(nCpus, cpuCount).value > 0
  {
  }

  /** A given non-zero count is kept, whether written as a number or as a string. */
  lemma CpuCountKept(n: int, cpuCount: nat)
    requires n != 0
    ensures CpuCount(Int(n), cpuCount) == Ok(n)
    ensures n > 0 ==> CpuCount(Str(NatToString(n)), cpuCount) == Ok(n)
  {
    if n > 0 {
      NatToStringRoundTrip(n);
    }
  }

  /** Text that is not a number is a configuration error; an explicit null is a TypeError. */
  lemma CpuCountRejects(s: string, cpuCount: nat)
    requires ParseInt(s).None?
    ensures CpuCount(Str(s), cpuCount) == Err(DockM8Error(NCpus))
    ensures CpuCount(Null, cpuCount) == Err(TypeErrorRaised)
  {
  }

  /** The mode check ignores case; the rest of the validator compares the exact text. */
  lemma ModeIgnoresCase()
    ensures ModeError(Str("Ensemble")).None? && ModeError(Str("SINGLE")).None?
    ensures ModeError(Str("batch")) == Some(DockM8Error(Mode))
    ensures ModeError(Missing) == Some(AttributeErrorRaised)
  {
    assert ToLower("Ensemble") == "ensemble";
    assert ToLower("SINGLE") == "single";
    assert ToLower("batch") == "batch";
  }

  // ------------------------------------------------------------ inputs

  /** Decoy generation, when enabled: the actives folder, `int(n_decoys)` and the decoy model. */
  function DecoyError(d: DecoySection, env: Environment): (r: Option<ConfigError>)
    ensures !Truthy(d.genDecoys) ==> r.None?
    ensures r.None? && Truthy(d.genDecoys) ==>
      d.actives.Str? && env.isDir(d.actives.s) && IntOf(d.nDecoys).Ok? &&
      d.decoyModel in [Str("DEKOIS"), Str("DUDE"), Str("DUDE_P")]
  {
    if !Truthy(d.genDecoys) then None
    else if !d.actives.Str? then Some(TypeErrorRaised)
    else if !env.isDir(d.actives.s) then Some(DockM8Error(ActivesPath))
    else if IntOf(d.nDecoys) == Err(ValueErrorRaised) then Some(DockM8Error(NDecoys))
    else if IntOf(d.nDecoys) == Err(TypeErrorOnInt) then Some(TypeErrorRaised)
    else if d.decoyModel !in [Str("DEKOIS"), Str("DUDE"), Str("DUDE_P")] then Some(DockM8Error(DecoyModel))
    else None
  }

  /** How a receptor entry is read. */
  datatype ReceptorKind = PdbCode | UniprotCode | PdbFile

  function Classify(receptor: string): ReceptorKind
  {
    if |receptor| == 4 && IsAlnumString(receptor) && !IsDigits(receptor) then PdbCode
    else if |receptor| == 6 && IsAlnumString(receptor) && !IsDigits(receptor) then UniprotCode
    else PdbFile
  }

  /** Codes are downloaded later; anything else must be an existing `.pdb` file. */
  function ReceptorError(env: Environment, receptor: string): Option<ConfigError>
  {
    if Classify(receptor) != PdbFile then None
    else if !EndsWith(receptor, ".pdb") then Some(DockM8Error(ReceptorFormat(receptor)))
    else if !env.isFile(receptor) then Some(DockM8Error(ReceptorPath(receptor)))
    else None
  }

  function ReceptorCheck(env: Environment): string -> Option<ConfigError>
  {
    receptor => ReceptorError(env, receptor)
  }

  /** `docking_library` must be an existing file, then end in `.sdf`. */
  function LibraryError(library: Value, env: Environment): (r: Option<ConfigError>)
    ensures r.None? <==> library.Str? && env.isFile(library.s) && EndsWith(library.s, ".sdf")
  {
    if !library.Str? then Some(TypeErrorRaised)
    else if !env.isFile(library.s) then Some(DockM8Error(LibraryPath))
    else if !EndsWith(library.s, ".sdf") then Some(DockM8Error(LibraryFormat))
    else None
  }

  /** The protein preparation switches that must be booleans, in the order they are checked. */
  const ProteinConditions: seq<string> :=
    ["select_best_chain", "fix_nonstandard_residues", "fix_missing_residues",
     "remove_heteroatoms", "remove_water", "protonation"]

  function ProteinFlagError(protein: map<string, Value>, flag: string): Option<ConfigError>
  {
    if Get(protein, flag).Bool? then None else Some(DockM8Error(ProteinFlag(flag)))
  }

  function ProteinCheck(protein: map<string, Value>): string -> Option<ConfigError>
  {
    flag => ProteinFlagError(protein, flag)
  }

  /** `add_hydrogens` is optional but numeric when given. */
  function HydrogensError(protein: map<string, Value>): (r: Option<ConfigError>)
    ensures r.None? <==> IsNone(Get(protein, "add_hydrogens")) || IsNumber(Get(protein, "add_hydrogens"))
  {
    var h := Get(protein, "add_hydrogens");
    if !IsNone(h) && !IsNumber(h) then Some(DockM8Error(AddHydrogens)) else None
  }

  /** Ligand protonation and conformer options, and an integer conformer count. */
  function LigandError(doc: Document, reg: Registries): (r: Option<ConfigError>)
    ensures r.None? <==>
      OneOf(doc.ligandProtonation, reg.protonationOptions) && OneOf(doc.conformers, reg.conformerOptions) &&
      IsInt(doc.nConformers)
  {
    if !OneOf(doc.ligandProtonation, reg.protonationOptions) then Some(DockM8Error(LigandProtonation))
    else if !OneOf(doc.conformers, reg.conformerOptions) then Some(DockM8Error(Conformers))
    else if !IsInt(doc.nConformers) then Some(DockM8Error(NConformers))
    else None
  }

  /** Decoys, receptors, library, protein and ligand preparation; the receptor list
      it keeps is the whole list, since the single-mode slice is overwritten. */
  function InputsSection(doc: Document, env: Environment, reg: Registries): Result<seq<string>, ConfigError>
  {
    if DecoyError(doc.decoys, env).Some? then Err(DecoyError(doc.decoys, env).value)
    else if FirstFailure(doc.receptors, ReceptorCheck(env)).Some? then
      Err(FirstFailure(doc.receptors, ReceptorCheck(env)).value)
    else if LibraryError(doc.dockingLibrary, env).Some? then Err(LibraryError(doc.dockingLibrary, env).value)
    else if FirstFailure(ProteinConditions, ProteinCheck(doc.protein)).Some? then
      Err(FirstFailure(ProteinConditions, ProteinCheck(doc.protein)).value)
    else if HydrogensError(doc.protein).Some? then Err(HydrogensError(doc.protein).value)
    else if LigandError(doc, reg).Some? then Err(LigandError(doc, reg).value)
    else Ok(doc.receptors)
  }

  /** A four-character code such as `1abc` is a PDB code and a six-character one a
      UniProt accession; neither is looked for on disk. An all-digit entry is a path. */
  lemma ReceptorCodes()
    ensures Classify("1ABC") == PdbCode && Classify("P00533") == UniprotCode
    ensures Classify("1234") == PdbFile && Classify("rec.pdb") == PdbFile
  {
    var pdb, uniprot := "1ABC", "P00533";
    assert pdb[0] == '1' && pdb[1] == 'A' && pdb[2] == 'B' && pdb[3] == 'C';
    assert IsAlnumString(pdb) && !IsDigit(pdb[1]);
    assert uniprot[0] == 'P' && uniprot[1] == '0' && uniprot[2] == '0' && uniprot[3] == '5' && uniprot[4] == '3' && uniprot[5] == '3';
    assert IsAlnumString(uniprot) && !IsDigit(uniprot[0]);
    assert IsDigits("1234");
  }

  /** Every receptor that passes is a code or an existing `.pdb` file. */
  lemma ReceptorsChecked(doc: Document, env: Environment, reg: Registries)
    requires InputsSection(doc, env, reg).Ok?
    ensures forall r :: r in doc.receptors && Classify(r) == PdbFile ==> EndsWith(r, ".pdb") && env.isFile(r)
  {
    forall r | r in doc.receptors && Classify(r) == PdbFile
      ensures EndsWith(r, ".pdb") && env.isFile(r)
    {
      var i :| 0 <= i < |doc.receptors| && doc.receptors[i] == r;
      assert ReceptorCheck(env)(doc.receptors[i]).None?;
    }
  }

  /** Receptor codes are accepted whatever the file system holds. */
  lemma ReceptorCodesNeedNoFile(receptors: seq<string>, env: Environment)
    requires forall i :: 0 <= i < |receptors| ==> Classify(receptors[i]) != PdbFile
    ensures FirstFailure(receptors, ReceptorCheck(env)).None?
  {
    forall i | 0 <= i < |receptors|
      ensures ReceptorCheck(env)(receptors[i]).None?
    {
      assert Classify(receptors[i]) != PdbFile;
    }
  }

  /** Every protein switch that passes is a boolean. */
  lemma ProteinSwitchesAreBooleans(doc: Document, env: Environment, reg: Registries)
    requires InputsSection(doc, env, reg).Ok?
    ensures forall i :: 0 <= i < |ProteinConditions| ==> Get(doc.protein, ProteinConditions[i]).Bool?
  {
    forall i | 0 <= i < |ProteinConditions|
      ensures Get(doc.protein, ProteinConditions[i]).Bool?
    {
      assert ProteinCheck(doc.protein)(ProteinConditions[i]).None?;
    }
  }

  // ------------------------------------------------------------ pocket

  function ReferenceError(env: Environment, ligand: string): Option<ConfigError>
  {
    if !EndsWith(ligand, ".sdf") then Some(DockM8Error(ReferenceFormat(ligand)))
    else if !env.isFile(ligand) then Some(DockM8Error(ReferencePath(ligand)))
    else None
  }

  function ReferenceCheck(env: Environment): string -> Option<ConfigError>
  {
    ligand => ReferenceError(env, ligand)
  }

  /** The manual pocket: present, a string, and matched by `re.match`. */
  function ManualPocketError(pocket: Value): (r: Option<ConfigError>)
    ensures r.None? <==> pocket.Str? && PocketPattern.Matches(pocket.s)
  {
    if !Truthy(pocket) then
      assert pocket.Str? ==> pocket.s == "";
      PocketPattern.EmptyNotMatched();
      Some(DockM8Error(ManualPocketRequired))
    else if !pocket.Str? then Some(TypeErrorRaised)
    else if !PocketPattern.Matches(pocket.s) then Some(DockM8Error(ManualPocketFormat))
    else None
  }

  /** The pocket detection method and what it needs. The result is the stored
      list of reference ligands: only the first in single mode. */
  function PocketSection(doc: Document, env: Environment, reg: Registries): Result<seq<string>, ConfigError>
  {
    var m := doc.pocketMethod;
    if !OneOf(m, reg.pocketOptions) then Err(DockM8Error(PocketMethod))
    else
      var refs := doc.referenceLigands;
      var usesReferences := m == Str("Reference") || m == Str("RoG");
      if usesReferences && refs == [] then Err(DockM8Error(ReferenceRequired))
      else if usesReferences && FirstFailure(refs, ReferenceCheck(env)).Some? then
        Err(FirstFailure(refs, ReferenceCheck(env)).value)
      else
        var stored :=
          if !usesReferences then refs
          else if ModeOf(doc) == Str("single") && |refs| > 1 then refs[..1]
          else refs;
        if m == Str("Reference") && !IsNumber(doc.radius) then Err(DockM8Error(Radius))
        else if m == Str("Manual") && ManualPocketError(doc.manualPocket).Some? then
          Err(ManualPocketError(doc.manualPocket).value)
        else Ok(stored)
  }

  /** In single mode only the first reference ligand is kept; otherwise all are. */
  lemma ReferencesInSingleMode(doc: Document, env: Environment, reg: Registries)
    requires PocketSection(doc, env, reg).Ok?
    requires doc.pocketMethod == Str("Reference") || doc.pocketMethod == Str("RoG")
    ensures doc.referenceLigands != []
    ensures ModeOf(doc) == Str("single") ==> PocketSection(doc, env, reg).value == [doc.referenceLigands[0]]
    ensures ModeOf(doc) != Str("single") ==> PocketSection(doc, env, reg).value == doc.referenceLigands
  {
  }

  /** Every reference ligand that passes is an existing `.sdf` file. */
  lemma ReferencesChecked(doc: Document, env: Environment, reg: Registries)
    requires PocketSection(doc, env, reg).Ok?
    requires doc.pocketMethod == Str("Reference") || doc.pocketMethod == Str("RoG")
    ensures forall i :: 0 <= i < |doc.referenceLigands| ==>
      EndsWith(doc.referenceLigands[i], ".sdf") && env.isFile(doc.referenceLigands[i])
  {
    forall i | 0 <= i < |doc.referenceLigands|
      ensures EndsWith(doc.referenceLigands[i], ".sdf") && env.isFile(doc.referenceLigands[i])
    {
      assert ReferenceCheck(env)(doc.referenceLigands[i]).None?;
    }
  }

  /** A manual pocket that passes has the `center:x,y,z*size:x,y,z` form at its start,
      and any such text passes. */
  lemma ManualPocketAccepted(ns: seq<PocketPattern.Numeral>, trailer: string)
    requires |ns| == 6 && forall i :: 0 <= i < 6 ==> PocketPattern.WellFormed(ns[i])
    ensures ManualPocketError(Str(PocketPattern.Fill(PocketPattern.ManualPocket, ns) + trailer)).None?
  {
    PocketPattern.ManualPocketAccepts(ns, trailer);
  }

  // ------------------------------------------------------------ docking

  function ProgramError(reg: Registries, program: string): Option<ConfigError>
  {
    if program in reg.dockingPrograms then None else Some(DockM8Error(DockingProgram(program)))
  }

  function ProgramCheck(reg: Registries): string -> Option<ConfigError>
  {
    program => ProgramError(reg, program)
  }

  /** The programs, `n_poses` and `exhaustiveness`; the result is the stored
      exhaustiveness, including the source's fallback to 8 when it is absent. */
  function DockingSection(doc: Document, reg: Registries): Result<Value, ConfigError>
  {
    if FirstFailure(doc.dockingPrograms, ProgramCheck(reg)).Some? then
      Err(FirstFailure(doc.dockingPrograms, ProgramCheck(reg)).value)
    else if !IsInt(doc.nPoses) then Err(DockM8Error(NPoses))
    else if !IsInt(doc.exhaustiveness) then Err(DockM8Error(Exhaustiveness))
    else if doc.exhaustiveness == Missing &&
            (exists p :: p in ["SMINA", "GNINA", "QVINA2", "QVINAW"] && p in doc.dockingPrograms) then Ok(Int(8))
    else Ok(doc.exhaustiveness)
  }

  /** The fallback to an exhaustiveness of 8 never happens: an absent value fails
      the integer check first, and a present one is kept as given. */
  lemma ExhaustivenessNeverDefaulted(doc: Document, reg: Registries)
    ensures doc.exhaustiveness == Missing ==> DockingSection(doc, reg).Err?
    ensures DockingSection(doc, reg).Ok? ==>
      DockingSection(doc, reg).value == doc.exhaustiveness && IsInt(doc.exhaustiveness)
  {
  }

  /** Every docking program that passes is a known one. */
  lemma ProgramsKnown(doc: Document, reg: Registries)
    requires DockingSection(doc, reg).Ok?
    ensures forall p :: p in doc.dockingPrograms ==> p in reg.dockingPrograms
  {
    forall p | p in doc.dockingPrograms
      ensures p in reg.dockingPrograms
    {
      var i :| 0 <= i < |doc.dockingPrograms| && doc.dockingPrograms[i] == p;
      assert ProgramCheck(reg)(doc.dockingPrograms[i]).None?;
    }
  }

  // ------------------------------------------------------------ pose selection

  /** Clash and strain cut-offs are integers or absent; `bust_poses` is a boolean. */
  function PostDockingError(doc: Document): (r: Option<ConfigError>)
    ensures r.None? <==>
      (IsInt(doc.clashCutoff) || IsNone(doc.clashCutoff)) &&
      (IsInt(doc.strainCutoff) || IsNone(doc.strainCutoff)) && doc.bustPoses.Bool?
  {
    if !(IsInt(doc.clashCutoff) || IsNone(doc.clashCutoff)) then Some(DockM8Error(ClashCutoff))
    else if !(IsInt(doc.strainCutoff) || IsNone(doc.strainCutoff)) then Some(DockM8Error(StrainCutoff))
    else if !doc.bustPoses.Bool? then Some(DockM8Error(BustPoses))
    else None
  }

  const BestPoseMethods: seq<string> :=
    ["bestpose", "bestpose_GNINA", "bestpose_SMINA", "bestpose_PLANTS", "bestpose_QVINA2", "bestpose_QVINAW"]

  /** Clustering metrics, the best-pose methods and rescoring functions. */
  function PoseMethods(reg: Registries): seq<string>
  {
    reg.clusteringMetrics + BestPoseMethods + reg.rescoringFunctions
  }

  function PoseMethodError(reg: Registries, name: string): Option<ConfigError>
  {
    if name in PoseMethods(reg) then None else Some(DockM8Error(PoseSelectionMethod(name)))
  }

  function PoseMethodCheck(reg: Registries): string -> Option<ConfigError>
  {
    name => PoseMethodError(reg, name)
  }

  /** `list.remove(x)`: drops the first occurrence. */
  function Remove(s: seq<string>, x: string): (r: seq<string>)
    ensures x in s ==> |r| == |s| - 1
    ensures x !in s ==> r == s
  {
    if s == [] then []
    else if s[0] == x then s[1..]
    else [s[0]] + Remove(s[1..], x)
  }

  lemma {:induction false} RemoveMembers(s: seq<string>, x: string, y: string)
    ensures y in Remove(s, x) ==> y in s
    ensures y != x ==> (y in Remove(s, x) <==> y in s)
  {
    if s != [] && s[0] != x {
      RemoveMembers(s[1..], x, y);
    }
  }

  /** `x` occurs at most once in `s`. */
  predicate AtMostOnce(s: seq<string>, x: string)
  {
    forall i, j :: 0 <= i < j < |s| && s[i] == x ==> s[j] != x
  }

  lemma {:induction false} RemoveOnce(s: seq<string>, x: string, y: string)
    requires AtMostOnce(s, y)
    ensures AtMostOnce(Remove(s, x), y)
    ensures AtMostOnce(s, x) ==> x !in Remove(s, x)
  {
    if s != [] && s[0] != x {
      assert AtMostOnce(s[1..], y) by {
        forall i, j | 0 <= i < j < |s[1..]| && s[1..][i] == y
          ensures s[1..][j] != y
        {
          assert s[i + 1] == y;
        }
      }
      assert AtMostOnce(s, x) ==> AtMostOnce(s[1..], x) by {
        if AtMostOnce(s, x) {
          forall i, j | 0 <= i < j < |s[1..]| && s[1..][i] == x
            ensures s[1..][j] != x
          {
            assert s[i + 1] == x;
          }
        }
      }
      RemoveOnce(s[1..], x, y);
      RemoveMembers(s[1..], x, y);
      var r := Remove(s, x);
      assert r == [s[0]] + Remove(s[1..], x);
      forall i, j | 0 <= i < j < |r| && r[i] == y
        ensures r[j] != y
      {
        if i == 0 {
          assert r[j] == Remove(s[1..], x)[j - 1];
          assert s[0] == y && s[0] !in s[1..];
        }
      }
    } else if s != [] {
      assert AtMostOnce(s, x) ==> x !in s[1..];
      forall i, j | 0 <= i < j < |s[1..]| && s[1..][i] == y
        ensures s[1..][j] != y
      {
        assert s[i + 1] == y;
      }
    }
  }

  /** The local lists `methods` and `docking_programs` of the pruning loop and the
      configuration entries they are stored to. */
  datatype Selection = Selection(
    methods: seq<string>, programs: seq<string>,
    storedMethods: Option<seq<string>>, storedPrograms: Option<seq<string>>)

  function BestPoseKey(program: string): string { "bestpose_" + program }

  /** One step of the pruning loop as written: the stored entries receive the
      `None` that `list.remove` and `list.append` return. */
  function PruneStepAsWritten(s: Selection, program: string): Selection
  {
    var key := BestPoseKey(program);
    if key in s.methods && program !in s.programs then
      var methods := Remove(s.methods, key);
      if methods == [] then Selection([key], s.programs + [program], None, None)
      else s.(methods := methods, storedMethods := None)
    else s
  }

  /** One step of the pruning loop as intended: the stored entries are the lists. */
  function PruneStep(s: Selection, program: string): Selection
  {
    var key := BestPoseKey(program);
    if key in s.methods && program !in s.programs then
      var methods := Remove(s.methods, key);
      if methods == [] then Selection([key], s.programs + [program], Some([key]), Some(s.programs + [program]))
      else s.(methods := methods, storedMethods := Some(methods))
    else s
  }

  function PruneAsWritten(s: Selection, order: seq<string>): Selection
  {
    if order == [] then s else PruneStepAsWritten(PruneAsWritten(s, order[..|order| - 1]), order[|order| - 1])
  }

  function Prune(s: Selection, order: seq<string>): Selection
  {
    if order == [] then s else PruneStep(Prune(s, order[..|order| - 1]), order[|order| - 1])
  }

  function Initial(doc: Document): Selection
  {
    Selection(doc.poseMethods, doc.dockingPrograms, Some(doc.poseMethods), Some(doc.dockingPrograms))
  }

  /** As written, dropping one best-pose method erases the whole method list:
      `bestpose_GNINA` without GNINA docking leaves the configuration with no
      pose selection methods at all, though `bestpose` is still wanted. */
  lemma PruneAsWrittenErasesMethods()
    ensures var s := Selection(["bestpose_GNINA", "bestpose"], ["SMINA"], Some(["bestpose_GNINA", "bestpose"]), Some(["SMINA"]));
      PruneAsWritten(s, ["GNINA"]).storedMethods == None &&
      PruneAsWritten(s, ["GNINA"]).methods == ["bestpose"]
  {
    var s := Selection(["bestpose_GNINA", "bestpose"], ["SMINA"], Some(["bestpose_GNINA", "bestpose"]), Some(["SMINA"]));
    assert ["GNINA"][..0] == [];
    assert BestPoseKey("GNINA") == "bestpose_GNINA";
    assert "GNINA" !in ["SMINA"];
    assert Remove(["bestpose_GNINA", "bestpose"], "bestpose_GNINA") == ["bestpose"];
  }

  /** The stored entries are the local lists. */
  predicate Mirrored(s: Selection)
  {
    s.storedMethods == Some(s.methods) && s.storedPrograms == Some(s.programs)
  }

  /** As intended, the stored entries keep following the lists through the whole loop. */
  lemma {:induction false} PruneMirrored(s: Selection, order: seq<string>)
    requires Mirrored(s)
    ensures Mirrored(Prune(s, order))
  {
    if order != [] {
      PruneMirrored(s, order[..|order| - 1]);
    }
  }

  /** Pruning never empties a non-empty method list, keeps only methods that
      were listed, and only adds docking programs. */
  lemma {:induction false} PruneKeeps(s: Selection, order: seq<string>)
    ensures |s.methods| > 0 ==> |Prune(s, order).methods| > 0
    ensures forall m :: m in Prune(s, order).methods ==> m in s.methods
    ensures forall p :: p in s.programs ==> p in Prune(s, order).programs
  {
    if order != [] {
      var before := Prune(s, order[..|order| - 1]);
      PruneKeeps(s, order[..|order| - 1]);
      var key := BestPoseKey(order[|order| - 1]);
      forall m | m in Prune(s, order).methods
        ensures m in s.methods
      {
        RemoveMembers(before.methods, key, m);
      }
    }
  }

  lemma BestPoseKeyInjective(p: string, q: string)
    requires BestPoseKey(p) == BestPoseKey(q)
    ensures p == q
  {
    assert p == BestPoseKey(p)[9..];
    assert q == BestPoseKey(q)[9..];
  }

  /** After the loop, a program's best-pose method is only selected when that
      program docks, provided the method was listed at most once. */
  lemma {:induction false} PruneDocksSelected(s: Selection, order: seq<string>, p: string)
    requires p in order && AtMostOnce(s.methods, BestPoseKey(p))
    ensures AtMostOnce(Prune(s, order).methods, BestPoseKey(p))
    ensures BestPoseKey(p) in Prune(s, order).methods ==> p in Prune(s, order).programs
  {
    var init := order[..|order| - 1];
    var q := order[|order| - 1];
    var before := Prune(s, init);
    if p in init {
      PruneDocksSelected(s, init, p);
    } else {
      PruneKeepsOnce(s, init, p);
    }
    var key := BestPoseKey(q);
    var after := Prune(s, order);
    assert after == PruneStep(before, q);
    RemoveOnce(before.methods, key, BestPoseKey(p));
    RemoveMembers(before.methods, key, BestPoseKey(p));
    if p == q {
      assert AtMostOnce(before.methods, key);
    } else if BestPoseKey(p) in after.methods {
      if after.methods == [key] {
        BestPoseKeyInjective(p, q);
      }
      assert BestPoseKey(p) in before.methods;
      assert p in init;
    }
  }

  /** Pruning only ever removes occurrences, so a method listed at most once stays so. */
  lemma {:induction false} PruneKeepsOnce(s: Selection, order: seq<string>, p: string)
    requires AtMostOnce(s.methods, BestPoseKey(p))
    ensures AtMostOnce(Prune(s, order).methods, BestPoseKey(p))
  {
    if order != [] {
      var before := Prune(s, order[..|order| - 1]);
      PruneKeepsOnce(s, order[..|order| - 1], p);
      RemoveOnce(before.methods, BestPoseKey(order[|order| - 1]), BestPoseKey(p));
    }
  }

  /** `clustering_method` must be KMedoids, Aff_Prop or absent; a clustering metric
      without a method selects KMedoids. The result is the stored method. */
  function ClusteringSection(methods: seq<string>, clustering: Value, reg: Registries): (r: Result<Value, ConfigError>)
  {
    if !(clustering == Str("KMedoids") || clustering == Str("Aff_Prop") || IsNone(clustering)) then
      Err(DockM8Error(ClusteringMethod))
    else if (exists m :: m in methods && m in reg.clusteringMetrics) && !Truthy(clustering) then Ok(Str("KMedoids"))
    else Ok(clustering)
  }

  /** Every clustering method the validator lets through names an algorithm the
      clustering step knows, once `Aff_Prop` is resolved; as written the clustering
      step rejects `Aff_Prop`. */
  lemma ClusteringMethodResolves(methods: seq<string>, clustering: Value, reg: Registries)
    requires ClusteringSection(methods, clustering, reg).Ok?
    ensures var c := ClusteringSection(methods, clustering, reg).value;
      c.Str? ==> Clustering.ResolveMethod(c.s).Ok?
    ensures (exists m :: m in methods && m in reg.clusteringMetrics) ==>
      ClusteringSection(methods, clustering, reg).value.Str?
    ensures clustering == Str("Aff_Prop") ==> Clustering.ResolveMethodAsWritten("Aff_Prop").Err?
  {
    Clustering.AffPropSpellingRejected();
  }

  /** Post-docking settings, pose selection methods, the pruning loop and the clustering method. */
  function PoseSection(doc: Document, reg: Registries): Result<(Selection, Value), ConfigError>
  {
    if PostDockingError(doc).Some? then Err(PostDockingError(doc).value)
    else if FirstFailure(doc.poseMethods, PoseMethodCheck(reg)).Some? then
      Err(FirstFailure(doc.poseMethods, PoseMethodCheck(reg)).value)
    else
      var sel := Prune(Initial(doc), reg.dockingPrograms);
      match ClusteringSection(sel.methods, doc.clusteringMethod, reg)
      case Err(e) => Err(e)
      case Ok(c) => Ok((sel, c))
  }

  // ------------------------------------------------------------ scoring

  function RescoringError(reg: Registries, name: string): Option<ConfigError>
  {
    if name in reg.rescoringFunctions then None else Some(DockM8Error(RescoringMethod(name)))
  }

  function RescoringCheck(reg: Registries): string -> Option<ConfigError>
  {
    name => RescoringError(reg, name)
  }

  /** The rescoring functions and the consensus method. */
  function ScoringError(doc: Document, reg: Registries): (r: Option<ConfigError>)
    ensures r.None? <==>
      (forall i :: 0 <= i < |doc.rescoring| ==> doc.rescoring[i] in reg.rescoringFunctions) &&
      OneOf(doc.consensus, reg.consensusMethods)
  {
    var e := FirstFailure(doc.rescoring, RescoringCheck(reg));
    assert e.None? <==> forall i :: 0 <= i < |doc.rescoring| ==> doc.rescoring[i] in reg.rescoringFunctions by {
      assert forall i :: 0 <= i < |doc.rescoring| ==>
        (RescoringCheck(reg)(doc.rescoring[i]).None? <==> doc.rescoring[i] in reg.rescoringFunctions);
    }
    if e.Some? then e
    else if !OneOf(doc.consensus, reg.consensusMethods) then Some(DockM8Error(ConsensusMethod))
    else None
  }

  /** The threshold is set to 1% when the mode is exactly `ensemble` or
      `active_learning` and none is given. */
  function Threshold(mode: Value, threshold: Value): Value
  {
    if (mode == Str("ensemble") || mode == Str("active_learning")) && IsNone(threshold) then Float(0.01)
    else threshold
  }

  /** The default applies in the two modes, only when no threshold is given; a
      mode written in other case passes the mode check but gets no default. */
  lemma ThresholdDefault(threshold: Value)
    ensures IsNone(threshold) ==> Threshold(Str("ensemble"), threshold) == Float(0.01)
    ensures IsNone(threshold) ==> Threshold(Str("active_learning"), threshold) == Float(0.01)
    ensures !IsNone(threshold) ==> forall mode :: Threshold(mode, threshold) == threshold
    ensures Threshold(Str("single"), threshold) == threshold
    ensures ModeError(Str("Ensemble")).None? && Threshold(Str("Ensemble"), threshold) == threshold
  {
    ModeIgnoresCase();
  }

  // ------------------------------------------------------------ whole check

  /** `check_config`: every section in the order of the source; the result is the
      rewritten configuration or the first error. */
  function Validate(doc: Document, env: Environment, reg: Registries): Result<Settings, ConfigError>
  {
    match GeneralSection(doc, env)
    case Err(e) => Err(e)
    case Ok(general) =>
      match InputsSection(doc, env, reg)
      case Err(e) => Err(e)
      case Ok(receptors) =>
        match PocketSection(doc, env, reg)
        case Err(e) => Err(e)
        case Ok(references) =>
          match DockingSection(doc, reg)
          case Err(e) => Err(e)
          case Ok(exhaustiveness) =>
            match PoseSection(doc, reg)
            case Err(e) => Err(e)
            case Ok(pose) =>
              if ScoringError(doc, reg).Some? then Err(ScoringError(doc, reg).value)
              else
                Ok(Settings(Str(general.0), Int(general.1), receptors, references, exhaustiveness,
                            pose.0.storedMethods, pose.0.storedPrograms, pose.1,
                            Threshold(ModeOf(doc), doc.threshold)))
  }

  /** What a validated configuration holds: a software directory, an integer CPU
      count, every receptor (the single-mode slice is overwritten) and the
      exhaustiveness as given. */
  lemma ValidatedInputs(doc: Document, env: Environment, reg: Registries)
    requires Validate(doc, env, reg).Ok?
    ensures var st := Validate(doc, env, reg).value;
      st.software.Str? && env.isDir(st.software.s) && st.nCpus.Int? &&
      st.receptors == doc.receptors && st.exhaustiveness == doc.exhaustiveness
  {
    var general := GeneralSection(doc, env);
    assert general.Ok?;
    GeneralFolder(doc, env);
    InputsReceptors(doc, env, reg);
    ExhaustivenessNeverDefaulted(doc, reg);
  }

  lemma GeneralFolder(doc: Document, env: Environment)
    requires GeneralSection(doc, env).Ok?
    ensures env.isDir(GeneralSection(doc, env).value.0)
  {
  }

  lemma InputsReceptors(doc: Document, env: Environment, reg: Registries)
    requires InputsSection(doc, env, reg).Ok?
    ensures InputsSection(doc, env, reg).value == doc.receptors
  {
  }

  /** After the pose checks the stored pose selection methods and docking programs
      are lists (not the `None` of the code as written), a non-empty method list
      stays non-empty, and every docking program given is still listed. */
  lemma PoseSelectionStored(doc: Document, reg: Registries)
    requires PoseSection(doc, reg).Ok?
    ensures var sel := PoseSection(doc, reg).value.0;
      sel.storedMethods == Some(sel.methods) && sel.storedPrograms == Some(sel.programs) &&
      (|doc.poseMethods| > 0 ==> |sel.methods| > 0) &&
      (forall m :: m in sel.methods ==> m in doc.poseMethods) &&
      (forall p :: p in doc.dockingPrograms ==> p in sel.programs)
  {
    PruneMirrored(Initial(doc), reg.dockingPrograms);
    PruneKeeps(Initial(doc), reg.dockingPrograms);
  }

  // ------------------------------------------------------------ the configuration object

  /** The configuration dictionary, with the entries the validator rewrites. */
  class Config {
    const doc: Document
    var software: Value
    var nCpus: Value
    var receptors: seq<string>
    var referenceLigands: seq<string>
    var exhaustiveness: Value
    var poseMethods: Option<seq<string>>
    var dockingPrograms: Option<seq<string>>
    var clusteringMethod: Value
    var threshold: Value

    function Snapshot(): Settings
      reads this
    {
      Settings(software, nCpus, receptors, referenceLigands, exhaustiveness,
               poseMethods, dockingPrograms, clusteringMethod, threshold)
    }

    /** `yaml.safe_load`. */
    constructor (doc: Document)
      ensures this.doc == doc && Snapshot() == Loaded(doc)
    {
      this.doc := doc;
      software := doc.software;
      nCpus := doc.nCpus;
      receptors := doc.receptors;
      referenceLigands := doc.referenceLigands;
      exhaustiveness := doc.exhaustiveness;
      poseMethods := Some(doc.poseMethods);
      dockingPrograms := Some(doc.dockingPrograms);
      clusteringMethod := doc.clusteringMethod;
      threshold := doc.threshold;
    }

    /** Software folder, mode and CPU count. */
    method CheckGeneral(env: Environment) returns (r: Result<(), ConfigError>)
      modifies this
      ensures r.Ok? <==> GeneralSection(doc, env).Ok?
      ensures r.Err? ==> r.error == GeneralSection(doc, env).error
      ensures r.Ok? ==> Snapshot() == old(Snapshot()).(software := Str(GeneralSection(doc, env).value.0),
                                                       nCpus := Int(GeneralSection(doc, env).value.1))
      ensures Snapshot().(software := old(software), nCpus := old(nCpus)) == old(Snapshot())
    {
      var folder := SoftwareFolder(doc.software, env);
      if folder.Err? {
        return Err(folder.error);
      }
      software := Str(folder.value);
      var mode := if doc.mode == Missing then Str("single") else doc.mode;
      var modeError := ModeError(mode);
      if modeError.Some? {
        return Err(modeError.value);
      }
      var n := CpuCount(doc.nCpus, env.cpuCount);
      if n.Err? {
        return Err(n.error);
      }
      nCpus := Int(n.value);
      return Ok(());
    }

    /** Decoys, receptors, library, protein and ligand preparation. */
    method CheckInputs(env: Environment, reg: Registries) returns (r: Result<(), ConfigError>)
      modifies this
      ensures r.Ok? <==> InputsSection(doc, env, reg).Ok?
      ensures r.Err? ==> r.error == InputsSection(doc, env, reg).error
      ensures r.Ok? ==> Snapshot() == old(Snapshot()).(receptors := InputsSection(doc, env, reg).value)
      ensures Snapshot().(receptors := old(receptors)) == old(Snapshot())
    {
      var decoys := DecoyError(doc.decoys, env);
      if decoys.Some? {
        return Err(decoys.value);
      }
      var all := doc.receptors;
      if ModeOf(doc) == Str("single") {
        receptors := all[..if |all| < 1 then |all| else 1];
      }
      var i := 0;
      while i < |all|
        invariant 0 <= i <= |all|
        invariant FirstFailure(all[..i], ReceptorCheck(env)).None?
        invariant Snapshot() == old(Snapshot()).(receptors := receptors)
      {
        FirstFailureStep(all, i, ReceptorCheck(env));
        var e := ReceptorError(env, all[i]);
        if e.Some? {
          return Err(e.value);
        }
        i := i + 1;
      }
      assert all[..i] == all;
      receptors := all;
      var library := LibraryError(doc.dockingLibrary, env);
      if library.Some? {
        return Err(library.value);
      }
      var k := 0;
      while k < |ProteinConditions|
        invariant 0 <= k <= |ProteinConditions|
        invariant FirstFailure(ProteinConditions[..k], ProteinCheck(doc.protein)).None?
        invariant Snapshot() == old(Snapshot()).(receptors := all)
      {
        FirstFailureStep(ProteinConditions, k, ProteinCheck(doc.protein));
        var e := ProteinFlagError(doc.protein, ProteinConditions[k]);
        if e.Some? {
          return Err(e.value);
        }
        k := k + 1;
      }
      assert ProteinConditions[..k] == ProteinConditions;
      var hydrogens := HydrogensError(doc.protein);
      if hydrogens.Some? {
        return Err(hydrogens.value);
      }
      var ligands := LigandError(doc, reg);
      if ligands.Some? {
        return Err(ligands.value);
      }
      return Ok(());
    }

    /** Pocket detection method, reference ligands, radius and manual pocket. */
    method CheckPocket(env: Environment, reg: Registries) returns (r: Result<(), ConfigError>)
      requires referenceLigands == doc.referenceLigands
      modifies this
      ensures r.Ok? <==> PocketSection(doc, env, reg).Ok?
      ensures r.Err? ==> r.error == PocketSection(doc, env, reg).error
      ensures r.Ok? ==> Snapshot() == old(Snapshot()).(referenceLigands := PocketSection(doc, env, reg).value)
      ensures Snapshot().(referenceLigands := old(referenceLigands)) == old(Snapshot())
    {
      var m := doc.pocketMethod;
      if !OneOf(m, reg.pocketOptions) {
        return Err(DockM8Error(PocketMethod));
      }
      if m == Str("Reference") || m == Str("RoG") {
        var refs := doc.referenceLigands;
        if refs == [] {
          return Err(DockM8Error(ReferenceRequired));
        }
        var i := 0;
        while i < |refs|
          invariant 0 <= i <= |refs|
          invariant FirstFailure(refs[..i], ReferenceCheck(env)).None?
          invariant unchanged(this)
        {
          FirstFailureStep(refs, i, ReferenceCheck(env));
          var e := ReferenceError(env, refs[i]);
          if e.Some? {
            return Err(e.value);
          }
          i := i + 1;
        }
        assert refs[..i] == refs;
        if ModeOf(doc) == Str("single") && |refs| > 1 {
          refs := refs[..1];
        }
        referenceLigands := refs;
      }
      if m == Str("Reference") && !IsNumber(doc.radius) {
        return Err(DockM8Error(Radius));
      }
      if m == Str("Manual") {
        var e := ManualPocketError(doc.manualPocket);
        if e.Some? {
          return Err(e.value);
        }
      }
      return Ok(());
    }

    /** Docking programs, `n_poses` and `exhaustiveness`. */
    method CheckDocking(reg: Registries) returns (r: Result<(), ConfigError>)
      requires exhaustiveness == doc.exhaustiveness
      modifies this
      ensures r.Ok? <==> DockingSection(doc, reg).Ok?
      ensures r.Err? ==> r.error == DockingSection(doc, reg).error
      ensures r.Ok? ==> Snapshot() == old(Snapshot()).(exhaustiveness := DockingSection(doc, reg).value)
      ensures Snapshot().(exhaustiveness := old(exhaustiveness)) == old(Snapshot())
    {
      var programs := doc.dockingPrograms;
      var i := 0;
      while i < |programs|
        invariant 0 <= i <= |programs|
        invariant FirstFailure(programs[..i], ProgramCheck(reg)).None?
        invariant unchanged(this)
      {
        FirstFailureStep(programs, i, ProgramCheck(reg));
        var e := ProgramError(reg, programs[i]);
        if e.Some? {
          return Err(e.value);
        }
        i := i + 1;
      }
      assert programs[..i] == programs;
      if !IsInt(doc.nPoses) {
        return Err(DockM8Error(NPoses));
      }
      if !IsInt(doc.exhaustiveness) {
        return Err(DockM8Error(Exhaustiveness));
      }
      if doc.exhaustiveness == Missing && (exists p :: p in ["SMINA", "GNINA", "QVINA2", "QVINAW"] && p in programs) {
        // the fallback to 8 cannot run: an absent value failed the integer check
        assert false;
      }
      return Ok(());
    }

    /** Post-docking settings, pose selection methods, the best-pose pruning loop
      and the clustering method. */
    method CheckPoses(reg: Registries) returns (r: Result<(), ConfigError>)
      requires poseMethods == Some(doc.poseMethods) && dockingPrograms == Some(doc.dockingPrograms)
      modifies this
      ensures r.Ok? <==> PoseSection(doc, reg).Ok?
      ensures r.Err? ==> r.error == PoseSection(doc, reg).error
      ensures r.Ok? ==> Snapshot() == old(Snapshot()).(
        poseMethods := PoseSection(doc, reg).value.0.storedMethods,
        dockingPrograms := PoseSection(doc, reg).value.0.storedPrograms,
        clusteringMethod := PoseSection(doc, reg).value.1)
      ensures Snapshot().(poseMethods := old(poseMethods), dockingPrograms := old(dockingPrograms),
                          clusteringMethod := old(clusteringMethod)) == old(Snapshot())
    {
      var post := PostDockingError(doc);
      if post.Some? {
        return Err(post.value);
      }
      var methods := doc.poseMethods;
      var i := 0;
      while i < |methods|
        invariant 0 <= i <= |methods|
        invariant FirstFailure(methods[..i], PoseMethodCheck(reg)).None?
        invariant unchanged(this)
      {
        FirstFailureStep(methods, i, PoseMethodCheck(reg));
        var e := PoseMethodError(reg, methods[i]);
        if e.Some? {
          return Err(e.value);
        }
        i := i + 1;
      }
      assert methods[..i] == methods;
      var programs := doc.dockingPrograms;
      var order := reg.dockingPrograms;
      for k := 0 to |order|
        invariant Prune(Initial(doc), order[..k]) ==
          Selection(methods, programs, poseMethods, dockingPrograms)
        invariant Snapshot().(poseMethods := old(poseMethods), dockingPrograms := old(dockingPrograms)) == old(Snapshot())
      {
        assert order[..k + 1][..k] == order[..k];
        var key := BestPoseKey(order[k]);
        if key in methods && order[k] !in programs {
          methods := Remove(methods, key);
          poseMethods := Some(methods);
          if methods == [] {
            methods := [key];
            poseMethods := Some(methods);
            programs := programs + [order[k]];
            dockingPrograms := Some(programs);
          }
        }
      }
      assert order[..|order|] == order;
      var clustering := ClusteringSection(methods, doc.clusteringMethod, reg);
      if clustering.Err? {
        return Err(clustering.error);
      }
      clusteringMethod := clustering.value;
      return Ok(());
    }

    /** `check_config` on a parsed document. */
    static method CheckConfig(doc: Document, env: Environment, reg: Registries) returns (r: Result<Config, ConfigError>)
      ensures r.Ok? <==> Validate(doc, env, reg).Ok?
      ensures r.Err? ==> r.error == Validate(doc, env, reg).error
      ensures r.Ok? ==> fresh(r.value) && r.value.doc == doc && r.value.Snapshot() == Validate(doc, env, reg).value
    {
      var c := new Config(doc);
      var step := c.CheckGeneral(env);
      if step.Err? {
        return Err(step.error);
      }
      step := c.CheckInputs(env, reg);
      if step.Err? {
        return Err(step.error);
      }
      step := c.CheckPocket(env, reg);
      if step.Err? {
        return Err(step.error);
      }
      step := c.CheckDocking(reg);
      if step.Err? {
        return Err(step.error);
      }
      step := c.CheckPoses(reg);
      if step.Err? {
        return Err(step.error);
      }
      var scoring := ScoringError(doc, reg);
      if scoring.Some? {
        return Err(scoring.value);
      }
      c.threshold := Threshold(ModeOf(doc), doc.threshold);
      return Ok(c);
    }
  }
}
