/**
 * What the app reads from CryticCompile and Slither, which it does not
 * define: compilations and analyses are opaque handles, declarations are
 * records keyed by an object identity, and every query the app makes of
 * them is a function of the `Slither` record below. Python's `is` between
 * Slither objects is equality of their `ObjId`.
 */
module SlitherObjects {
  import opened Values
  import opened AppTypes
  import opened AppRanges

  /** A `CryticCompile` instance. */
  datatype Compilation = Compilation(compilationId: nat)

  /** A `Slither` instance. */
  datatype Analysis = Analysis(analysisId: nat)

  /** The identity of a Slither object (a function, contract, struct, enum, event or variable). */
  type ObjId = nat

  /** The SlithIR operation classes the app tells apart. */
  datatype OpKind = InternalCallOp | HighLevelCallOp | OtherOp

  /**
   * An operation's expression: a `CallExpression` with its arguments and,
   * when the call names them, the argument names; or any other expression.
   */
  datatype Expression =
    | CallExpression(callSource: Option<Source>, arguments: seq<Source>, names: Option<seq<string>>)
    | OtherExpression(otherSource: Option<Source>)
  {
    function SourceMapping(): Option<Source>
    {
      if CallExpression? then callSource else otherSource
    }
  }

  /** A SlithIR operation: its class, `op.function` and `op.expression`. */
  datatype Op = Op(kind: OpKind, callee: ObjId, expression: Expression)

  /** What distinguishes the declarations the app looks at. */
  datatype DeclKind =
    | FunctionDecl(visibility: string, soliditySignature: string, parameters: seq<string>, operations: seq<Op>)
    | ContractDecl(isInterface: bool, immediateInheritance: seq<ObjId>, structures: seq<ObjId>,
                   enums: seq<ObjId>, events: seq<ObjId>, functionsAndModifiers: seq<ObjId>)
    | OtherDecl

  /**
   * A Slither object: `name`, `canonical_name`, `source_mapping` and, for a
   * function, its `all_slithir_operations()`; for a contract its declared members.
   */
  datatype Decl = Decl(name: string, canonicalName: string, source: Option<Source>, kind: DeclKind)

  /**
   * The queries the app makes of CryticCompile and Slither. A lookup given
   * an offset returns a Python set; the sequence is the order iterating it
   * yields. `filenameLookup` is `None` where the real one raises ValueError.
   */
  datatype Slither = Slither(
    decl: ObjId -> Decl,
    contracts: Analysis -> seq<ObjId>,
    unitContracts: Analysis -> seq<ObjId>,
    unitFunctions: Analysis -> seq<ObjId>,
    offsetToObjects: (Analysis, string, int) -> seq<ObjId>,
    offsetToDefinitions: (Analysis, string, int) -> Result<seq<Source>>,
    offsetToImplementations: (Analysis, string, int) -> Result<seq<Source>>,
    offsetToReferences: (Analysis, string, int) -> Result<seq<Source>>,
    globalOffset: (Compilation, string, int) -> Result<int>,
    filenameLookup: (Compilation, string) -> Option<FileName>,
    definition: (ObjId, Compilation) -> Source,
    functionId: string -> nat)

  /** `isinstance(obj, Function)`. */
  predicate IsFunction(w: Slither, id: ObjId)
  {
    w.decl(id).kind.FunctionDecl?
  }

  /** `isinstance(obj, Contract)`. */
  predicate IsContract(w: Slither, id: ObjId)
  {
    w.decl(id).kind.ContractDecl?
  }

  /** `get_object_name_range(obj, comp)`. */
  function ObjectNameRange(w: Slither, id: ObjId, comp: Compilation): Range
  {
    NameRange(w.decl(id).name, w.definition(id, comp))
  }

  /** `is_interface` of a contract. */
  predicate IsInterface(w: Slither, id: ObjId)
  {
    w.decl(id).kind.ContractDecl? && w.decl(id).kind.isInterface
  }

  /** `isinstance(op, (InternalCall, HighLevelCall))`. */
  predicate IsCallOp(op: Op)
  {
    op.kind.InternalCallOp? || op.kind.HighLevelCallOp?
  }

  /** `all_slithir_operations()` of a function; other objects have none. */
  function Operations(w: Slither, id: ObjId): seq<Op>
  {
    if w.decl(id).kind.FunctionDecl? then w.decl(id).kind.operations else []
  }

  /** `structures_declared` of a contract; other objects declare none. */
  function StructuresDeclared(w: Slither, id: ObjId): seq<ObjId>
  {
    if w.decl(id).kind.ContractDecl? then w.decl(id).kind.structures else []
  }

  /** `enums_declared` of a contract; other objects declare none. */
  function EnumsDeclared(w: Slither, id: ObjId): seq<ObjId>
  {
    if w.decl(id).kind.ContractDecl? then w.decl(id).kind.enums else []
  }

  /** `events_declared` of a contract; other objects declare none. */
  function EventsDeclared(w: Slither, id: ObjId): seq<ObjId>
  {
    if w.decl(id).kind.ContractDecl? then w.decl(id).kind.events else []
  }

  /** `functions_and_modifiers_declared` of a contract; other objects declare none. */
  function FunctionsAndModifiersDeclared(w: Slither, id: ObjId): seq<ObjId>
  {
    if w.decl(id).kind.ContractDecl? then w.decl(id).kind.functionsAndModifiers else []
  }

  /** `obj.source_mapping and obj.source_mapping.filename == filename`. */
  predicate InFile(w: Slither, id: ObjId, filename: FileName)
  {
    w.decl(id).source.Some? && w.decl(id).source.value.filename == filename
  }

  /** A contract is shown as an interface when it is one, otherwise as a class. */
  function ContractKind(isInterface: bool): (k: SymbolKind)
    ensures k == InterfaceKind <==> isInterface
    ensures k == ClassKind <==> !isInterface
  {
    if isInterface then InterfaceKind else ClassKind
  }

  // ---------------------------------------------------------------------------
  // The app's own records about analyses.

  /** The source mapping of a detector finding's element, as Slither's JSON output gives it. */
  datatype DetectorSource = DetectorSource(filenameAbsolute: string, lines: Lines, startingColumn: int, endingColumn: int)

  /** One element of a finding; the first is the most significant. */
  datatype ResultElement = ResultElement(sourceMapping: Option<DetectorSource>)

  /** `SlitherDetectorResult`: one finding of one detector. */
  datatype DetectorResult = DetectorResult(check: string, impact: string, description: string, elements: seq<ResultElement>)

  /** `SlitherDetectorSettings`. */
  datatype DetectorSettings = DetectorSettings(enabled: bool, hiddenChecks: seq<string>)

  /**
   * The exception a failed analysis records: one raised while compiling or
   * analysing (its text), or one raised while reading the detectors' output.
   */
  datatype Failure = BuildError(message: string) | ParseError(error: PyError)

  /**
   * `AnalysisResult`. The server fills in the compilation and the analysis
   * together or leaves both out, so they are one optional pair.
   */
  datatype AnalysisResult = AnalysisResult(
    succeeded: bool,
    built: Option<(Compilation, Analysis)>,
    error: Option<Failure>,
    detectorResults: Option<seq<DetectorResult>>)
}
