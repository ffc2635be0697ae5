/**
 * The `$/slither/analysis/create` handler
 * (command_handlers/slither/analysis_create.py): it checks the compilation
 * settings it is given, builds a Slither analysis from them and registers
 * the analysis under a fresh id.
 *
 * Building the analysis (Slither, CryticCompile, SolcStandardJson) and the
 * process's working directory are outside the model: the first is a function
 * parameter from the checked request to an analysis, the second a value
 * parameter.
 */
module AnalysisCreate {
  import opened Values
  import opened Errors
  import opened ServerContexts

  /** `CompilationSettingsTargetType`. */
  datatype TargetType = Basic | StandardJson

  /** The enum member's value. */
  function TargetValue(t: TargetType): string
  {
    match t
    case Basic => "basic"
    case StandardJson => "solc_standard_json"
  }

  /** `CompilationSettingsTargetType(v)`: the member whose value equals `v`, or ValueError. */
  function TargetTypeOf(v: Value): (r: Result<TargetType>)
    ensures r.Ok? ==> v == VStr(TargetValue(r.value))
    ensures r.Err? ==> r.error == ValueError
  {
    if v == VStr(TargetValue(Basic)) then Ok(Basic)
    else if v == VStr(TargetValue(StandardJson)) then Ok(StandardJson)
    else Err(ValueError)
  }

  /** Every member is found again from its value. */
  lemma TargetTypeOfValue(t: TargetType)
    ensures TargetTypeOf(VStr(TargetValue(t))) == Ok(t)
  {
    assert TargetValue(Basic)[0] != TargetValue(StandardJson)[0];
  }

  /** What the checked params ask to be analysed, with the working directory to compile in. */
  datatype CompileRequest =
    | BasicRequest(target: Value, cwd: Value)
    | StandardJsonRequest(standardJson: Value, cwd: Value)

  /** The three `InvalidParams` errors the handler raises for a missing key. */
  datatype Missing = SettingsMissing | TypeMissing | TargetMissing

  function MissingError(m: Missing): (e: LspError)
    ensures e.code == InvalidParams && e.data == VNone
  {
    match m
    case SettingsMissing => LspError(InvalidParams, "'compilation_settings' key was not provided for analysis.", VNone)
    case TypeMissing => LspError(InvalidParams, "'type' key was not provided for compilation settings'", VNone)
    case TargetMissing =>
      LspError(InvalidParams, "Compilation target type is basic, but 'basic->target' was not provided", VNone)
  }

  /** How the checks end: a request to compile, an `LSPError` for a missing key, or another exception. */
  datatype Checked = Request(request: CompileRequest) | Rejected(missing: Missing) | Fails(exception: PyError)

  /** The working directory: `params['cwd']` when the key is there, else the process's. */
  function CwdOf(params: Value, processCwd: Value): Result<Value>
  {
    var has :- Contains(params, "cwd");
    if has then Index(params, "cwd") else Ok(processCwd)
  }

  /** The checks of `AnalysisCreateHandler.process`, up to the construction of the analysis. */
  function Check(params: Value, processCwd: Value): Checked
  {
    var has := Contains(params, "compilationSettings");
    if has.Err? then Fails(has.error)
    else if !has.value then Rejected(SettingsMissing)
    else
      var cwd := CwdOf(params, processCwd);
      if cwd.Err? then Fails(cwd.error)
      else
        var settings := Index(params, "compilationSettings");
        if settings.Err? then Fails(settings.error)
        else CheckSettings(settings.value, cwd.value)
  }

  /** The checks on the compilation settings. */
  function CheckSettings(settings: Value, cwd: Value): Checked
  {
    var has := Contains(settings, "type");
    if has.Err? then Fails(has.error)
    else if !has.value then Rejected(TypeMissing)
    else
      var given := Index(settings, "type");
      if given.Err? then Fails(given.error)
      else
        var kind := TargetTypeOf(given.value);
        if kind.Err? then Fails(kind.error)
        else if kind.value == Basic then CheckBasic(settings, cwd)
        else
          var standardJson := Index(settings, TargetValue(StandardJson));
          if standardJson.Err? then Fails(standardJson.error)
          else Request(StandardJsonRequest(standardJson.value, cwd))
  }

  /** The checks for a basic target: `'basic' in settings` and `'target' in settings['basic']`, short-circuited. */
  function CheckBasic(settings: Value, cwd: Value): Checked
    requires settings.VDict?
  {
    if "basic" !in settings.entries then Rejected(TargetMissing)
    else
      var basic := settings.entries["basic"];
      var has := Contains(basic, "target");
      if has.Err? then Fails(has.error)
      else if !has.value then Rejected(TargetMissing)
      else
        var target := Index(basic, "target");
        if target.Err? then Fails(target.error)
        else Request(BasicRequest(target.value, cwd))
  }

  /** `AnalysisCreateHandler.process`: registers the analysis built from a checked request and replies with its id. */
  method Create(ctx: LegacyContext, params: Value, processCwd: Value, build: CompileRequest -> Slither)
    returns (r: Outcome)
    requires ctx.analyses.Valid()
    modifies ctx.analyses
    ensures ctx.analyses.Valid()
    ensures match Check(params, processCwd)
            case Request(req) =>
              var id := old(ctx.analyses.nextId);
              r == Returned(VDict(map["analysisId" := VInt(id)])) &&
              id !in old(ctx.analyses.results) &&
              ctx.analyses.results == old(ctx.analyses.results)[id := build(req)] &&
              ctx.analyses.nextId == id + 1
            case Rejected(m) => r == RaisedLsp(MissingError(m)) && unchanged(ctx.analyses)
            case Fails(e) => r == Raised(e) && unchanged(ctx.analyses)
  {
    match Check(params, processCwd)
    case Rejected(m) =>
      return RaisedLsp(MissingError(m));
    case Fails(e) =>
      return Raised(e);
    case Request(req) =>
      var id := ctx.analyses.Register(build(req));
      return Returned(VDict(map["analysisId" := VInt(id)]));
  }

  // ---------------------------------------------------------------------------
  // What the checks accept and reject.

  /** Params that support neither `in` nor indexing make the first check raise TypeError. */
  lemma NonContainerFails(params: Value, processCwd: Value)
    requires !(params.VDict? || params.VList? || params.VStr?)
    ensures Check(params, processCwd) == Fails(TypeError)
  {
  }

  /** A dict without `compilationSettings` is rejected with that error, and only such a dict. */
  lemma SettingsRequired(params: Value, processCwd: Value)
    requires params.VDict?
    ensures Check(params, processCwd) == Rejected(SettingsMissing) <==> "compilationSettings" !in params.entries
  {
  }

  /** A list or a str can pass `in` but not `[...]`, so it never yields a request. */
  lemma OnlyDictsAccepted(params: Value, processCwd: Value)
    requires params.VList? || params.VStr?
    ensures !Check(params, processCwd).Request?
  {
  }

  /** The settings of a dict that holds them. */
  function SettingsIn(params: Value): Value
    requires params.VDict? && "compilationSettings" in params.entries
  {
    params.entries["compilationSettings"]
  }

  /** Settings without a `type` key (for a dict: no such key) are rejected with the missing-type error, and only those. */
  lemma TypeRequired(params: Value, processCwd: Value)
    requires params.VDict? && "compilationSettings" in params.entries
    ensures Check(params, processCwd) == Rejected(TypeMissing) <==> Contains(SettingsIn(params), "type") == Ok(false)
  {
  }

  /** A `type` that names neither target type raises ValueError. */
  lemma UnknownTypeFails(params: Value, processCwd: Value)
    requires params.VDict? && "compilationSettings" in params.entries
    requires SettingsIn(params).VDict? && "type" in SettingsIn(params).entries
    requires SettingsIn(params).entries["type"] !in {VStr(TargetValue(Basic)), VStr(TargetValue(StandardJson))}
    ensures Check(params, processCwd) == Fails(ValueError)
  {
  }

  /**
   * A basic target is rejected with the missing-target error exactly when the
   * settings have no `basic` key or that value has no `target` (in the sense
   * of `in`).
   */
  lemma TargetRequired(params: Value, processCwd: Value)
    requires params.VDict? && "compilationSettings" in params.entries
    requires SettingsIn(params).VDict? && "type" in SettingsIn(params).entries
    requires SettingsIn(params).entries["type"] == VStr(TargetValue(Basic))
    ensures var s := SettingsIn(params).entries;
            Check(params, processCwd) == Rejected(TargetMissing) <==>
              "basic" !in s || Contains(s["basic"], "target") == Ok(false)
  {
  }

  /** A standard-JSON target without its `solc_standard_json` key raises KeyError rather than InvalidParams. */
  lemma StandardJsonKeyRequired(params: Value, processCwd: Value)
    requires params.VDict? && "compilationSettings" in params.entries
    requires SettingsIn(params).VDict? && "type" in SettingsIn(params).entries
    requires SettingsIn(params).entries["type"] == VStr(TargetValue(StandardJson))
    requires TargetValue(StandardJson) !in SettingsIn(params).entries
    ensures Check(params, processCwd) == Fails(KeyError)
  {
    TargetTypeOfValue(StandardJson);
  }

  /** The request a well-formed basic settings dict yields, with its working directory. */
  function ExpectedRequest(params: Value, processCwd: Value): Option<CompileRequest>
    requires params.VDict?
  {
    var cwd := if "cwd" in params.entries then params.entries["cwd"] else processCwd;
    if "compilationSettings" !in params.entries then None
    else
      var s := params.entries["compilationSettings"];
      if !s.VDict? || "type" !in s.entries then None
      else if s.entries["type"] == VStr(TargetValue(Basic)) then
        if "basic" in s.entries && s.entries["basic"].VDict? && "target" in s.entries["basic"].entries
        then Some(BasicRequest(s.entries["basic"].entries["target"], cwd))
        else None
      else if s.entries["type"] == VStr(TargetValue(StandardJson)) && TargetValue(StandardJson) in s.entries
      then Some(StandardJsonRequest(s.entries[TargetValue(StandardJson)], cwd))
      else None
  }

  /**
   * The checks yield a request exactly for dict params whose settings are a
   * dict with a known `type` and the key that type needs, and the request
   * carries that key's value and `params['cwd']` or the process's directory.
   */
  lemma {:induction false} AcceptedExactly(params: Value, processCwd: Value)
    requires params.VDict?
    ensures Check(params, processCwd).Request? <==> ExpectedRequest(params, processCwd).Some?
    ensures Check(params, processCwd).Request? ==>
              Check(params, processCwd).request == ExpectedRequest(params, processCwd).value
  {
    TargetTypeOfValue(Basic);
    TargetTypeOfValue(StandardJson);
  }
}
