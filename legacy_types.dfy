/**
 * The legacy classes of slither_lsp/types/lsp_capabilities.py and
 * slither_lsp/types/lsp_params.py, and the two classes of
 * tests/test_serializable_structure.py that chain their parent's hooks, as
 * data for the legacy codec, with what their hooks do.
 *
 * The legacy basic structures (ClientServerInfo, WorkspaceFolder, Range) do
 * not override the base class's hooks, so both raise NotImplementedError for
 * them; the lemmas take a schema in which they are hookless.
 */
module LegacyTypes {
  import opened Values
  import opened PyInts
  import opened LegacyCodec

  /** A field declared `= None`. */
  function NoneDefault(name: string): LegacyField { LegacyField(name, Some(VNone)) }

  /** A field without a default. */
  function Needed(name: string): LegacyField { LegacyField(name, None) }

  predicate Defines(schema: LegacySchema, cls: string, decl: LegacyClass)
  {
    cls in schema && schema[cls] == decl
  }

  /** A class that overrides neither hook. */
  predicate Hookless(schema: LegacySchema, cls: string)
  {
    HooksOf(schema, cls).read.None? && HooksOf(schema, cls).write.None?
  }

  const TraceMembers := ["off", "messages", "verbose"]

  // ---------------------------------------------------------------------------
  // Server capabilities.

  const WorkspaceFoldersServer := LegacyClass(
    [NoneDefault("supported"), NoneDefault("change_notifications")],
    Some([Copy("supported", "supported"), Copy("change_notifications", "changeNotifications")]),
    Some([PutIfSet("supported", "supported"), PutIfSet("changeNotifications", "change_notifications")]),
    FreshIfNone)

  function WorkspaceFoldersServerOf(supported: Value, changeNotifications: Value): Value
  {
    VObj("WorkspaceFoldersServerCapabilities",
         map["supported" := supported, "change_notifications" := changeNotifications])
  }

  const WorkspaceServer := LegacyClass(
    [LegacyField("workspace_folders", Some(WorkspaceFoldersServerOf(VNone, VNone)))],
    Some([Nested("workspace_folders", "workspaceFolders", "WorkspaceFoldersServerCapabilities")]),
    Some([PutNestedIfSet("workspaceFolders", "workspace_folders")]),
    FreshIfNone)

  function WorkspaceServerOf(workspaceFolders: Value): Value
  {
    VObj("WorkspaceServerCapabilities", map["workspace_folders" := workspaceFolders])
  }

  /** `ServerCapabilities`, with the key its `from_dict` reads the workspace capabilities from. */
  function ServerCapabilitiesReading(key: string): LegacyClass
  {
    LegacyClass(
      [LegacyField("workspace", Some(WorkspaceServerOf(WorkspaceFoldersServerOf(VNone, VNone))))],
      Some([Nested("workspace", key, "WorkspaceServerCapabilities")]),
      Some([PutNestedIfSet("workspace", "workspace")]),
      FreshIfNone)
  }

  /** As written: it reads the key 'support' but writes 'workspace'. */
  const ServerCapabilitiesAsWritten := ServerCapabilitiesReading("support")

  /** Reading the key it writes. */
  const ServerCapabilitiesIntended := ServerCapabilitiesReading("workspace")

  function ServerCapabilitiesOf(workspace: Value): Value
  {
    VObj("ServerCapabilities", map["workspace" := workspace])
  }

  // ---------------------------------------------------------------------------
  // Client capabilities.

  const ShowDocumentClient := LegacyClass(
    [LegacyField("support", Some(VBool(false)))],
    Some([Copy("support", "support")]),
    Some([Put("support", "support")]),
    FreshIfNone)

  const WindowClient := LegacyClass(
    [NoneDefault("work_done_progress"), NoneDefault("show_document")],
    Some([Copy("work_done_progress", "workDoneProgress"),
          Nested("show_document", "showDocument", "ShowDocumentClientCapabilities")]),
    Some([PutIfSet("workDoneProgress", "work_done_progress"), PutNestedIfSet("showDocument", "show_document")]),
    FreshIfNone)

  const WorkspaceClient := LegacyClass(
    [NoneDefault("apply_edit"), NoneDefault("workspace_folders"), NoneDefault("configuration"),
     NoneDefault("experimental")],
    Some([Copy("apply_edit", "applyEdit"), Copy("workspace_folders", "workspaceFolders"),
          Copy("configuration", "configuration"), Copy("experimental", "experimental")]),
    Some([PutIfSet("applyEdit", "apply_edit"), PutIfSet("workspaceFolders", "workspace_folders"),
          PutIfSet("configuration", "configuration"), PutIfSet("experimental", "experimental")]),
    FreshIfNone)

  const ClientCapabilities := LegacyClass(
    [LegacyField("workspace", Some(VObj("WorkspaceClientCapabilities",
       map["apply_edit" := VNone, "workspace_folders" := VNone, "configuration" := VNone, "experimental" := VNone]))),
     LegacyField("window", Some(VObj("WindowClientCapabilities",
       map["work_done_progress" := VNone, "show_document" := VNone])))],
    Some([Nested("workspace", "workspace", "WorkspaceClientCapabilities"),
          Nested("window", "window", "WindowClientCapabilities")]),
    Some([PutNestedIfSet("workspace", "workspace"), PutNestedIfSet("window", "window")]),
    FreshIfNone)

  // ---------------------------------------------------------------------------
  // Params.

  const WorkDoneProgress := LegacyClass(
    [Needed("work_done_token")],
    Some([Copy("work_done_token", "workDoneToken")]),
    Some([PutIfSet("workDoneToken", "work_done_token")]),
    FreshIfNone)

  /** The first six statements of `InitializeParams._init_args_from_dict`. */
  const InitializeParamsHead := [
    Copy("process_id", "processId"),
    NestedIfDict("client_info", "clientInfo", "ClientServerInfo"),
    Copy("locale", "locale"),
    Copy("root_path", "rootPath"),
    Copy("root_uri", "rootUri"),
    Copy("initialization_options", "initializationOptions")]

  /** Its last three. */
  const InitializeParamsTail := [
    NestedAlways("capabilities", "capabilities", "ClientCapabilities"),
    EnumIfStr("trace", "trace", "TraceValue", TraceMembers),
    NestedList("workspace_folders", "workspaceFolders", "WorkspaceFolder")]

  const InitializeParams := LegacyClass(
    [Needed("process_id"), Needed("client_info"), Needed("locale"), Needed("root_path"), Needed("root_uri"),
     Needed("initialization_options"), Needed("capabilities"), Needed("trace"), Needed("workspace_folders")],
    Some(InitializeParamsHead + InitializeParamsTail),
    None,
    FreshIfNone)

  const InitializeResult := LegacyClass(
    [Needed("capabilities"), Needed("server_info")],
    None,
    Some([PutNested("capabilities", "capabilities"), PutNestedIfSet("serverInfo", "server_info")]),
    FreshIfNone)

  const SetTraceParams := LegacyClass(
    [Needed("value")],
    Some([EnumAlways("value", "value", "TraceValue", TraceMembers)]),
    None,
    FreshIfNone)

  /** `ShowMessageParams` and `LogMessageParams` have the same fields and hooks. */
  const MessageParams := LegacyClass(
    [Needed("type"), Needed("message")],
    None,
    Some([PutInt("type", "type"), Put("message", "message")]),
    FreshIfNone)

  const ShowDocumentParams := LegacyClass(
    [Needed("uri"), Needed("external"), Needed("take_focus"), Needed("selection")],
    None,
    Some([Put("uri", "uri"), PutIfSet("external", "external"), PutIfSet("takeFocus", "take_focus"),
          PutNestedIfSet("selection", "selection")]),
    FreshIfNone)

  const ShowDocumentResult := LegacyClass(
    [Needed("success")],
    Some([Copy("success", "success")]),
    None,
    FreshIfNone)

  const WorkspaceFoldersChangeEvent := LegacyClass(
    [Needed("added"), Needed("removed")],
    Some([NestedList("added", "added", "WorkspaceFolder"), NestedList("removed", "removed", "WorkspaceFolder")]),
    Some([PutEach("added", "added"), PutEach("removed", "removed")]),
    FreshIfNone)

  const DidChangeWorkspaceFoldersParams := LegacyClass(
    [Needed("event")],
    Some([Nested("event", "event", "WorkspaceFoldersChangeEvent")]),
    None,
    FreshIfNone)

  // ---------------------------------------------------------------------------
  // The test classes: B's hooks run A's statements and then its own.

  const TestClassA := LegacyClass(
    [Needed("num")],
    Some([Subscript("num", "serializedNum")]),
    Some([Put("serializedNum", "num")]),
    AsGiven)

  const TestClassB := LegacyClass(
    TestClassA.fields + [Needed("num2")],
    Some(TestClassA.read.value + [Subscript("num2", "serializedNum2")]),
    Some(TestClassA.write.value + [Put("serializedNum2", "num2")]),
    FreshIfFalsy)

  /** The schema of the classes, with ServerCapabilities reading the key it writes. */
  const LegacyTypes: LegacySchema := map[
    "WorkspaceFoldersServerCapabilities" := WorkspaceFoldersServer,
    "WorkspaceServerCapabilities" := WorkspaceServer,
    "ServerCapabilities" := ServerCapabilitiesIntended,
    "ShowDocumentClientCapabilities" := ShowDocumentClient,
    "WindowClientCapabilities" := WindowClient,
    "WorkspaceClientCapabilities" := WorkspaceClient,
    "ClientCapabilities" := ClientCapabilities,
    "WorkDoneProgressParams" := WorkDoneProgress,
    "InitializeParams" := InitializeParams,
    "InitializeResult" := InitializeResult,
    "SetTraceParams" := SetTraceParams,
    "ShowMessageParams" := MessageParams,
    "LogMessageParams" := MessageParams,
    "ShowDocumentParams" := ShowDocumentParams,
    "ShowDocumentResult" := ShowDocumentResult,
    "WorkspaceFoldersChangeEvent" := WorkspaceFoldersChangeEvent,
    "DidChangeWorkspaceFoldersParams" := DidChangeWorkspaceFoldersParams]

  // ---------------------------------------------------------------------------
  // The test classes.

  /** The attributes set by keyword construction are exactly the arguments. */
  lemma ChainedConstruction(num: Value, num2: Value)
    ensures Construct("TestClassB", TestClassB, map["num" := num, "num2" := num2]) ==
            Ok(VObj("TestClassB", map["num" := num, "num2" := num2]))
  {
    var fields := TestClassB.fields;
    assert fields == [Needed("num"), Needed("num2")];
    assert fields[0].name == "num" && fields[1].name == "num2";
    assert FieldNames(fields) == {"num", "num2"};
    ConstructWithAll("TestClassB", TestClassB, map["num" := num, "num2" := num2]);
  }

  /** B writes the keys of A's hook and its own, and parsing that output gives the same object back. */
  lemma ChainedRoundTrip(schema: LegacySchema, num: Value, num2: Value)
    requires Defines(schema, "TestClassB", TestClassB)
    ensures var b := VObj("TestClassB", map["num" := num, "num2" := num2]);
            var out := map["serializedNum" := num, "serializedNum2" := num2];
            ToDictOf(schema, b, None) == Written(out, None) && FromDictOf(schema, "TestClassB", VDict(out)) == Ok(b)
  {
    var b := VObj("TestClassB", map["num" := num, "num2" := num2]);
    var out := map["serializedNum" := num, "serializedNum2" := num2];
    var steps := TestClassB.write.value;
    assert steps == [Put("serializedNum", "num"), Put("serializedNum2", "num2")];
    assert steps[1..][1..] == [];
    assert WriteValue(schema, b, steps[1]) == Ok(Some(num2));
    assert WriteAll(schema, b, steps[1..], map["serializedNum" := num]) == Written(out, None);
    assert WriteValue(schema, b, steps[0]) == Ok(Some(num));
    assert WriteAll(schema, b, steps, map[]) == Written(out, None);
    var readSteps := TestClassB.read.value;
    var args := map["num" := num, "num2" := num2];
    assert readSteps == [Subscript("num", "serializedNum"), Subscript("num2", "serializedNum2")];
    assert readSteps[1..][1..] == [];
    assert ReadValue(schema, VDict(out), readSteps[1]) == Ok(num2);
    assert ReadAll(schema, VDict(out), readSteps[1..], map["num" := num]) == Ok(args);
    assert ReadValue(schema, VDict(out), readSteps[0]) == Ok(num);
    assert ReadAll(schema, VDict(out), readSteps, map[]) == Ok(args);
    ChainedConstruction(num, num2);
  }

  /** A's own `to_dict` has no dict to write into when none is passed, and raises TypeError. */
  lemma ParentNeedsDict(schema: LegacySchema, num: Value)
    requires Defines(schema, "TestClassA", TestClassA)
    ensures ToDictOf(schema, VObj("TestClassA", map["num" := num]), None) == Written(map[], Some(TypeError))
  {
  }

  // ---------------------------------------------------------------------------
  // Server capabilities.

  /** Drops the entries whose value is None. */
  function OmitNone(m: map<string, Value>): (r: map<string, Value>)
    ensures forall k :: k in r <==> k in m && m[k] != VNone
    ensures forall k :: k in r ==> r[k] == m[k]
  {
    map k | k in m && m[k] != VNone :: m[k]
  }

  /** Adding a new key and then dropping None entries is writing it unless it is None. */
  lemma OmitNoneSet(m: map<string, Value>, k: string, v: Value)
    requires k !in m
    ensures OmitNone(m[k := v]) == SetUnlessNone(OmitNone(m), k, v)
  {
  }

  /** Dropping the None entries is invisible to `.get`. */
  lemma OmitNoneGet(m: map<string, Value>, k: string)
    ensures DictGet(OmitNone(m), k) == DictGet(m, k)
  {
  }

  /** `WorkspaceFoldersServerCapabilities.to_dict` writes each attribute that is not None. */
  lemma WorkspaceFoldersWrites(schema: LegacySchema, supported: Value, changeNotifications: Value)
    requires Defines(schema, "WorkspaceFoldersServerCapabilities", WorkspaceFoldersServer)
    ensures ToDictOf(schema, WorkspaceFoldersServerOf(supported, changeNotifications), None) ==
            Written(OmitNone(map["supported" := supported, "changeNotifications" := changeNotifications]), None)
  {
    var obj := WorkspaceFoldersServerOf(supported, changeNotifications);
    var steps := WorkspaceFoldersServer.write.value;
    var m1 := SetUnlessNone(map[], "supported", supported);
    WriteIfSetStep(schema, obj, steps, map[]);
    WriteIfSetStep(schema, obj, steps[1..], m1);
    WriteDone(schema, obj, steps[1..][1..], SetUnlessNone(m1, "changeNotifications", changeNotifications));
    var e := map[];
    OmitNoneSet(e, "supported", supported);
    OmitNoneSet(e["supported" := supported], "changeNotifications", changeNotifications);
  }

  /** Its `from_dict` reads `supported` and `changeNotifications` with `.get`, ignoring every other key. */
  lemma WorkspaceFoldersReads(schema: LegacySchema, source: map<string, Value>)
    requires Defines(schema, "WorkspaceFoldersServerCapabilities", WorkspaceFoldersServer)
    ensures FromDictOf(schema, "WorkspaceFoldersServerCapabilities", VDict(source)) ==
            Ok(WorkspaceFoldersServerOf(DictGet(source, "supported"), DictGet(source, "changeNotifications")))
  {
    var steps := WorkspaceFoldersServer.read.value;
    assert steps[1..][1..] == [];
    var supported, changeNotifications := DictGet(source, "supported"), DictGet(source, "changeNotifications");
    var args := map["supported" := supported, "change_notifications" := changeNotifications];
    assert ReadAll(schema, VDict(source), steps[1..], map["supported" := supported]) == Ok(args);
    assert ReadAll(schema, VDict(source), steps, map[]) == Ok(args);
    var fields := WorkspaceFoldersServer.fields;
    assert fields[0].name == "supported" && fields[1].name == "change_notifications";
    assert FieldNames(fields) == args.Keys;
    ConstructWithAll("WorkspaceFoldersServerCapabilities", WorkspaceFoldersServer, args);
  }

  /** It reads back the keys it writes, so parsing its output gives the object back. */
  lemma {:induction false} WorkspaceFoldersRoundTrip(schema: LegacySchema, supported: Value, changeNotifications: Value)
    requires Defines(schema, "WorkspaceFoldersServerCapabilities", WorkspaceFoldersServer)
    ensures RoundTrips(schema, "WorkspaceFoldersServerCapabilities", WorkspaceFoldersServerOf(supported, changeNotifications))
  {
    WorkspaceFoldersWrites(schema, supported, changeNotifications);
    var out := OmitNone(map["supported" := supported, "changeNotifications" := changeNotifications]);
    WorkspaceFoldersReads(schema, out);
    OmitNoneGet(map["supported" := supported, "changeNotifications" := changeNotifications], "supported");
    OmitNoneGet(map["supported" := supported, "changeNotifications" := changeNotifications], "changeNotifications");
  }

  /** `WorkspaceServerCapabilities.from_dict` parses `workspaceFolders` when it is there and not None, else gives None. */
  lemma WorkspaceServerReads(schema: LegacySchema, source: map<string, Value>)
    requires Defines(schema, "WorkspaceServerCapabilities", WorkspaceServer)
    ensures var v := DictGet(source, "workspaceFolders");
            FromDictOf(schema, "WorkspaceServerCapabilities", VDict(source)) ==
              if v == VNone then Ok(WorkspaceServerOf(VNone))
              else match FromDictOf(schema, "WorkspaceFoldersServerCapabilities", v)
                case Ok(folders) => Ok(WorkspaceServerOf(folders))
                case Err(e) => Err(e)
  {
    var v := DictGet(source, "workspaceFolders");
    var steps := WorkspaceServer.read.value;
    assert steps == [Nested("workspace_folders", "workspaceFolders", "WorkspaceFoldersServerCapabilities")];
    var parsed := if v == VNone then Ok(v) else FromDictOf(schema, "WorkspaceFoldersServerCapabilities", v);
    assert ReadValue(schema, VDict(source), steps[0]) == parsed;
    if parsed.Ok? {
      assert ReadAll(schema, VDict(source), steps, map[]) == Ok(map["workspace_folders" := parsed.value]);
      var fields := WorkspaceServer.fields;
      assert fields[0].name == "workspace_folders";
      assert FieldNames(fields) == {"workspace_folders"};
      ConstructWithAll("WorkspaceServerCapabilities", WorkspaceServer, map["workspace_folders" := parsed.value]);
    } else {
      assert ReadAll(schema, VDict(source), steps, map[]) == Err(parsed.error);
    }
  }

  /** Its `to_dict` writes `workspaceFolders` only when the attribute is not None, as the nested object's dict. */
  lemma WorkspaceServerWrites(schema: LegacySchema, folders: Value)
    requires Defines(schema, "WorkspaceServerCapabilities", WorkspaceServer)
    ensures ToDictOf(schema, WorkspaceServerOf(folders), None) ==
              if folders == VNone then Written(map[], None)
              else match NestedToDict(schema, folders)
                case Ok(d) => Written(map["workspaceFolders" := d], None)
                case Err(e) => Written(map[], Some(e))
  {
    var obj := WorkspaceServerOf(folders);
    var steps := WorkspaceServer.write.value;
    assert steps == [PutNestedIfSet("workspaceFolders", "workspace_folders")];
    var w := if folders == VNone then Ok(None)
             else match NestedToDict(schema, folders)
               case Ok(d) => Ok(Some(d))
               case Err(e) => Err(e);
    assert WriteValue(schema, obj, steps[0]) == w;
    assert WriteAll(schema, obj, steps, map[]) ==
             if w.Err? then Written(map[], Some(w.error))
             else if w.value.Some? then Written(map["workspaceFolders" := w.value.value], None)
             else Written(map[], None);
  }

  /** Nesting keeps the round trip: when the nested object round-trips (or is None), so does the outer one. */
  lemma {:induction false} WorkspaceServerRoundTrip(schema: LegacySchema, folders: Value)
    requires Defines(schema, "WorkspaceServerCapabilities", WorkspaceServer)
    requires folders == VNone || RoundTrips(schema, "WorkspaceFoldersServerCapabilities", folders)
    ensures RoundTrips(schema, "WorkspaceServerCapabilities", WorkspaceServerOf(folders))
  {
    WorkspaceServerWrites(schema, folders);
    if folders == VNone {
      WorkspaceServerReads(schema, map[]);
    } else {
      var out := ToDictOf(schema, folders, None).entries;
      assert NestedToDict(schema, folders) == Ok(VDict(out));
      var written := map["workspaceFolders" := VDict(out)];
      WorkspaceServerReads(schema, written);
      assert DictGet(written, "workspaceFolders") == VDict(out);
    }
  }

  /** `ServerCapabilities.from_dict` parses the value under the key it reads when that is there and not None. */
  lemma ServerCapabilitiesReads(schema: LegacySchema, key: string, source: map<string, Value>)
    requires Defines(schema, "ServerCapabilities", ServerCapabilitiesReading(key))
    ensures var v := DictGet(source, key);
            FromDictOf(schema, "ServerCapabilities", VDict(source)) ==
              if v == VNone then Ok(ServerCapabilitiesOf(VNone))
              else match FromDictOf(schema, "WorkspaceServerCapabilities", v)
                case Ok(workspace) => Ok(ServerCapabilitiesOf(workspace))
                case Err(e) => Err(e)
  {
    var decl := ServerCapabilitiesReading(key);
    var v := DictGet(source, key);
    var steps := decl.read.value;
    assert steps == [Nested("workspace", key, "WorkspaceServerCapabilities")];
    var parsed := if v == VNone then Ok(v) else FromDictOf(schema, "WorkspaceServerCapabilities", v);
    assert ReadValue(schema, VDict(source), steps[0]) == parsed;
    if parsed.Ok? {
      assert ReadAll(schema, VDict(source), steps, map[]) == Ok(map["workspace" := parsed.value]);
      assert decl.fields[0].name == "workspace";
      assert FieldNames(decl.fields) == {"workspace"};
      ConstructWithAll("ServerCapabilities", decl, map["workspace" := parsed.value]);
    } else {
      assert ReadAll(schema, VDict(source), steps, map[]) == Err(parsed.error);
    }
  }

  /** Its `to_dict` writes `workspace` only when the attribute is not None, as the nested object's dict. */
  lemma ServerCapabilitiesWrites(schema: LegacySchema, key: string, workspace: Value)
    requires Defines(schema, "ServerCapabilities", ServerCapabilitiesReading(key))
    ensures ToDictOf(schema, ServerCapabilitiesOf(workspace), None) ==
              if workspace == VNone then Written(map[], None)
              else match NestedToDict(schema, workspace)
                case Ok(d) => Written(map["workspace" := d], None)
                case Err(e) => Written(map[], Some(e))
  {
    var obj := ServerCapabilitiesOf(workspace);
    var steps := ServerCapabilitiesReading(key).write.value;
    assert steps == [PutNestedIfSet("workspace", "workspace")];
    var w := if workspace == VNone then Ok(None)
             else match NestedToDict(schema, workspace)
               case Ok(d) => Ok(Some(d))
               case Err(e) => Err(e);
    assert WriteValue(schema, obj, steps[0]) == w;
    assert WriteAll(schema, obj, steps, map[]) ==
             if w.Err? then Written(map[], Some(w.error))
             else if w.value.Some? then Written(map["workspace" := w.value.value], None)
             else Written(map[], None);
  }

  /**
   * As written, the workspace capabilities do not survive a round trip: the
   * dict holds them under 'workspace', and parsing it looks under 'support'
   * and finds nothing.
   */
  lemma {:induction false} ServerCapabilitiesLosesWorkspace(schema: LegacySchema, workspace: Value)
    requires Defines(schema, "ServerCapabilities", ServerCapabilitiesAsWritten)
    requires workspace != VNone && NestedToDict(schema, workspace).Ok?
    ensures var w := ToDictOf(schema, ServerCapabilitiesOf(workspace), None);
            w.error.None? && FromDictOf(schema, "ServerCapabilities", VDict(w.entries)) == Ok(ServerCapabilitiesOf(VNone))
    ensures !RoundTrips(schema, "ServerCapabilities", ServerCapabilitiesOf(workspace))
  {
    ServerCapabilitiesWrites(schema, "support", workspace);
    var written := map["workspace" := NestedToDict(schema, workspace).value];
    ServerCapabilitiesReads(schema, "support", written);
    assert DictGet(written, "support") == VNone;
  }

  /** Reading the key it writes, the round trip holds whenever the nested one does. */
  lemma {:induction false} ServerCapabilitiesRoundTrip(schema: LegacySchema, workspace: Value)
    requires Defines(schema, "ServerCapabilities", ServerCapabilitiesIntended)
    requires workspace == VNone || RoundTrips(schema, "WorkspaceServerCapabilities", workspace)
    ensures RoundTrips(schema, "ServerCapabilities", ServerCapabilitiesOf(workspace))
  {
    ServerCapabilitiesWrites(schema, "workspace", workspace);
    if workspace == VNone {
      ServerCapabilitiesReads(schema, "workspace", map[]);
    } else {
      var out := ToDictOf(schema, workspace, None).entries;
      assert NestedToDict(schema, workspace) == Ok(VDict(out));
      var written := map["workspace" := VDict(out)];
      ServerCapabilitiesReads(schema, "workspace", written);
      assert DictGet(written, "workspace") == VDict(out);
    }
  }

  // ---------------------------------------------------------------------------
  // Client capabilities and work-done progress.

  /** `cls.from_dict(v)` unless `v` is None, the guard every optional nested field's hook uses. */
  function ParsedUnlessNone(schema: LegacySchema, cls: string, v: Value): Result<Value>
  {
    if v == VNone then Ok(VNone) else FromDictOf(schema, cls, v)
  }

  /** `v.to_dict()` unless `v` is None, for a `v` that writes without raising. */
  function DictUnlessNone(schema: LegacySchema, v: Value): Value
    requires v == VNone || NestedToDict(schema, v).Ok?
  {
    if v == VNone then VNone else NestedToDict(schema, v).value
  }

  function ShowDocumentClientOf(support: Value): Value
  {
    VObj("ShowDocumentClientCapabilities", map["support" := support])
  }

  /** `ShowDocumentClientCapabilities.to_dict` always writes `support`, None included. */
  lemma ShowDocumentWrites(schema: LegacySchema, support: Value)
    requires Defines(schema, "ShowDocumentClientCapabilities", ShowDocumentClient)
    ensures ToDictOf(schema, ShowDocumentClientOf(support), None) == Written(map["support" := support], None)
  {
    var obj := ShowDocumentClientOf(support);
    var steps := ShowDocumentClient.write.value;
    WritePutStep(schema, obj, steps, map[]);
    WriteDone(schema, obj, steps[1..], map["support" := support]);
  }

  /**
   * Its `from_dict` takes `support` with `.get`, so a dict without the key
   * gives None rather than the field's default False.
   */
  lemma ShowDocumentReads(schema: LegacySchema, source: map<string, Value>)
    requires Defines(schema, "ShowDocumentClientCapabilities", ShowDocumentClient)
    ensures FromDictOf(schema, "ShowDocumentClientCapabilities", VDict(source)) ==
            Ok(ShowDocumentClientOf(DictGet(source, "support")))
    ensures "support" !in source ==>
              FromDictOf(schema, "ShowDocumentClientCapabilities", VDict(source)) != Ok(ShowDocumentClientOf(VBool(false)))
  {
    var steps := ShowDocumentClient.read.value;
    assert steps == [Copy("support", "support")];
    var args := map["support" := DictGet(source, "support")];
    assert ReadAll(schema, VDict(source), steps, map[]) == Ok(args);
    assert ShowDocumentClient.fields[0].name == "support";
    assert FieldNames(ShowDocumentClient.fields) == args.Keys;
    ConstructWithAll("ShowDocumentClientCapabilities", ShowDocumentClient, args);
  }

  lemma {:induction false} ShowDocumentRoundTrip(schema: LegacySchema, support: Value)
    requires Defines(schema, "ShowDocumentClientCapabilities", ShowDocumentClient)
    ensures RoundTrips(schema, "ShowDocumentClientCapabilities", ShowDocumentClientOf(support))
  {
    ShowDocumentWrites(schema, support);
    ShowDocumentReads(schema, map["support" := support]);
  }

  function WindowClientOf(workDoneProgress: Value, showDocument: Value): Value
  {
    VObj("WindowClientCapabilities", map["work_done_progress" := workDoneProgress, "show_document" := showDocument])
  }

  /** `WindowClientCapabilities.from_dict` copies `workDoneProgress` and parses `showDocument` unless it is None. */
  lemma WindowReads(schema: LegacySchema, source: map<string, Value>)
    requires Defines(schema, "WindowClientCapabilities", WindowClient)
    ensures FromDictOf(schema, "WindowClientCapabilities", VDict(source)) ==
            match ParsedUnlessNone(schema, "ShowDocumentClientCapabilities", DictGet(source, "showDocument"))
            case Ok(d) => Ok(WindowClientOf(DictGet(source, "workDoneProgress"), d))
            case Err(e) => Err(e)
  {
    var steps := WindowClient.read.value;
    assert steps[1..][1..] == [];
    var progress := DictGet(source, "workDoneProgress");
    var parsed := ParsedUnlessNone(schema, "ShowDocumentClientCapabilities", DictGet(source, "showDocument"));
    var m1 := map["work_done_progress" := progress];
    assert ReadValue(schema, VDict(source), steps[1]) == parsed;
    if parsed.Ok? {
      var args := m1["show_document" := parsed.value];
      assert ReadAll(schema, VDict(source), steps[1..], m1) == Ok(args);
      assert ReadAll(schema, VDict(source), steps, map[]) == Ok(args);
      var fields := WindowClient.fields;
      assert fields[0].name == "work_done_progress" && fields[1].name == "show_document";
      assert FieldNames(fields) == args.Keys;
      ConstructWithAll("WindowClientCapabilities", WindowClient, args);
    } else {
      assert ReadAll(schema, VDict(source), steps[1..], m1) == Err(parsed.error);
      assert ReadAll(schema, VDict(source), steps, map[]) == Err(parsed.error);
    }
  }

  /** Its `to_dict` writes each attribute that is not None, the nested one as its dict. */
  lemma WindowWrites(schema: LegacySchema, workDoneProgress: Value, showDocument: Value)
    requires Defines(schema, "WindowClientCapabilities", WindowClient)
    requires showDocument == VNone || NestedToDict(schema, showDocument).Ok?
    ensures ToDictOf(schema, WindowClientOf(workDoneProgress, showDocument), None) ==
            Written(OmitNone(map["workDoneProgress" := workDoneProgress,
                                 "showDocument" := DictUnlessNone(schema, showDocument)]), None)
  {
    var obj := WindowClientOf(workDoneProgress, showDocument);
    var steps := WindowClient.write.value;
    var d := DictUnlessNone(schema, showDocument);
    var m1 := SetUnlessNone(map[], "workDoneProgress", workDoneProgress);
    WriteIfSetStep(schema, obj, steps, map[]);
    WriteNestedIfSetStep(schema, obj, steps[1..], m1);
    WriteDone(schema, obj, steps[1..][1..], SetUnlessNone(m1, "showDocument", d));
    var e := map[];
    OmitNoneSet(e, "workDoneProgress", workDoneProgress);
    OmitNoneSet(e["workDoneProgress" := workDoneProgress], "showDocument", d);
  }

  /** The round trip holds whenever the nested one does. */
  lemma {:induction false} WindowRoundTrip(schema: LegacySchema, workDoneProgress: Value, showDocument: Value)
    requires Defines(schema, "WindowClientCapabilities", WindowClient)
    requires showDocument == VNone || RoundTrips(schema, "ShowDocumentClientCapabilities", showDocument)
    ensures RoundTrips(schema, "WindowClientCapabilities", WindowClientOf(workDoneProgress, showDocument))
  {
    var d := DictUnlessNone(schema, showDocument);
    var m := map["workDoneProgress" := workDoneProgress, "showDocument" := d];
    WindowWrites(schema, workDoneProgress, showDocument);
    WindowReads(schema, OmitNone(m));
    OmitNoneGet(m, "workDoneProgress");
    OmitNoneGet(m, "showDocument");
  }

  function WorkspaceClientOf(applyEdit: Value, workspaceFolders: Value, configuration: Value, experimental: Value): Value
  {
    VObj("WorkspaceClientCapabilities",
         map["apply_edit" := applyEdit, "workspace_folders" := workspaceFolders,
             "configuration" := configuration, "experimental" := experimental])
  }

  /** `WorkspaceClientCapabilities.from_dict` reads its four keys with `.get`. */
  lemma WorkspaceClientReads(schema: LegacySchema, source: map<string, Value>)
    requires Defines(schema, "WorkspaceClientCapabilities", WorkspaceClient)
    ensures FromDictOf(schema, "WorkspaceClientCapabilities", VDict(source)) ==
            Ok(WorkspaceClientOf(DictGet(source, "applyEdit"), DictGet(source, "workspaceFolders"),
                                 DictGet(source, "configuration"), DictGet(source, "experimental")))
  {
    var src := VDict(source);
    var steps := WorkspaceClient.read.value;
    var s1, s2, s3 := steps[1..], steps[1..][1..], steps[1..][1..][1..];
    assert s3[1..] == [];
    var m1 := map["apply_edit" := DictGet(source, "applyEdit")];
    var m2 := m1["workspace_folders" := DictGet(source, "workspaceFolders")];
    var m3 := m2["configuration" := DictGet(source, "configuration")];
    var args := m3["experimental" := DictGet(source, "experimental")];
    assert ReadAll(schema, src, s3, m3) == Ok(args);
    assert ReadAll(schema, src, s2, m2) == Ok(args);
    assert ReadAll(schema, src, s1, m1) == Ok(args);
    assert ReadAll(schema, src, steps, map[]) == Ok(args);
    var fields := WorkspaceClient.fields;
    assert fields[0].name == "apply_edit" && fields[1].name == "workspace_folders";
    assert fields[2].name == "configuration" && fields[3].name == "experimental";
    assert FieldNames(fields) == args.Keys;
    ConstructWithAll("WorkspaceClientCapabilities", WorkspaceClient, args);
  }

  /** Its `to_dict` writes each attribute that is not None. */
  lemma WorkspaceClientWrites(
    schema: LegacySchema, applyEdit: Value, workspaceFolders: Value, configuration: Value, experimental: Value)
    requires Defines(schema, "WorkspaceClientCapabilities", WorkspaceClient)
    ensures ToDictOf(schema, WorkspaceClientOf(applyEdit, workspaceFolders, configuration, experimental), None) ==
            Written(OmitNone(map["applyEdit" := applyEdit, "workspaceFolders" := workspaceFolders,
                                 "configuration" := configuration, "experimental" := experimental]), None)
  {
    var obj := WorkspaceClientOf(applyEdit, workspaceFolders, configuration, experimental);
    var steps := WorkspaceClient.write.value;
    var s1, s2, s3 := steps[1..], steps[1..][1..], steps[1..][1..][1..];
    var m1 := SetUnlessNone(map[], "applyEdit", applyEdit);
    var m2 := SetUnlessNone(m1, "workspaceFolders", workspaceFolders);
    var m3 := SetUnlessNone(m2, "configuration", configuration);
    var m4 := SetUnlessNone(m3, "experimental", experimental);
    WriteDone(schema, obj, s3[1..], m4);
    WriteIfSetStep(schema, obj, s3, m3);
    WriteIfSetStep(schema, obj, s2, m2);
    WriteIfSetStep(schema, obj, s1, m1);
    WriteIfSetStep(schema, obj, steps, map[]);
    WorkspaceClientOmitNone(applyEdit, workspaceFolders, configuration, experimental);
  }

  /** Writing the four attributes one by one unless None is dropping the None entries of all four. */
  lemma WorkspaceClientOmitNone(applyEdit: Value, workspaceFolders: Value, configuration: Value, experimental: Value)
    ensures SetUnlessNone(SetUnlessNone(SetUnlessNone(SetUnlessNone(map[], "applyEdit", applyEdit),
              "workspaceFolders", workspaceFolders), "configuration", configuration), "experimental", experimental) ==
            OmitNone(map["applyEdit" := applyEdit, "workspaceFolders" := workspaceFolders,
                         "configuration" := configuration, "experimental" := experimental])
  {
    var e := map[];
    OmitNoneSet(e, "applyEdit", applyEdit);
    OmitNoneSet(e["applyEdit" := applyEdit], "workspaceFolders", workspaceFolders);
    OmitNoneSet(e["applyEdit" := applyEdit]["workspaceFolders" := workspaceFolders], "configuration", configuration);
    OmitNoneSet(e["applyEdit" := applyEdit]["workspaceFolders" := workspaceFolders]["configuration" := configuration],
                "experimental", experimental);
  }

  lemma {:induction false} WorkspaceClientRoundTrip(
    schema: LegacySchema, applyEdit: Value, workspaceFolders: Value, configuration: Value, experimental: Value)
    requires Defines(schema, "WorkspaceClientCapabilities", WorkspaceClient)
    ensures RoundTrips(schema, "WorkspaceClientCapabilities",
                       WorkspaceClientOf(applyEdit, workspaceFolders, configuration, experimental))
  {
    var m := map["applyEdit" := applyEdit, "workspaceFolders" := workspaceFolders,
                 "configuration" := configuration, "experimental" := experimental];
    WorkspaceClientWrites(schema, applyEdit, workspaceFolders, configuration, experimental);
    WorkspaceClientReads(schema, OmitNone(m));
    OmitNoneGet(m, "applyEdit");
    OmitNoneGet(m, "workspaceFolders");
    OmitNoneGet(m, "configuration");
    OmitNoneGet(m, "experimental");
  }

  function ClientCapabilitiesOf(workspace: Value, window: Value): Value
  {
    VObj("ClientCapabilities", map["workspace" := workspace, "window" := window])
  }

  /** `ClientCapabilities.from_dict` parses `workspace` and then `window`, each unless it is None. */
  lemma ClientCapabilitiesReads(schema: LegacySchema, source: map<string, Value>)
    requires Defines(schema, "ClientCapabilities", ClientCapabilities)
    ensures FromDictOf(schema, "ClientCapabilities", VDict(source)) ==
            var workspace :- ParsedUnlessNone(schema, "WorkspaceClientCapabilities", DictGet(source, "workspace"));
            var window :- ParsedUnlessNone(schema, "WindowClientCapabilities", DictGet(source, "window"));
            Ok(ClientCapabilitiesOf(workspace, window))
  {
    var src := VDict(source);
    var steps := ClientCapabilities.read.value;
    assert steps[1..][1..] == [];
    var workspace := ParsedUnlessNone(schema, "WorkspaceClientCapabilities", DictGet(source, "workspace"));
    var window := ParsedUnlessNone(schema, "WindowClientCapabilities", DictGet(source, "window"));
    assert ReadValue(schema, src, steps[0]) == workspace;
    if workspace.Ok? {
      var m1 := map["workspace" := workspace.value];
      assert ReadValue(schema, src, steps[1]) == window;
      if window.Ok? {
        var args := m1["window" := window.value];
        assert ReadAll(schema, src, steps[1..], m1) == Ok(args);
        assert ReadAll(schema, src, steps, map[]) == Ok(args);
        var fields := ClientCapabilities.fields;
        assert fields[0].name == "workspace" && fields[1].name == "window";
        assert FieldNames(fields) == args.Keys;
        ConstructWithAll("ClientCapabilities", ClientCapabilities, args);
      } else {
        assert ReadAll(schema, src, steps[1..], m1) == Err(window.error);
        assert ReadAll(schema, src, steps, map[]) == Err(window.error);
      }
    } else {
      assert ReadAll(schema, src, steps, map[]) == Err(workspace.error);
    }
  }

  /**
   * The hook always sets both arguments, so a client that sends neither key
   * gets None for both, not the default capability objects the fields declare.
   */
  lemma ClientCapabilitiesDefaultsUnused(schema: LegacySchema, source: map<string, Value>)
    requires Defines(schema, "ClientCapabilities", ClientCapabilities)
    requires "workspace" !in source && "window" !in source
    ensures FromDictOf(schema, "ClientCapabilities", VDict(source)) == Ok(ClientCapabilitiesOf(VNone, VNone))
    ensures ClientCapabilities.fields[0].default != Some(VNone) && ClientCapabilities.fields[1].default != Some(VNone)
  {
    ClientCapabilitiesReads(schema, source);
  }

  /** Its `to_dict` writes each nested capability object that is not None, as its dict. */
  lemma ClientCapabilitiesWrites(schema: LegacySchema, workspace: Value, window: Value)
    requires Defines(schema, "ClientCapabilities", ClientCapabilities)
    requires workspace == VNone || NestedToDict(schema, workspace).Ok?
    requires window == VNone || NestedToDict(schema, window).Ok?
    ensures ToDictOf(schema, ClientCapabilitiesOf(workspace, window), None) ==
            Written(OmitNone(map["workspace" := DictUnlessNone(schema, workspace),
                                 "window" := DictUnlessNone(schema, window)]), None)
  {
    var obj := ClientCapabilitiesOf(workspace, window);
    var steps := ClientCapabilities.write.value;
    var d1, d2 := DictUnlessNone(schema, workspace), DictUnlessNone(schema, window);
    var m1 := SetUnlessNone(map[], "workspace", d1);
    WriteNestedIfSetStep(schema, obj, steps, map[]);
    WriteNestedIfSetStep(schema, obj, steps[1..], m1);
    WriteDone(schema, obj, steps[1..][1..], SetUnlessNone(m1, "window", d2));
    var e := map[];
    OmitNoneSet(e, "workspace", d1);
    OmitNoneSet(e["workspace" := d1], "window", d2);
  }

  /** The round trip holds whenever the nested ones do. */
  lemma {:induction false} ClientCapabilitiesRoundTrip(schema: LegacySchema, workspace: Value, window: Value)
    requires Defines(schema, "ClientCapabilities", ClientCapabilities)
    requires workspace == VNone || RoundTrips(schema, "WorkspaceClientCapabilities", workspace)
    requires window == VNone || RoundTrips(schema, "WindowClientCapabilities", window)
    ensures RoundTrips(schema, "ClientCapabilities", ClientCapabilitiesOf(workspace, window))
  {
    var m := map["workspace" := DictUnlessNone(schema, workspace), "window" := DictUnlessNone(schema, window)];
    ClientCapabilitiesWrites(schema, workspace, window);
    ClientCapabilitiesReads(schema, OmitNone(m));
    OmitNoneGet(m, "workspace");
    OmitNoneGet(m, "window");
  }

  function WorkDoneProgressOf(token: Value): Value
  {
    VObj("WorkDoneProgressParams", map["work_done_token" := token])
  }

  /** `WorkDoneProgressParams.from_dict` reads `workDoneToken` with `.get`. */
  lemma WorkDoneProgressReads(schema: LegacySchema, source: map<string, Value>)
    requires Defines(schema, "WorkDoneProgressParams", WorkDoneProgress)
    ensures FromDictOf(schema, "WorkDoneProgressParams", VDict(source)) ==
            Ok(WorkDoneProgressOf(DictGet(source, "workDoneToken")))
  {
    var steps := WorkDoneProgress.read.value;
    assert steps == [Copy("work_done_token", "workDoneToken")];
    var args := map["work_done_token" := DictGet(source, "workDoneToken")];
    assert ReadAll(schema, VDict(source), steps, map[]) == Ok(args);
    assert WorkDoneProgress.fields[0].name == "work_done_token";
    assert FieldNames(WorkDoneProgress.fields) == args.Keys;
    ConstructWithAll("WorkDoneProgressParams", WorkDoneProgress, args);
  }

  /** Its `to_dict` writes the token unless it is None. */
  lemma WorkDoneProgressWrites(schema: LegacySchema, token: Value)
    requires Defines(schema, "WorkDoneProgressParams", WorkDoneProgress)
    ensures ToDictOf(schema, WorkDoneProgressOf(token), None) ==
            Written(if token == VNone then map[] else map["workDoneToken" := token], None)
  {
    var obj := WorkDoneProgressOf(token);
    var steps := WorkDoneProgress.write.value;
    WriteIfSetStep(schema, obj, steps, map[]);
    WriteDone(schema, obj, steps[1..], SetUnlessNone(map[], "workDoneToken", token));
  }

  lemma {:induction false} WorkDoneProgressRoundTrip(schema: LegacySchema, token: Value)
    requires Defines(schema, "WorkDoneProgressParams", WorkDoneProgress)
    ensures RoundTrips(schema, "WorkDoneProgressParams", WorkDoneProgressOf(token))
  {
    WorkDoneProgressWrites(schema, token);
    var out := if token == VNone then map[] else map["workDoneToken" := token];
    WorkDoneProgressReads(schema, out);
    assert DictGet(out, "workDoneToken") == token;
  }

  // ---------------------------------------------------------------------------
  // Initialize.

  /** `[cls.from_dict(x) for x in v]` when `v` is a list, else `v`. */
  function ParsedEach(schema: LegacySchema, cls: string, v: Value): Result<Value>
  {
    if v.VList? then
      var items :- FromDictEach(schema, cls, v, 0, []);
      Ok(VList(items))
    else Ok(v)
  }

  function InitializeParamsOf(
    processId: Value, clientInfo: Value, locale: Value, rootPath: Value, rootUri: Value,
    initializationOptions: Value, capabilities: Value, trace: Value, workspaceFolders: Value): Value
  {
    VObj("InitializeParams",
         map["process_id" := processId, "client_info" := clientInfo, "locale" := locale, "root_path" := rootPath,
             "root_uri" := rootUri, "initialization_options" := initializationOptions,
             "capabilities" := capabilities, "trace" := trace, "workspace_folders" := workspaceFolders])
  }

  /**
   * What `InitializeParams.from_dict` does, field by field: `clientInfo` is
   * parsed only when it is a dict, `capabilities` always (so None raises),
   * `trace` is looked up in TraceValue only when it is a str, and
   * `workspaceFolders` is parsed item by item only when it is a list; the
   * other keys are copied with `.get`. Exceptions come in that order.
   */
  function InitializeParamsExpected(schema: LegacySchema, source: map<string, Value>): Result<Value>
  {
    var clientInfo := DictGet(source, "clientInfo");
    var info :- if clientInfo.VDict? then FromDictOf(schema, "ClientServerInfo", clientInfo) else Ok(clientInfo);
    var capabilities :- FromDictOf(schema, "ClientCapabilities", DictGet(source, "capabilities"));
    var t := DictGet(source, "trace");
    var trace :- if t.VStr? then EnumOf("TraceValue", TraceMembers, t) else Ok(t);
    var folders :- ParsedEach(schema, "WorkspaceFolder", DictGet(source, "workspaceFolders"));
    Ok(InitializeParamsOf(DictGet(source, "processId"), info, DictGet(source, "locale"), DictGet(source, "rootPath"),
                          DictGet(source, "rootUri"), DictGet(source, "initializationOptions"), capabilities,
                          trace, folders))
  }

  /** The first six statements copy four keys and parse `clientInfo` when it is a dict. */
  lemma {:induction false} InitializeParamsHeadReads(schema: LegacySchema, source: map<string, Value>)
    ensures var clientInfo := DictGet(source, "clientInfo");
            ReadAll(schema, VDict(source), InitializeParamsHead, map[]) ==
            var info :- if clientInfo.VDict? then FromDictOf(schema, "ClientServerInfo", clientInfo) else Ok(clientInfo);
            Ok(map["process_id" := DictGet(source, "processId"), "client_info" := info,
                   "locale" := DictGet(source, "locale"), "root_path" := DictGet(source, "rootPath"),
                   "root_uri" := DictGet(source, "rootUri"),
                   "initialization_options" := DictGet(source, "initializationOptions")])
  {
    var src := VDict(source);
    var s0 := InitializeParamsHead;
    var s1 := s0[1..];
    var s2 := s1[1..];
    var s3 := s2[1..];
    var s4 := s3[1..];
    var s5 := s4[1..];
    var a1 := map["process_id" := DictGet(source, "processId")];
    ReadStepOk(schema, src, s0, map[], DictGet(source, "processId"));
    var info := ReadValue(schema, src, s1[0]);
    if info.Err? {
      ReadStepErr(schema, src, s1, a1, info.error);
    } else {
      var a2 := a1["client_info" := info.value];
      ReadStepOk(schema, src, s1, a1, info.value);
      var a3 := a2["locale" := DictGet(source, "locale")];
      ReadStepOk(schema, src, s2, a2, DictGet(source, "locale"));
      var a4 := a3["root_path" := DictGet(source, "rootPath")];
      ReadStepOk(schema, src, s3, a3, DictGet(source, "rootPath"));
      var a5 := a4["root_uri" := DictGet(source, "rootUri")];
      ReadStepOk(schema, src, s4, a4, DictGet(source, "rootUri"));
      var a6 := a5["initialization_options" := DictGet(source, "initializationOptions")];
      ReadStepOk(schema, src, s5, a5, DictGet(source, "initializationOptions"));
      ReadDone(schema, src, s5[1..], a6);
    }
  }

  /** The last three parse `capabilities` always, `trace` when a str and `workspaceFolders` when a list. */
  lemma {:induction false} InitializeParamsTailReads(
    schema: LegacySchema, source: map<string, Value>, acc: map<string, Value>)
    ensures var t := DictGet(source, "trace");
            ReadAll(schema, VDict(source), InitializeParamsTail, acc) ==
            var capabilities :- FromDictOf(schema, "ClientCapabilities", DictGet(source, "capabilities"));
            var trace :- if t.VStr? then EnumOf("TraceValue", TraceMembers, t) else Ok(t);
            var folders :- ParsedEach(schema, "WorkspaceFolder", DictGet(source, "workspaceFolders"));
            Ok(acc["capabilities" := capabilities]["trace" := trace]["workspace_folders" := folders])
  {
    var src := VDict(source);
    var s0 := InitializeParamsTail;
    var s1 := s0[1..];
    var s2 := s1[1..];
    var capabilities := ReadValue(schema, src, s0[0]);
    if capabilities.Err? {
      ReadStepErr(schema, src, s0, acc, capabilities.error);
    } else {
      var a1 := acc["capabilities" := capabilities.value];
      ReadStepOk(schema, src, s0, acc, capabilities.value);
      var trace := ReadValue(schema, src, s1[0]);
      if trace.Err? {
        ReadStepErr(schema, src, s1, a1, trace.error);
      } else {
        var a2 := a1["trace" := trace.value];
        ReadStepOk(schema, src, s1, a1, trace.value);
        var folders := ReadValue(schema, src, s2[0]);
        assert folders == ParsedEach(schema, "WorkspaceFolder", DictGet(source, "workspaceFolders"));
        if folders.Err? {
          ReadStepErr(schema, src, s2, a2, folders.error);
        } else {
          ReadStepOk(schema, src, s2, a2, folders.value);
          ReadDone(schema, src, s2[1..], a2["workspace_folders" := folders.value]);
        }
      }
    }
  }

  /** The nine statements of the hook compose to the field-by-field reading. */
  lemma {:induction false} InitializeParamsReads(schema: LegacySchema, source: map<string, Value>)
    requires Defines(schema, "InitializeParams", InitializeParams)
    ensures FromDictOf(schema, "InitializeParams", VDict(source)) == InitializeParamsExpected(schema, source)
  {
    var src := VDict(source);
    ReadAllConcat(schema, src, InitializeParamsHead, InitializeParamsTail, map[]);
    InitializeParamsHeadReads(schema, source);
    var head := ReadAll(schema, src, InitializeParamsHead, map[]);
    if head.Ok? {
      InitializeParamsTailReads(schema, source, head.value);
      var args := ReadAll(schema, src, InitializeParamsTail, head.value);
      if args.Ok? {
        InitializeParamsFieldNames();
        ConstructWithAll("InitializeParams", InitializeParams, args.value);
      }
    }
  }

  lemma InitializeParamsFieldNames()
    ensures FieldNames(InitializeParams.fields) ==
            {"process_id", "client_info", "locale", "root_path", "root_uri", "initialization_options",
             "capabilities", "trace", "workspace_folders"}
  {
    var f := InitializeParams.fields;
    assert f[0].name == "process_id" && f[1].name == "client_info" && f[2].name == "locale";
    assert f[3].name == "root_path" && f[4].name == "root_uri" && f[5].name == "initialization_options";
    assert f[6].name == "capabilities" && f[7].name == "trace" && f[8].name == "workspace_folders";
  }

  /** A client that sends no `capabilities` makes `ClientCapabilities.from_dict(None)` call `.get` on None. */
  lemma InitializeParamsNeedCapabilities(schema: LegacySchema, source: map<string, Value>)
    requires Defines(schema, "InitializeParams", InitializeParams)
    requires Defines(schema, "ClientCapabilities", ClientCapabilities)
    requires !DictGet(source, "clientInfo").VDict? && DictGet(source, "capabilities") == VNone
    ensures FromDictOf(schema, "InitializeParams", VDict(source)) == Err(AttributeError)
  {
    InitializeParamsReads(schema, source);
    assert FromDictOf(schema, "ClientCapabilities", VNone) == Err(AttributeError);
  }

  /** A `clientInfo` dict goes to ClientServerInfo, whose hooks are the base class's, so it raises. */
  lemma InitializeParamsRejectClientInfo(schema: LegacySchema, source: map<string, Value>)
    requires Defines(schema, "InitializeParams", InitializeParams) && Hookless(schema, "ClientServerInfo")
    requires DictGet(source, "clientInfo").VDict?
    ensures FromDictOf(schema, "InitializeParams", VDict(source)) == Err(NotImplementedError)
  {
    InitializeParamsReads(schema, source);
  }

  /**
   * Once `clientInfo` and `capabilities` pass: a `trace` str that names no
   * TraceValue raises ValueError; otherwise the folders decide, and with the
   * base class's hooks for WorkspaceFolder only an empty list (or a value that
   * is not a list) gets through.
   */
  lemma InitializeParamsTraceAndFolders(schema: LegacySchema, source: map<string, Value>)
    requires Defines(schema, "InitializeParams", InitializeParams) && Hookless(schema, "WorkspaceFolder")
    requires !DictGet(source, "clientInfo").VDict?
    requires FromDictOf(schema, "ClientCapabilities", DictGet(source, "capabilities")).Ok?
    ensures var t := DictGet(source, "trace");
            t.VStr? && t.s !in TraceMembers ==>
              FromDictOf(schema, "InitializeParams", VDict(source)) == Err(ValueError)
    ensures var t, folders := DictGet(source, "trace"), DictGet(source, "workspaceFolders");
            (!t.VStr? || t.s in TraceMembers) ==>
              (FromDictOf(schema, "InitializeParams", VDict(source)).Ok? <==> !folders.VList? || folders.items == [])
  {
    InitializeParamsReads(schema, source);
    var folders := DictGet(source, "workspaceFolders");
    if folders.VList? {
      FromDictEachSucceeds(schema, "WorkspaceFolder", folders, 0, []);
      if folders.items != [] {
        assert FromDictOf(schema, "WorkspaceFolder", folders.items[0]).Err?;
      }
    }
  }

  /** The parse-only classes have the base class's `to_dict`, which raises NotImplementedError. */
  lemma ParseOnlyClasses(schema: LegacySchema, obj: Value, given: Option<map<string, Value>>)
    requires schema == LegacyTypes
    requires obj.VObj? && obj.cls in {"InitializeParams", "SetTraceParams", "ShowDocumentResult",
                                      "DidChangeWorkspaceFoldersParams"}
    ensures ToDictOf(schema, obj, given).error == Some(NotImplementedError)
  {
  }

  /** The write-only classes have the base class's `_init_args_from_dict`, which raises NotImplementedError. */
  lemma WriteOnlyClasses(schema: LegacySchema, cls: string, source: Value)
    requires schema == LegacyTypes
    requires cls in {"InitializeResult", "ShowMessageParams", "LogMessageParams", "ShowDocumentParams"}
    ensures FromDictOf(schema, cls, source) == Err(NotImplementedError)
  {
  }

  function InitializeResultOf(capabilities: Value, serverInfo: Value): Value
  {
    VObj("InitializeResult", map["capabilities" := capabilities, "server_info" := serverInfo])
  }

  /**
   * `InitializeResult.to_dict` writes `capabilities` as a dict, and then
   * `serverInfo` as a dict unless it is None.
   */
  lemma InitializeResultWrites(schema: LegacySchema, capabilities: Value, serverInfo: Value)
    requires Defines(schema, "InitializeResult", InitializeResult)
    requires NestedToDict(schema, capabilities).Ok?
    requires serverInfo == VNone || NestedToDict(schema, serverInfo).Ok?
    ensures ToDictOf(schema, InitializeResultOf(capabilities, serverInfo), None) ==
            Written(SetUnlessNone(map["capabilities" := NestedToDict(schema, capabilities).value],
                                  "serverInfo", DictUnlessNone(schema, serverInfo)), None)
  {
    var obj := InitializeResultOf(capabilities, serverInfo);
    var steps := InitializeResult.write.value;
    var m1 := map["capabilities" := NestedToDict(schema, capabilities).value];
    assert WriteValue(schema, obj, steps[0]) == Ok(Some(NestedToDict(schema, capabilities).value));
    assert WriteAll(schema, obj, steps, map[]) == WriteAll(schema, obj, steps[1..], m1);
    WriteNestedIfSetStep(schema, obj, steps[1..], m1);
    WriteDone(schema, obj, steps[1..][1..], SetUnlessNone(m1, "serverInfo", DictUnlessNone(schema, serverInfo)));
  }

  /**
   * A `ClientServerInfo` server info has the base class's `to_dict`: the call
   * raises after `capabilities` is already in the dict.
   */
  lemma InitializeResultRejectsServerInfo(schema: LegacySchema, capabilities: Value, info: map<string, Value>)
    requires Defines(schema, "InitializeResult", InitializeResult) && Hookless(schema, "ClientServerInfo")
    requires NestedToDict(schema, capabilities).Ok?
    ensures ToDictOf(schema, InitializeResultOf(capabilities, VObj("ClientServerInfo", info)), None) ==
            Written(map["capabilities" := NestedToDict(schema, capabilities).value], Some(NotImplementedError))
  {
    var obj := InitializeResultOf(capabilities, VObj("ClientServerInfo", info));
    var steps := InitializeResult.write.value;
    var m1 := map["capabilities" := NestedToDict(schema, capabilities).value];
    assert WriteValue(schema, obj, steps[0]) == Ok(Some(NestedToDict(schema, capabilities).value));
    assert WriteAll(schema, obj, steps, map[]) == WriteAll(schema, obj, steps[1..], m1);
    assert HooksOf(schema, "ClientServerInfo").write.None?;
    assert NestedToDict(schema, VObj("ClientServerInfo", info)) == Err(NotImplementedError);
    assert WriteValue(schema, obj, steps[1]) == Err(NotImplementedError);
  }

  /** `SetTraceParams.from_dict` looks `value` up in TraceValue, whatever it is, so a missing or unknown one raises ValueError. */
  lemma SetTraceReads(schema: LegacySchema, source: map<string, Value>)
    requires Defines(schema, "SetTraceParams", SetTraceParams)
    ensures var v := DictGet(source, "value");
            FromDictOf(schema, "SetTraceParams", VDict(source)) ==
            if v.VStr? && v.s in TraceMembers then Ok(VObj("SetTraceParams", map["value" := VEnum("TraceValue", v)]))
            else if v.VEnum? && v.enum == "TraceValue" && v.member.VStr? && v.member.s in TraceMembers
            then Ok(VObj("SetTraceParams", map["value" := v]))
            else Err(ValueError)
  {
    var src := VDict(source);
    var steps := SetTraceParams.read.value;
    var v := EnumOf("TraceValue", TraceMembers, DictGet(source, "value"));
    if v.Ok? {
      ReadStepOk(schema, src, steps, map[], v.value);
      ReadDone(schema, src, steps[1..], map["value" := v.value]);
      assert SetTraceParams.fields[0].name == "value";
      assert FieldNames(SetTraceParams.fields) == {"value"};
      ConstructWithAll("SetTraceParams", SetTraceParams, map["value" := v.value]);
    } else {
      ReadStepErr(schema, src, steps, map[], v.error);
    }
  }

  /**
   * `ShowMessageParams.to_dict` and `LogMessageParams.to_dict` write `type` as
   * `int(self.type)` and `message` as it is; a type `int()` refuses raises its
   * exception (ValueError for text that is no int, TypeError for anything but
   * an int or a str) before anything is written.
   */
  lemma MessageParamsWrites(schema: LegacySchema, cls: string, messageType: Value, message: Value)
    requires Defines(schema, cls, MessageParams)
    ensures var obj := VObj(cls, map["type" := messageType, "message" := message]);
            var i := PyInt(messageType);
            ToDictOf(schema, obj, None) ==
            if i.Ok? then Written(map["type" := VInt(i.value), "message" := message], None)
            else Written(map[], Some(i.error))
  {
    var obj := VObj(cls, map["type" := messageType, "message" := message]);
    var steps := MessageParams.write.value;
    var i := PyInt(messageType);
    if i.Ok? {
      var m1 := map["type" := VInt(i.value)];
      assert WriteAll(schema, obj, steps, map[]) == WriteAll(schema, obj, steps[1..], m1);
      WritePutStep(schema, obj, steps[1..], m1);
      WriteDone(schema, obj, steps[1..][1..], m1["message" := message]);
    } else {
      assert WriteValue(schema, obj, steps[0]) == Err(i.error);
    }
  }

  /** A type given as the text of an int, `str(n)`, is written as the int n. */
  lemma MessageParamsTextType(schema: LegacySchema, cls: string, n: int, message: Value)
    requires Defines(schema, cls, MessageParams)
    ensures ToDictOf(schema, VObj(cls, map["type" := VStr(PyStr(n)), "message" := message]), None) ==
            Written(map["type" := VInt(n), "message" := message], None)
  {
    IntOfStr(n);
    MessageParamsWrites(schema, cls, VStr(PyStr(n)), message);
  }

  /** A type given as text that is no int raises ValueError, and a type that is neither int nor str TypeError. */
  lemma MessageParamsBadType(schema: LegacySchema, cls: string, messageType: Value, message: Value)
    requires Defines(schema, cls, MessageParams)
    requires !IsPyInt(messageType) && !(messageType.VStr? && IntText(messageType.s).Some?)
    ensures ToDictOf(schema, VObj(cls, map["type" := messageType, "message" := message]), None) ==
            Written(map[], Some(if messageType.VStr? then ValueError else TypeError))
  {
    MessageParamsWrites(schema, cls, messageType, message);
  }

  function ShowDocumentParamsOf(uri: Value, external: Value, takeFocus: Value, selection: Value): Value
  {
    VObj("ShowDocumentParams",
         map["uri" := uri, "external" := external, "take_focus" := takeFocus, "selection" := selection])
  }

  /** `ShowDocumentParams.to_dict` writes `uri`, then each optional attribute that is not None. */
  lemma ShowDocumentParamsWrites(schema: LegacySchema, uri: Value, external: Value, takeFocus: Value, selection: Value)
    requires Defines(schema, "ShowDocumentParams", ShowDocumentParams)
    requires selection == VNone || NestedToDict(schema, selection).Ok?
    ensures ToDictOf(schema, ShowDocumentParamsOf(uri, external, takeFocus, selection), None) ==
            Written(SetUnlessNone(SetUnlessNone(SetUnlessNone(map["uri" := uri], "external", external),
                                                "takeFocus", takeFocus),
                                  "selection", DictUnlessNone(schema, selection)), None)
  {
    var obj := ShowDocumentParamsOf(uri, external, takeFocus, selection);
    var s0 := ShowDocumentParams.write.value;
    var s1 := s0[1..];
    var s2 := s1[1..];
    var s3 := s2[1..];
    var m1 := map["uri" := uri];
    var m2 := SetUnlessNone(m1, "external", external);
    var m3 := SetUnlessNone(m2, "takeFocus", takeFocus);
    WritePutStep(schema, obj, s0, map[]);
    WriteIfSetStep(schema, obj, s1, m1);
    WriteIfSetStep(schema, obj, s2, m2);
    WriteNestedIfSetStep(schema, obj, s3, m3);
    WriteDone(schema, obj, s3[1..], SetUnlessNone(m3, "selection", DictUnlessNone(schema, selection)));
  }

  /** A `Range` selection has the base class's `to_dict`: the call raises after the other keys are written. */
  lemma ShowDocumentParamsRejectsSelection(
    schema: LegacySchema, uri: Value, external: Value, takeFocus: Value, range: map<string, Value>)
    requires Defines(schema, "ShowDocumentParams", ShowDocumentParams) && Hookless(schema, "Range")
    ensures ToDictOf(schema, ShowDocumentParamsOf(uri, external, takeFocus, VObj("Range", range)), None) ==
            Written(SetUnlessNone(SetUnlessNone(map["uri" := uri], "external", external), "takeFocus", takeFocus),
                    Some(NotImplementedError))
  {
    var obj := ShowDocumentParamsOf(uri, external, takeFocus, VObj("Range", range));
    var s0 := ShowDocumentParams.write.value;
    var s1 := s0[1..];
    var s2 := s1[1..];
    var s3 := s2[1..];
    var m1 := map["uri" := uri];
    var m2 := SetUnlessNone(m1, "external", external);
    var m3 := SetUnlessNone(m2, "takeFocus", takeFocus);
    WritePutStep(schema, obj, s0, map[]);
    WriteIfSetStep(schema, obj, s1, m1);
    WriteIfSetStep(schema, obj, s2, m2);
    assert NestedToDict(schema, VObj("Range", range)) == Err(NotImplementedError);
    WriteStepErr(schema, obj, s3, m3, NotImplementedError);
  }

  /** `ShowDocumentResult.from_dict` reads `success` with `.get`. */
  lemma ShowDocumentResultReads(schema: LegacySchema, source: map<string, Value>)
    requires Defines(schema, "ShowDocumentResult", ShowDocumentResult)
    ensures FromDictOf(schema, "ShowDocumentResult", VDict(source)) ==
            Ok(VObj("ShowDocumentResult", map["success" := DictGet(source, "success")]))
  {
    var src := VDict(source);
    var steps := ShowDocumentResult.read.value;
    var args := map["success" := DictGet(source, "success")];
    ReadStepOk(schema, src, steps, map[], DictGet(source, "success"));
    ReadDone(schema, src, steps[1..], args);
    assert ShowDocumentResult.fields[0].name == "success";
    assert FieldNames(ShowDocumentResult.fields) == args.Keys;
    ConstructWithAll("ShowDocumentResult", ShowDocumentResult, args);
  }

  // ---------------------------------------------------------------------------
  // Workspace folder changes.

  function FoldersChangeOf(added: Value, removed: Value): Value
  {
    VObj("WorkspaceFoldersChangeEvent", map["added" := added, "removed" := removed])
  }

  /** `WorkspaceFoldersChangeEvent.from_dict` parses `added` and then `removed` item by item when each is a list. */
  lemma FoldersChangeReads(schema: LegacySchema, source: map<string, Value>)
    requires Defines(schema, "WorkspaceFoldersChangeEvent", WorkspaceFoldersChangeEvent)
    ensures FromDictOf(schema, "WorkspaceFoldersChangeEvent", VDict(source)) ==
            var added :- ParsedEach(schema, "WorkspaceFolder", DictGet(source, "added"));
            var removed :- ParsedEach(schema, "WorkspaceFolder", DictGet(source, "removed"));
            Ok(FoldersChangeOf(added, removed))
  {
    var src := VDict(source);
    var steps := WorkspaceFoldersChangeEvent.read.value;
    var added := ParsedEach(schema, "WorkspaceFolder", DictGet(source, "added"));
    var removed := ParsedEach(schema, "WorkspaceFolder", DictGet(source, "removed"));
    assert ReadValue(schema, src, steps[0]) == added;
    if added.Err? {
      ReadStepErr(schema, src, steps, map[], added.error);
    } else {
      var m1 := map["added" := added.value];
      ReadStepOk(schema, src, steps, map[], added.value);
      assert ReadValue(schema, src, steps[1..][0]) == removed;
      if removed.Err? {
        ReadStepErr(schema, src, steps[1..], m1, removed.error);
      } else {
        var args := m1["removed" := removed.value];
        ReadStepOk(schema, src, steps[1..], m1, removed.value);
        ReadDone(schema, src, steps[1..][1..], args);
        var fields := WorkspaceFoldersChangeEvent.fields;
        assert fields[0].name == "added" && fields[1].name == "removed";
        assert FieldNames(fields) == args.Keys;
        ConstructWithAll("WorkspaceFoldersChangeEvent", WorkspaceFoldersChangeEvent, args);
      }
    }
  }

  /** With the base class's hooks for WorkspaceFolder, an event parses exactly when neither side lists a folder. */
  lemma FoldersChangeNeedsFolderHooks(schema: LegacySchema, source: map<string, Value>)
    requires Defines(schema, "WorkspaceFoldersChangeEvent", WorkspaceFoldersChangeEvent)
    requires Hookless(schema, "WorkspaceFolder")
    ensures var added, removed := DictGet(source, "added"), DictGet(source, "removed");
            FromDictOf(schema, "WorkspaceFoldersChangeEvent", VDict(source)).Ok? <==>
              (!added.VList? || added.items == []) && (!removed.VList? || removed.items == [])
  {
    FoldersChangeReads(schema, source);
    var added, removed := DictGet(source, "added"), DictGet(source, "removed");
    if added.VList? && added.items != [] {
      FromDictEachSucceeds(schema, "WorkspaceFolder", added, 0, []);
      assert FromDictOf(schema, "WorkspaceFolder", added.items[0]).Err?;
    }
    if removed.VList? && removed.items != [] {
      FromDictEachSucceeds(schema, "WorkspaceFolder", removed, 0, []);
      assert FromDictOf(schema, "WorkspaceFolder", removed.items[0]).Err?;
    }
  }

  /** `[x.to_dict() for x in v]` when `v` is a list, else nothing is written. */
  function DictsEach(schema: LegacySchema, v: Value): Result<Option<Value>>
  {
    if v.VList? then
      var ds :- ToDictEach(schema, v, 0, []);
      Ok(Some(VList(ds)))
    else Ok(None)
  }

  /** Its `to_dict` writes `added` and then `removed` as lists of dicts when each is a list, and skips it otherwise. */
  lemma FoldersChangeWrites(schema: LegacySchema, added: Value, removed: Value)
    requires Defines(schema, "WorkspaceFoldersChangeEvent", WorkspaceFoldersChangeEvent)
    ensures ToDictOf(schema, FoldersChangeOf(added, removed), None) ==
            match DictsEach(schema, added)
            case Err(e) => Written(map[], Some(e))
            case Ok(a) =>
              var m1 := if a.Some? then map["added" := a.value] else map[];
              match DictsEach(schema, removed)
              case Err(e) => Written(m1, Some(e))
              case Ok(r) => Written(if r.Some? then m1["removed" := r.value] else m1, None)
  {
    var obj := FoldersChangeOf(added, removed);
    var steps := WorkspaceFoldersChangeEvent.write.value;
    var a, r := DictsEach(schema, added), DictsEach(schema, removed);
    assert WriteValue(schema, obj, steps[0]) == a;
    assert WriteValue(schema, obj, steps[1..][0]) == r;
    if a.Err? {
      WriteStepErr(schema, obj, steps, map[], a.error);
    } else {
      var m1 := if a.value.Some? then map["added" := a.value.value] else map[];
      WriteStepOk(schema, obj, steps, map[], a.value);
      if r.Err? {
        WriteStepErr(schema, obj, steps[1..], m1, r.error);
      } else {
        WriteStepOk(schema, obj, steps[1..], m1, r.value);
        WriteDone(schema, obj, steps[1..][1..], if r.value.Some? then m1["removed" := r.value.value] else m1);
      }
    }
  }

  /** A list of WorkspaceFolder objects, that class having the base class's hooks. */
  predicate HooklessFolders(schema: LegacySchema, v: Value)
  {
    Hookless(schema, "WorkspaceFolder") && v.VList? &&
    forall j :: 0 <= j < |v.items| ==> v.items[j].VObj? && v.items[j].cls == "WorkspaceFolder"
  }

  /** With the base class's `to_dict` for WorkspaceFolder, an event writes exactly when both lists are empty. */
  lemma FoldersChangeWriteNeedsFolderHooks(schema: LegacySchema, added: Value, removed: Value)
    requires Defines(schema, "WorkspaceFoldersChangeEvent", WorkspaceFoldersChangeEvent)
    requires HooklessFolders(schema, added) && HooklessFolders(schema, removed)
    ensures ToDictOf(schema, FoldersChangeOf(added, removed), None).error.None? <==> added.items == [] && removed.items == []
    ensures ToDictOf(schema, FoldersChangeOf(added, removed), None).error.Some? ==>
              ToDictOf(schema, FoldersChangeOf(added, removed), None).error == Some(NotImplementedError)
  {
    FoldersChangeWrites(schema, added, removed);
    ToDictEachFirstError(schema, added, 0, []);
    ToDictEachFirstError(schema, removed, 0, []);
    if added.items != [] {
      ToDictEachSucceeds(schema, added, 0, []);
      assert NestedToDict(schema, added.items[0]).Err?;
    }
    if removed.items != [] {
      ToDictEachSucceeds(schema, removed, 0, []);
      assert NestedToDict(schema, removed.items[0]).Err?;
    }
  }

  /** An event whose two lists hold folders that each round-trip round-trips itself. */
  lemma {:induction false} FoldersChangeRoundTrip(schema: LegacySchema, added: Value, removed: Value)
    requires Defines(schema, "WorkspaceFoldersChangeEvent", WorkspaceFoldersChangeEvent)
    requires added.VList? && forall j :: 0 <= j < |added.items| ==> RoundTrips(schema, "WorkspaceFolder", added.items[j])
    requires removed.VList? && forall j :: 0 <= j < |removed.items| ==> RoundTrips(schema, "WorkspaceFolder", removed.items[j])
    ensures RoundTrips(schema, "WorkspaceFoldersChangeEvent", FoldersChangeOf(added, removed))
  {
    EachRoundTrip(schema, "WorkspaceFolder", added);
    EachRoundTrip(schema, "WorkspaceFolder", removed);
    FoldersChangeWrites(schema, added, removed);
    var a := VList(ToDictEach(schema, added, 0, []).value);
    var r := VList(ToDictEach(schema, removed, 0, []).value);
    var out := map["added" := a, "removed" := r];
    FoldersChangeReads(schema, out);
    assert DictGet(out, "added") == a && DictGet(out, "removed") == r;
  }

  /** `DidChangeWorkspaceFoldersParams.from_dict` parses `event` unless it is None. */
  lemma DidChangeFoldersReads(schema: LegacySchema, source: map<string, Value>)
    requires Defines(schema, "DidChangeWorkspaceFoldersParams", DidChangeWorkspaceFoldersParams)
    ensures FromDictOf(schema, "DidChangeWorkspaceFoldersParams", VDict(source)) ==
            match ParsedUnlessNone(schema, "WorkspaceFoldersChangeEvent", DictGet(source, "event"))
            case Ok(event) => Ok(VObj("DidChangeWorkspaceFoldersParams", map["event" := event]))
            case Err(e) => Err(e)
  {
    var src := VDict(source);
    var steps := DidChangeWorkspaceFoldersParams.read.value;
    var event := ParsedUnlessNone(schema, "WorkspaceFoldersChangeEvent", DictGet(source, "event"));
    assert ReadValue(schema, src, steps[0]) == event;
    if event.Ok? {
      ReadStepOk(schema, src, steps, map[], event.value);
      ReadDone(schema, src, steps[1..], map["event" := event.value]);
      assert DidChangeWorkspaceFoldersParams.fields[0].name == "event";
      assert FieldNames(DidChangeWorkspaceFoldersParams.fields) == {"event"};
      ConstructWithAll("DidChangeWorkspaceFoldersParams", DidChangeWorkspaceFoldersParams, map["event" := event.value]);
    } else {
      ReadStepErr(schema, src, steps, map[], event.error);
    }
  }
}
