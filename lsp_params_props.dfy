/**
 * What the parameter schemas of lsp/types/params.py promise through the
 * generic codec: the defaults a missing key takes, the keys that are written,
 * and the one field whose annotation does not match the protocol.
 */
module LspParamsProps {
  import opened Values
  import opened Naming
  import opened Codec
  import opened CodecLaws
  import opened CodecRoundTrip
  import opened CodecDefaults
  import opened LspBasic
  import opened LspBasicLaws
  import opened LspParams
  import opened LspCapabilities
  import opened LspCapabilitiesProps

  // ---------------------------------------------------------------------------
  // SetTraceParams, ShowMessageParams, LogMessageParams.

  /** `SetTraceParams.from_dict({})` has value `TraceValue.OFF`. */
  lemma SetTraceFromEmpty(schema: Schema)
    requires Declares(schema, "SetTraceParams", SetTraceParamsDecl)
    ensures FromDict(schema, "SetTraceParams", VDict(map[])) ==
            Ok(VObj("SetTraceParams", map["value" := VEnum("TraceValue", VStr("off"))]))
  {
    FromEmptyDict(schema, "SetTraceParams", [StrMember(TraceValue, "off")]);
  }

  /** ShowMessageParams or LogMessageParams. */
  predicate MessageParams(schema: Schema, cls: string)
  {
    cls in {"ShowMessageParams", "LogMessageParams"} && Declares(schema, cls, MessageParamsDecl)
  }

  /** `cls(type=MessageType(t), message=message)`. */
  function MessageParamsOf(cls: string, t: int, message: string): Value
  {
    Instance(cls, MessageParamsDecl.fields, [IntMember(MessageType, t), VStr(message)])
  }

  /** The instance holds exactly the two given values. */
  lemma MessageParamsArgs(cls: string, t: int, message: string)
    ensures MessageParamsOf(cls, t, message) == VObj(cls, map["type" := IntMember(MessageType, t), "message" := VStr(message)])
  {
    var vals := [IntMember(MessageType, t), VStr(message)];
    assert ArgsOf(MessageParamsDecl.fields, vals, 0) == map[];
    assert ArgsOf(MessageParamsDecl.fields, vals, 1) == map["type" := vals[0]];
  }

  /** `from_dict({})` gives type `MessageType.LOG` and message "". */
  lemma MessageParamsFromEmpty(schema: Schema, cls: string)
    requires MessageParams(schema, cls)
    ensures FromDict(schema, cls, VDict(map[])) == Ok(MessageParamsOf(cls, 4, ""))
  {
    FromEmptyDict(schema, cls, [LogType, VStr("")]);
  }

  lemma MessageParamsKeys()
    ensures KeyOf(MessageParamsDecl.fields[0]) == "type" && KeyOf(MessageParamsDecl.fields[1]) == "message"
    ensures DistinctNames(MessageParamsDecl.fields) && DistinctKeys(MessageParamsDecl.fields)
  {
    MessageTypeKey();
    MessageTextKey();
  }

  lemma MessageTypeKey()
    ensures KeyOf(MessageParamsDecl.fields[0]) == "type"
  {
    KeyIsName(MessageParamsDecl.fields[0]);
  }

  lemma MessageTextKey()
    ensures KeyOf(MessageParamsDecl.fields[1]) == "message"
  {
    KeyIsName(MessageParamsDecl.fields[1]);
  }

  /** The type is written as its integer, next to the message. */
  lemma MessageParamsToDict(schema: Schema, cls: string, fields: seq<Field>, t: int, message: string)
    requires MessageParams(schema, cls) && fields == MessageParamsDecl.fields && t in MessageType.intValues
    ensures ToDict(schema, MessageParamsOf(cls, t, message)) == Ok(VDict(map["type" := VInt(t), "message" := VStr(message)]))
  {
    assert Fields(schema, cls) == fields;
    var vals := [IntMember(MessageType, t), VStr(message)];
    var obj := Instance(cls, fields, vals);
    MessageParamsKeys();
    ArgOut(schema, cls, fields, vals, 0);
    EnumSerializesToValue(schema, MessageType, vals[0]);
    ArgPlainOut(schema, cls, fields, vals, 1);
    ToDictTwo(schema, obj, "type", "message");
  }

  /** Parsing the written dict gives the instance back. */
  lemma MessageParamsFromDict(schema: Schema, cls: string, fields: seq<Field>, t: int, message: string)
    requires MessageParams(schema, cls) && fields == MessageParamsDecl.fields && t in MessageType.intValues
    ensures FromDict(schema, cls, VDict(map["type" := VInt(t), "message" := VStr(message)])) == Ok(MessageParamsOf(cls, t, message))
  {
    assert Fields(schema, cls) == fields;
    var d := map["type" := VInt(t), "message" := VStr(message)];
    MessageTypeParsed(schema, d, fields[0], t);
    MessageTextParsed(schema, d, fields[1], message);
    FromDictInstance(schema, cls, VDict(d), [IntMember(MessageType, t), VStr(message)]);
  }

  lemma MessageTypeParsed(schema: Schema, d: map<string, Value>, f: Field, t: int)
    requires f == MessageParamsDecl.fields[0] && "type" in d && d["type"] == VInt(t) && t in MessageType.intValues
    ensures InitArg(schema, VDict(d), f) == Ok(IntMember(MessageType, t))
  {
    MessageParamsKeys();
    IntEnumParse(schema, MessageType, VInt(t));
    InitArgPresent(schema, d, f, IntMember(MessageType, t));
  }

  lemma MessageTextParsed(schema: Schema, d: map<string, Value>, f: Field, message: string)
    requires f == MessageParamsDecl.fields[1] && "message" in d && d["message"] == VStr(message)
    ensures InitArg(schema, VDict(d), f) == Ok(VStr(message))
  {
    MessageParamsKeys();
    SingleDeserialize(schema, TStr, VStr(message));
    InitArgPresent(schema, d, f, VStr(message));
  }

  // ---------------------------------------------------------------------------
  // ReferenceParams.

  const DefaultReferenceContext := VObj("ReferenceContext", map["include_declaration" := VBool(false)])

  /** `ReferenceContext()` has include_declaration False. */
  lemma ReferenceContextDefault(schema: Schema)
    requires Declares(schema, "ReferenceContext", ReferenceContextDecl)
    ensures NewInstance(schema, {}, "ReferenceContext") == Ok(DefaultReferenceContext)
  {
    NewInstanceIs(schema, {}, "ReferenceContext", [VBool(false)]);
    assert ArgsOf(ReferenceContextDecl.fields, [VBool(false)], 0) == map[];
  }

  lemma ReferenceParamsContextField(fields: seq<Field>)
    requires fields == ReferenceParamsDecl.fields
    ensures |fields| == 5 && fields[4] == Defaulted("context", TStruct("ReferenceContext"), FactoryClass("ReferenceContext"))
    ensures KeyOf(fields[4]) == "context"
  {
    KeyIsName(fields[4]);
  }

  /** A ReferenceParams dict without a context key parses with the default context. */
  lemma ReferenceParamsWithoutContext(schema: Schema, d: map<string, Value>)
    requires Declares(schema, "ReferenceParams", ReferenceParamsDecl)
    requires Declares(schema, "ReferenceContext", ReferenceContextDecl)
    requires "context" !in d
    ensures FromDict(schema, "ReferenceParams", VDict(d)).Ok? ==>
              var o := FromDict(schema, "ReferenceParams", VDict(d)).value;
              o.VObj? && "context" in o.args && o.args["context"] == DefaultReferenceContext
  {
    var fields := Fields(schema, "ReferenceParams");
    ReferenceParamsContextField(fields);
    ReferenceContextDefault(schema);
    InitArgAbsent(schema, d, fields[4], DefaultReferenceContext);
    FromDictArg(schema, "ReferenceParams", VDict(d), 4);
  }

  // ---------------------------------------------------------------------------
  // InitializeParams.

  lemma CapabilitiesKey()
    ensures InitializeParamsDecl.fields[7].name == "capabilities" && KeyOf(InitializeParamsDecl.fields[7]) == "capabilities"
  {
    KeyIsName(InitializeParamsDecl.fields[7]);
  }

  lemma InitializeFoldersKeyName()
    ensures InitializeParamsDecl.fields[9].name == "workspace" + "_" + "folders"
  {
  }

  lemma InitializeFoldersKey()
    ensures KeyOf(InitializeParamsDecl.fields[9]) == "workspaceFolders"
  {
    InitializeFoldersKeyName();
    WorkspaceFoldersKeyWords();
    KeyTwo(InitializeParamsDecl.fields[9], "workspace", "folders", "workspaceFolders");
  }

  /** The arguments of `InitializeParams.from_dict({})`: Nones, the capabilities `caps`, None and `[]`. */
  function InitializeDefaults(caps: Value): seq<Value>
  {
    [VNone, VNone, VNone, VNone, VNone, VNone, VNone, caps, VNone, VList([])]
  }

  lemma InitializeDefaultValues(schema: Schema, fields: seq<Field>, caps: Value)
    requires fields == InitializeParamsDecl.fields && NewInstance(schema, {}, "ClientCapabilities") == Ok(caps)
    ensures |fields| == |InitializeDefaults(caps)| &&
            forall j :: 0 <= j < |fields| ==> DefaultValue(schema, fields[j]) == Ok(InitializeDefaults(caps)[j])
  {
    forall j | 0 <= j < |fields| ensures DefaultValue(schema, fields[j]) == Ok(InitializeDefaults(caps)[j]) {
      if j == 7 {
        assert fields[j].default == FactoryClass("ClientCapabilities");
      } else if j == 9 {
        assert fields[j].default == FactoryList;
      } else {
        assert fields[j].default == Const(VNone);
      }
    }
  }

  /** `InitializeParams.from_dict({})` fills capabilities by its factory and workspace_folders with `[]`. */
  lemma InitializeParamsFromEmpty(schema: Schema)
    requires Declares(schema, "InitializeParams", InitializeParamsDecl) && ClientSchema(schema)
    ensures FromDict(schema, "InitializeParams", VDict(map[])) ==
            Ok(Instance("InitializeParams", InitializeParamsDecl.fields, InitializeDefaults(DefaultClientCapabilities)))
  {
    var fields := Fields(schema, "InitializeParams");
    ClientCapabilitiesDefault(schema);
    InitializeDefaultValues(schema, fields, DefaultClientCapabilities);
    FromEmptyDict(schema, "InitializeParams", InitializeDefaults(DefaultClientCapabilities));
  }

  lemma InitializeLaterNames(fields: seq<Field>)
    requires fields == InitializeParamsDecl.fields
    ensures |fields| == 10 && forall k :: 7 < k < |fields| ==> fields[k].name != fields[7].name
  {
    assert fields[8].name != fields[7].name && fields[9].name != fields[7].name;
  }

  lemma InitializeCapabilitiesDefault(schema: Schema, caps: Value)
    requires NewInstance(schema, {}, "ClientCapabilities") == Ok(caps)
    ensures DefaultValue(schema, InitializeParamsDecl.fields[7]) == Ok(caps)
  {
    assert InitializeParamsDecl.fields[7].default == FactoryClass("ClientCapabilities");
  }

  lemma InitializeFoldersDefault(schema: Schema)
    ensures DefaultValue(schema, InitializeParamsDecl.fields[9]) == Ok(VList([]))
  {
    assert InitializeParamsDecl.fields[9].default == FactoryList;
  }

  /** A missing capabilities key takes its default, `caps`. */
  lemma InitializeCapabilitiesArg(schema: Schema, d: map<string, Value>, caps: Value)
    requires Declares(schema, "InitializeParams", InitializeParamsDecl) && DefaultValue(schema, InitializeParamsDecl.fields[7]) == Ok(caps)
    requires "capabilities" !in d
    ensures var r := FromDict(schema, "InitializeParams", VDict(d));
            r.Ok? ==> r.value.VObj? && "capabilities" in r.value.args && r.value.args["capabilities"] == caps
  {
    var fields := Fields(schema, "InitializeParams");
    InitializeLaterNames(fields);
    CapabilitiesKey();
    FromDictAbsent(schema, "InitializeParams", d, 7, "capabilities", caps);
  }

  /** A missing workspaceFolders key takes `[]`. */
  lemma InitializeFoldersArg(schema: Schema, d: map<string, Value>)
    requires Declares(schema, "InitializeParams", InitializeParamsDecl)
    requires "workspaceFolders" !in d
    ensures var r := FromDict(schema, "InitializeParams", VDict(d));
            r.Ok? ==> r.value.VObj? && "workspace_folders" in r.value.args && r.value.args["workspace_folders"] == VList([])
  {
    var fields := Fields(schema, "InitializeParams");
    InitializeFoldersKeyName();
    InitializeFoldersKey();
    InitializeFoldersDefault(schema);
    FromDictAbsent(schema, "InitializeParams", d, 9, "workspace_folders", VList([]));
  }

  /** Whatever else a request gives, a missing capabilities or workspaceFolders key takes its default. */
  lemma InitializeParamsDefaults(schema: Schema, d: map<string, Value>)
    requires Declares(schema, "InitializeParams", InitializeParamsDecl) && ClientSchema(schema)
    requires "capabilities" !in d && "workspaceFolders" !in d
    ensures var r := FromDict(schema, "InitializeParams", VDict(d));
            r.Ok? ==> r.value.VObj? && "capabilities" in r.value.args && "workspace_folders" in r.value.args &&
                      r.value.args["capabilities"] == DefaultClientCapabilities &&
                      r.value.args["workspace_folders"] == VList([])
  {
    ClientCapabilitiesDefault(schema);
    InitializeCapabilitiesDefault(schema, DefaultClientCapabilities);
    InitializeCapabilitiesArg(schema, d, DefaultClientCapabilities);
    InitializeFoldersArg(schema, d);
  }

  // ---------------------------------------------------------------------------
  // PublishDiagnosticsParams.

  /** `PublishDiagnosticsParams(uri, version, diagnostics)`. */
  function PublishDiagnosticsOf(uri: string, version: Value, diagnostics: seq<Value>): Value
  {
    Instance("PublishDiagnosticsParams", PublishDiagnosticsParamsDecl.fields, [VStr(uri), version, VList(diagnostics)])
  }

  /** `PublishDiagnosticsParams.from_dict({})`: uri "", no version, no diagnostics. */
  lemma PublishDiagnosticsFromEmpty(schema: Schema)
    requires Declares(schema, "PublishDiagnosticsParams", PublishDiagnosticsParamsDecl)
    ensures FromDict(schema, "PublishDiagnosticsParams", VDict(map[])) == Ok(PublishDiagnosticsOf("", VNone, []))
  {
    FromEmptyDict(schema, "PublishDiagnosticsParams", [VStr(""), VNone, VList([])]);
  }

  lemma PublishUriKey()
    ensures KeyOf(PublishDiagnosticsParamsDecl.fields[0]) == "uri"
  {
    KeyIsName(PublishDiagnosticsParamsDecl.fields[0]);
  }

  lemma PublishVersionKey()
    ensures KeyOf(PublishDiagnosticsParamsDecl.fields[1]) == "version"
  {
    KeyIsName(PublishDiagnosticsParamsDecl.fields[1]);
  }

  lemma PublishDiagnosticsKey()
    ensures KeyOf(PublishDiagnosticsParamsDecl.fields[2]) == "diagnostics"
  {
    KeyIsName(PublishDiagnosticsParamsDecl.fields[2]);
  }

  lemma PublishDiagnosticsKeys()
    ensures var fields := PublishDiagnosticsParamsDecl.fields;
            KeyOf(fields[0]) == "uri" && KeyOf(fields[1]) == "version" && KeyOf(fields[2]) == "diagnostics" &&
            DistinctNames(fields) && DistinctKeys(fields)
  {
    var fields := PublishDiagnosticsParamsDecl.fields;
    PublishUriKey();
    PublishVersionKey();
    PublishDiagnosticsKey();
    DistinctThree(fields, "uri", "version", "diagnostics", "uri", "version", "diagnostics");
  }

  /** The diagnostics are written under "diagnostics", each as its own `to_dict()`, in order. */
  lemma DiagnosticsOut(schema: Schema, uri: string, version: Value, diagnostics: seq<Value>)
    requires forall i :: 0 <= i < |diagnostics| ==> diagnostics[i].VObj? && diagnostics[i].cls == "Diagnostic"
    requires forall i :: 0 <= i < |diagnostics| ==> ToDict(schema, diagnostics[i]).Ok?
    ensures var s := Serialize(schema, TList(TStruct("Diagnostic")), VList(diagnostics));
            s.Ok? && s.value != VNone &&
            FieldOut(schema, PublishDiagnosticsOf(uri, version, diagnostics), PublishDiagnosticsParamsDecl.fields[2]) == s
  {
    var fields := PublishDiagnosticsParamsDecl.fields;
    PublishDiagnosticsKeys();
    StructListSerialize(schema, "Diagnostic", diagnostics);
    ArgOut(schema, "PublishDiagnosticsParams", fields, [VStr(uri), version, VList(diagnostics)], 2);
  }

  /** Without a version, only uri and diagnostics are written. */
  lemma PublishDiagnosticsToDict(schema: Schema, uri: string, diagnostics: seq<Value>)
    requires Declares(schema, "PublishDiagnosticsParams", PublishDiagnosticsParamsDecl)
    requires forall i :: 0 <= i < |diagnostics| ==> diagnostics[i].VObj? && diagnostics[i].cls == "Diagnostic"
    requires forall i :: 0 <= i < |diagnostics| ==> ToDict(schema, diagnostics[i]).Ok?
    ensures var s := Serialize(schema, TList(TStruct("Diagnostic")), VList(diagnostics));
            s.Ok? &&
            ToDict(schema, PublishDiagnosticsOf(uri, VNone, diagnostics)) ==
            Ok(VDict(map["uri" := VStr(uri), "diagnostics" := s.value]))
  {
    var fields := PublishDiagnosticsParamsDecl.fields;
    var vals := [VStr(uri), VNone, VList(diagnostics)];
    var obj := PublishDiagnosticsOf(uri, VNone, diagnostics);
    PublishDiagnosticsKeys();
    ArgsOfValues(fields, vals, 3);
    ArgPlainOut(schema, "PublishDiagnosticsParams", fields, vals, 0);
    NoneArgOmitted(schema, obj, fields[1]);
    DiagnosticsOut(schema, uri, VNone, diagnostics);
    ToDictPair(schema, obj, 0, 2, VStr(uri), Serialize(schema, fields[2].ty, VList(diagnostics)).value);
  }

  /** With a version, it is written between uri and diagnostics. */
  lemma PublishDiagnosticsVersionToDict(schema: Schema, uri: string, version: int, diagnostics: seq<Value>)
    requires Declares(schema, "PublishDiagnosticsParams", PublishDiagnosticsParamsDecl)
    requires forall i :: 0 <= i < |diagnostics| ==> diagnostics[i].VObj? && diagnostics[i].cls == "Diagnostic"
    requires forall i :: 0 <= i < |diagnostics| ==> ToDict(schema, diagnostics[i]).Ok?
    ensures var s := Serialize(schema, TList(TStruct("Diagnostic")), VList(diagnostics));
            s.Ok? &&
            ToDict(schema, PublishDiagnosticsOf(uri, VInt(version), diagnostics)) ==
            Ok(VDict(map["uri" := VStr(uri), "version" := VInt(version), "diagnostics" := s.value]))
  {
    var obj := PublishDiagnosticsOf(uri, VInt(version), diagnostics);
    PublishDiagnosticsKeys();
    UriVersionOut(schema, uri, version, diagnostics);
    DiagnosticsOut(schema, uri, VInt(version), diagnostics);
    var s := Serialize(schema, TList(TStruct("Diagnostic")), VList(diagnostics)).value;
    ToDictThreeOut(schema, obj, PublishDiagnosticsParamsDecl.fields, "uri", "version", "diagnostics", VStr(uri), VInt(version), s);
  }

  /** The uri is written as itself and a given version as its integer. */
  lemma UriVersionOut(schema: Schema, uri: string, version: int, diagnostics: seq<Value>)
    ensures var obj := PublishDiagnosticsOf(uri, VInt(version), diagnostics);
            var fields := PublishDiagnosticsParamsDecl.fields;
            FieldOut(schema, obj, fields[0]) == Ok(VStr(uri)) && FieldOut(schema, obj, fields[1]) == Ok(VInt(version))
  {
    var fields := PublishDiagnosticsParamsDecl.fields;
    var vals := [VStr(uri), VInt(version), VList(diagnostics)];
    PublishDiagnosticsKeys();
    ArgPlainOut(schema, "PublishDiagnosticsParams", fields, vals, 0);
    ArgOptPlainOut(schema, "PublishDiagnosticsParams", fields, vals, 1);
  }

  // ---------------------------------------------------------------------------
  // Parameters of the position requests.

  /** DeclarationParams, DefinitionParams, TypeDefinitionParams, ImplementationParams and their siblings. */
  predicate PositionParams(schema: Schema, cls: string)
  {
    Declares(schema, cls, PositionParamsDecl)
  }

  /** `cls(partial_result_token, work_done_token, text_document, position)`. */
  function PositionParamsOf(cls: string, partialResultToken: Value, workDoneToken: Value, textDocument: Value, position: Value): Value
  {
    Instance(cls, PositionParamsFields, [partialResultToken, workDoneToken, textDocument, position])
  }

  lemma TextDocumentKeyName()
    ensures PositionParamsFields[2].name == "text" + "_" + "document"
  {
  }

  lemma TextDocumentKeyWords()
    ensures "textDocument" == "text" + [ToUpper("document"[0])] + "document"[1..]
    ensures NoUnderscore("text") && IsLowerWord("document")
  {
  }

  lemma TextDocumentKey()
    ensures KeyOf(PositionParamsFields[2]) == "textDocument"
  {
    TextDocumentKeyName();
    TextDocumentKeyWords();
    KeyTwo(PositionParamsFields[2], "text", "document", "textDocument");
  }

  lemma PositionKey()
    ensures KeyOf(PositionParamsFields[3]) == "position"
  {
    KeyIsName(PositionParamsFields[3]);
  }

  lemma PositionParamsNames()
    ensures DistinctNames(PositionParamsFields)
  {
  }

  /** Without progress tokens, only the text document and the position are written, each as its own dict. */
  lemma PositionParamsToDict(schema: Schema, cls: string, textDocument: Value, position: Value)
    requires PositionParams(schema, cls)
    requires textDocument.VObj? && textDocument.cls == "TextDocumentIdentifier" && ToDict(schema, textDocument).Ok?
    requires position.VObj? && position.cls == "Position" && ToDict(schema, position).Ok?
    ensures ToDict(schema, PositionParamsOf(cls, VNone, VNone, textDocument, position)) ==
            Ok(VDict(map["textDocument" := ToDict(schema, textDocument).value, "position" := ToDict(schema, position).value]))
  {
    var fields := PositionParamsFields;
    var vals := [VNone, VNone, textDocument, position];
    var obj := PositionParamsOf(cls, VNone, VNone, textDocument, position);
    PositionParamsNames();
    ArgsOfValues(fields, vals, 4);
    NoneArgOmitted(schema, obj, fields[0]);
    NoneArgOmitted(schema, obj, fields[1]);
    ArgNestedOut(schema, cls, fields, vals, 2);
    ArgNestedOut(schema, cls, fields, vals, 3);
    TextDocumentKey();
    PositionKey();
    ToDictPair(schema, obj, 2, 3, ToDict(schema, textDocument).value, ToDict(schema, position).value);
  }

  /** The fields of a position request, in the order of its MRO: the two progress tokens, then the document and position. */
  lemma PositionParamsShape(fields: seq<Field>)
    requires fields == PositionParamsFields
    ensures |fields| == 4
    ensures fields[0] == PartialResultTokenField && fields[1] == WorkDoneTokenField
    ensures fields[2] == Defaulted("text_document", TStruct("TextDocumentIdentifier"), FactoryClass("TextDocumentIdentifier"))
    ensures fields[3] == Defaulted("position", TStruct("Position"), FactoryClass("Position"))
  {
  }

  /** A position request without a textDocument fails: `TextDocumentIdentifier()` lacks its uri. */
  lemma PositionParamsWithoutTextDocument(schema: Schema, cls: string, d: map<string, Value>)
    requires PositionParams(schema, cls) && Declares(schema, "TextDocumentIdentifier", TextDocumentIdentifierDecl)
    requires "textDocument" !in d
    ensures InitArg(schema, VDict(d), PositionParamsFields[2]) == Err(TypeError)
    ensures FromDict(schema, cls, VDict(d)).Err?
  {
    var fields := Fields(schema, cls);
    PositionParamsShape(fields);
    TextDocumentKey();
    NewInstanceMissingArgument(schema, {}, "TextDocumentIdentifier", 0);
    assert DefaultValue(schema, fields[2]) == Err(TypeError);
    FromDictFails(schema, cls, VDict(d), 2);
  }

  /** A position request without a position fails: `Position()` lacks its line and character. */
  lemma PositionParamsWithoutPosition(schema: Schema, cls: string, d: map<string, Value>)
    requires PositionParams(schema, cls) && Declares(schema, "Position", PositionDecl)
    requires "position" !in d
    ensures InitArg(schema, VDict(d), PositionParamsFields[3]) == Err(TypeError)
    ensures FromDict(schema, cls, VDict(d)).Err?
  {
    var fields := Fields(schema, cls);
    PositionParamsShape(fields);
    PositionKey();
    NewInstanceMissingArgument(schema, {}, "Position", 0);
    assert DefaultValue(schema, fields[3]) == Err(TypeError);
    FromDictFails(schema, cls, VDict(d), 3);
  }

  // ---------------------------------------------------------------------------
  // DidChangeTextDocumentParams.

  lemma ContentChangesKeyName(f: Field)
    requires f == Required("content_changes", f.ty)
    ensures f.name == "content" + "_" + "changes" && "name" !in f.meta
  {
  }

  lemma ContentChangesKeyWords()
    ensures "contentChanges" == "content" + [ToUpper("changes"[0])] + "changes"[1..]
    ensures NoUnderscore("content") && IsLowerWord("changes")
  {
  }

  lemma ContentChangesKey(f: Field)
    requires f == Required("content_changes", f.ty)
    ensures KeyOf(f) == "contentChanges"
  {
    ContentChangesKeyName(f);
    ContentChangesKeyWords();
    KeyTwo(f, "content", "changes", "contentChanges");
  }

  /**
   * As annotated, `content_changes` is one TextDocumentContentChangeEvent, so
   * the array of events a client sends is rejected and the notification
   * cannot be parsed.
   */
  lemma ContentChangesRejectedAsWritten(schema: Schema, d: map<string, Value>)
    requires Declares(schema, "DidChangeTextDocumentParams", DidChangeTextDocumentParamsAsWrittenDecl)
    requires "contentChanges" in d && d["contentChanges"].VList?
    ensures InitArg(schema, VDict(d), DidChangeTextDocumentParamsAsWrittenDecl.fields[1]) == Err(ValueError)
    ensures FromDict(schema, "DidChangeTextDocumentParams", VDict(d)).Err?
  {
    var fields := Fields(schema, "DidChangeTextDocumentParams");
    ContentChangesKey(fields[1]);
    SingleEventRejectsList(schema, fields[1], d["contentChanges"], d);
    FromDictFails(schema, "DidChangeTextDocumentParams", VDict(d), 1);
  }

  lemma SingleEventRejectsList(schema: Schema, f: Field, changes: Value, d: map<string, Value>)
    requires f.ty == TStruct("TextDocumentContentChangeEvent") && f.meta == map[]
    requires KeyOf(f) in d && d[KeyOf(f)] == changes && changes.VList?
    ensures InitArg(schema, VDict(d), f) == Err(ValueError)
  {
    SingleDeserialize(schema, f.ty, changes);
    assert DeserializeAlt(schema, f.ty, changes).NoMatch?;
  }

  /** `TextDocumentContentChangeEvent(text=text)`: a full-content change, without range. */
  function ChangeEventOf(text: string): Value
  {
    Instance("TextDocumentContentChangeEvent", TextDocumentContentChangeEventDecl.fields, [VStr(text), VNone, VNone])
  }

  /** The JSON of full-content changes, one `{"text": ...}` per text. */
  function ChangeDicts(texts: seq<string>): Value
  {
    VList(seq(|texts|, i requires 0 <= i < |texts| => VDict(map["text" := VStr(texts[i])])))
  }

  function ChangeEvents(texts: seq<string>): Value
  {
    VList(seq(|texts|, i requires 0 <= i < |texts| => ChangeEventOf(texts[i])))
  }

  lemma RangeLengthKeyName()
    ensures TextDocumentContentChangeEventDecl.fields[2].name == "range" + "_" + "length"
  {
  }

  lemma RangeLengthKeyWords()
    ensures "rangeLength" == "range" + [ToUpper("length"[0])] + "length"[1..]
    ensures NoUnderscore("range") && IsLowerWord("length")
  {
  }

  lemma ChangeEventKeys()
    ensures var fields := TextDocumentContentChangeEventDecl.fields;
            KeyOf(fields[0]) == "text" && KeyOf(fields[1]) == "range" && KeyOf(fields[2]) == "rangeLength"
  {
    KeyIsName(TextDocumentContentChangeEventDecl.fields[0]);
    KeyIsName(TextDocumentContentChangeEventDecl.fields[1]);
    RangeLengthKeyName();
    RangeLengthKeyWords();
    KeyTwo(TextDocumentContentChangeEventDecl.fields[2], "range", "length", "rangeLength");
  }

  lemma ChangeEventArgs(schema: Schema, fields: seq<Field>, d: map<string, Value>, text: string)
    requires fields == TextDocumentContentChangeEventDecl.fields && d == map["text" := VStr(text)]
    ensures |fields| == 3
    ensures InitArg(schema, VDict(d), fields[0]) == Ok(VStr(text))
    ensures InitArg(schema, VDict(d), fields[1]) == Ok(VNone) && InitArg(schema, VDict(d), fields[2]) == Ok(VNone)
  {
    ChangeEventKeys();
    SingleDeserialize(schema, TStr, VStr(text));
    InitArgPresent(schema, d, fields[0], VStr(text));
    InitArgAbsent(schema, d, fields[1], VNone);
    InitArgAbsent(schema, d, fields[2], VNone);
  }

  /** `TextDocumentContentChangeEvent.from_dict({"text": text})`: a change event without range. */
  lemma ChangeEventFromDict(schema: Schema, d: map<string, Value>, text: string)
    requires Declares(schema, "TextDocumentContentChangeEvent", TextDocumentContentChangeEventDecl)
    requires d == map["text" := VStr(text)]
    ensures FromDict(schema, "TextDocumentContentChangeEvent", VDict(d)) == Ok(ChangeEventOf(text))
  {
    var fields := TextDocumentContentChangeEventDecl.fields;
    ChangeEventArgs(schema, fields, d, text);
    FromDictThree(schema, "TextDocumentContentChangeEvent", VDict(d), fields, VStr(text), VNone, VNone);
  }

  /** `{"text": text}` parses to a change event without range. */
  lemma ChangeEventParsed(schema: Schema, text: string)
    requires Declares(schema, "TextDocumentContentChangeEvent", TextDocumentContentChangeEventDecl)
    ensures Deserialize(schema, TStruct("TextDocumentContentChangeEvent"), VDict(map["text" := VStr(text)])) == Ok(ChangeEventOf(text))
  {
    var d := map["text" := VStr(text)];
    ChangeEventFromDict(schema, d, text);
    SingleDeserialize(schema, TStruct("TextDocumentContentChangeEvent"), VDict(d));
  }

  /** With `List[TextDocumentContentChangeEvent]`, the array of changes is parsed event by event, in order. */
  lemma ContentChangesParsed(schema: Schema, d: map<string, Value>, texts: seq<string>)
    requires Declares(schema, "DidChangeTextDocumentParams", DidChangeTextDocumentParamsDecl)
    requires Declares(schema, "TextDocumentContentChangeEvent", TextDocumentContentChangeEventDecl)
    requires "contentChanges" in d && d["contentChanges"] == ChangeDicts(texts)
    ensures InitArg(schema, VDict(d), DidChangeTextDocumentParamsDecl.fields[1]) == Ok(ChangeEvents(texts))
  {
    var f := DidChangeTextDocumentParamsDecl.fields[1];
    var w := ChangeDicts(texts);
    var events := ChangeEvents(texts).items;
    forall j | 0 <= j < |events| ensures Deserialize(schema, f.ty.elem, w.items[j]) == Ok(events[j]) {
      ChangeEventParsed(schema, texts[j]);
    }
    ListDeserializes(schema, f.ty, w, events);
    ContentChangesKey(f);
    InitArgPresent(schema, d, f, ChangeEvents(texts));
  }
}
