/**
 * The request and notification parameters of the protocol
 * (lsp/types/params.py), as schema entries for the codec. Classes built from
 * several bases list their fields in dataclass order: the fields of the last
 * base first, those of the first base last, and the class's own fields after.
 */
module LspParams {
  import opened Values
  import opened Codec
  import opened CodecRoundTrip
  import opened LspBasic

  /** `Union[str, int, None]`, the type of progress tokens. */
  const TokenTy := TUnion([TStr, TInt, TNone])

  const PartialResultTokenField := Defaulted("partial_result_token", TokenTy, Const(VNone))
  const WorkDoneTokenField := Defaulted("work_done_token", TokenTy, Const(VNone))

  const PartialResultParamsDecl := ClassDecl([PartialResultTokenField], {})
  const WorkDoneProgressParamsDecl := ClassDecl([WorkDoneTokenField], {})

  const InitializeParamsDecl := ClassDecl(
    [ WorkDoneTokenField,
      OptNone("process_id", TInt),
      OptNone("client_info", TStruct("ClientServerInfo")),
      OptNone("locale", TStr),
      OptNone("root_path", TStr),
      OptNone("root_uri", TStr),
      Defaulted("initialization_options", TAny, Const(VNone)),
      Defaulted("capabilities", TStruct("ClientCapabilities"), FactoryClass("ClientCapabilities")),
      OptNone("trace", TraceValue),
      Defaulted("workspace_folders", TList(TStruct("WorkspaceFolder")), FactoryList) ],
    {"WorkDoneProgressParams"})

  const InitializeResultDecl := ClassDecl(
    [ Defaulted("capabilities", TStruct("ServerCapabilities"), FactoryClass("ServerCapabilities")),
      OptNone("server_info", TStruct("ClientServerInfo")) ], {})

  const SetTraceParamsDecl := ClassDecl([Defaulted("value", TraceValue, Const(StrMember(TraceValue, "off")))], {})

  /** `MessageType.LOG`. */
  const LogType := IntMember(MessageType, 4)

  /** ShowMessageParams and LogMessageParams: the same two fields. */
  const MessageParamsDecl := ClassDecl(
    [Defaulted("type", MessageType, Const(LogType)), Defaulted("message", TStr, Const(VStr("")))], {})

  const ShowDocumentParamsDecl := ClassDecl(
    [ Defaulted("uri", TStr, Const(VStr(""))),
      OptNone("external", TBool),
      OptNone("take_focus", TBool),
      OptNone("selection", TStruct("Range")) ], {})

  const ShowDocumentResultDecl := ClassDecl([Defaulted("success", TBool, Const(VBool(false)))], {})

  const WorkspaceFoldersChangeEventDecl := ClassDecl(
    [ Defaulted("added", TList(TStruct("WorkspaceFolder")), FactoryList),
      Defaulted("removed", TList(TStruct("WorkspaceFolder")), FactoryList) ], {})

  const DidChangeWorkspaceFoldersParamsDecl := ClassDecl(
    [Defaulted("event", TStruct("WorkspaceFoldersChangeEvent"), FactoryClass("WorkspaceFoldersChangeEvent"))], {})

  const DidOpenTextDocumentParamsDecl := ClassDecl([Required("text_document", TStruct("TextDocumentItem"))], {})

  const TextDocumentContentChangeEventDecl := ClassDecl(
    [Required("text", TStr), OptNone("range", TStruct("Range")), OptNone("range_length", TInt)], {})

  /** `content_changes` as annotated: a single event, although the protocol sends an array of them. */
  const DidChangeTextDocumentParamsAsWrittenDecl := ClassDecl(
    [ Required("text_document", TStruct("VersionedTextDocumentIdentifier")),
      Required("content_changes", TStruct("TextDocumentContentChangeEvent")) ], {})

  /** `content_changes` as the protocol defines it: `List[TextDocumentContentChangeEvent]`. */
  const DidChangeTextDocumentParamsDecl := ClassDecl(
    [ Required("text_document", TStruct("VersionedTextDocumentIdentifier")),
      Required("content_changes", TList(TStruct("TextDocumentContentChangeEvent"))) ], {})

  const TextDocumentSaveReason := TIntEnum("TextDocumentSaveReason", [1, 2, 3])  // MANUAL, AFTER_DELAY, FOCUS_OUT

  const WillSaveTextDocumentParamsDecl := ClassDecl(
    [Required("text_document", TStruct("TextDocumentIdentifier")), Required("reason", TextDocumentSaveReason)], {})

  const DidSaveTextDocumentParamsDecl := ClassDecl(
    [Required("text_document", TStruct("TextDocumentIdentifier")), OptNone("text", TStr)], {})

  const DidCloseTextDocumentParamsDecl := ClassDecl([Required("text_document", TStruct("TextDocumentIdentifier"))], {})

  const PublishDiagnosticsParamsDecl := ClassDecl(
    [ Defaulted("uri", TStr, Const(VStr(""))),
      OptNone("version", TInt),
      Defaulted("diagnostics", TList(TStruct("Diagnostic")), FactoryList) ], {})

  /** Both defaults are factories of classes whose fields have no defaults. */
  const TextDocumentPositionParamsDecl := ClassDecl(
    [ Defaulted("text_document", TStruct("TextDocumentIdentifier"), FactoryClass("TextDocumentIdentifier")),
      Defaulted("position", TStruct("Position"), FactoryClass("Position")) ], {})

  /** The fields of a class deriving from TextDocumentPositionParams, WorkDoneProgressParams and PartialResultParams. */
  const PositionParamsFields := [PartialResultTokenField, WorkDoneTokenField] + TextDocumentPositionParamsDecl.fields

  const PositionParamsBases := {"TextDocumentPositionParams", "WorkDoneProgressParams", "PartialResultParams"}

  /** DeclarationParams, DefinitionParams, TypeDefinitionParams, ImplementationParams, DocumentHighlightParams, MonikerParams. */
  const PositionParamsDecl := ClassDecl(PositionParamsFields, PositionParamsBases)

  const ReferenceContextDecl := ClassDecl([Defaulted("include_declaration", TBool, Const(VBool(false)))], {})

  const ReferenceParamsDecl := ClassDecl(
    PositionParamsFields + [Defaulted("context", TStruct("ReferenceContext"), FactoryClass("ReferenceContext"))],
    PositionParamsBases)
}
