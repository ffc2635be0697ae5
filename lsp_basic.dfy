/**
 * The basic structures of the protocol (lsp/types/basic_structures.py), written
 * down as schema entries for the codec: each dataclass becomes a `ClassDecl`
 * whose fields keep the source's order, types, defaults and metadata.
 */
module LspBasic {
  import opened Values
  import opened Codec
  import opened CodecLaws
  import opened CodecRoundTrip

  // ---------------------------------------------------------------------------
  // Enums.

  const MessageType := TIntEnum("MessageType", [1, 2, 3, 4])            // ERROR, WARNING, INFO, LOG
  const DiagnosticSeverity := TIntEnum("DiagnosticSeverity", [1, 2, 3, 4])  // ERROR, WARNING, INFORMATION, HINT
  const DiagnosticTag := TIntEnum("DiagnosticTag", [1, 2])              // UNNECESSARY, DEPRECATED
  const MarkupKind := TStrEnum("MarkupKind", ["plaintext", "markdown"])
  const TraceValue := TStrEnum("TraceValue", ["off", "messages", "verbose"])

  /** An IntEnum member, as `SomeEnum(i)` returns it. */
  function IntMember(t: Ty, i: int): Value
    requires t.TIntEnum?
  {
    VEnum(t.name, VInt(i))
  }

  /** A str-valued Enum member. */
  function StrMember(t: Ty, s: string): Value
    requires t.TStrEnum?
  {
    VEnum(t.name, VStr(s))
  }

  // ---------------------------------------------------------------------------
  // Classes.

  const ClientServerInfoDecl := ClassDecl([Required("name", TStr), OptNone("version", TStr)], {})

  const WorkspaceFolderDecl := ClassDecl([Required("uri", TStr), OptNone("name", TStr)], {})

  const PositionDecl := ClassDecl([Required("line", TInt), Required("character", TInt)], {})

  const RangeDecl := ClassDecl([Required("start", TStruct("Position")), Required("end", TStruct("Position"))], {})

  const LocationDecl := ClassDecl([Required("uri", TStr), Required("range", TStruct("Range"))], {})

  const LocationLinkDecl := ClassDecl(
    [ Required("target_uri", TStr),
      Required("target_range", TStruct("Range")),
      Required("target_selection_range", TStruct("Range")),
      OptNone("origin_selection_range", TStruct("Range")) ], {})

  const DiagnosticRelatedInformationDecl :=
    ClassDecl([Required("location", TStruct("Location")), Required("message", TStr)], {})

  const CodeDescriptionDecl := ClassDecl([Required("href", TStr)], {})

  const DiagnosticDecl := ClassDecl(
    [ Required("range", TStruct("Range")),
      Required("message", TStr),
      OptNone("severity", DiagnosticSeverity),
      Defaulted("code", TUnion([TInt, TStr, TNone]), Const(VNone)),
      OptNone("code_description", TStruct("CodeDescription")),
      OptNone("source", TStr),
      OptNone("tags", TList(DiagnosticTag)),
      OptNone("related_information", TList(TStruct("DiagnosticRelatedInformation"))),
      Defaulted("data", TAny, Const(VNone)) ], {})

  const CommandDecl := ClassDecl(
    [Required("title", TStr), Required("command", TStr), OptNone("arguments", TList(TAny))], {})

  const TextEditDecl := ClassDecl([Required("range", TStruct("Range")), Required("new_text", TStr)], {})

  const ChangeAnnotationDecl := ClassDecl(
    [Required("label", TStr), OptNone("needs_confirmation", TBool), OptNone("description", TStr)], {})

  /** `AnnotatedTextEdit(TextEdit)`: the inherited fields come first. */
  const AnnotatedTextEditDecl := ClassDecl(
    [Required("range", TStruct("Range")), Required("new_text", TStr), Required("annotation_id", TStr)],
    {"TextEdit"})

  const TextDocumentIdentifierDecl := ClassDecl([Required("uri", TStr)], {})

  /** `version` is written even when None (`include_none=True`). */
  const VersionField :=
    Field("version", Opt(TInt), Const(VNone), SerializationMetadata(None, Some(true), None))

  const VersionedTextDocumentIdentifierDecl :=
    ClassDecl([Required("uri", TStr), VersionField], {"TextDocumentIdentifier"})

  const OptionalVersionedTextDocumentIdentifierDecl :=
    ClassDecl([Required("uri", TStr), VersionField], {"TextDocumentIdentifier"})

  const TextDocumentEditDecl := ClassDecl(
    [ Required("text_document", TStruct("OptionalVersionedTextDocumentIdentifier")),
      Required("edits", TList(TUnion([TStruct("AnnotatedTextEdit"), TStruct("TextEdit")]))) ], {})

  /** The `kind` of a file operation: always the given constant (`enforce_as_constant=True`). */
  function KindField(kind: string): Field
  {
    Field("kind", TStr, Const(VStr(kind)), SerializationMetadata(None, None, Some(true)))
  }

  const CreateFileOptionsDecl := ClassDecl([Required("overwrite", Opt(TBool)), Required("ignore_if_exists", Opt(TBool))], {})

  const CreateFileDecl := ClassDecl(
    [ Required("uri", TStr),
      Required("options", Opt(TStruct("CreateFileOptions"))),
      Required("annotation_id", Opt(TStr)),
      KindField("create") ], {})

  const RenameFileOptionsDecl := ClassDecl([Required("overwrite", Opt(TBool)), Required("ignore_if_exists", Opt(TBool))], {})

  const RenameFileDecl := ClassDecl(
    [ Required("old_uri", TStr),
      Required("new_uri", TStr),
      Required("options", Opt(TStruct("RenameFileOptions"))),
      Required("annotation_id", Opt(TStr)),
      KindField("rename") ], {})

  const DeleteFileOptionsDecl := ClassDecl([Required("recursive", Opt(TBool)), Required("ignore_if_exists", Opt(TBool))], {})

  const DeleteFileDecl := ClassDecl(
    [ Required("uri", TStr),
      Required("options", Opt(TStruct("DeleteFileOptions"))),
      Required("annotation_id", Opt(TStr)),
      KindField("delete") ], {})

  const WorkspaceEditDecl := ClassDecl(
    [ Required("changes", Opt(TDict(TStr, TList(TStruct("TextEdit"))))),
      Required("document_changes", TUnion([
        TList(TStruct("TextDocumentEdit")),
        TList(TUnion([TStruct("TextDocumentEdit"), TStruct("CreateFile"), TStruct("RenameFile"), TStruct("DeleteFile")]))])),
      Required("change_annotations", TDict(TList(TStr), TStruct("ChangeAnnotation"))) ], {})

  const TextDocumentItemDecl := ClassDecl(
    [Required("uri", TStr), Required("language_id", TStr), Required("version", TInt), Required("text", TStr)], {})

  /** The `TextDocumentPositionParams` of this file; the params module declares another class of the same name. */
  const BasicTextDocumentPositionParamsDecl := ClassDecl(
    [Required("text_document", TStruct("TextDocumentIdentifier")), Required("position", TStruct("Position"))], {})

  const DocumentFilterDecl := ClassDecl(
    [Required("language", Opt(TStr)), Required("scheme", Opt(TStr)), Required("pattern", Opt(TStr))], {})

  const MarkupContentDecl := ClassDecl([Required("kind", MarkupKind), Required("value", TStr)], {})

  // ---------------------------------------------------------------------------
  // Instances, as `SomeClass(field=..., ...)` builds them: the values in field order.

  function PositionOf(line: int, character: int): Value
  {
    Instance("Position", PositionDecl.fields, [VInt(line), VInt(character)])
  }

  function RangeOf(start: Value, end: Value): Value
  {
    Instance("Range", RangeDecl.fields, [start, end])
  }

  function LocationOf(uri: string, range: Value): Value
  {
    Instance("Location", LocationDecl.fields, [VStr(uri), range])
  }

  function LocationLinkOf(targetUri: string, targetRange: Value, targetSelectionRange: Value, originSelectionRange: Value): Value
  {
    Instance("LocationLink", LocationLinkDecl.fields, [VStr(targetUri), targetRange, targetSelectionRange, originSelectionRange])
  }

  function CodeDescriptionOf(href: string): Value
  {
    Instance("CodeDescription", CodeDescriptionDecl.fields, [VStr(href)])
  }

  function DiagnosticRelatedInformationOf(location: Value, message: string): Value
  {
    Instance("DiagnosticRelatedInformation", DiagnosticRelatedInformationDecl.fields, [location, VStr(message)])
  }

  function DiagnosticOf(range: Value, message: string, severity: Value, code: Value, codeDescription: Value, source: Value, tags: Value, relatedInformation: Value, data: Value): Value
  {
    Instance("Diagnostic", DiagnosticDecl.fields, [range, VStr(message), severity, code, codeDescription, source, tags, relatedInformation, data])
  }

  function CommandOf(title: string, command: string, arguments: Value): Value
  {
    Instance("Command", CommandDecl.fields, [VStr(title), VStr(command), arguments])
  }

  function TextEditOf(range: Value, newText: string): Value
  {
    Instance("TextEdit", TextEditDecl.fields, [range, VStr(newText)])
  }

  function AnnotatedTextEditOf(range: Value, newText: string, annotationId: string): Value
  {
    Instance("AnnotatedTextEdit", AnnotatedTextEditDecl.fields, [range, VStr(newText), VStr(annotationId)])
  }

  function ClientServerInfoOf(name: string, version: Value): Value
  {
    Instance("ClientServerInfo", ClientServerInfoDecl.fields, [VStr(name), version])
  }

  function TextDocumentIdentifierOf(uri: string): Value
  {
    Instance("TextDocumentIdentifier", TextDocumentIdentifierDecl.fields, [VStr(uri)])
  }

  /** A `VersionedTextDocumentIdentifier` or `OptionalVersionedTextDocumentIdentifier`: both have the same fields. */
  function VersionedIdentifierOf(cls: string, uri: string, version: Value): Value
  {
    Instance(cls, VersionedTextDocumentIdentifierDecl.fields, [VStr(uri), version])
  }
}
