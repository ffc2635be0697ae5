/**
 * Client and server capabilities (lsp/types/capabilities.py) as schema
 * entries for the codec.
 */
module LspCapabilities {
  import opened Values
  import opened Codec
  import opened LspBasic

  const WorkDoneProgressField := OptNone("work_done_progress", TBool)

  const WorkDoneProgressOptionsDecl := ClassDecl([WorkDoneProgressField], {})

  /** DeclarationOptions, DefinitionOptions, ..., DocumentHighlightOptions: WorkDoneProgressOptions and nothing more. */
  const ProviderOptionsDecl := ClassDecl([WorkDoneProgressField], {"WorkDoneProgressOptions"})

  const WorkspaceFoldersServerCapabilitiesDecl := ClassDecl(
    [ OptNone("supported", TBool),
      Defaulted("change_notifications", TUnion([TStr, TBool, TNone]), Const(VNone)) ], {})

  const WorkspaceServerCapabilitiesDecl := ClassDecl(
    [ Defaulted("workspace_folders", Opt(TStruct("WorkspaceFoldersServerCapabilities")),
                FactoryClass("WorkspaceFoldersServerCapabilities")) ], {})

  /** `Union[bool, XOptions, None] = None`: bool is the first candidate. */
  function Provider(name: string, options: string): Field
  {
    Defaulted(name, TUnion([TBool, TStruct(options), TNone]), Const(VNone))
  }

  const ServerCapabilitiesDecl := ClassDecl(
    [ Provider("declaration_provider", "DeclarationOptions"),
      Provider("definition_provider", "DefinitionOptions"),
      Provider("type_definition_provider", "TypeDefinitionOptions"),
      Provider("implementation_provider", "ImplementationOptions"),
      Provider("references_provider", "ReferenceOptions"),
      Provider("document_highlight_provider", "DocumentHighlightOptions"),
      Defaulted("workspace", Opt(TStruct("WorkspaceServerCapabilities")), FactoryClass("WorkspaceServerCapabilities")) ], {})

  const ShowDocumentClientCapabilitiesDecl := ClassDecl([Defaulted("support", TBool, Const(VBool(false)))], {})

  const WindowClientCapabilitiesDecl := ClassDecl(
    [WorkDoneProgressField, OptNone("show_document", TStruct("ShowDocumentClientCapabilities"))], {})

  const PublishDiagnosticsTagSupportClientCapabilitiesDecl := ClassDecl(
    [Defaulted("value_set", TList(DiagnosticTag), FactoryList)], {})

  const PublishDiagnosticsClientCapabilitiesDecl := ClassDecl(
    [ OptNone("related_information", TBool),
      OptNone("tag_support", TStruct("PublishDiagnosticsTagSupportClientCapabilities")),
      OptNone("version_support", TBool),
      OptNone("code_description_support", TBool),
      OptNone("data_support", TBool) ], {})

  /** Declaration-, Definition-, TypeDefinition- and ImplementationClientCapabilities. */
  const LinkClientCapabilitiesDecl := ClassDecl(
    [OptNone("dynamic_registration", TBool), OptNone("link_support", TBool)], {})

  /** Reference- and DocumentHighlightClientCapabilities. */
  const DynamicClientCapabilitiesDecl := ClassDecl([OptNone("dynamic_registration", TBool)], {})

  const TextDocumentClientCapabilitiesDecl := ClassDecl(
    [ OptNone("declaration", TStruct("DeclarationClientCapabilities")),
      OptNone("definition", TStruct("DefinitionClientCapabilities")),
      OptNone("type_definition", TStruct("TypeDefinitionClientCapabilities")),
      OptNone("implementation", TStruct("ImplementationClientCapabilities")),
      OptNone("references", TStruct("ReferenceClientCapabilities")),
      OptNone("publish_diagnostics", TStruct("PublishDiagnosticsClientCapabilities")),
      OptNone("document_highlight", TStruct("DocumentHighlightClientCapabilities")) ], {})

  const ResourceOperationKind := TStrEnum("ResourceOperationKind", ["create", "rename", "delete"])
  const FailureHandlingKind := TStrEnum("FailureHandlingKind", ["abort", "transactional", "textOnlyTransactional", "undo"])

  /** `groups_on_label: Optional[bool]` has no default; an absent key still parses to None. */
  const WorkspaceEditChangeAnnotationSupportClientCapabilitiesDecl := ClassDecl(
    [Required("groups_on_label", Opt(TBool))], {})

  const WorkspaceEditClientCapabilitiesDecl := ClassDecl(
    [ Required("document_changes", Opt(TBool)),
      Required("resource_operations", Opt(TList(ResourceOperationKind))),
      Required("failure_handling", Opt(FailureHandlingKind)),
      Required("normalizes_line_endings", Opt(TBool)),
      Required("change_annotation_support", Opt(TStruct("WorkspaceEditChangeAnnotationSupportClientCapabilities"))) ], {})

  const WorkspaceClientCapabilitiesDecl := ClassDecl(
    [ OptNone("apply_edit", TBool),
      OptNone("workspace_edit", TStruct("WorkspaceEditClientCapabilities")),
      OptNone("workspace_folders", TBool),
      OptNone("configuration", TBool),
      Defaulted("experimental", TAny, Const(VNone)) ], {})

  const ClientCapabilitiesDecl := ClassDecl(
    [ Defaulted("workspace", Opt(TStruct("WorkspaceClientCapabilities")), FactoryClass("WorkspaceClientCapabilities")),
      Defaulted("window", Opt(TStruct("WindowClientCapabilities")), FactoryClass("WindowClientCapabilities")),
      Defaulted("text_document", Opt(TStruct("TextDocumentClientCapabilities")), FactoryClass("TextDocumentClientCapabilities")) ], {})
}
