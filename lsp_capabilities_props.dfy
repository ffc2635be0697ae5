/**
 * What the capability schemas of lsp/types/capabilities.py promise through
 * the generic codec: the default sub-objects, the dict a default
 * ServerCapabilities is written as, and the values a provider or a
 * change-notification field accepts.
 */
module LspCapabilitiesProps {
  import opened Values
  import opened Naming
  import opened Codec
  import opened CodecLaws
  import opened CodecRoundTrip
  import opened CodecDefaults
  import opened LspBasic
  import opened LspBasicLaws
  import opened LspCapabilities

  // ---------------------------------------------------------------------------
  // Server capabilities.

  /** `WorkspaceServerCapabilities()`: workspace_folders is a fresh WorkspaceFoldersServerCapabilities of Nones. */
  const DefaultWorkspaceServerCapabilities :=
    Instance("WorkspaceServerCapabilities", WorkspaceServerCapabilitiesDecl.fields,
             [NoneInstance("WorkspaceFoldersServerCapabilities", WorkspaceFoldersServerCapabilitiesDecl.fields)])

  /** `ServerCapabilities()`: no provider, and the default workspace capabilities. */
  const DefaultServerCapabilities :=
    Instance("ServerCapabilities", ServerCapabilitiesDecl.fields, NoneVals(6) + [DefaultWorkspaceServerCapabilities])

  /** The schema declares the server capability classes as capabilities.py does. */
  predicate ServerSchema(schema: Schema)
  {
    Declares(schema, "ServerCapabilities", ServerCapabilitiesDecl) &&
    Declares(schema, "WorkspaceServerCapabilities", WorkspaceServerCapabilitiesDecl) &&
    Declares(schema, "WorkspaceFoldersServerCapabilities", WorkspaceFoldersServerCapabilitiesDecl)
  }

  lemma WorkspaceFoldersNoneFields()
    ensures forall j :: 0 <= j < |WorkspaceFoldersServerCapabilitiesDecl.fields| ==>
              NoneField(WorkspaceFoldersServerCapabilitiesDecl.fields[j])
  {
  }

  lemma WorkspaceServerDefault(schema: Schema, visited: set<string>)
    requires ServerSchema(schema) && "WorkspaceServerCapabilities" !in visited && "WorkspaceFoldersServerCapabilities" !in visited
    ensures NewInstance(schema, visited, "WorkspaceServerCapabilities") == Ok(DefaultWorkspaceServerCapabilities)
  {
    var cls := "WorkspaceServerCapabilities";
    WorkspaceFoldersNoneFields();
    NewNoneInstance(schema, visited + {cls}, "WorkspaceFoldersServerCapabilities");
    NewInstanceIs(schema, visited, cls, [NoneInstance("WorkspaceFoldersServerCapabilities", WorkspaceFoldersServerCapabilitiesDecl.fields)]);
  }

  /** `ServerCapabilities()` builds the default workspace capabilities through two nested factories. */
  lemma ServerCapabilitiesDefault(schema: Schema)
    requires ServerSchema(schema)
    ensures NewInstance(schema, {}, "ServerCapabilities") == Ok(DefaultServerCapabilities)
  {
    var fields := ServerCapabilitiesDecl.fields;
    var vals := NoneVals(6) + [DefaultWorkspaceServerCapabilities];
    WorkspaceServerDefault(schema, {"ServerCapabilities"});
    forall j | 0 <= j < |vals| ensures FactoryDefault(schema, {} + {"ServerCapabilities"}, fields[j]) == Ok(vals[j]) {
      assert {} + {"ServerCapabilities"} == {"ServerCapabilities"};
    }
    NewInstanceIs(schema, {}, "ServerCapabilities", vals);
  }

  lemma WorkspaceFoldersKeyName()
    ensures WorkspaceServerCapabilitiesDecl.fields[0].name == "workspace" + "_" + "folders"
  {
  }

  lemma WorkspaceFoldersKeyWords()
    ensures "workspaceFolders" == "workspace" + [ToUpper("folders"[0])] + "folders"[1..]
    ensures NoUnderscore("workspace") && IsLowerWord("folders")
  {
  }

  lemma WorkspaceFoldersKey()
    ensures KeyOf(WorkspaceServerCapabilitiesDecl.fields[0]) == "workspaceFolders"
  {
    WorkspaceFoldersKeyName();
    WorkspaceFoldersKeyWords();
    KeyTwo(WorkspaceServerCapabilitiesDecl.fields[0], "workspace", "folders", "workspaceFolders");
  }

  lemma WorkspaceKey()
    ensures KeyOf(ServerCapabilitiesDecl.fields[6]) == "workspace"
  {
    KeyIsName(ServerCapabilitiesDecl.fields[6]);
  }

  /** `WorkspaceServerCapabilities().to_dict() == {'workspaceFolders': {}}`. */
  lemma WorkspaceServerDefaultToDict(schema: Schema)
    requires ServerSchema(schema)
    ensures ToDict(schema, DefaultWorkspaceServerCapabilities) == Ok(VDict(map["workspaceFolders" := VDict(map[])]))
  {
    var fields := WorkspaceServerCapabilitiesDecl.fields;
    var inner := NoneInstance("WorkspaceFoldersServerCapabilities", WorkspaceFoldersServerCapabilitiesDecl.fields);
    WorkspaceFoldersNoneFields();
    NoneInstanceToDict(schema, "WorkspaceFoldersServerCapabilities");
    ArgOut(schema, "WorkspaceServerCapabilities", fields, [inner], 0);
    OptStructOut(schema, "WorkspaceFoldersServerCapabilities", inner);
    WorkspaceFoldersKey();
    ToDictOnly(schema, DefaultWorkspaceServerCapabilities, 0, VDict(map[]));
  }

  lemma ServerCapabilitiesNames()
    ensures DistinctNames(ServerCapabilitiesDecl.fields)
  {
  }

  /**
   * `ServerCapabilities().to_dict() == {'workspace': {'workspaceFolders': {}}}`:
   * the providers are None and dropped, the nested factories are written.
   */
  lemma ServerCapabilitiesDefaultToDict(schema: Schema)
    requires ServerSchema(schema)
    ensures ToDict(schema, DefaultServerCapabilities) ==
            Ok(VDict(map["workspace" := VDict(map["workspaceFolders" := VDict(map[])])]))
  {
    ServerCapabilitiesProvidersOmitted(schema);
    ServerCapabilitiesWorkspaceOut(schema);
    WorkspaceKey();
    ToDictOnly(schema, DefaultServerCapabilities, 6, VDict(map["workspaceFolders" := VDict(map[])]));
  }

  /** The six providers of `ServerCapabilities()` are None and are dropped. */
  lemma ServerCapabilitiesProvidersOmitted(schema: Schema)
    ensures forall i :: 0 <= i < 6 ==> Omitted(schema, DefaultServerCapabilities, ServerCapabilitiesDecl.fields[i])
  {
    var fields := ServerCapabilitiesDecl.fields;
    var vals := NoneVals(6) + [DefaultWorkspaceServerCapabilities];
    ServerProvidersNone();
    forall i | 0 <= i < 6 ensures Omitted(schema, DefaultServerCapabilities, fields[i]) {
      ArgsOfLookup(fields, vals, |fields|, i);
      NoneArgOmitted(schema, DefaultServerCapabilities, fields[i]);
    }
  }

  /** A provider defaults to None, and None is one of its candidates. */
  lemma ProviderNoneField(name: string, options: string)
    ensures NoneField(Provider(name, options))
  {
    ProviderCandidates(name, options);
  }

  lemma ServerProvidersNone()
    ensures forall i :: 0 <= i < 6 ==> NoneField(ServerCapabilitiesDecl.fields[i])
  {
    ProviderNoneField("declaration_provider", "DeclarationOptions");
    ProviderNoneField("definition_provider", "DefinitionOptions");
    ProviderNoneField("type_definition_provider", "TypeDefinitionOptions");
    ProviderNoneField("implementation_provider", "ImplementationOptions");
    ProviderNoneField("references_provider", "ReferenceOptions");
    ProviderNoneField("document_highlight_provider", "DocumentHighlightOptions");
  }

  /** The workspace field of `ServerCapabilities()` is written as its default's dict. */
  lemma ServerCapabilitiesWorkspaceOut(schema: Schema)
    requires ServerSchema(schema)
    ensures FieldOut(schema, DefaultServerCapabilities, ServerCapabilitiesDecl.fields[6]) ==
            Ok(VDict(map["workspaceFolders" := VDict(map[])]))
  {
    var fields := ServerCapabilitiesDecl.fields;
    var vals := NoneVals(6) + [DefaultWorkspaceServerCapabilities];
    ServerCapabilitiesNames();
    ArgOut(schema, "ServerCapabilities", fields, vals, 6);
    OptStructOut(schema, "WorkspaceServerCapabilities", DefaultWorkspaceServerCapabilities);
    WorkspaceServerDefaultToDict(schema);
  }

  /** A provider given a bool is written as that bool and read back from it. */
  lemma ProviderBool(schema: Schema, name: string, options: string, b: bool)
    ensures Serialize(schema, Provider(name, options).ty, VBool(b)) == Ok(VBool(b))
    ensures Deserialize(schema, Provider(name, options).ty, VBool(b)) == Ok(VBool(b))
  {
    var ty := Provider(name, options).ty;
    ProviderCandidates(name, options);
    assert SerializeAlt(schema, TBool, VBool(b)) == Done(Ok(VBool(b)));
    assert SerializeAlts(schema, [TBool, TStruct(options)], VBool(b)) == Ok(VBool(b));
    assert DeserializeAlt(schema, TBool, VBool(b)) == Done(Ok(VBool(b)));
    assert DeserializeAlts(schema, [TBool, TStruct(options)], VBool(b)) == Ok(VBool(b));
  }

  /** The candidates tried for a provider value that is not None: bool, then the options class. */
  lemma ProviderCandidates(name: string, options: string)
    ensures var ty := Provider(name, options).ty;
            Alternatives(ty) == ty.alts && RemoveFirst(ty.alts, TNone) == [TBool, TStruct(options)]
  {
    assert Provider(name, options).ty.alts == [TBool, TStruct(options)] + [TNone];
    RemoveTrailingNone([TBool, TStruct(options)]);
  }

  /** A provider given an options instance is written as that instance's dict. */
  lemma ProviderOptionsWritten(schema: Schema, name: string, options: string, o: Value)
    requires o.VObj? && o.cls == options
    ensures Serialize(schema, Provider(name, options).ty, o) == ToDict(schema, o)
  {
    ProviderCandidates(name, options);
    assert SerializeAlt(schema, TBool, o).NoMatch?;
    assert SerializeAlt(schema, TStruct(options), o) == Done(ToDict(schema, o));
    assert SerializeAlts(schema, [TStruct(options)], o) == ToDict(schema, o);
  }

  /** A provider given a dict is parsed as its options class, bool being tried first and skipped. */
  lemma ProviderOptionsParsed(schema: Schema, name: string, options: string, d: map<string, Value>)
    requires FromDict(schema, options, VDict(d)).Ok?
    ensures Deserialize(schema, Provider(name, options).ty, VDict(d)) == FromDict(schema, options, VDict(d))
  {
    ProviderCandidates(name, options);
    assert DeserializeAlt(schema, TBool, VDict(d)).NoMatch?;
    assert DeserializeAlt(schema, TStruct(options), VDict(d)) == Done(FromDict(schema, options, VDict(d)));
    assert DeserializeAlts(schema, [TStruct(options)], VDict(d)) == FromDict(schema, options, VDict(d));
  }

  /** `DeclarationOptions.from_dict({})` and its siblings: work_done_progress None. */
  lemma ProviderOptionsFromEmpty(schema: Schema, options: string)
    requires Declares(schema, options, ProviderOptionsDecl)
    ensures FromDict(schema, options, VDict(map[])) == Ok(VObj(options, map["work_done_progress" := VNone]))
  {
    FromEmptyNoneInstance(schema, options);
    assert ArgsOf(ProviderOptionsDecl.fields, NoneVals(1), 0) == map[];
  }

  /** `change_notifications: Union[str, bool, None]` holds a registration id, a flag or nothing, and nothing else. */
  lemma ChangeNotificationsValues(schema: Schema, v: Value)
    ensures var ty := WorkspaceFoldersServerCapabilitiesDecl.fields[1].ty;
            var ok := v.VStr? || v.VBool? || v == VNone;
            Serialize(schema, ty, v) == (if ok then Ok(v) else Err(ValueError)) &&
            Deserialize(schema, ty, v) == (if ok then Ok(v) else Err(ValueError))
  {
    var ty := WorkspaceFoldersServerCapabilitiesDecl.fields[1].ty;
    assert ty.alts == [TStr, TBool] + [TNone];
    RemoveTrailingNone([TStr, TBool]);
    if v != VNone {
      StrThenBool(schema, v);
    }
  }

  /** The candidates str, then bool: a str or a bool is kept as it is, anything else raises. */
  lemma StrThenBool(schema: Schema, v: Value)
    requires v != VNone
    ensures var ok := v.VStr? || v.VBool?;
            SerializeAlts(schema, [TStr, TBool], v) == (if ok then Ok(v) else Err(ValueError)) &&
            DeserializeAlts(schema, [TStr, TBool], v) == (if ok then Ok(v) else Err(ValueError))
  {
    assert [TStr, TBool][1..] == [TBool] && [TBool][1..] == [];
    if v.VStr? {
      assert SerializeAlt(schema, TStr, v) == Done(Ok(v)) && DeserializeAlt(schema, TStr, v) == Done(Ok(v));
    } else {
      SerNoMatch(schema, TStr, v);
      DesNoMatch(schema, TStr, v);
      assert SerializeAlts(schema, [TStr, TBool], v) == SerializeAlts(schema, [TBool], v);
      assert DeserializeAlts(schema, [TStr, TBool], v) == DeserializeAlts(schema, [TBool], v);
      if v.VBool? {
        assert SerializeAlt(schema, TBool, v) == Done(Ok(v)) && DeserializeAlt(schema, TBool, v) == Done(Ok(v));
      } else {
        SerNoMatch(schema, TBool, v);
        DesNoMatch(schema, TBool, v);
        assert SerializeAlts(schema, [TBool], v) == SerializeAlts(schema, [], v);
        assert DeserializeAlts(schema, [TBool], v) == DeserializeAlts(schema, [], v);
      }
    }
  }

  // ---------------------------------------------------------------------------
  // Client capabilities.

  /** The schema declares the client capability classes as capabilities.py does. */
  predicate ClientSchema(schema: Schema)
  {
    Declares(schema, "ClientCapabilities", ClientCapabilitiesDecl) &&
    Declares(schema, "WorkspaceClientCapabilities", WorkspaceClientCapabilitiesDecl) &&
    Declares(schema, "WindowClientCapabilities", WindowClientCapabilitiesDecl) &&
    Declares(schema, "TextDocumentClientCapabilities", TextDocumentClientCapabilitiesDecl)
  }

  /** The workspace, window and text document sections of a default ClientCapabilities, each of Nones. */
  const ClientSectionVals :=
    [ NoneInstance("WorkspaceClientCapabilities", WorkspaceClientCapabilitiesDecl.fields),
      NoneInstance("WindowClientCapabilities", WindowClientCapabilitiesDecl.fields),
      NoneInstance("TextDocumentClientCapabilities", TextDocumentClientCapabilitiesDecl.fields) ]

  /** `ClientCapabilities()`. */
  const DefaultClientCapabilities := Instance("ClientCapabilities", ClientCapabilitiesDecl.fields, ClientSectionVals)

  lemma ClientSectionsNoneFields()
    ensures forall j :: 0 <= j < |WorkspaceClientCapabilitiesDecl.fields| ==> NoneField(WorkspaceClientCapabilitiesDecl.fields[j])
    ensures forall j :: 0 <= j < |WindowClientCapabilitiesDecl.fields| ==> NoneField(WindowClientCapabilitiesDecl.fields[j])
    ensures forall j :: 0 <= j < |TextDocumentClientCapabilitiesDecl.fields| ==> NoneField(TextDocumentClientCapabilitiesDecl.fields[j])
  {
  }

  /** The three sections, built with `visited` classes already under construction. */
  lemma ClientSections(schema: Schema, visited: set<string>)
    requires ClientSchema(schema)
    requires "WorkspaceClientCapabilities" !in visited && "WindowClientCapabilities" !in visited
    requires "TextDocumentClientCapabilities" !in visited
    ensures forall j :: 0 <= j < 3 ==> FactoryDefault(schema, visited, ClientCapabilitiesDecl.fields[j]) == Ok(ClientSectionVals[j])
  {
    ClientSectionsNoneFields();
    NewNoneInstance(schema, visited, "WorkspaceClientCapabilities");
    NewNoneInstance(schema, visited, "WindowClientCapabilities");
    NewNoneInstance(schema, visited, "TextDocumentClientCapabilities");
  }

  /** `ClientCapabilities()`, and `ClientCapabilities.from_dict({})`, fill every section with its default. */
  lemma ClientCapabilitiesDefault(schema: Schema)
    requires ClientSchema(schema)
    ensures NewInstance(schema, {}, "ClientCapabilities") == Ok(DefaultClientCapabilities)
    ensures FromDict(schema, "ClientCapabilities", VDict(map[])) == Ok(DefaultClientCapabilities)
  {
    var vals := ClientSectionVals;
    ClientSections(schema, {"ClientCapabilities"});
    ClientSections(schema, {});
    assert {} + {"ClientCapabilities"} == {"ClientCapabilities"};
    NewInstanceIs(schema, {}, "ClientCapabilities", vals);
    FromEmptyDict(schema, "ClientCapabilities", vals);
  }

  /** `ShowDocumentClientCapabilities()`, and `from_dict({})`, have support False. */
  lemma ShowDocumentSupportDefault(schema: Schema)
    requires Declares(schema, "ShowDocumentClientCapabilities", ShowDocumentClientCapabilitiesDecl)
    ensures NewInstance(schema, {}, "ShowDocumentClientCapabilities") ==
            Ok(VObj("ShowDocumentClientCapabilities", map["support" := VBool(false)]))
    ensures FromDict(schema, "ShowDocumentClientCapabilities", VDict(map[])) ==
            Ok(VObj("ShowDocumentClientCapabilities", map["support" := VBool(false)]))
  {
    NewInstanceIs(schema, {}, "ShowDocumentClientCapabilities", [VBool(false)]);
    FromEmptyDict(schema, "ShowDocumentClientCapabilities", [VBool(false)]);
    assert ArgsOf(ShowDocumentClientCapabilitiesDecl.fields, [VBool(false)], 0) == map[];
  }

  lemma ValueSetKeyName()
    ensures PublishDiagnosticsTagSupportClientCapabilitiesDecl.fields[0].name == "value" + "_" + "set"
  {
  }

  lemma ValueSetKeyWords()
    ensures "valueSet" == "value" + [ToUpper("set"[0])] + "set"[1..]
    ensures NoUnderscore("value") && IsLowerWord("set")
  {
  }

  lemma ValueSetKey()
    ensures KeyOf(PublishDiagnosticsTagSupportClientCapabilitiesDecl.fields[0]) == "valueSet"
  {
    ValueSetKeyName();
    ValueSetKeyWords();
    KeyTwo(PublishDiagnosticsTagSupportClientCapabilitiesDecl.fields[0], "value", "set", "valueSet");
  }

  /** The tag support object for the tags `tags`. */
  function TagSupportOf(tags: seq<int>): Value
  {
    VObj("PublishDiagnosticsTagSupportClientCapabilities", map["value_set" := EnumMembers(DiagnosticTag, tags)])
  }

  /** Without a valueSet key, the tag support lists no tag. */
  lemma TagSupportFromEmpty(schema: Schema)
    requires Declares(schema, "PublishDiagnosticsTagSupportClientCapabilities", PublishDiagnosticsTagSupportClientCapabilitiesDecl)
    ensures FromDict(schema, "PublishDiagnosticsTagSupportClientCapabilities", VDict(map[])) == Ok(TagSupportOf([]))
  {
    FromEmptyDict(schema, "PublishDiagnosticsTagSupportClientCapabilities", [VList([])]);
    assert ArgsOf(PublishDiagnosticsTagSupportClientCapabilitiesDecl.fields, [VList([])], 0) == map[];
    assert EnumMembers(DiagnosticTag, []) == VList([]);
  }

  /** A valueSet of known tag integers is parsed into DiagnosticTag members, in order. */
  lemma TagSupportParsed(schema: Schema, tags: seq<int>)
    requires Declares(schema, "PublishDiagnosticsTagSupportClientCapabilities", PublishDiagnosticsTagSupportClientCapabilitiesDecl)
    requires forall i :: 0 <= i < |tags| ==> tags[i] in DiagnosticTag.intValues
    ensures FromDict(schema, "PublishDiagnosticsTagSupportClientCapabilities", VDict(map["valueSet" := IntList(tags)])) ==
            Ok(TagSupportOf(tags))
  {
    var f := PublishDiagnosticsTagSupportClientCapabilitiesDecl.fields[0];
    var members := EnumMembers(DiagnosticTag, tags);
    EnumMembersRT(schema, DiagnosticTag, tags);
    RoundTrip(schema, TList(DiagnosticTag), members);
    IntEnumListSerialize(schema, DiagnosticTag, tags);
    ValueSetKey();
    InitArgPresent(schema, map["valueSet" := IntList(tags)], f, members);
    FromDictInstance(schema, "PublishDiagnosticsTagSupportClientCapabilities", VDict(map["valueSet" := IntList(tags)]), [members]);
    assert ArgsOf(PublishDiagnosticsTagSupportClientCapabilitiesDecl.fields, [members], 0) == map[];
  }
}
