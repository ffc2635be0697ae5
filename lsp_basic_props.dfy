/**
 * Properties of the basic structures: the dicts `to_dict` produces for them,
 * the keys those dicts hold, and the round trips `from_dict(to_dict(x)) == x`
 * that the structures' tests check.
 */
module LspBasicProps {
  import opened Values
  import opened Naming
  import opened Codec
  import opened CodecLaws
  import opened CodecRoundTrip
  import opened LspBasic
  import opened LspBasicLaws

  // ---------------------------------------------------------------------------
  // Position and Range.

  /** The dict a Position is written as. */
  function PositionDict(line: int, character: int): Value
  {
    VDict(map["line" := VInt(line), "character" := VInt(character)])
  }

  lemma PositionArgs(line: int, character: int)
    ensures var v := PositionOf(line, character);
            v.args.Keys == {"line", "character"} && v.args["line"] == VInt(line) && v.args["character"] == VInt(character)
  {
    PositionFields();
    ArgsOfValues(PositionDecl.fields, [VInt(line), VInt(character)], 2);
  }

  lemma PositionOut(schema: Schema, line: int, character: int)
    ensures var v := PositionOf(line, character); var fields := PositionDecl.fields;
            FieldOut(schema, v, fields[0]) == Ok(VInt(line)) && FieldOut(schema, v, fields[1]) == Ok(VInt(character))
  {
    PositionArgs(line, character);
    SingleSerialize(schema, TInt, VInt(line));
    SingleSerialize(schema, TInt, VInt(character));
  }

  lemma PositionWritten(schema: Schema, line: int, character: int)
    ensures var v := PositionOf(line, character);
            WrittenKeys(schema, v, PositionDecl.fields, 2) == {"line", "character"}
  {
    PositionOut(schema, line, character);
    PositionKeys();
    var v := PositionOf(line, character);
    var fields := PositionDecl.fields;
    assert Written(schema, v, fields[0]) && Written(schema, v, fields[1]);
    WrittenKeys2(schema, v, fields, "line", "character");
  }

  /** `Position(line=l, character=c).to_dict() == {'line': l, 'character': c}`. */
  lemma PositionToDict(schema: Schema, line: int, character: int)
    requires Declares(schema, "Position", PositionDecl)
    ensures ToDict(schema, PositionOf(line, character)) == Ok(PositionDict(line, character))
  {
    PositionNames();
    PositionKeys();
    PositionOut(schema, line, character);
    PositionWritten(schema, line, character);
    assert Fields(schema, "Position") == PositionDecl.fields;
    ToDictIs(schema, PositionOf(line, character), PositionDict(line, character).entries);
  }

  /** A Position is written as {'line', 'character'} and parsed back from that dict unchanged. */
  lemma PositionRoundTrip(schema: Schema, line: int, character: int)
    requires Declares(schema, "Position", PositionDecl)
    ensures ToDict(schema, PositionOf(line, character)) == Ok(PositionDict(line, character))
    ensures FromDict(schema, "Position", PositionDict(line, character)) == Ok(PositionOf(line, character))
  {
    PositionToDict(schema, line, character);
    PositionRT(schema, line, character);
    StructRoundTrip(schema, TStruct("Position"), PositionOf(line, character));
  }

  lemma RangeArgs(start: Value, end: Value)
    ensures var v := RangeOf(start, end);
            v.args.Keys == {"start", "end"} && v.args["start"] == start && v.args["end"] == end
  {
    RangeFields();
    ArgsOfValues(RangeDecl.fields, [start, end], 2);
  }

  lemma RangeOut(schema: Schema, l0: int, c0: int, l1: int, c1: int)
    requires Declares(schema, "Position", PositionDecl)
    ensures var v := RangeOf(PositionOf(l0, c0), PositionOf(l1, c1)); var fields := RangeDecl.fields;
            FieldOut(schema, v, fields[0]) == Ok(PositionDict(l0, c0)) && FieldOut(schema, v, fields[1]) == Ok(PositionDict(l1, c1))
  {
    var vals := [PositionOf(l0, c0), PositionOf(l1, c1)];
    RangeNames();
    PositionToDict(schema, l0, c0);
    PositionToDict(schema, l1, c1);
    ArgNestedOut(schema, "Range", RangeDecl.fields, vals, 0);
    ArgNestedOut(schema, "Range", RangeDecl.fields, vals, 1);
  }

  lemma RangeWritten(schema: Schema, l0: int, c0: int, l1: int, c1: int)
    requires Declares(schema, "Position", PositionDecl)
    ensures var v := RangeOf(PositionOf(l0, c0), PositionOf(l1, c1));
            WrittenKeys(schema, v, RangeDecl.fields, 2) == {"start", "end"}
  {
    RangeOut(schema, l0, c0, l1, c1);
    RangeKeys();
    var v := RangeOf(PositionOf(l0, c0), PositionOf(l1, c1));
    assert Written(schema, v, RangeDecl.fields[0]) && Written(schema, v, RangeDecl.fields[1]);
    WrittenKeys2(schema, v, RangeDecl.fields, "start", "end");
  }

  /** The dict a Range of two positions is written as. */
  function RangeDict(l0: int, c0: int, l1: int, c1: int): Value
  {
    VDict(map["start" := PositionDict(l0, c0), "end" := PositionDict(l1, c1)])
  }

  lemma RangeToDict(schema: Schema, l0: int, c0: int, l1: int, c1: int)
    requires Declares(schema, "Position", PositionDecl) && Declares(schema, "Range", RangeDecl)
    ensures ToDict(schema, RangeOf(PositionOf(l0, c0), PositionOf(l1, c1))) == Ok(RangeDict(l0, c0, l1, c1))
  {
    RangeNames();
    RangeKeys();
    RangeOut(schema, l0, c0, l1, c1);
    RangeWritten(schema, l0, c0, l1, c1);
    assert Fields(schema, "Range") == RangeDecl.fields;
    ToDictIs(schema, RangeOf(PositionOf(l0, c0), PositionOf(l1, c1)), RangeDict(l0, c0, l1, c1).entries);
  }

  /** A Range is written as {'start': {...}, 'end': {...}} and parsed back from that dict unchanged. */
  lemma RangeRoundTrip(schema: Schema, l0: int, c0: int, l1: int, c1: int)
    requires Declares(schema, "Position", PositionDecl) && Declares(schema, "Range", RangeDecl)
    ensures var r := RangeOf(PositionOf(l0, c0), PositionOf(l1, c1));
            ToDict(schema, r) == Ok(RangeDict(l0, c0, l1, c1)) &&
            FromDict(schema, "Range", RangeDict(l0, c0, l1, c1)) == Ok(r)
  {
    RangeToDict(schema, l0, c0, l1, c1);
    PositionRT(schema, l0, c0);
    PositionRT(schema, l1, c1);
    RangeRT(schema, PositionOf(l0, c0), PositionOf(l1, c1));
    StructRoundTrip(schema, TStruct("Range"), RangeOf(PositionOf(l0, c0), PositionOf(l1, c1)));
  }

  // ---------------------------------------------------------------------------
  // Location and LocationLink.

  lemma LocationOut(schema: Schema, uri: string, range: Value)
    requires range.VObj? && range.cls == "Range"
    ensures var v := LocationOf(uri, range); var fields := LocationDecl.fields;
            FieldOut(schema, v, fields[0]) == Ok(VStr(uri)) && FieldOut(schema, v, fields[1]) == ToDict(schema, range)
  {
    var vals := [VStr(uri), range];
    LocationNames();
    ArgPlainOut(schema, "Location", LocationDecl.fields, vals, 0);
    ArgNestedOut(schema, "Location", LocationDecl.fields, vals, 1);
  }

  /** The dict a Location is written as, given the range's dict. */
  function LocationDict(uri: string, range: Value): Value
  {
    VDict(map["uri" := VStr(uri), "range" := range])
  }

  lemma LocationWritten(schema: Schema, uri: string, range: Value, rd: Value)
    requires range.VObj? && range.cls == "Range" && ToDict(schema, range) == Ok(rd) && rd.VDict?
    ensures var v := LocationOf(uri, range); var fields := LocationDecl.fields;
            Written(schema, v, fields[0]) && Written(schema, v, fields[1]) &&
            WrittenKeys(schema, v, fields, 2) == {"uri", "range"}
  {
    LocationOut(schema, uri, range);
    LocationKeys();
    WrittenKeys2(schema, LocationOf(uri, range), LocationDecl.fields, "uri", "range");
  }

  lemma LocationToDict(schema: Schema, uri: string, range: Value, rd: Value)
    requires Declares(schema, "Location", LocationDecl)
    requires range.VObj? && range.cls == "Range" && ToDict(schema, range) == Ok(rd) && rd.VDict?
    ensures ToDict(schema, LocationOf(uri, range)) == Ok(LocationDict(uri, rd))
  {
    LocationNames();
    LocationKeys();
    LocationOut(schema, uri, range);
    LocationWritten(schema, uri, range, rd);
    assert Fields(schema, "Location") == LocationDecl.fields;
    ToDictIs(schema, LocationOf(uri, range), LocationDict(uri, rd).entries);
  }

  /** A Location is written as {'uri': uri, 'range': range.to_dict()} and parsed back from that dict unchanged. */
  lemma LocationRoundTrip(schema: Schema, uri: string, range: Value)
    requires Declares(schema, "Location", LocationDecl) && RT(schema, TStruct("Range"), range)
    ensures var v := LocationOf(uri, range); var d := ToDict(schema, v);
            d.Ok? && d.value.VDict? && d.value.entries.Keys == {"uri", "range"} &&
            d.value.entries["uri"] == VStr(uri) && ToDict(schema, range) == Ok(d.value.entries["range"]) &&
            FromDict(schema, "Location", d.value) == Ok(v)
  {
    LocationRT(schema, uri, range);
    StructRoundTrip(schema, TStruct("Range"), range);
    LocationToDict(schema, uri, range, ToDict(schema, range).value);
    assert LocationDict(uri, ToDict(schema, range).value).entries.Keys == {"uri", "range"};
    StructRoundTrip(schema, TStruct("Location"), LocationOf(uri, range));
  }

  lemma LocationLinkWrittenFields(schema: Schema, targetUri: string, targetRange: Value, targetSelectionRange: Value, originSelectionRange: Value)
    requires Declares(schema, "LocationLink", LocationLinkDecl) && targetRange != VNone && targetSelectionRange != VNone
    requires RT(schema, TStruct("LocationLink"), LocationLinkOf(targetUri, targetRange, targetSelectionRange, originSelectionRange))
    ensures var v := LocationLinkOf(targetUri, targetRange, targetSelectionRange, originSelectionRange);
            var fields := LocationLinkDecl.fields;
            Written(schema, v, fields[0]) && Written(schema, v, fields[1]) && Written(schema, v, fields[2]) &&
            (Written(schema, v, fields[3]) <==> originSelectionRange != VNone)
  {
    var vals := [VStr(targetUri), targetRange, targetSelectionRange, originSelectionRange];
    LocationLinkNames();
    InstanceWritten(schema, "LocationLink", vals, 0);
    InstanceWritten(schema, "LocationLink", vals, 1);
    InstanceWritten(schema, "LocationLink", vals, 2);
    InstanceWritten(schema, "LocationLink", vals, 3);
  }

  lemma LocationLinkWritten(schema: Schema, targetUri: string, targetRange: Value, targetSelectionRange: Value, originSelectionRange: Value)
    requires Declares(schema, "LocationLink", LocationLinkDecl) && targetRange != VNone && targetSelectionRange != VNone
    requires RT(schema, TStruct("LocationLink"), LocationLinkOf(targetUri, targetRange, targetSelectionRange, originSelectionRange))
    ensures var v := LocationLinkOf(targetUri, targetRange, targetSelectionRange, originSelectionRange);
            WrittenKeys(schema, v, LocationLinkDecl.fields, 4) ==
              {"targetUri"} + {"targetRange"} + {"targetSelectionRange"} + if originSelectionRange == VNone then {} else {"originSelectionRange"}
  {
    var v := LocationLinkOf(targetUri, targetRange, targetSelectionRange, originSelectionRange);
    var fields := LocationLinkDecl.fields;
    LocationLinkWrittenFields(schema, targetUri, targetRange, targetSelectionRange, originSelectionRange);
    LocationLinkKeys();
    WrittenKeys4(schema, v, fields, "targetUri", "targetRange", "targetSelectionRange", "originSelectionRange");
  }

  /**
   * A LocationLink is written under targetUri, targetRange and
   * targetSelectionRange, and under originSelectionRange exactly when that
   * range is set; it is parsed back from its dict unchanged.
   */
  lemma LocationLinkRoundTrip(schema: Schema, targetUri: string, targetRange: Value, targetSelectionRange: Value, originSelectionRange: Value)
    requires Declares(schema, "LocationLink", LocationLinkDecl)
    requires RT(schema, TStruct("Range"), targetRange) && RT(schema, TStruct("Range"), targetSelectionRange)
    requires originSelectionRange == VNone || RT(schema, TStruct("Range"), originSelectionRange)
    ensures var v := LocationLinkOf(targetUri, targetRange, targetSelectionRange, originSelectionRange);
            var d := ToDict(schema, v);
            d.Ok? && d.value.VDict? &&
            d.value.entries.Keys ==
              {"targetUri"} + {"targetRange"} + {"targetSelectionRange"} + (if originSelectionRange == VNone then {} else {"originSelectionRange"}) &&
            FromDict(schema, "LocationLink", d.value) == Ok(v)
  {
    var v := LocationLinkOf(targetUri, targetRange, targetSelectionRange, originSelectionRange);
    LocationLinkRT(schema, targetUri, targetRange, targetSelectionRange, originSelectionRange);
    StructRoundTrip(schema, TStruct("LocationLink"), v);
    LocationLinkNames();
    assert Fields(schema, "LocationLink") == LocationLinkDecl.fields;
    ToDictCharacterized(schema, v);
    LocationLinkWritten(schema, targetUri, targetRange, targetSelectionRange, originSelectionRange);
  }

  // ---------------------------------------------------------------------------
  // AnnotatedTextEdit and ClientServerInfo.

  lemma AnnotatedTextEditOut(schema: Schema, range: Value, newText: string, annotationId: string)
    requires range.VObj? && range.cls == "Range"
    ensures var v := AnnotatedTextEditOf(range, newText, annotationId); var fields := AnnotatedTextEditDecl.fields;
            FieldOut(schema, v, fields[0]) == ToDict(schema, range) &&
            FieldOut(schema, v, fields[1]) == Ok(VStr(newText)) && FieldOut(schema, v, fields[2]) == Ok(VStr(annotationId))
  {
    var vals := [range, VStr(newText), VStr(annotationId)];
    AnnotatedTextEditNames();
    ArgNestedOut(schema, "AnnotatedTextEdit", AnnotatedTextEditDecl.fields, vals, 0);
    ArgPlainOut(schema, "AnnotatedTextEdit", AnnotatedTextEditDecl.fields, vals, 1);
    ArgPlainOut(schema, "AnnotatedTextEdit", AnnotatedTextEditDecl.fields, vals, 2);
  }

  /** The dict an AnnotatedTextEdit is written as, given the range's dict. */
  function AnnotatedTextEditDict(range: Value, newText: string, annotationId: string): Value
  {
    VDict(map["range" := range, "newText" := VStr(newText), "annotationId" := VStr(annotationId)])
  }

  lemma AnnotatedTextEditWritten(schema: Schema, range: Value, newText: string, annotationId: string, rd: Value)
    requires range.VObj? && range.cls == "Range" && ToDict(schema, range) == Ok(rd) && rd.VDict?
    ensures var v := AnnotatedTextEditOf(range, newText, annotationId); var fields := AnnotatedTextEditDecl.fields;
            Written(schema, v, fields[0]) && Written(schema, v, fields[1]) && Written(schema, v, fields[2]) &&
            WrittenKeys(schema, v, fields, 3) == {"range"} + {"newText"} + {"annotationId"}
  {
    AnnotatedTextEditOut(schema, range, newText, annotationId);
    AnnotatedTextEditKeys();
    WrittenKeys3(schema, AnnotatedTextEditOf(range, newText, annotationId), AnnotatedTextEditDecl.fields, "range", "newText", "annotationId");
  }

  lemma AnnotatedTextEditToDict(schema: Schema, range: Value, newText: string, annotationId: string, rd: Value)
    requires Declares(schema, "AnnotatedTextEdit", AnnotatedTextEditDecl)
    requires range.VObj? && range.cls == "Range" && ToDict(schema, range) == Ok(rd) && rd.VDict?
    ensures ToDict(schema, AnnotatedTextEditOf(range, newText, annotationId)) == Ok(AnnotatedTextEditDict(rd, newText, annotationId))
  {
    AnnotatedTextEditNames();
    AnnotatedTextEditKeys();
    AnnotatedTextEditOut(schema, range, newText, annotationId);
    AnnotatedTextEditWritten(schema, range, newText, annotationId, rd);
    assert Fields(schema, "AnnotatedTextEdit") == AnnotatedTextEditDecl.fields;
    ToDictThree(schema, AnnotatedTextEditOf(range, newText, annotationId), "range", "newText", "annotationId");
  }

  /**
   * An AnnotatedTextEdit is written with the inherited range and newText plus
   * its annotationId, and parsed back from that dict unchanged.
   */
  lemma AnnotatedTextEditRoundTrip(schema: Schema, range: Value, newText: string, annotationId: string)
    requires Declares(schema, "AnnotatedTextEdit", AnnotatedTextEditDecl) && RT(schema, TStruct("Range"), range)
    ensures var v := AnnotatedTextEditOf(range, newText, annotationId); var d := ToDict(schema, v);
            d.Ok? && d.value.VDict? && d.value.entries.Keys == {"range", "newText", "annotationId"} &&
            d.value.entries["newText"] == VStr(newText) && d.value.entries["annotationId"] == VStr(annotationId) &&
            FromDict(schema, "AnnotatedTextEdit", d.value) == Ok(v)
  {
    AnnotatedTextEditRT(schema, range, newText, annotationId);
    StructRoundTrip(schema, TStruct("Range"), range);
    AnnotatedTextEditToDict(schema, range, newText, annotationId, ToDict(schema, range).value);
    assert AnnotatedTextEditDict(ToDict(schema, range).value, newText, annotationId).entries.Keys ==
           {"range", "newText", "annotationId"};
    StructRoundTrip(schema, TStruct("AnnotatedTextEdit"), AnnotatedTextEditOf(range, newText, annotationId));
  }

  lemma ClientServerInfoArgs(schema: Schema, name: string)
    requires Declares(schema, "ClientServerInfo", ClientServerInfoDecl)
    ensures var obj := VDict(map["name" := VStr(name)]); var fields := ClientServerInfoDecl.fields;
            InitArg(schema, obj, fields[0]) == Ok(VStr(name)) && InitArg(schema, obj, fields[1]) == Ok(VNone)
  {
    ClientServerInfoKeys();
    SingleDeserialize(schema, TStr, VStr(name));
  }

  lemma ClientServerInfoOut(schema: Schema, name: string)
    requires Declares(schema, "ClientServerInfo", ClientServerInfoDecl)
    ensures var v := ClientServerInfoOf(name, VNone); var fields := ClientServerInfoDecl.fields;
            FieldOut(schema, v, fields[0]) == Ok(VStr(name)) && FieldOut(schema, v, fields[1]) == Ok(VNone) &&
            Written(schema, v, fields[0]) && !Written(schema, v, fields[1]) &&
            WrittenKeys(schema, v, fields, 2) == {"name"}
  {
    var vals := [VStr(name), VNone];
    ClientServerInfoNames();
    ClientServerInfoKeys();
    ArgPlainOut(schema, "ClientServerInfo", ClientServerInfoDecl.fields, vals, 0);
    ArgOut(schema, "ClientServerInfo", ClientServerInfoDecl.fields, vals, 1);
    var fields := ClientServerInfoDecl.fields;
    WrittenKeys2(schema, ClientServerInfoOf(name, VNone), fields, KeyOf(fields[0]), KeyOf(fields[1]));
  }

  /**
   * `ClientServerInfo.from_dict({'name': n})` has version None, and its
   * `to_dict()` is {'name': n} again, with no 'version' key.
   */
  lemma ClientServerInfoFromName(schema: Schema, name: string)
    requires Declares(schema, "ClientServerInfo", ClientServerInfoDecl)
    ensures FromDict(schema, "ClientServerInfo", VDict(map["name" := VStr(name)])) == Ok(ClientServerInfoOf(name, VNone))
    ensures ToDict(schema, ClientServerInfoOf(name, VNone)) == Ok(VDict(map["name" := VStr(name)]))
  {
    ClientServerInfoNameParsed(schema, name);
    ClientServerInfoNameWritten(schema, name);
  }

  lemma ClientServerInfoNameParsed(schema: Schema, name: string)
    requires Declares(schema, "ClientServerInfo", ClientServerInfoDecl)
    ensures FromDict(schema, "ClientServerInfo", VDict(map["name" := VStr(name)])) == Ok(ClientServerInfoOf(name, VNone))
  {
    var v := ClientServerInfoOf(name, VNone);
    ClientServerInfoNames();
    assert Fields(schema, "ClientServerInfo") == ClientServerInfoDecl.fields;
    ArgsOfValues(ClientServerInfoDecl.fields, [VStr(name), VNone], 2);
    ClientServerInfoArgs(schema, name);
    FromDictIs(schema, "ClientServerInfo", VDict(map["name" := VStr(name)]), v.args);
  }

  lemma ClientServerInfoNameWritten(schema: Schema, name: string)
    requires Declares(schema, "ClientServerInfo", ClientServerInfoDecl)
    ensures ToDict(schema, ClientServerInfoOf(name, VNone)) == Ok(VDict(map["name" := VStr(name)]))
  {
    ClientServerInfoNames();
    ClientServerInfoOut(schema, name);
    ClientServerInfoKeys();
    ToDictIs(schema, ClientServerInfoOf(name, VNone), map["name" := VStr(name)]);
  }

  /** A ClientServerInfo with a version is written with both keys. */
  lemma ClientServerInfoToDict(schema: Schema, name: string, version: string)
    requires Declares(schema, "ClientServerInfo", ClientServerInfoDecl)
    ensures ToDict(schema, ClientServerInfoOf(name, VStr(version))) ==
            Ok(VDict(map["name" := VStr(name), "version" := VStr(version)]))
  {
    var v := ClientServerInfoOf(name, VStr(version));
    var vals := [VStr(name), VStr(version)];
    var fields := ClientServerInfoDecl.fields;
    ClientServerInfoNames();
    ClientServerInfoKeys();
    ArgPlainOut(schema, "ClientServerInfo", fields, vals, 0);
    ArgOut(schema, "ClientServerInfo", fields, vals, 1);
    OptionalSerialize(schema, TStr, VStr(version));
    SingleSerialize(schema, TStr, VStr(version));
    assert Fields(schema, "ClientServerInfo") == fields;
    ToDictTwo(schema, v, "name", "version");
  }

  // ---------------------------------------------------------------------------
  // Diagnostic and Command.

  lemma DiagnosticSeverityField()
    ensures |DiagnosticDecl.fields| == 9 && DiagnosticDecl.fields[2].ty == Opt(DiagnosticSeverity)
    ensures !EnforcedAsConstant(DiagnosticDecl.fields[2]) && KeyOf(DiagnosticDecl.fields[2]) == "severity"
  {
    KeyIsName(DiagnosticDecl.fields[2]);
  }

  lemma DiagnosticTagsField()
    ensures |DiagnosticDecl.fields| == 9 && DiagnosticDecl.fields[6].ty == Opt(TList(DiagnosticTag))
    ensures !EnforcedAsConstant(DiagnosticDecl.fields[6]) && KeyOf(DiagnosticDecl.fields[6]) == "tags"
  {
    KeyIsName(DiagnosticDecl.fields[6]);
  }

  lemma DiagnosticSeverityEntry(schema: Schema, fields: seq<Field>, vals: seq<Value>, severity: int)
    requires Fields(schema, "Diagnostic") == fields && fields == DiagnosticDecl.fields && |vals| == |fields|
    requires vals[2] == IntMember(DiagnosticSeverity, severity) && severity in DiagnosticSeverity.intValues
    requires ToDict(schema, Instance("Diagnostic", fields, vals)).Ok?
    ensures var out := ToDict(schema, Instance("Diagnostic", fields, vals)).value;
            out.VDict? && "severity" in out.entries && out.entries["severity"] == VInt(severity)
  {
    DiagnosticNames();
    DiagnosticSeverityField();
    ArgEnumOut(schema, "Diagnostic", fields, vals, 2, DiagnosticSeverity, severity);
    InstanceEntry(schema, "Diagnostic", fields, vals, 2, VInt(severity));
  }

  lemma DiagnosticTagsEntry(schema: Schema, fields: seq<Field>, vals: seq<Value>, tags: seq<int>)
    requires Fields(schema, "Diagnostic") == fields && fields == DiagnosticDecl.fields && |vals| == |fields|
    requires vals[6] == EnumMembers(DiagnosticTag, tags)
    requires forall i :: 0 <= i < |tags| ==> tags[i] in DiagnosticTag.intValues
    requires ToDict(schema, Instance("Diagnostic", fields, vals)).Ok?
    ensures var out := ToDict(schema, Instance("Diagnostic", fields, vals)).value;
            out.VDict? && "tags" in out.entries && out.entries["tags"] == IntList(tags)
  {
    DiagnosticNames();
    DiagnosticTagsField();
    ArgEnumListOut(schema, "Diagnostic", fields, vals, 6, DiagnosticTag, tags);
    InstanceEntry(schema, "Diagnostic", fields, vals, 6, IntList(tags));
  }

  /** A Diagnostic built with `DiagnosticSeverity(severity)` and `[DiagnosticTag(t), ...]` round-trips. */
  lemma DiagnosticWithIntsRT(schema: Schema, fields: seq<Field>, range: Value, message: string, severity: int, code: Value,
                             codeDescription: Value, source: string, tags: seq<int>, relatedInformation: Value, data: Value)
    requires Declares(schema, "Diagnostic", DiagnosticDecl) && fields == DiagnosticDecl.fields
    requires RT(schema, TStruct("Range"), range)
    requires severity in DiagnosticSeverity.intValues
    requires code.VInt? || code.VStr?
    requires RT(schema, TStruct("CodeDescription"), codeDescription)
    requires forall i :: 0 <= i < |tags| ==> tags[i] in DiagnosticTag.intValues
    requires RT(schema, TList(TStruct("DiagnosticRelatedInformation")), relatedInformation)
    requires IsJson(data)
    ensures |fields| == 9
    ensures RT(schema, TStruct("Diagnostic"), Instance("Diagnostic", fields,
                   [range, VStr(message), IntMember(DiagnosticSeverity, severity), code, codeDescription, VStr(source),
                    EnumMembers(DiagnosticTag, tags), relatedInformation, data]))
  {
    EnumMembersRT(schema, DiagnosticTag, tags);
    DiagnosticRT(schema, range, message, IntMember(DiagnosticSeverity, severity), code, codeDescription, VStr(source),
                 EnumMembers(DiagnosticTag, tags), relatedInformation, data);
  }

  lemma DiagnosticParsedBack(schema: Schema, fields: seq<Field>, range: Value, message: string, severity: int, code: Value,
                            codeDescription: Value, source: string, tags: seq<int>, relatedInformation: Value, data: Value)
    requires Declares(schema, "Diagnostic", DiagnosticDecl) && fields == DiagnosticDecl.fields
    requires RT(schema, TStruct("Range"), range)
    requires severity in DiagnosticSeverity.intValues
    requires code.VInt? || code.VStr?
    requires RT(schema, TStruct("CodeDescription"), codeDescription)
    requires forall i :: 0 <= i < |tags| ==> tags[i] in DiagnosticTag.intValues
    requires RT(schema, TList(TStruct("DiagnosticRelatedInformation")), relatedInformation)
    requires IsJson(data)
    ensures |fields| == 9
    ensures var d := Instance("Diagnostic", fields,
                              [range, VStr(message), IntMember(DiagnosticSeverity, severity), code, codeDescription, VStr(source),
                               EnumMembers(DiagnosticTag, tags), relatedInformation, data]);
            ToDict(schema, d).Ok? && FromDict(schema, "Diagnostic", ToDict(schema, d).value) == Ok(d)
  {
    var vals := [range, VStr(message), IntMember(DiagnosticSeverity, severity), code, codeDescription, VStr(source),
                 EnumMembers(DiagnosticTag, tags), relatedInformation, data];
    DiagnosticWithIntsRT(schema, fields, range, message, severity, code, codeDescription, source, tags, relatedInformation, data);
    StructRoundTrip(schema, TStruct("Diagnostic"), Instance("Diagnostic", fields, vals));
  }

  /**
   * A Diagnostic with every optional field set is written with its severity and
   * its tags as integers, and parsed back from its dict unchanged. `fields` is
   * the class's field list, `DiagnosticDecl.fields`.
   */
  lemma DiagnosticRoundTrip(schema: Schema, fields: seq<Field>, range: Value, message: string, severity: int, code: Value,
                            codeDescription: Value, source: string, tags: seq<int>, relatedInformation: Value, data: Value)
    requires Declares(schema, "Diagnostic", DiagnosticDecl) && fields == DiagnosticDecl.fields
    requires RT(schema, TStruct("Range"), range)
    requires severity in DiagnosticSeverity.intValues
    requires code.VInt? || code.VStr?
    requires RT(schema, TStruct("CodeDescription"), codeDescription)
    requires forall i :: 0 <= i < |tags| ==> tags[i] in DiagnosticTag.intValues
    requires RT(schema, TList(TStruct("DiagnosticRelatedInformation")), relatedInformation)
    requires IsJson(data)
    ensures |fields| == 9
    ensures var d := Instance("Diagnostic", fields,
                              [range, VStr(message), IntMember(DiagnosticSeverity, severity), code, codeDescription, VStr(source),
                               EnumMembers(DiagnosticTag, tags), relatedInformation, data]);
            var out := ToDict(schema, d);
            out.Ok? && out.value.VDict? &&
            "severity" in out.value.entries && out.value.entries["severity"] == VInt(severity) &&
            "tags" in out.value.entries && out.value.entries["tags"] == IntList(tags) &&
            FromDict(schema, "Diagnostic", out.value) == Ok(d)
  {
    DiagnosticParsedBack(schema, fields, range, message, severity, code, codeDescription, source, tags, relatedInformation, data);
    DiagnosticEntries(schema, fields, range, message, severity, code, codeDescription, source, tags, relatedInformation, data);
  }

  lemma DiagnosticEntries(schema: Schema, fields: seq<Field>, range: Value, message: string, severity: int, code: Value,
                          codeDescription: Value, source: string, tags: seq<int>, relatedInformation: Value, data: Value)
    requires Declares(schema, "Diagnostic", DiagnosticDecl) && fields == DiagnosticDecl.fields
    requires severity in DiagnosticSeverity.intValues
    requires forall i :: 0 <= i < |tags| ==> tags[i] in DiagnosticTag.intValues
    requires |fields| == 9
    requires ToDict(schema, Instance("Diagnostic", fields,
                                     [range, VStr(message), IntMember(DiagnosticSeverity, severity), code, codeDescription, VStr(source),
                                      EnumMembers(DiagnosticTag, tags), relatedInformation, data])).Ok?
    ensures var out := ToDict(schema, Instance("Diagnostic", fields,
                                               [range, VStr(message), IntMember(DiagnosticSeverity, severity), code, codeDescription,
                                                VStr(source), EnumMembers(DiagnosticTag, tags), relatedInformation, data])).value;
            out.VDict? &&
            "severity" in out.entries && out.entries["severity"] == VInt(severity) &&
            "tags" in out.entries && out.entries["tags"] == IntList(tags)
  {
    var vals := [range, VStr(message), IntMember(DiagnosticSeverity, severity), code, codeDescription, VStr(source),
                 EnumMembers(DiagnosticTag, tags), relatedInformation, data];
    DiagnosticSeverityEntry(schema, fields, vals, severity);
    DiagnosticTagsEntry(schema, fields, vals, tags);
  }

  /** `Command.arguments` is written element by element unchanged, and the command is parsed back unchanged. */
  lemma CommandArgumentsPassThrough(schema: Schema, title: string, command: string, arguments: seq<Value>)
    requires Declares(schema, "Command", CommandDecl)
    requires forall i :: 0 <= i < |arguments| ==> IsJson(arguments[i])
    ensures var c := CommandOf(title, command, VList(arguments)); var d := ToDict(schema, c);
            d.Ok? && d.value.VDict? && "arguments" in d.value.entries && d.value.entries["arguments"] == VList(arguments) &&
            FromDict(schema, "Command", d.value) == Ok(c)
  {
    var a := VList(arguments);
    var vals := [VStr(title), VStr(command), a];
    var c := CommandOf(title, command, a);
    assert RT(schema, TList(TAny), a);
    CommandRT(schema, title, command, a);
    StructRoundTrip(schema, TStruct("Command"), c);
    CommandNames();
    CommandKey2();
    ArgOut(schema, "Command", CommandDecl.fields, vals, 2);
    OptionalSerialize(schema, TList(TAny), a);
    AnyListSerialize(schema, arguments);
    assert Fields(schema, "Command") == CommandDecl.fields;
    ToDictEntry(schema, c, 2);
  }

  // ---------------------------------------------------------------------------
  // File operations and versioned identifiers.

  /** A `kind` field is written as its constant, whatever the instance holds for it. */
  lemma KindWritten(schema: Schema, obj: Value, kind: string)
    requires obj.VObj? && "kind" in obj.args
    ensures KeyOf(KindField(kind)) == "kind"
    ensures FieldOut(schema, obj, KindField(kind)) == Ok(VStr(kind)) && Written(schema, obj, KindField(kind))
  {
    var f := KindField(kind);
    KeyIsName(f);
    assert EnforcedAsConstant(f) && DefaultValue(schema, f) == Ok(VStr(kind)) && ObjFree(VStr(kind));
    SingleSerialize(schema, TStr, VStr(kind));
  }

  /**
   * `from_dict` raises ValueError for a `kind` other than the constant, and
   * keeps the constant when the key is absent or holds it.
   */
  lemma KindParsed(schema: Schema, obj: Value, kind: string)
    requires obj.VDict?
    ensures "kind" in obj.entries && obj.entries["kind"] != VStr(kind) ==>
            InitArg(schema, obj, KindField(kind)) == Err(ValueError)
    ensures "kind" !in obj.entries || obj.entries["kind"] == VStr(kind) ==>
            InitArg(schema, obj, KindField(kind)) == Ok(VStr(kind))
  {
    var f := KindField(kind);
    KeyIsName(f);
    assert EnforcedAsConstant(f) && DefaultValue(schema, f) == Ok(VStr(kind));
    if "kind" in obj.entries {
      var v := obj.entries["kind"];
      StrDeserialize(schema, v);
      assert InitArg(schema, obj, f) == if v == VStr(kind) then Ok(v) else Err(ValueError);
    } else {
      assert InitArg(schema, obj, f) == DefaultValue(schema, f);
    }
  }

  /**
   * A class whose last field is the constant `kind`: its `to_dict` always
   * writes that kind, and `from_dict` fails on a dict holding any other kind.
   */
  lemma FileOperationKind(schema: Schema, cls: string, decl: ClassDecl, kind: string, obj: Value, dict: Value)
    requires Declares(schema, cls, decl) && |decl.fields| > 0 && decl.fields[|decl.fields| - 1] == KindField(kind)
    requires obj.VObj? && obj.cls == cls && "kind" in obj.args
    ensures ToDict(schema, obj).Ok? ==>
            ToDict(schema, obj).value.VDict? && "kind" in ToDict(schema, obj).value.entries &&
            ToDict(schema, obj).value.entries["kind"] == VStr(kind)
    ensures dict.VDict? && "kind" in dict.entries && dict.entries["kind"] != VStr(kind) ==> FromDict(schema, cls, dict).Err?
  {
    var fields := decl.fields;
    var n := |fields|;
    assert Fields(schema, cls) == fields;
    KindWritten(schema, obj, kind);
    if dict.VDict? {
      KindParsed(schema, dict, kind);
    }
  }

  /** CreateFile always writes kind 'create' and rejects any other kind on parse. */
  lemma CreateFileKind(schema: Schema, obj: Value, dict: Value)
    requires Declares(schema, "CreateFile", CreateFileDecl)
    requires obj.VObj? && obj.cls == "CreateFile" && "kind" in obj.args
    ensures ToDict(schema, obj).Ok? ==>
            ToDict(schema, obj).value.VDict? && "kind" in ToDict(schema, obj).value.entries &&
            ToDict(schema, obj).value.entries["kind"] == VStr("create")
    ensures dict.VDict? && "kind" in dict.entries && dict.entries["kind"] != VStr("create") ==>
            FromDict(schema, "CreateFile", dict).Err?
  {
    FileOperationKind(schema, "CreateFile", CreateFileDecl, "create", obj, dict);
  }

  /** RenameFile always writes kind 'rename' and rejects any other kind on parse. */
  lemma RenameFileKind(schema: Schema, obj: Value, dict: Value)
    requires Declares(schema, "RenameFile", RenameFileDecl)
    requires obj.VObj? && obj.cls == "RenameFile" && "kind" in obj.args
    ensures ToDict(schema, obj).Ok? ==>
            ToDict(schema, obj).value.VDict? && "kind" in ToDict(schema, obj).value.entries &&
            ToDict(schema, obj).value.entries["kind"] == VStr("rename")
    ensures dict.VDict? && "kind" in dict.entries && dict.entries["kind"] != VStr("rename") ==>
            FromDict(schema, "RenameFile", dict).Err?
  {
    FileOperationKind(schema, "RenameFile", RenameFileDecl, "rename", obj, dict);
  }

  /** DeleteFile always writes kind 'delete' and rejects any other kind on parse. */
  lemma DeleteFileKind(schema: Schema, obj: Value, dict: Value)
    requires Declares(schema, "DeleteFile", DeleteFileDecl)
    requires obj.VObj? && obj.cls == "DeleteFile" && "kind" in obj.args
    ensures ToDict(schema, obj).Ok? ==>
            ToDict(schema, obj).value.VDict? && "kind" in ToDict(schema, obj).value.entries &&
            ToDict(schema, obj).value.entries["kind"] == VStr("delete")
    ensures dict.VDict? && "kind" in dict.entries && dict.entries["kind"] != VStr("delete") ==>
            FromDict(schema, "DeleteFile", dict).Err?
  {
    FileOperationKind(schema, "DeleteFile", DeleteFileDecl, "delete", obj, dict);
  }

  lemma VersionedUriKey()
    ensures KeyOf(VersionedTextDocumentIdentifierDecl.fields[0]) == "uri"
  {
    KeyIsName(VersionedTextDocumentIdentifierDecl.fields[0]);
  }

  lemma VersionedVersionKey()
    ensures KeyOf(VersionedTextDocumentIdentifierDecl.fields[1]) == "version"
  {
    KeyIsName(VersionedTextDocumentIdentifierDecl.fields[1]);
  }

  lemma VersionedFields()
    ensures var fields := VersionedTextDocumentIdentifierDecl.fields;
            KeyOf(fields[0]) == "uri" && KeyOf(fields[1]) == "version" &&
            DistinctNames(fields) && DistinctKeys(fields) && IncludesNone(fields[1])
  {
    VersionedUriKey();
    VersionedVersionKey();
  }

  /**
   * A (possibly optional) versioned text document identifier writes its version
   * even when it is None: `{'uri': uri, 'version': None}`.
   */
  lemma VersionedIdentifierToDict(schema: Schema, cls: string, uri: string, version: Value)
    requires Declares(schema, cls, VersionedTextDocumentIdentifierDecl) || Declares(schema, cls, OptionalVersionedTextDocumentIdentifierDecl)
    requires version == VNone || version.VInt?
    ensures ToDict(schema, VersionedIdentifierOf(cls, uri, version)) == Ok(VDict(map["uri" := VStr(uri), "version" := version]))
  {
    var fields := VersionedTextDocumentIdentifierDecl.fields;
    var vals := [VStr(uri), version];
    var v := VersionedIdentifierOf(cls, uri, version);
    assert OptionalVersionedTextDocumentIdentifierDecl == VersionedTextDocumentIdentifierDecl;
    assert Fields(schema, cls) == fields;
    VersionedFields();
    ArgPlainOut(schema, cls, fields, vals, 0);
    assert FieldOut(schema, v, fields[1]) == Ok(version) by {
      if version != VNone {
        ArgOptPlainOut(schema, cls, fields, vals, 1);
      } else {
        ArgOut(schema, cls, fields, vals, 1);
      }
    }
    ToDictTwo(schema, v, "uri", "version");
  }
}
