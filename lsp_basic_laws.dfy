/**
 * Facts about the basic structures' schema entries that the properties rest
 * on: the key each field is written under, that names and keys are distinct,
 * and which argument values make an instance round-trip.  Every lemma holds in
 * any schema that declares the classes it mentions as the basic-structures
 * module does.
 */
module LspBasicLaws {
  import opened Values
  import opened Naming
  import opened Codec
  import opened CodecLaws
  import opened CodecRoundTrip
  import opened LspBasic

  // ---------------------------------------------------------------------------
  // Keys of multi-word names.

  /** A field named `a_b` without an override is written under `aB`. */
  lemma KeyTwo(f: Field, a: string, b: string, key: string)
    requires "name" !in f.meta && f.name == a + "_" + b && NoUnderscore(a) && IsLowerWord(b)
    requires key == a + [ToUpper(b[0])] + b[1..]
    ensures KeyOf(f) == key
  {
    CamelCaseTwo(a, b);
  }

  /** A field named `a_b_c` without an override is written under `aBC`. */
  lemma KeyThree(f: Field, a: string, b: string, c: string, key: string)
    requires "name" !in f.meta && f.name == a + "_" + b + "_" + c && NoUnderscore(a) && IsLowerWord(b) && IsLowerWord(c)
    requires key == a + [ToUpper(b[0])] + b[1..] + [ToUpper(c[0])] + c[1..]
    ensures KeyOf(f) == key
  {
    CamelCaseThree(a, b, c);
  }

  /** A diagnostic code, `Union[int, str, None]`, round-trips when it is an int, a str or None. */
  lemma CodeRT(schema: Schema, code: Value)
    requires code == VNone || code.VInt? || code.VStr?
    ensures RT(schema, TUnion([TInt, TStr, TNone]), code)
  {
    if code.VInt? {
      CodeIntRT(schema, code);
    } else if code.VStr? {
      CodeStrRT(schema, code);
    }
  }

  lemma CodeIntRT(schema: Schema, code: Value)
    requires code.VInt?
    ensures UnionRT(schema, TUnion([TInt, TStr, TNone]), code)
  {
    assert RemoveFirst([TInt, TStr, TNone], TNone) == [TInt, TStr];
  }

  lemma CodeStrRT(schema: Schema, code: Value)
    requires code.VStr?
    ensures UnionRT(schema, TUnion([TInt, TStr, TNone]), code)
  {
    assert RemoveFirst([TInt, TStr, TNone], TNone) == [TInt, TStr];
    CodeStrHandler(schema, code);
    assert Image(TStr, code) == code && !DesHandles(TInt, code);
  }

  /** A str code is not an int: the str candidate is the first to handle it. */
  lemma CodeStrHandler(schema: Schema, code: Value)
    requires code.VStr?
    ensures FirstHandler(schema, [TInt, TStr], code) == 1
  {
    assert !SerHandles(schema, TInt, code) && SerHandles(schema, TStr, code);
    assert [TInt, TStr][1..] == [TStr];
  }

  // ---------------------------------------------------------------------------
  // Names, keys and round-trippable values of each class.

  lemma PositionKey0()
    ensures KeyOf(PositionDecl.fields[0]) == "line"
  {
    KeyIsName(PositionDecl.fields[0]);
  }

  lemma PositionKey1()
    ensures KeyOf(PositionDecl.fields[1]) == "character"
  {
    KeyIsName(PositionDecl.fields[1]);
  }

  /** The keys of Position are the camelCase of its field names. */
  lemma PositionKeys()
    ensures var fields := PositionDecl.fields;
            KeyOf(fields[0]) == "line" &&
            KeyOf(fields[1]) == "character"
  {
    PositionKey0();
    PositionKey1();
  }

  lemma PositionNames()
    ensures DistinctNames(PositionDecl.fields) && DistinctKeys(PositionDecl.fields)
    ensures NamesUpTo(PositionDecl.fields, 2) == {"line", "character"}
  {
    PositionFields();
    PositionSnake();
    SnakeKeys(PositionDecl.fields);
  }

  lemma PositionSnake()
    ensures PlainSnakeFrom(PositionDecl.fields, 0)
  {
    assert IsSnake("character");
    assert PlainSnakeFrom(PositionDecl.fields, 1);
    assert IsSnake("line");
    assert PlainSnakeFrom(PositionDecl.fields, 0);
  }

  lemma PositionFields()
    ensures NamesUpTo(PositionDecl.fields, 2) == {"line", "character"}
    ensures DistinctNames(PositionDecl.fields)
  {
    var fields := PositionDecl.fields;
    assert fields[0].name == "line";
    assert fields[1].name == "character";
  }

  lemma PositionFits0(schema: Schema, line: int)
    ensures RT(schema, PositionDecl.fields[0].ty, VInt(line)) && FieldOk(schema, PositionDecl.fields[0], VInt(line))
  {
    PlainFieldOk(schema, PositionDecl.fields[0], VInt(line));
  }

  lemma PositionFits1(schema: Schema, character: int)
    ensures RT(schema, PositionDecl.fields[1].ty, VInt(character)) && FieldOk(schema, PositionDecl.fields[1], VInt(character))
  {
    PlainFieldOk(schema, PositionDecl.fields[1], VInt(character));
  }

  lemma PositionFit(schema: Schema, line: int, character: int)
    ensures FitFrom(schema, PositionDecl.fields, [VInt(line), VInt(character)], 0)
  {
    var vals := [VInt(line), VInt(character)];
    PositionFits1(schema, character);
    assert FitFrom(schema, PositionDecl.fields, vals, 1);
    PositionFits0(schema, line);
    assert FitFrom(schema, PositionDecl.fields, vals, 0);
  }

  /** Every Position round-trips. */
  lemma PositionRT(schema: Schema, line: int, character: int)
    requires Declares(schema, "Position", PositionDecl)
    ensures RT(schema, TStruct("Position"), PositionOf(line, character))
  {
    PositionNames();
    PositionFit(schema, line, character);
    InstanceRT(schema, "Position", [VInt(line), VInt(character)]);
  }

  lemma RangeKey0()
    ensures KeyOf(RangeDecl.fields[0]) == "start"
  {
    KeyIsName(RangeDecl.fields[0]);
  }

  lemma RangeKey1()
    ensures KeyOf(RangeDecl.fields[1]) == "end"
  {
    KeyIsName(RangeDecl.fields[1]);
  }

  /** The keys of Range are the camelCase of its field names. */
  lemma RangeKeys()
    ensures var fields := RangeDecl.fields;
            KeyOf(fields[0]) == "start" &&
            KeyOf(fields[1]) == "end"
  {
    RangeKey0();
    RangeKey1();
  }

  lemma RangeNames()
    ensures DistinctNames(RangeDecl.fields) && DistinctKeys(RangeDecl.fields)
    ensures NamesUpTo(RangeDecl.fields, 2) == {"start", "end"}
  {
    RangeFields();
    RangeSnake();
    SnakeKeys(RangeDecl.fields);
  }

  lemma RangeSnake()
    ensures PlainSnakeFrom(RangeDecl.fields, 0)
  {
    assert IsSnake("end");
    assert PlainSnakeFrom(RangeDecl.fields, 1);
    assert IsSnake("start");
    assert PlainSnakeFrom(RangeDecl.fields, 0);
  }

  lemma RangeFields()
    ensures NamesUpTo(RangeDecl.fields, 2) == {"start", "end"}
    ensures DistinctNames(RangeDecl.fields)
  {
    var fields := RangeDecl.fields;
    assert fields[0].name == "start";
    assert fields[1].name == "end";
  }

  lemma RangeFits0(schema: Schema, start: Value)
    requires RT(schema, TStruct("Position"), start)
    ensures RT(schema, RangeDecl.fields[0].ty, start) && FieldOk(schema, RangeDecl.fields[0], start)
  {
    PlainFieldOk(schema, RangeDecl.fields[0], start);
  }

  lemma RangeFits1(schema: Schema, end: Value)
    requires RT(schema, TStruct("Position"), end)
    ensures RT(schema, RangeDecl.fields[1].ty, end) && FieldOk(schema, RangeDecl.fields[1], end)
  {
    PlainFieldOk(schema, RangeDecl.fields[1], end);
  }

  lemma RangeFit(schema: Schema, start: Value, end: Value)
    requires RT(schema, TStruct("Position"), start)
    requires RT(schema, TStruct("Position"), end)
    ensures FitFrom(schema, RangeDecl.fields, [start, end], 0)
  {
    var vals := [start, end];
    RangeFits1(schema, end);
    assert FitFrom(schema, RangeDecl.fields, vals, 1);
    RangeFits0(schema, start);
    assert FitFrom(schema, RangeDecl.fields, vals, 0);
  }

  /** A Range of round-trippable positions round-trips. */
  lemma RangeRT(schema: Schema, start: Value, end: Value)
    requires Declares(schema, "Range", RangeDecl)
    requires RT(schema, TStruct("Position"), start) && RT(schema, TStruct("Position"), end)
    ensures RT(schema, TStruct("Range"), RangeOf(start, end))
  {
    RangeNames();
    RangeFit(schema, start, end);
    InstanceRT(schema, "Range", [start, end]);
  }

  lemma LocationKey0()
    ensures KeyOf(LocationDecl.fields[0]) == "uri"
  {
    KeyIsName(LocationDecl.fields[0]);
  }

  lemma LocationKey1()
    ensures KeyOf(LocationDecl.fields[1]) == "range"
  {
    KeyIsName(LocationDecl.fields[1]);
  }

  /** The keys of Location are the camelCase of its field names. */
  lemma LocationKeys()
    ensures var fields := LocationDecl.fields;
            KeyOf(fields[0]) == "uri" &&
            KeyOf(fields[1]) == "range"
  {
    LocationKey0();
    LocationKey1();
  }

  lemma LocationNames()
    ensures DistinctNames(LocationDecl.fields) && DistinctKeys(LocationDecl.fields)
    ensures NamesUpTo(LocationDecl.fields, 2) == {"uri", "range"}
  {
    LocationFields();
    LocationSnake();
    SnakeKeys(LocationDecl.fields);
  }

  lemma LocationSnake()
    ensures PlainSnakeFrom(LocationDecl.fields, 0)
  {
    assert IsSnake("range");
    assert PlainSnakeFrom(LocationDecl.fields, 1);
    assert IsSnake("uri");
    assert PlainSnakeFrom(LocationDecl.fields, 0);
  }

  lemma LocationFields()
    ensures NamesUpTo(LocationDecl.fields, 2) == {"uri", "range"}
    ensures DistinctNames(LocationDecl.fields)
  {
    var fields := LocationDecl.fields;
    assert fields[0].name == "uri";
    assert fields[1].name == "range";
  }

  lemma LocationFits0(schema: Schema, uri: string)
    ensures RT(schema, LocationDecl.fields[0].ty, VStr(uri)) && FieldOk(schema, LocationDecl.fields[0], VStr(uri))
  {
    PlainFieldOk(schema, LocationDecl.fields[0], VStr(uri));
  }

  lemma LocationFits1(schema: Schema, range: Value)
    requires RT(schema, TStruct("Range"), range)
    ensures RT(schema, LocationDecl.fields[1].ty, range) && FieldOk(schema, LocationDecl.fields[1], range)
  {
    PlainFieldOk(schema, LocationDecl.fields[1], range);
  }

  lemma LocationFit(schema: Schema, uri: string, range: Value)
    requires RT(schema, TStruct("Range"), range)
    ensures FitFrom(schema, LocationDecl.fields, [VStr(uri), range], 0)
  {
    var vals := [VStr(uri), range];
    LocationFits1(schema, range);
    assert FitFrom(schema, LocationDecl.fields, vals, 1);
    LocationFits0(schema, uri);
    assert FitFrom(schema, LocationDecl.fields, vals, 0);
  }

  /** A Location with a round-trippable range round-trips. */
  lemma LocationRT(schema: Schema, uri: string, range: Value)
    requires Declares(schema, "Location", LocationDecl)
    requires RT(schema, TStruct("Range"), range)
    ensures RT(schema, TStruct("Location"), LocationOf(uri, range))
  {
    LocationNames();
    LocationFit(schema, uri, range);
    InstanceRT(schema, "Location", [VStr(uri), range]);
  }

  lemma LocationLinkKey0Name()
    ensures LocationLinkDecl.fields[0].name == "target" + "_" + "uri"
  {
  }

  lemma LocationLinkKey0Words()
    ensures "targetUri" == "target" + [ToUpper("uri"[0])] + "uri"[1..]
    ensures NoUnderscore("target") && IsLowerWord("uri")
  {
  }

  lemma LocationLinkKey0()
    ensures KeyOf(LocationLinkDecl.fields[0]) == "targetUri"
  {
    LocationLinkKey0Name();
    LocationLinkKey0Words();
    KeyTwo(LocationLinkDecl.fields[0], "target", "uri", "targetUri");
  }

  lemma LocationLinkKey1Name()
    ensures LocationLinkDecl.fields[1].name == "target" + "_" + "range"
  {
  }

  lemma LocationLinkKey1Words()
    ensures "targetRange" == "target" + [ToUpper("range"[0])] + "range"[1..]
    ensures NoUnderscore("target") && IsLowerWord("range")
  {
  }

  lemma LocationLinkKey1()
    ensures KeyOf(LocationLinkDecl.fields[1]) == "targetRange"
  {
    LocationLinkKey1Name();
    LocationLinkKey1Words();
    KeyTwo(LocationLinkDecl.fields[1], "target", "range", "targetRange");
  }

  lemma LocationLinkKey2Name()
    ensures LocationLinkDecl.fields[2].name == "target" + "_" + "selection" + "_" + "range"
  {
  }

  lemma LocationLinkKey2Words()
    ensures "targetSelectionRange" == "target" + [ToUpper("selection"[0])] + "selection"[1..] + [ToUpper("range"[0])] + "range"[1..]
    ensures NoUnderscore("target") && IsLowerWord("selection") && IsLowerWord("range")
  {
  }

  lemma LocationLinkKey2()
    ensures KeyOf(LocationLinkDecl.fields[2]) == "targetSelectionRange"
  {
    LocationLinkKey2Name();
    LocationLinkKey2Words();
    KeyThree(LocationLinkDecl.fields[2], "target", "selection", "range", "targetSelectionRange");
  }

  lemma LocationLinkKey3Name()
    ensures LocationLinkDecl.fields[3].name == "origin" + "_" + "selection" + "_" + "range"
  {
  }

  lemma LocationLinkKey3Words()
    ensures "originSelectionRange" == "origin" + [ToUpper("selection"[0])] + "selection"[1..] + [ToUpper("range"[0])] + "range"[1..]
    ensures NoUnderscore("origin") && IsLowerWord("selection") && IsLowerWord("range")
  {
  }

  lemma LocationLinkKey3()
    ensures KeyOf(LocationLinkDecl.fields[3]) == "originSelectionRange"
  {
    LocationLinkKey3Name();
    LocationLinkKey3Words();
    KeyThree(LocationLinkDecl.fields[3], "origin", "selection", "range", "originSelectionRange");
  }

  /** The keys of LocationLink are the camelCase of its field names. */
  lemma LocationLinkKeys()
    ensures var fields := LocationLinkDecl.fields;
            KeyOf(fields[0]) == "targetUri" &&
            KeyOf(fields[1]) == "targetRange" &&
            KeyOf(fields[2]) == "targetSelectionRange" &&
            KeyOf(fields[3]) == "originSelectionRange"
  {
    LocationLinkKey0();
    LocationLinkKey1();
    LocationLinkKey2();
    LocationLinkKey3();
  }

  lemma LocationLinkNames()
    ensures DistinctNames(LocationLinkDecl.fields) && DistinctKeys(LocationLinkDecl.fields)
    ensures NamesUpTo(LocationLinkDecl.fields, 4) == {"target_uri", "target_range", "target_selection_range", "origin_selection_range"}
  {
    LocationLinkFields();
    LocationLinkSnake();
    SnakeKeys(LocationLinkDecl.fields);
  }

  lemma LocationLinkSnake3()
    ensures PlainSnakeFrom(LocationLinkDecl.fields, 3)
  {
    assert IsSnake("origin_selection_range");
  }

  lemma LocationLinkSnake2()
    ensures PlainSnakeFrom(LocationLinkDecl.fields, 2)
  {
    LocationLinkSnake3();
    assert IsSnake("target_selection_range");
  }

  lemma LocationLinkSnake()
    ensures PlainSnakeFrom(LocationLinkDecl.fields, 0)
  {
    LocationLinkSnake2();
    assert IsSnake("target_range");
    assert PlainSnakeFrom(LocationLinkDecl.fields, 1);
    assert IsSnake("target_uri");
  }

  lemma LocationLinkFields()
    ensures NamesUpTo(LocationLinkDecl.fields, 4) == {"target_uri", "target_range", "target_selection_range", "origin_selection_range"}
    ensures DistinctNames(LocationLinkDecl.fields)
  {
    var fields := LocationLinkDecl.fields;
    assert fields[0].name == "target_uri";
    assert fields[1].name == "target_range";
    assert fields[2].name == "target_selection_range";
    assert fields[3].name == "origin_selection_range";
  }

  lemma LocationLinkFits0(schema: Schema, targetUri: string)
    ensures RT(schema, LocationLinkDecl.fields[0].ty, VStr(targetUri)) && FieldOk(schema, LocationLinkDecl.fields[0], VStr(targetUri))
  {
    PlainFieldOk(schema, LocationLinkDecl.fields[0], VStr(targetUri));
  }

  lemma LocationLinkFits1(schema: Schema, targetRange: Value)
    requires RT(schema, TStruct("Range"), targetRange)
    ensures RT(schema, LocationLinkDecl.fields[1].ty, targetRange) && FieldOk(schema, LocationLinkDecl.fields[1], targetRange)
  {
    PlainFieldOk(schema, LocationLinkDecl.fields[1], targetRange);
  }

  lemma LocationLinkFits2(schema: Schema, targetSelectionRange: Value)
    requires RT(schema, TStruct("Range"), targetSelectionRange)
    ensures RT(schema, LocationLinkDecl.fields[2].ty, targetSelectionRange) && FieldOk(schema, LocationLinkDecl.fields[2], targetSelectionRange)
  {
    PlainFieldOk(schema, LocationLinkDecl.fields[2], targetSelectionRange);
  }

  lemma LocationLinkFits3(schema: Schema, originSelectionRange: Value)
    requires originSelectionRange == VNone || RT(schema, TStruct("Range"), originSelectionRange)
    ensures RT(schema, LocationLinkDecl.fields[3].ty, originSelectionRange) && FieldOk(schema, LocationLinkDecl.fields[3], originSelectionRange)
  {
    OptionalRT(schema, TStruct("Range"), originSelectionRange);
    PlainFieldOk(schema, LocationLinkDecl.fields[3], originSelectionRange);
  }

  lemma LocationLinkFit(schema: Schema, targetUri: string, targetRange: Value, targetSelectionRange: Value, originSelectionRange: Value)
    requires RT(schema, TStruct("Range"), targetRange)
    requires RT(schema, TStruct("Range"), targetSelectionRange)
    requires originSelectionRange == VNone || RT(schema, TStruct("Range"), originSelectionRange)
    ensures FitFrom(schema, LocationLinkDecl.fields, [VStr(targetUri), targetRange, targetSelectionRange, originSelectionRange], 0)
  {
    var vals := [VStr(targetUri), targetRange, targetSelectionRange, originSelectionRange];
    LocationLinkFits3(schema, originSelectionRange);
    assert FitFrom(schema, LocationLinkDecl.fields, vals, 3);
    LocationLinkFits2(schema, targetSelectionRange);
    assert FitFrom(schema, LocationLinkDecl.fields, vals, 2);
    LocationLinkFits1(schema, targetRange);
    assert FitFrom(schema, LocationLinkDecl.fields, vals, 1);
    LocationLinkFits0(schema, targetUri);
    assert FitFrom(schema, LocationLinkDecl.fields, vals, 0);
  }

  /** A LocationLink with round-trippable ranges, the origin range optional, round-trips. */
  lemma LocationLinkRT(schema: Schema, targetUri: string, targetRange: Value, targetSelectionRange: Value, originSelectionRange: Value)
    requires Declares(schema, "LocationLink", LocationLinkDecl)
    requires RT(schema, TStruct("Range"), targetRange) && RT(schema, TStruct("Range"), targetSelectionRange)
    requires originSelectionRange == VNone || RT(schema, TStruct("Range"), originSelectionRange)
    ensures RT(schema, TStruct("LocationLink"), LocationLinkOf(targetUri, targetRange, targetSelectionRange, originSelectionRange))
  {
    LocationLinkNames();
    LocationLinkFit(schema, targetUri, targetRange, targetSelectionRange, originSelectionRange);
    InstanceRT(schema, "LocationLink", [VStr(targetUri), targetRange, targetSelectionRange, originSelectionRange]);
  }

  lemma CodeDescriptionKey0()
    ensures KeyOf(CodeDescriptionDecl.fields[0]) == "href"
  {
    KeyIsName(CodeDescriptionDecl.fields[0]);
  }

  /** The keys of CodeDescription are the camelCase of its field names. */
  lemma CodeDescriptionKeys()
    ensures var fields := CodeDescriptionDecl.fields;
            KeyOf(fields[0]) == "href"
  {
    CodeDescriptionKey0();
  }

  lemma CodeDescriptionNames()
    ensures DistinctNames(CodeDescriptionDecl.fields) && DistinctKeys(CodeDescriptionDecl.fields)
    ensures NamesUpTo(CodeDescriptionDecl.fields, 1) == {"href"}
  {
    CodeDescriptionFields();
    CodeDescriptionSnake();
    SnakeKeys(CodeDescriptionDecl.fields);
  }

  lemma CodeDescriptionSnake()
    ensures PlainSnakeFrom(CodeDescriptionDecl.fields, 0)
  {
    assert IsSnake("href");
    assert PlainSnakeFrom(CodeDescriptionDecl.fields, 0);
  }

  lemma CodeDescriptionFields()
    ensures NamesUpTo(CodeDescriptionDecl.fields, 1) == {"href"}
    ensures DistinctNames(CodeDescriptionDecl.fields)
  {
    var fields := CodeDescriptionDecl.fields;
    assert fields[0].name == "href";
  }

  lemma CodeDescriptionFits0(schema: Schema, href: string)
    ensures RT(schema, CodeDescriptionDecl.fields[0].ty, VStr(href)) && FieldOk(schema, CodeDescriptionDecl.fields[0], VStr(href))
  {
    PlainFieldOk(schema, CodeDescriptionDecl.fields[0], VStr(href));
  }

  lemma CodeDescriptionFit(schema: Schema, href: string)
    ensures FitFrom(schema, CodeDescriptionDecl.fields, [VStr(href)], 0)
  {
    var vals := [VStr(href)];
    CodeDescriptionFits0(schema, href);
    assert FitFrom(schema, CodeDescriptionDecl.fields, vals, 0);
  }

  lemma CodeDescriptionRT(schema: Schema, href: string)
    requires Declares(schema, "CodeDescription", CodeDescriptionDecl)
    ensures RT(schema, TStruct("CodeDescription"), CodeDescriptionOf(href))
  {
    CodeDescriptionNames();
    CodeDescriptionFit(schema, href);
    InstanceRT(schema, "CodeDescription", [VStr(href)]);
  }

  lemma DiagnosticRelatedInformationKey0()
    ensures KeyOf(DiagnosticRelatedInformationDecl.fields[0]) == "location"
  {
    KeyIsName(DiagnosticRelatedInformationDecl.fields[0]);
  }

  lemma DiagnosticRelatedInformationKey1()
    ensures KeyOf(DiagnosticRelatedInformationDecl.fields[1]) == "message"
  {
    KeyIsName(DiagnosticRelatedInformationDecl.fields[1]);
  }

  /** The keys of DiagnosticRelatedInformation are the camelCase of its field names. */
  lemma DiagnosticRelatedInformationKeys()
    ensures var fields := DiagnosticRelatedInformationDecl.fields;
            KeyOf(fields[0]) == "location" &&
            KeyOf(fields[1]) == "message"
  {
    DiagnosticRelatedInformationKey0();
    DiagnosticRelatedInformationKey1();
  }

  lemma DiagnosticRelatedInformationNames()
    ensures DistinctNames(DiagnosticRelatedInformationDecl.fields) && DistinctKeys(DiagnosticRelatedInformationDecl.fields)
    ensures NamesUpTo(DiagnosticRelatedInformationDecl.fields, 2) == {"location", "message"}
  {
    DiagnosticRelatedInformationFields();
    DiagnosticRelatedInformationSnake();
    SnakeKeys(DiagnosticRelatedInformationDecl.fields);
  }

  lemma DiagnosticRelatedInformationSnake()
    ensures PlainSnakeFrom(DiagnosticRelatedInformationDecl.fields, 0)
  {
    assert IsSnake("message");
    assert PlainSnakeFrom(DiagnosticRelatedInformationDecl.fields, 1);
    assert IsSnake("location");
    assert PlainSnakeFrom(DiagnosticRelatedInformationDecl.fields, 0);
  }

  lemma DiagnosticRelatedInformationFields()
    ensures NamesUpTo(DiagnosticRelatedInformationDecl.fields, 2) == {"location", "message"}
    ensures DistinctNames(DiagnosticRelatedInformationDecl.fields)
  {
    var fields := DiagnosticRelatedInformationDecl.fields;
    assert fields[0].name == "location";
    assert fields[1].name == "message";
  }

  lemma DiagnosticRelatedInformationFits0(schema: Schema, location: Value)
    requires RT(schema, TStruct("Location"), location)
    ensures RT(schema, DiagnosticRelatedInformationDecl.fields[0].ty, location) && FieldOk(schema, DiagnosticRelatedInformationDecl.fields[0], location)
  {
    PlainFieldOk(schema, DiagnosticRelatedInformationDecl.fields[0], location);
  }

  lemma DiagnosticRelatedInformationFits1(schema: Schema, message: string)
    ensures RT(schema, DiagnosticRelatedInformationDecl.fields[1].ty, VStr(message)) && FieldOk(schema, DiagnosticRelatedInformationDecl.fields[1], VStr(message))
  {
    PlainFieldOk(schema, DiagnosticRelatedInformationDecl.fields[1], VStr(message));
  }

  lemma DiagnosticRelatedInformationFit(schema: Schema, location: Value, message: string)
    requires RT(schema, TStruct("Location"), location)
    ensures FitFrom(schema, DiagnosticRelatedInformationDecl.fields, [location, VStr(message)], 0)
  {
    var vals := [location, VStr(message)];
    DiagnosticRelatedInformationFits1(schema, message);
    assert FitFrom(schema, DiagnosticRelatedInformationDecl.fields, vals, 1);
    DiagnosticRelatedInformationFits0(schema, location);
    assert FitFrom(schema, DiagnosticRelatedInformationDecl.fields, vals, 0);
  }

  lemma DiagnosticRelatedInformationRT(schema: Schema, location: Value, message: string)
    requires Declares(schema, "DiagnosticRelatedInformation", DiagnosticRelatedInformationDecl)
    requires RT(schema, TStruct("Location"), location)
    ensures RT(schema, TStruct("DiagnosticRelatedInformation"), DiagnosticRelatedInformationOf(location, message))
  {
    DiagnosticRelatedInformationNames();
    DiagnosticRelatedInformationFit(schema, location, message);
    InstanceRT(schema, "DiagnosticRelatedInformation", [location, VStr(message)]);
  }

  lemma DiagnosticNames()
    ensures DistinctNames(DiagnosticDecl.fields) && DistinctKeys(DiagnosticDecl.fields)
    ensures NamesUpTo(DiagnosticDecl.fields, 9) == {"range", "message", "severity", "code", "code_description", "source", "tags", "related_information", "data"}
  {
    DiagnosticFields();
    DiagnosticSnake();
    SnakeKeys(DiagnosticDecl.fields);
  }

  lemma DiagnosticSnake7()
    ensures PlainSnakeFrom(DiagnosticDecl.fields, 7)
  {
    assert IsSnake("data");
    assert PlainSnakeFrom(DiagnosticDecl.fields, 8);
    assert IsSnake("related_information");
  }

  lemma DiagnosticSnake4()
    ensures PlainSnakeFrom(DiagnosticDecl.fields, 4)
  {
    DiagnosticSnake7();
    assert IsSnake("tags");
    assert PlainSnakeFrom(DiagnosticDecl.fields, 6);
    assert IsSnake("source");
    assert PlainSnakeFrom(DiagnosticDecl.fields, 5);
    assert IsSnake("code_description");
  }

  lemma DiagnosticSnake()
    ensures PlainSnakeFrom(DiagnosticDecl.fields, 0)
  {
    DiagnosticSnake4();
    assert IsSnake("code");
    assert PlainSnakeFrom(DiagnosticDecl.fields, 3);
    assert IsSnake("severity");
    assert PlainSnakeFrom(DiagnosticDecl.fields, 2);
    assert IsSnake("message");
    assert PlainSnakeFrom(DiagnosticDecl.fields, 1);
    assert IsSnake("range");
    assert PlainSnakeFrom(DiagnosticDecl.fields, 0);
  }

  lemma DiagnosticFields()
    ensures NamesUpTo(DiagnosticDecl.fields, 9) == {"range", "message", "severity", "code", "code_description", "source", "tags", "related_information", "data"}
    ensures DistinctNames(DiagnosticDecl.fields)
  {
    var fields := DiagnosticDecl.fields;
    assert fields[0].name == "range";
    assert fields[1].name == "message";
    assert fields[2].name == "severity";
    assert fields[3].name == "code";
    assert fields[4].name == "code_description";
    assert fields[5].name == "source";
    assert fields[6].name == "tags";
    assert fields[7].name == "related_information";
    assert fields[8].name == "data";
  }

  lemma DiagnosticFits0(schema: Schema, range: Value)
    requires RT(schema, TStruct("Range"), range)
    ensures RT(schema, DiagnosticDecl.fields[0].ty, range) && FieldOk(schema, DiagnosticDecl.fields[0], range)
  {
    PlainFieldOk(schema, DiagnosticDecl.fields[0], range);
  }

  lemma DiagnosticFits1(schema: Schema, message: string)
    ensures RT(schema, DiagnosticDecl.fields[1].ty, VStr(message)) && FieldOk(schema, DiagnosticDecl.fields[1], VStr(message))
  {
    PlainFieldOk(schema, DiagnosticDecl.fields[1], VStr(message));
  }

  lemma DiagnosticFits2(schema: Schema, severity: Value)
    requires severity == VNone || RT(schema, DiagnosticSeverity, severity)
    ensures RT(schema, DiagnosticDecl.fields[2].ty, severity) && FieldOk(schema, DiagnosticDecl.fields[2], severity)
  {
    OptionalRT(schema, DiagnosticSeverity, severity);
    PlainFieldOk(schema, DiagnosticDecl.fields[2], severity);
  }

  lemma DiagnosticFits3(schema: Schema, code: Value)
    requires code == VNone || code.VInt? || code.VStr?
    ensures RT(schema, DiagnosticDecl.fields[3].ty, code) && FieldOk(schema, DiagnosticDecl.fields[3], code)
  {
    CodeRT(schema, code);
    PlainFieldOk(schema, DiagnosticDecl.fields[3], code);
  }

  lemma DiagnosticFits4(schema: Schema, codeDescription: Value)
    requires codeDescription == VNone || RT(schema, TStruct("CodeDescription"), codeDescription)
    ensures RT(schema, DiagnosticDecl.fields[4].ty, codeDescription) && FieldOk(schema, DiagnosticDecl.fields[4], codeDescription)
  {
    OptionalRT(schema, TStruct("CodeDescription"), codeDescription);
    PlainFieldOk(schema, DiagnosticDecl.fields[4], codeDescription);
  }

  lemma DiagnosticFits5(schema: Schema, source: Value)
    requires source == VNone || source.VStr?
    ensures RT(schema, DiagnosticDecl.fields[5].ty, source) && FieldOk(schema, DiagnosticDecl.fields[5], source)
  {
    OptionalRT(schema, TStr, source);
    PlainFieldOk(schema, DiagnosticDecl.fields[5], source);
  }

  lemma DiagnosticFits6(schema: Schema, tags: Value)
    requires tags == VNone || RT(schema, TList(DiagnosticTag), tags)
    ensures RT(schema, DiagnosticDecl.fields[6].ty, tags) && FieldOk(schema, DiagnosticDecl.fields[6], tags)
  {
    OptionalRT(schema, TList(DiagnosticTag), tags);
    PlainFieldOk(schema, DiagnosticDecl.fields[6], tags);
  }

  lemma DiagnosticFits7(schema: Schema, relatedInformation: Value)
    requires relatedInformation == VNone || RT(schema, TList(TStruct("DiagnosticRelatedInformation")), relatedInformation)
    ensures RT(schema, DiagnosticDecl.fields[7].ty, relatedInformation) && FieldOk(schema, DiagnosticDecl.fields[7], relatedInformation)
  {
    OptionalRT(schema, TList(TStruct("DiagnosticRelatedInformation")), relatedInformation);
    PlainFieldOk(schema, DiagnosticDecl.fields[7], relatedInformation);
  }

  lemma DiagnosticFits8(schema: Schema, data: Value)
    requires IsJson(data)
    ensures RT(schema, DiagnosticDecl.fields[8].ty, data) && FieldOk(schema, DiagnosticDecl.fields[8], data)
  {
    PlainFieldOk(schema, DiagnosticDecl.fields[8], data);
  }

  lemma DiagnosticFitFrom8(schema: Schema, range: Value, message: string, severity: Value, code: Value, codeDescription: Value, source: Value, tags: Value, relatedInformation: Value, data: Value)
    requires IsJson(data)
    ensures FitFrom(schema, DiagnosticDecl.fields, [range, VStr(message), severity, code, codeDescription, source, tags, relatedInformation, data], 8)
  {
    DiagnosticFits8(schema, data);
    assert FitFrom(schema, DiagnosticDecl.fields, [range, VStr(message), severity, code, codeDescription, source, tags, relatedInformation, data], 8);
  }

  lemma DiagnosticFitFrom7(schema: Schema, range: Value, message: string, severity: Value, code: Value, codeDescription: Value, source: Value, tags: Value, relatedInformation: Value, data: Value)
    requires relatedInformation == VNone || RT(schema, TList(TStruct("DiagnosticRelatedInformation")), relatedInformation)
    requires IsJson(data)
    ensures FitFrom(schema, DiagnosticDecl.fields, [range, VStr(message), severity, code, codeDescription, source, tags, relatedInformation, data], 7)
  {
    DiagnosticFitFrom8(schema, range, message, severity, code, codeDescription, source, tags, relatedInformation, data);
    DiagnosticFits7(schema, relatedInformation);
    assert FitFrom(schema, DiagnosticDecl.fields, [range, VStr(message), severity, code, codeDescription, source, tags, relatedInformation, data], 7);
  }

  lemma DiagnosticFitFrom6(schema: Schema, range: Value, message: string, severity: Value, code: Value, codeDescription: Value, source: Value, tags: Value, relatedInformation: Value, data: Value)
    requires tags == VNone || RT(schema, TList(DiagnosticTag), tags)
    requires relatedInformation == VNone || RT(schema, TList(TStruct("DiagnosticRelatedInformation")), relatedInformation)
    requires IsJson(data)
    ensures FitFrom(schema, DiagnosticDecl.fields, [range, VStr(message), severity, code, codeDescription, source, tags, relatedInformation, data], 6)
  {
    DiagnosticFitFrom7(schema, range, message, severity, code, codeDescription, source, tags, relatedInformation, data);
    DiagnosticFits6(schema, tags);
    assert FitFrom(schema, DiagnosticDecl.fields, [range, VStr(message), severity, code, codeDescription, source, tags, relatedInformation, data], 6);
  }

  lemma DiagnosticFitFrom5(schema: Schema, range: Value, message: string, severity: Value, code: Value, codeDescription: Value, source: Value, tags: Value, relatedInformation: Value, data: Value)
    requires source == VNone || source.VStr?
    requires tags == VNone || RT(schema, TList(DiagnosticTag), tags)
    requires relatedInformation == VNone || RT(schema, TList(TStruct("DiagnosticRelatedInformation")), relatedInformation)
    requires IsJson(data)
    ensures FitFrom(schema, DiagnosticDecl.fields, [range, VStr(message), severity, code, codeDescription, source, tags, relatedInformation, data], 5)
  {
    DiagnosticFitFrom6(schema, range, message, severity, code, codeDescription, source, tags, relatedInformation, data);
    DiagnosticFits5(schema, source);
    assert FitFrom(schema, DiagnosticDecl.fields, [range, VStr(message), severity, code, codeDescription, source, tags, relatedInformation, data], 5);
  }

  lemma DiagnosticFitFrom4(schema: Schema, range: Value, message: string, severity: Value, code: Value, codeDescription: Value, source: Value, tags: Value, relatedInformation: Value, data: Value)
    requires codeDescription == VNone || RT(schema, TStruct("CodeDescription"), codeDescription)
    requires source == VNone || source.VStr?
    requires tags == VNone || RT(schema, TList(DiagnosticTag), tags)
    requires relatedInformation == VNone || RT(schema, TList(TStruct("DiagnosticRelatedInformation")), relatedInformation)
    requires IsJson(data)
    ensures FitFrom(schema, DiagnosticDecl.fields, [range, VStr(message), severity, code, codeDescription, source, tags, relatedInformation, data], 4)
  {
    DiagnosticFitFrom5(schema, range, message, severity, code, codeDescription, source, tags, relatedInformation, data);
    DiagnosticFits4(schema, codeDescription);
    assert FitFrom(schema, DiagnosticDecl.fields, [range, VStr(message), severity, code, codeDescription, source, tags, relatedInformation, data], 4);
  }

  lemma DiagnosticFitFrom3(schema: Schema, range: Value, message: string, severity: Value, code: Value, codeDescription: Value, source: Value, tags: Value, relatedInformation: Value, data: Value)
    requires code == VNone || code.VInt? || code.VStr?
    requires codeDescription == VNone || RT(schema, TStruct("CodeDescription"), codeDescription)
    requires source == VNone || source.VStr?
    requires tags == VNone || RT(schema, TList(DiagnosticTag), tags)
    requires relatedInformation == VNone || RT(schema, TList(TStruct("DiagnosticRelatedInformation")), relatedInformation)
    requires IsJson(data)
    ensures FitFrom(schema, DiagnosticDecl.fields, [range, VStr(message), severity, code, codeDescription, source, tags, relatedInformation, data], 3)
  {
    DiagnosticFitFrom4(schema, range, message, severity, code, codeDescription, source, tags, relatedInformation, data);
    DiagnosticFits3(schema, code);
    assert FitFrom(schema, DiagnosticDecl.fields, [range, VStr(message), severity, code, codeDescription, source, tags, relatedInformation, data], 3);
  }

  lemma DiagnosticFitFrom2(schema: Schema, range: Value, message: string, severity: Value, code: Value, codeDescription: Value, source: Value, tags: Value, relatedInformation: Value, data: Value)
    requires severity == VNone || RT(schema, DiagnosticSeverity, severity)
    requires code == VNone || code.VInt? || code.VStr?
    requires codeDescription == VNone || RT(schema, TStruct("CodeDescription"), codeDescription)
    requires source == VNone || source.VStr?
    requires tags == VNone || RT(schema, TList(DiagnosticTag), tags)
    requires relatedInformation == VNone || RT(schema, TList(TStruct("DiagnosticRelatedInformation")), relatedInformation)
    requires IsJson(data)
    ensures FitFrom(schema, DiagnosticDecl.fields, [range, VStr(message), severity, code, codeDescription, source, tags, relatedInformation, data], 2)
  {
    DiagnosticFitFrom3(schema, range, message, severity, code, codeDescription, source, tags, relatedInformation, data);
    DiagnosticFits2(schema, severity);
    assert FitFrom(schema, DiagnosticDecl.fields, [range, VStr(message), severity, code, codeDescription, source, tags, relatedInformation, data], 2);
  }

  lemma DiagnosticFitFrom1(schema: Schema, range: Value, message: string, severity: Value, code: Value, codeDescription: Value, source: Value, tags: Value, relatedInformation: Value, data: Value)
    requires severity == VNone || RT(schema, DiagnosticSeverity, severity)
    requires code == VNone || code.VInt? || code.VStr?
    requires codeDescription == VNone || RT(schema, TStruct("CodeDescription"), codeDescription)
    requires source == VNone || source.VStr?
    requires tags == VNone || RT(schema, TList(DiagnosticTag), tags)
    requires relatedInformation == VNone || RT(schema, TList(TStruct("DiagnosticRelatedInformation")), relatedInformation)
    requires IsJson(data)
    ensures FitFrom(schema, DiagnosticDecl.fields, [range, VStr(message), severity, code, codeDescription, source, tags, relatedInformation, data], 1)
  {
    DiagnosticFitFrom2(schema, range, message, severity, code, codeDescription, source, tags, relatedInformation, data);
    DiagnosticFits1(schema, message);
    assert FitFrom(schema, DiagnosticDecl.fields, [range, VStr(message), severity, code, codeDescription, source, tags, relatedInformation, data], 1);
  }

  lemma DiagnosticFit(schema: Schema, range: Value, message: string, severity: Value, code: Value, codeDescription: Value, source: Value, tags: Value, relatedInformation: Value, data: Value)
    requires RT(schema, TStruct("Range"), range)
    requires severity == VNone || RT(schema, DiagnosticSeverity, severity)
    requires code == VNone || code.VInt? || code.VStr?
    requires codeDescription == VNone || RT(schema, TStruct("CodeDescription"), codeDescription)
    requires source == VNone || source.VStr?
    requires tags == VNone || RT(schema, TList(DiagnosticTag), tags)
    requires relatedInformation == VNone || RT(schema, TList(TStruct("DiagnosticRelatedInformation")), relatedInformation)
    requires IsJson(data)
    ensures FitFrom(schema, DiagnosticDecl.fields, [range, VStr(message), severity, code, codeDescription, source, tags, relatedInformation, data], 0)
  {
    DiagnosticFitFrom1(schema, range, message, severity, code, codeDescription, source, tags, relatedInformation, data);
    DiagnosticFits0(schema, range);
    assert FitFrom(schema, DiagnosticDecl.fields, [range, VStr(message), severity, code, codeDescription, source, tags, relatedInformation, data], 0);
  }

  /** A Diagnostic round-trips with every optional field set or None: severity and tags as enum members, code an int or a str, data any JSON value. */
  lemma DiagnosticRT(schema: Schema, range: Value, message: string, severity: Value, code: Value, codeDescription: Value, source: Value, tags: Value, relatedInformation: Value, data: Value)
    requires Declares(schema, "Diagnostic", DiagnosticDecl)
    requires RT(schema, TStruct("Range"), range)
    requires severity == VNone || RT(schema, DiagnosticSeverity, severity)
    requires code == VNone || code.VInt? || code.VStr?
    requires codeDescription == VNone || RT(schema, TStruct("CodeDescription"), codeDescription)
    requires source == VNone || source.VStr?
    requires tags == VNone || RT(schema, TList(DiagnosticTag), tags)
    requires relatedInformation == VNone || RT(schema, TList(TStruct("DiagnosticRelatedInformation")), relatedInformation)
    requires IsJson(data)
    ensures RT(schema, TStruct("Diagnostic"), DiagnosticOf(range, message, severity, code, codeDescription, source, tags, relatedInformation, data))
  {
    var vals := [range, VStr(message), severity, code, codeDescription, source, tags, relatedInformation, data];
    assert DistinctNames(DiagnosticDecl.fields) && DistinctKeys(DiagnosticDecl.fields) && FitFrom(schema, DiagnosticDecl.fields, vals, 0) by {
      DiagnosticNames();
      DiagnosticFit(schema, range, message, severity, code, codeDescription, source, tags, relatedInformation, data);
    }
    DeclaredInstanceRT(schema, "Diagnostic", DiagnosticDecl, vals);
  }

  lemma CommandKey0()
    ensures KeyOf(CommandDecl.fields[0]) == "title"
  {
    KeyIsName(CommandDecl.fields[0]);
  }

  lemma CommandKey1()
    ensures KeyOf(CommandDecl.fields[1]) == "command"
  {
    KeyIsName(CommandDecl.fields[1]);
  }

  lemma CommandKey2()
    ensures KeyOf(CommandDecl.fields[2]) == "arguments"
  {
    KeyIsName(CommandDecl.fields[2]);
  }

  /** The keys of Command are the camelCase of its field names. */
  lemma CommandKeys()
    ensures var fields := CommandDecl.fields;
            KeyOf(fields[0]) == "title" &&
            KeyOf(fields[1]) == "command" &&
            KeyOf(fields[2]) == "arguments"
  {
    CommandKey0();
    CommandKey1();
    CommandKey2();
  }

  lemma CommandNames()
    ensures DistinctNames(CommandDecl.fields) && DistinctKeys(CommandDecl.fields)
    ensures NamesUpTo(CommandDecl.fields, 3) == {"title", "command", "arguments"}
  {
    CommandFields();
    CommandSnake();
    SnakeKeys(CommandDecl.fields);
  }

  lemma CommandSnake()
    ensures PlainSnakeFrom(CommandDecl.fields, 0)
  {
    assert IsSnake("arguments");
    assert PlainSnakeFrom(CommandDecl.fields, 2);
    assert IsSnake("command");
    assert PlainSnakeFrom(CommandDecl.fields, 1);
    assert IsSnake("title");
    assert PlainSnakeFrom(CommandDecl.fields, 0);
  }

  lemma CommandFields()
    ensures NamesUpTo(CommandDecl.fields, 3) == {"title", "command", "arguments"}
    ensures DistinctNames(CommandDecl.fields)
  {
    var fields := CommandDecl.fields;
    assert fields[0].name == "title";
    assert fields[1].name == "command";
    assert fields[2].name == "arguments";
  }

  lemma CommandFits0(schema: Schema, title: string)
    ensures RT(schema, CommandDecl.fields[0].ty, VStr(title)) && FieldOk(schema, CommandDecl.fields[0], VStr(title))
  {
    PlainFieldOk(schema, CommandDecl.fields[0], VStr(title));
  }

  lemma CommandFits1(schema: Schema, command: string)
    ensures RT(schema, CommandDecl.fields[1].ty, VStr(command)) && FieldOk(schema, CommandDecl.fields[1], VStr(command))
  {
    PlainFieldOk(schema, CommandDecl.fields[1], VStr(command));
  }

  lemma CommandFits2(schema: Schema, arguments: Value)
    requires arguments == VNone || RT(schema, TList(TAny), arguments)
    ensures RT(schema, CommandDecl.fields[2].ty, arguments) && FieldOk(schema, CommandDecl.fields[2], arguments)
  {
    OptionalRT(schema, TList(TAny), arguments);
    PlainFieldOk(schema, CommandDecl.fields[2], arguments);
  }

  lemma CommandFit(schema: Schema, title: string, command: string, arguments: Value)
    requires arguments == VNone || RT(schema, TList(TAny), arguments)
    ensures FitFrom(schema, CommandDecl.fields, [VStr(title), VStr(command), arguments], 0)
  {
    var vals := [VStr(title), VStr(command), arguments];
    CommandFits2(schema, arguments);
    assert FitFrom(schema, CommandDecl.fields, vals, 2);
    CommandFits1(schema, command);
    assert FitFrom(schema, CommandDecl.fields, vals, 1);
    CommandFits0(schema, title);
    assert FitFrom(schema, CommandDecl.fields, vals, 0);
  }

  /** A Command whose arguments are JSON values, or None, round-trips. */
  lemma CommandRT(schema: Schema, title: string, command: string, arguments: Value)
    requires Declares(schema, "Command", CommandDecl)
    requires arguments == VNone || RT(schema, TList(TAny), arguments)
    ensures RT(schema, TStruct("Command"), CommandOf(title, command, arguments))
  {
    CommandNames();
    CommandFit(schema, title, command, arguments);
    InstanceRT(schema, "Command", [VStr(title), VStr(command), arguments]);
  }

  lemma TextEditKey0()
    ensures KeyOf(TextEditDecl.fields[0]) == "range"
  {
    KeyIsName(TextEditDecl.fields[0]);
  }

  lemma TextEditKey1Name()
    ensures TextEditDecl.fields[1].name == "new" + "_" + "text"
  {
  }

  lemma TextEditKey1Words()
    ensures "newText" == "new" + [ToUpper("text"[0])] + "text"[1..]
    ensures NoUnderscore("new") && IsLowerWord("text")
  {
  }

  lemma TextEditKey1()
    ensures KeyOf(TextEditDecl.fields[1]) == "newText"
  {
    TextEditKey1Name();
    TextEditKey1Words();
    KeyTwo(TextEditDecl.fields[1], "new", "text", "newText");
  }

  /** The keys of TextEdit are the camelCase of its field names. */
  lemma TextEditKeys()
    ensures var fields := TextEditDecl.fields;
            KeyOf(fields[0]) == "range" &&
            KeyOf(fields[1]) == "newText"
  {
    TextEditKey0();
    TextEditKey1();
  }

  lemma TextEditNames()
    ensures DistinctNames(TextEditDecl.fields) && DistinctKeys(TextEditDecl.fields)
    ensures NamesUpTo(TextEditDecl.fields, 2) == {"range", "new_text"}
  {
    TextEditFields();
    TextEditSnake();
    SnakeKeys(TextEditDecl.fields);
  }

  lemma TextEditSnake()
    ensures PlainSnakeFrom(TextEditDecl.fields, 0)
  {
    assert IsSnake("new_text");
    assert PlainSnakeFrom(TextEditDecl.fields, 1);
    assert IsSnake("range");
    assert PlainSnakeFrom(TextEditDecl.fields, 0);
  }

  lemma TextEditFields()
    ensures NamesUpTo(TextEditDecl.fields, 2) == {"range", "new_text"}
    ensures DistinctNames(TextEditDecl.fields)
  {
    var fields := TextEditDecl.fields;
    assert fields[0].name == "range";
    assert fields[1].name == "new_text";
  }

  lemma TextEditFits0(schema: Schema, range: Value)
    requires RT(schema, TStruct("Range"), range)
    ensures RT(schema, TextEditDecl.fields[0].ty, range) && FieldOk(schema, TextEditDecl.fields[0], range)
  {
    PlainFieldOk(schema, TextEditDecl.fields[0], range);
  }

  lemma TextEditFits1(schema: Schema, newText: string)
    ensures RT(schema, TextEditDecl.fields[1].ty, VStr(newText)) && FieldOk(schema, TextEditDecl.fields[1], VStr(newText))
  {
    PlainFieldOk(schema, TextEditDecl.fields[1], VStr(newText));
  }

  lemma TextEditFit(schema: Schema, range: Value, newText: string)
    requires RT(schema, TStruct("Range"), range)
    ensures FitFrom(schema, TextEditDecl.fields, [range, VStr(newText)], 0)
  {
    var vals := [range, VStr(newText)];
    TextEditFits1(schema, newText);
    assert FitFrom(schema, TextEditDecl.fields, vals, 1);
    TextEditFits0(schema, range);
    assert FitFrom(schema, TextEditDecl.fields, vals, 0);
  }

  lemma TextEditRT(schema: Schema, range: Value, newText: string)
    requires Declares(schema, "TextEdit", TextEditDecl)
    requires RT(schema, TStruct("Range"), range)
    ensures RT(schema, TStruct("TextEdit"), TextEditOf(range, newText))
  {
    TextEditNames();
    TextEditFit(schema, range, newText);
    InstanceRT(schema, "TextEdit", [range, VStr(newText)]);
  }

  lemma AnnotatedTextEditKey0()
    ensures KeyOf(AnnotatedTextEditDecl.fields[0]) == "range"
  {
    KeyIsName(AnnotatedTextEditDecl.fields[0]);
  }

  lemma AnnotatedTextEditKey1Name()
    ensures AnnotatedTextEditDecl.fields[1].name == "new" + "_" + "text"
  {
  }

  lemma AnnotatedTextEditKey1Words()
    ensures "newText" == "new" + [ToUpper("text"[0])] + "text"[1..]
    ensures NoUnderscore("new") && IsLowerWord("text")
  {
  }

  lemma AnnotatedTextEditKey1()
    ensures KeyOf(AnnotatedTextEditDecl.fields[1]) == "newText"
  {
    AnnotatedTextEditKey1Name();
    AnnotatedTextEditKey1Words();
    KeyTwo(AnnotatedTextEditDecl.fields[1], "new", "text", "newText");
  }

  lemma AnnotatedTextEditKey2Name()
    ensures AnnotatedTextEditDecl.fields[2].name == "annotation" + "_" + "id"
  {
  }

  lemma AnnotatedTextEditKey2Words()
    ensures "annotationId" == "annotation" + [ToUpper("id"[0])] + "id"[1..]
    ensures NoUnderscore("annotation") && IsLowerWord("id")
  {
  }

  lemma AnnotatedTextEditKey2()
    ensures KeyOf(AnnotatedTextEditDecl.fields[2]) == "annotationId"
  {
    AnnotatedTextEditKey2Name();
    AnnotatedTextEditKey2Words();
    KeyTwo(AnnotatedTextEditDecl.fields[2], "annotation", "id", "annotationId");
  }

  /** The keys of AnnotatedTextEdit are the camelCase of its field names. */
  lemma AnnotatedTextEditKeys()
    ensures var fields := AnnotatedTextEditDecl.fields;
            KeyOf(fields[0]) == "range" &&
            KeyOf(fields[1]) == "newText" &&
            KeyOf(fields[2]) == "annotationId"
  {
    AnnotatedTextEditKey0();
    AnnotatedTextEditKey1();
    AnnotatedTextEditKey2();
  }

  lemma AnnotatedTextEditNames()
    ensures DistinctNames(AnnotatedTextEditDecl.fields) && DistinctKeys(AnnotatedTextEditDecl.fields)
    ensures NamesUpTo(AnnotatedTextEditDecl.fields, 3) == {"range", "new_text", "annotation_id"}
  {
    AnnotatedTextEditFields();
    AnnotatedTextEditSnake();
    SnakeKeys(AnnotatedTextEditDecl.fields);
  }

  lemma AnnotatedTextEditSnake()
    ensures PlainSnakeFrom(AnnotatedTextEditDecl.fields, 0)
  {
    assert IsSnake("annotation_id");
    assert PlainSnakeFrom(AnnotatedTextEditDecl.fields, 2);
    assert IsSnake("new_text");
    assert PlainSnakeFrom(AnnotatedTextEditDecl.fields, 1);
    assert IsSnake("range");
    assert PlainSnakeFrom(AnnotatedTextEditDecl.fields, 0);
  }

  lemma AnnotatedTextEditFields()
    ensures NamesUpTo(AnnotatedTextEditDecl.fields, 3) == {"range", "new_text", "annotation_id"}
    ensures DistinctNames(AnnotatedTextEditDecl.fields)
  {
    var fields := AnnotatedTextEditDecl.fields;
    assert fields[0].name == "range";
    assert fields[1].name == "new_text";
    assert fields[2].name == "annotation_id";
  }

  lemma AnnotatedTextEditFits0(schema: Schema, range: Value)
    requires RT(schema, TStruct("Range"), range)
    ensures RT(schema, AnnotatedTextEditDecl.fields[0].ty, range) && FieldOk(schema, AnnotatedTextEditDecl.fields[0], range)
  {
    PlainFieldOk(schema, AnnotatedTextEditDecl.fields[0], range);
  }

  lemma AnnotatedTextEditFits1(schema: Schema, newText: string)
    ensures RT(schema, AnnotatedTextEditDecl.fields[1].ty, VStr(newText)) && FieldOk(schema, AnnotatedTextEditDecl.fields[1], VStr(newText))
  {
    PlainFieldOk(schema, AnnotatedTextEditDecl.fields[1], VStr(newText));
  }

  lemma AnnotatedTextEditFits2(schema: Schema, annotationId: string)
    ensures RT(schema, AnnotatedTextEditDecl.fields[2].ty, VStr(annotationId)) && FieldOk(schema, AnnotatedTextEditDecl.fields[2], VStr(annotationId))
  {
    PlainFieldOk(schema, AnnotatedTextEditDecl.fields[2], VStr(annotationId));
  }

  lemma AnnotatedTextEditFit(schema: Schema, range: Value, newText: string, annotationId: string)
    requires RT(schema, TStruct("Range"), range)
    ensures FitFrom(schema, AnnotatedTextEditDecl.fields, [range, VStr(newText), VStr(annotationId)], 0)
  {
    var vals := [range, VStr(newText), VStr(annotationId)];
    AnnotatedTextEditFits2(schema, annotationId);
    assert FitFrom(schema, AnnotatedTextEditDecl.fields, vals, 2);
    AnnotatedTextEditFits1(schema, newText);
    assert FitFrom(schema, AnnotatedTextEditDecl.fields, vals, 1);
    AnnotatedTextEditFits0(schema, range);
    assert FitFrom(schema, AnnotatedTextEditDecl.fields, vals, 0);
  }

  /** An AnnotatedTextEdit round-trips: the inherited range and new_text are written with its annotation_id. */
  lemma AnnotatedTextEditRT(schema: Schema, range: Value, newText: string, annotationId: string)
    requires Declares(schema, "AnnotatedTextEdit", AnnotatedTextEditDecl)
    requires RT(schema, TStruct("Range"), range)
    ensures RT(schema, TStruct("AnnotatedTextEdit"), AnnotatedTextEditOf(range, newText, annotationId))
  {
    AnnotatedTextEditNames();
    AnnotatedTextEditFit(schema, range, newText, annotationId);
    InstanceRT(schema, "AnnotatedTextEdit", [range, VStr(newText), VStr(annotationId)]);
  }

  lemma ClientServerInfoKey0()
    ensures KeyOf(ClientServerInfoDecl.fields[0]) == "name"
  {
    KeyIsName(ClientServerInfoDecl.fields[0]);
  }

  lemma ClientServerInfoKey1()
    ensures KeyOf(ClientServerInfoDecl.fields[1]) == "version"
  {
    KeyIsName(ClientServerInfoDecl.fields[1]);
  }

  /** The keys of ClientServerInfo are the camelCase of its field names. */
  lemma ClientServerInfoKeys()
    ensures var fields := ClientServerInfoDecl.fields;
            KeyOf(fields[0]) == "name" &&
            KeyOf(fields[1]) == "version"
  {
    ClientServerInfoKey0();
    ClientServerInfoKey1();
  }

  lemma ClientServerInfoNames()
    ensures DistinctNames(ClientServerInfoDecl.fields) && DistinctKeys(ClientServerInfoDecl.fields)
    ensures NamesUpTo(ClientServerInfoDecl.fields, 2) == {"name", "version"}
  {
    ClientServerInfoFields();
    ClientServerInfoSnake();
    SnakeKeys(ClientServerInfoDecl.fields);
  }

  lemma ClientServerInfoSnake()
    ensures PlainSnakeFrom(ClientServerInfoDecl.fields, 0)
  {
    assert IsSnake("version");
    assert PlainSnakeFrom(ClientServerInfoDecl.fields, 1);
    assert IsSnake("name");
    assert PlainSnakeFrom(ClientServerInfoDecl.fields, 0);
  }

  lemma ClientServerInfoFields()
    ensures NamesUpTo(ClientServerInfoDecl.fields, 2) == {"name", "version"}
    ensures DistinctNames(ClientServerInfoDecl.fields)
  {
    var fields := ClientServerInfoDecl.fields;
    assert fields[0].name == "name";
    assert fields[1].name == "version";
  }

  lemma ClientServerInfoFits0(schema: Schema, name: string)
    ensures RT(schema, ClientServerInfoDecl.fields[0].ty, VStr(name)) && FieldOk(schema, ClientServerInfoDecl.fields[0], VStr(name))
  {
    PlainFieldOk(schema, ClientServerInfoDecl.fields[0], VStr(name));
  }

  lemma ClientServerInfoFits1(schema: Schema, version: Value)
    requires version == VNone || version.VStr?
    ensures RT(schema, ClientServerInfoDecl.fields[1].ty, version) && FieldOk(schema, ClientServerInfoDecl.fields[1], version)
  {
    OptionalRT(schema, TStr, version);
    PlainFieldOk(schema, ClientServerInfoDecl.fields[1], version);
  }

  lemma ClientServerInfoFit(schema: Schema, name: string, version: Value)
    requires version == VNone || version.VStr?
    ensures FitFrom(schema, ClientServerInfoDecl.fields, [VStr(name), version], 0)
  {
    var vals := [VStr(name), version];
    ClientServerInfoFits1(schema, version);
    assert FitFrom(schema, ClientServerInfoDecl.fields, vals, 1);
    ClientServerInfoFits0(schema, name);
    assert FitFrom(schema, ClientServerInfoDecl.fields, vals, 0);
  }

  lemma ClientServerInfoRT(schema: Schema, name: string, version: Value)
    requires Declares(schema, "ClientServerInfo", ClientServerInfoDecl)
    requires version == VNone || version.VStr?
    ensures RT(schema, TStruct("ClientServerInfo"), ClientServerInfoOf(name, version))
  {
    ClientServerInfoNames();
    ClientServerInfoFit(schema, name, version);
    InstanceRT(schema, "ClientServerInfo", [VStr(name), version]);
  }

  lemma TextDocumentIdentifierKey0()
    ensures KeyOf(TextDocumentIdentifierDecl.fields[0]) == "uri"
  {
    KeyIsName(TextDocumentIdentifierDecl.fields[0]);
  }

  /** The keys of TextDocumentIdentifier are the camelCase of its field names. */
  lemma TextDocumentIdentifierKeys()
    ensures var fields := TextDocumentIdentifierDecl.fields;
            KeyOf(fields[0]) == "uri"
  {
    TextDocumentIdentifierKey0();
  }

  lemma TextDocumentIdentifierNames()
    ensures DistinctNames(TextDocumentIdentifierDecl.fields) && DistinctKeys(TextDocumentIdentifierDecl.fields)
    ensures NamesUpTo(TextDocumentIdentifierDecl.fields, 1) == {"uri"}
  {
    TextDocumentIdentifierFields();
    TextDocumentIdentifierSnake();
    SnakeKeys(TextDocumentIdentifierDecl.fields);
  }

  lemma TextDocumentIdentifierSnake()
    ensures PlainSnakeFrom(TextDocumentIdentifierDecl.fields, 0)
  {
    assert IsSnake("uri");
    assert PlainSnakeFrom(TextDocumentIdentifierDecl.fields, 0);
  }

  lemma TextDocumentIdentifierFields()
    ensures NamesUpTo(TextDocumentIdentifierDecl.fields, 1) == {"uri"}
    ensures DistinctNames(TextDocumentIdentifierDecl.fields)
  {
    var fields := TextDocumentIdentifierDecl.fields;
    assert fields[0].name == "uri";
  }

  lemma TextDocumentIdentifierFits0(schema: Schema, uri: string)
    ensures RT(schema, TextDocumentIdentifierDecl.fields[0].ty, VStr(uri)) && FieldOk(schema, TextDocumentIdentifierDecl.fields[0], VStr(uri))
  {
    PlainFieldOk(schema, TextDocumentIdentifierDecl.fields[0], VStr(uri));
  }

  lemma TextDocumentIdentifierFit(schema: Schema, uri: string)
    ensures FitFrom(schema, TextDocumentIdentifierDecl.fields, [VStr(uri)], 0)
  {
    var vals := [VStr(uri)];
    TextDocumentIdentifierFits0(schema, uri);
    assert FitFrom(schema, TextDocumentIdentifierDecl.fields, vals, 0);
  }

  lemma TextDocumentIdentifierRT(schema: Schema, uri: string)
    requires Declares(schema, "TextDocumentIdentifier", TextDocumentIdentifierDecl)
    ensures RT(schema, TStruct("TextDocumentIdentifier"), TextDocumentIdentifierOf(uri))
  {
    TextDocumentIdentifierNames();
    TextDocumentIdentifierFit(schema, uri);
    InstanceRT(schema, "TextDocumentIdentifier", [VStr(uri)]);
  }
}
