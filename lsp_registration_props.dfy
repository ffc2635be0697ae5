/**
 * What the registration options of lsp/types/registration_options.py promise
 * through the generic codec: the WatchKind bits, the documentSelector that is
 * written even when None, and the dicts a file system watcher is written as.
 */
module LspRegistrationProps {
  import opened Values
  import opened Naming
  import opened Codec
  import opened CodecLaws
  import opened CodecRoundTrip
  import opened CodecDefaults
  import opened LspBasicLaws
  import opened LspRegistration

  /** CREATE, CHANGE and DELETE are distinct bits; together they make 7, the value of an omitted kind. */
  lemma WatchKindBits(k: bv8)
    ensures Create & Change == 0 && Create & Delete == 0 && Change & Delete == 0
    ensures Create | Change | Delete == 7
    ensures IsWatchKind(k) <==> k <= 7
  {
  }

  /** The candidates tried for a watcher's kind that is not None: WatchKind only. */
  lemma KindCandidates()
    ensures Alternatives(Opt(WatchKind)) == [WatchKind] + [TNone]
    ensures RemoveFirst(Opt(WatchKind).alts, TNone) == [WatchKind]
  {
    RemoveTrailingNone([WatchKind]);
  }

  /** A WatchKind member, as `kind`, is written as its integer. */
  lemma WatchKindWritten(schema: Schema, k: bv8)
    ensures Serialize(schema, Opt(WatchKind), WatchKindMember(k)) == Ok(VInt(k as int))
  {
    KindCandidates();
    assert SerializeAlt(schema, WatchKind, WatchKindMember(k)) == Done(Ok(VInt(k as int)));
  }

  /**
   * WatchKind is an IntFlag, not an IntEnum, and has no str values: no JSON
   * value but null parses as a kind.
   */
  lemma WatchKindNeverParses(schema: Schema, v: Value)
    requires v != VNone
    ensures Deserialize(schema, Opt(WatchKind), v) == Err(ValueError)
  {
    KindCandidates();
    FlagNeverParses(schema, WatchKind, v);
    assert Deserialize(schema, WatchKind, v) == DeserializeAlts(schema, [WatchKind], v);
  }

  // ---------------------------------------------------------------------------
  // TextDocumentRegistrationOptions.

  lemma DocumentSelectorKey()
    ensures KeyOf(DocumentSelectorField) == "documentSelector" && IncludesNone(DocumentSelectorField)
  {
    KeyIsName(DocumentSelectorField);
  }

  /** `TextDocumentRegistrationOptions(document_selector=None).to_dict() == {'documentSelector': None}`. */
  lemma DocumentSelectorWrittenAsNull(schema: Schema)
    requires Declares(schema, "TextDocumentRegistrationOptions", TextDocumentRegistrationOptionsDecl)
    ensures ToDict(schema, VObj("TextDocumentRegistrationOptions", map["documentSelector" := VNone])) ==
            Ok(VDict(map["documentSelector" := VNone]))
  {
    var obj := VObj("TextDocumentRegistrationOptions", map["documentSelector" := VNone]);
    DocumentSelectorKey();
    assert FieldOut(schema, obj, DocumentSelectorField) == Ok(VNone);
    ToDictOnly(schema, obj, 0, VNone);
  }

  // ---------------------------------------------------------------------------
  // FileSystemWatcher.

  /** `FileSystemWatcher(glob_pattern, kind)`. */
  function WatcherOf(globPattern: string, kind: Value): Value
  {
    VObj("FileSystemWatcher", map["glob_pattern" := VStr(globPattern), "kind" := kind])
  }

  lemma GlobPatternKeyName()
    ensures FileSystemWatcherDecl.fields[0].name == "glob" + "_" + "pattern"
  {
  }

  lemma GlobPatternKeyWords()
    ensures "globPattern" == "glob" + [ToUpper("pattern"[0])] + "pattern"[1..]
    ensures NoUnderscore("glob") && IsLowerWord("pattern")
  {
  }

  lemma GlobPatternKey()
    ensures KeyOf(FileSystemWatcherDecl.fields[0]) == "globPattern"
  {
    GlobPatternKeyName();
    GlobPatternKeyWords();
    KeyTwo(FileSystemWatcherDecl.fields[0], "glob", "pattern", "globPattern");
  }

  lemma KindKey()
    ensures KeyOf(FileSystemWatcherDecl.fields[1]) == "kind"
  {
    KeyIsName(FileSystemWatcherDecl.fields[1]);
  }

  lemma WatcherKeys()
    ensures KeyOf(FileSystemWatcherDecl.fields[0]) == "globPattern" && KeyOf(FileSystemWatcherDecl.fields[1]) == "kind"
    ensures DistinctKeys(FileSystemWatcherDecl.fields)
  {
    GlobPatternKey();
    KindKey();
  }

  lemma GlobPatternOut(schema: Schema, globPattern: string, kind: Value)
    ensures FieldOut(schema, WatcherOf(globPattern, kind), FileSystemWatcherDecl.fields[0]) == Ok(VStr(globPattern))
  {
    SingleSerialize(schema, TStr, VStr(globPattern));
  }

  /** A watcher without a kind is written with its glob pattern only. */
  lemma WatcherWithoutKindToDict(schema: Schema, globPattern: string)
    requires Declares(schema, "FileSystemWatcher", FileSystemWatcherDecl)
    ensures ToDict(schema, WatcherOf(globPattern, VNone)) == Ok(VDict(map["globPattern" := VStr(globPattern)]))
  {
    var obj := WatcherOf(globPattern, VNone);
    WatcherKeys();
    GlobPatternOut(schema, globPattern, VNone);
    NoneArgOmitted(schema, obj, FileSystemWatcherDecl.fields[1]);
    ToDictOnly(schema, obj, 0, VStr(globPattern));
  }

  /** A watcher with a kind is written with its glob pattern and the kind's integer. */
  lemma WatcherWithKindToDict(schema: Schema, globPattern: string, k: bv8)
    requires Declares(schema, "FileSystemWatcher", FileSystemWatcherDecl)
    ensures ToDict(schema, WatcherOf(globPattern, WatchKindMember(k))) ==
            Ok(VDict(map["globPattern" := VStr(globPattern), "kind" := VInt(k as int)]))
  {
    var obj := WatcherOf(globPattern, WatchKindMember(k));
    WatcherKeys();
    GlobPatternOut(schema, globPattern, WatchKindMember(k));
    WatchKindWritten(schema, k);
    assert FieldOut(schema, obj, FileSystemWatcherDecl.fields[1]) == Ok(VInt(k as int));
    ToDictTwo(schema, obj, "globPattern", "kind");
  }

  /** A watcher dict that gives a kind cannot be parsed back. */
  lemma WatcherWithKindNeverParses(schema: Schema, d: map<string, Value>)
    requires Declares(schema, "FileSystemWatcher", FileSystemWatcherDecl)
    requires "kind" in d && d["kind"] != VNone
    ensures InitArg(schema, VDict(d), FileSystemWatcherDecl.fields[1]) == Err(ValueError)
    ensures FromDict(schema, "FileSystemWatcher", VDict(d)).Err?
  {
    WatcherKeys();
    WatchKindNeverParses(schema, d["kind"]);
    FromDictFails(schema, "FileSystemWatcher", VDict(d), 1);
  }

  // ---------------------------------------------------------------------------
  // DidChangeWatchedFilesRegistrationOptions.

  /** The watchers are written under "watchers", one by one, in order, each as its own `to_dict()`. */
  lemma WatchersToDict(schema: Schema, watchers: seq<Value>)
    requires Declares(schema, "DidChangeWatchedFilesRegistrationOptions", DidChangeWatchedFilesRegistrationOptionsDecl)
    requires forall i :: 0 <= i < |watchers| ==> watchers[i].VObj? && watchers[i].cls == "FileSystemWatcher"
    requires forall i :: 0 <= i < |watchers| ==> ToDict(schema, watchers[i]).Ok?
    ensures var s := Serialize(schema, TList(TStruct("FileSystemWatcher")), VList(watchers));
            s.Ok? &&
            ToDict(schema, VObj("DidChangeWatchedFilesRegistrationOptions", map["watchers" := VList(watchers)])) ==
            Ok(VDict(map["watchers" := s.value]))
  {
    var f := DidChangeWatchedFilesRegistrationOptionsDecl.fields[0];
    var obj := VObj("DidChangeWatchedFilesRegistrationOptions", map["watchers" := VList(watchers)]);
    StructListSerialize(schema, "FileSystemWatcher", watchers);
    KeyIsName(f);
    ToDictOnly(schema, obj, 0, Serialize(schema, f.ty, VList(watchers)).value);
  }
}
