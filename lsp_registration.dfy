/**
 * Registration options (lsp/types/registration_options.py) as schema entries
 * for the codec, and the WatchKind bit flags.
 */
module LspRegistration {
  import opened Values
  import opened Codec

  /** `documentSelector` keeps its camelCase name and is written even when None. */
  const DocumentSelectorField := Field("documentSelector", Opt(TList(TStruct("DocumentFilter"))), Const(VNone),
                                       SerializationMetadata(None, Some(true), None))

  const TextDocumentRegistrationOptionsDecl := ClassDecl([DocumentSelectorField], {})

  /** WatchKind is an IntFlag: CREATE = 1, CHANGE = 2, DELETE = 4. */
  const Create: bv8 := 1
  const Change: bv8 := 2
  const Delete: bv8 := 4

  const WatchKind := TFlag("WatchKind", [Create as int, Change as int, Delete as int])

  /** A flag value made of WatchKind bits only. */
  predicate IsWatchKind(k: bv8)
  {
    k & !(Create | Change | Delete) == 0
  }

  /** `kind: Optional[WatchKind]` has no default; its documentation gives 7 for an omitted kind. */
  const FileSystemWatcherDecl := ClassDecl([Required("glob_pattern", TStr), Required("kind", Opt(WatchKind))], {})

  const DidChangeWatchedFilesRegistrationOptionsDecl := ClassDecl(
    [Required("watchers", TList(TStruct("FileSystemWatcher")))], {})

  /** A WatchKind member, as `WatchKind(k)` or a `|` of members returns it. */
  function WatchKindMember(k: bv8): Value
  {
    VEnum("WatchKind", VInt(k as int))
  }
}
