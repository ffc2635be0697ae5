/**
 * app/solidity_workspace.py: the workspace folders and open documents the
 * client reports, and the debounce that marks an analysis as due once files
 * have stopped changing for a second. Wall-clock readings are given to the
 * model as integer milliseconds.
 */
module SolidityWorkspace {
  import opened Values

  /** `WorkspaceFolder`. */
  datatype Folder = Folder(uri: string, name: string)

  /** `TextDocumentItem`. */
  datatype Document = Document(uri: string, languageId: string, version: int, text: string)

  /** `_FILE_CHANGE_ANALYSIS_DELAY_SECONDS`, in milliseconds. */
  const AnalysisDelayMs := 1000

  /** `_FILE_CHANGE_POLLING_INTERVAL_SECONDS`, in milliseconds: how long the loop sleeps between polls. */
  const PollingIntervalMs := 200

  // ---------------------------------------------------------------------------
  // The workspace as values.

  /** The folders keyed by URI; of several folders with one URI the last wins. */
  function FoldersByUri(folders: seq<Folder>): map<string, Folder>
  {
    if folders == [] then map[]
    else
      var n := |folders| - 1;
      FoldersByUri(folders[..n])[folders[n].uri := folders[n]]
  }

  /** Each URI maps to the last folder listed with it, and only listed URIs have an entry. */
  lemma {:induction false} FoldersByUriLastWins(folders: seq<Folder>, uri: string)
    ensures uri in FoldersByUri(folders) <==> exists i :: 0 <= i < |folders| && folders[i].uri == uri
    ensures uri in FoldersByUri(folders) ==>
              exists i :: 0 <= i < |folders| && FoldersByUri(folders)[uri] == folders[i] && folders[i].uri == uri &&
                forall j :: i < j < |folders| ==> folders[j].uri != uri
  {
    if folders != [] {
      var n := |folders| - 1;
      FoldersByUriLastWins(folders[..n], uri);
      if folders[n].uri != uri && uri in FoldersByUri(folders) {
        var i :| 0 <= i < n && FoldersByUri(folders[..n])[uri] == folders[..n][i] && folders[..n][i].uri == uri &&
                 forall j :: i < j < n ==> folders[..n][j].uri != uri;
        assert folders[..n][i] == folders[i];
        forall j | i < j < |folders|
          ensures folders[j].uri != uri
        {
          if j < n {
            assert folders[..n][j] == folders[j];
          }
        }
      }
      if uri !in FoldersByUri(folders) {
        forall i | 0 <= i < |folders|
          ensures folders[i].uri != uri
        {
          if i < n {
            assert folders[..n][i] == folders[i];
          }
        }
      } else if folders[n].uri != uri {
        var i :| 0 <= i < n && folders[..n][i].uri == uri;
        assert folders[..n][i] == folders[i];
      }
    }
  }

  /** The folders after the added ones are stored, in order. */
  function WithAdded(folders: map<string, Folder>, added: seq<Folder>): map<string, Folder>
  {
    if added == [] then folders
    else
      var n := |added| - 1;
      WithAdded(folders, added[..n])[added[n].uri := added[n]]
  }

  /** The folders after the removed ones are popped, in order: KeyError at the first that is absent. */
  function WithRemoved(folders: map<string, Folder>, removed: seq<Folder>): (map<string, Folder>, Option<PyError>)
  {
    if removed == [] then (folders, None)
    else
      var n := |removed| - 1;
      var (before, error) := WithRemoved(folders, removed[..n]);
      if error.Some? then (before, error)
      else if removed[n].uri !in before then (before, Some(KeyError))
      else (before - {removed[n].uri}, None)
  }

  /** A folder not named by a change keeps its entry, or its absence. */
  lemma {:induction false} UnnamedFolderUnchanged(folders: map<string, Folder>, added: seq<Folder>, removed: seq<Folder>, uri: string)
    requires forall i :: 0 <= i < |added| ==> added[i].uri != uri
    requires forall i :: 0 <= i < |removed| ==> removed[i].uri != uri
    ensures var after := WithRemoved(WithAdded(folders, added), removed).0;
            (uri in after <==> uri in folders) && (uri in folders ==> after[uri] == folders[uri])
  {
    AddedLeavesOthers(folders, added, uri);
    RemovedLeavesOthers(WithAdded(folders, added), removed, uri);
  }

  lemma {:induction false} AddedLeavesOthers(folders: map<string, Folder>, added: seq<Folder>, uri: string)
    requires forall i :: 0 <= i < |added| ==> added[i].uri != uri
    ensures (uri in WithAdded(folders, added) <==> uri in folders)
    ensures uri in folders ==> WithAdded(folders, added)[uri] == folders[uri]
  {
    if added != [] {
      var n := |added| - 1;
      assert forall i :: 0 <= i < n ==> added[..n][i] == added[i];
      AddedLeavesOthers(folders, added[..n], uri);
    }
  }

  lemma {:induction false} RemovedLeavesOthers(folders: map<string, Folder>, removed: seq<Folder>, uri: string)
    requires forall i :: 0 <= i < |removed| ==> removed[i].uri != uri
    ensures (uri in WithRemoved(folders, removed).0 <==> uri in folders)
    ensures uri in folders ==> WithRemoved(folders, removed).0[uri] == folders[uri]
  {
    if removed != [] {
      var n := |removed| - 1;
      assert forall i :: 0 <= i < n ==> removed[..n][i] == removed[i];
      RemovedLeavesOthers(folders, removed[..n], uri);
    }
  }

  /** Adds are applied before removes: a folder both added and removed ends up absent. */
  lemma AddedThenRemoved(folders: map<string, Folder>, added: seq<Folder>, removed: seq<Folder>, uri: string)
    requires WithRemoved(WithAdded(folders, added), removed).1.None?
    requires exists i :: 0 <= i < |removed| && removed[i].uri == uri
    ensures uri !in WithRemoved(WithAdded(folders, added), removed).0
  {
    var i :| 0 <= i < |removed| && removed[i].uri == uri;
    RemovedStaysRemoved(WithAdded(folders, added), removed, i);
  }

  lemma {:induction false} RemovedStaysRemoved(folders: map<string, Folder>, removed: seq<Folder>, i: int)
    requires 0 <= i < |removed| && WithRemoved(folders, removed).1.None?
    ensures removed[i].uri !in WithRemoved(folders, removed).0
  {
    var n := |removed| - 1;
    if i < n && WithRemoved(folders, removed[..n]).1.None? {
      assert removed[..n][i] == removed[i];
      RemovedStaysRemoved(folders, removed[..n], i);
    }
  }

  /** Removing a folder that was never there, and is not added, raises KeyError. */
  lemma {:induction false} RemovingAbsentFails(folders: map<string, Folder>, removed: seq<Folder>)
    requires |removed| > 0 && removed[|removed| - 1].uri !in folders
    ensures WithRemoved(folders, removed).1 == Some(KeyError)
  {
    var n := |removed| - 1;
    var (before, error) := WithRemoved(folders, removed[..n]);
    if error.None? {
      RemovedShrinks(folders, removed[..n]);
    } else {
      RemovedErrorIsKeyError(folders, removed[..n]);
    }
  }

  lemma {:induction false} RemovedShrinks(folders: map<string, Folder>, removed: seq<Folder>)
    ensures WithRemoved(folders, removed).0.Keys <= folders.Keys
  {
    if removed != [] {
      RemovedShrinks(folders, removed[..|removed| - 1]);
    }
  }

  lemma {:induction false} RemovedErrorIsKeyError(folders: map<string, Folder>, removed: seq<Folder>)
    ensures WithRemoved(folders, removed).1.Some? ==> WithRemoved(folders, removed).1 == Some(KeyError)
  {
    if removed != [] {
      RemovedErrorIsKeyError(folders, removed[..|removed| - 1]);
    }
  }

  /** Whether files changed more than a second before `now` (strictly). */
  predicate Settled(now: int, lastChange: int)
  {
    now - lastChange > AnalysisDelayMs
  }

  /** The pending flag after polling at each of `ticks`: it clears at the first settled poll. */
  function PendingAfter(pending: bool, lastChange: int, ticks: seq<int>): (p: bool)
    ensures p <==> pending && forall i :: 0 <= i < |ticks| ==> !Settled(ticks[i], lastChange)
  {
    if ticks == [] then pending
    else
      var n := |ticks| - 1;
      assert forall i :: 0 <= i < n ==> ticks[..n][i] == ticks[i];
      PendingAfter(pending, lastChange, ticks[..n]) && !Settled(ticks[n], lastChange)
  }

  // ---------------------------------------------------------------------------
  // Which handler each event reaches.

  /** The events the workspace subscribes to on the server's emitter. */
  datatype Event =
    | ServerInitializedEvent
    | ClientInitializedEvent
    | FoldersChangedEvent
    | WatchedFilesChangedEvent
    | DocumentOpenedEvent
    | DocumentClosedEvent
    | DocumentChangedEvent

  /** The workspace's handlers. */
  datatype Handler =
    | OnServerInitialized
    | MainLoop
    | OnDidChangeWorkspaceFolders
    | OnDidChangeWatchedFiles
    | OnDidOpenTextDocument
    | OnDidCloseTextDocument
    | OnDidChangeTextDocument

  /** The subscriptions as the constructor makes them: 'textDocument.didChange' goes to the close handler. */
  function WiringAsWritten(e: Event): Handler
  {
    match e
    case ServerInitializedEvent => OnServerInitialized
    case ClientInitializedEvent => MainLoop
    case FoldersChangedEvent => OnDidChangeWorkspaceFolders
    case WatchedFilesChangedEvent => OnDidChangeWatchedFiles
    case DocumentOpenedEvent => OnDidOpenTextDocument
    case DocumentClosedEvent => OnDidCloseTextDocument
    case DocumentChangedEvent => OnDidCloseTextDocument
  }

  /** The subscriptions evidently intended: each event reaches the handler named for it. */
  function Wiring(e: Event): (h: Handler)
    ensures e == DocumentChangedEvent <==> h == OnDidChangeTextDocument
  {
    if e == DocumentChangedEvent then OnDidChangeTextDocument else WiringAsWritten(e)
  }

  /** Every handler is reached by exactly one event under the intended wiring. */
  lemma WiringInjective(e1: Event, e2: Event)
    ensures Wiring(e1) == Wiring(e2) ==> e1 == e2
  {
  }

  /** As written, two events reach the close handler, and the change handler is reached by none. */
  lemma WiringAsWrittenLosesChange(e: Event)
    ensures WiringAsWritten(DocumentChangedEvent) == WiringAsWritten(DocumentClosedEvent)
    ensures WiringAsWritten(e) != OnDidChangeTextDocument
  {
  }

  /** What closing a document does to the open documents: KeyError when it is not open. */
  function Closed(documents: map<string, Document>, uri: string): Result<map<string, Document>>
  {
    if uri in documents then Ok(documents - {uri}) else Err(KeyError)
  }

  /** What a document event does to the open documents under a wiring. */
  function DocumentEffect(h: Handler, documents: map<string, Document>, uri: string): Result<map<string, Document>>
  {
    if h == OnDidCloseTextDocument then Closed(documents, uri) else Ok(documents)
  }

  /**
   * As written, editing a document forgets it, and editing a document that
   * was never opened raises KeyError; under the intended wiring an edit
   * leaves the open documents alone.
   */
  lemma DocumentChangeEffect(documents: map<string, Document>, doc: Document)
    ensures DocumentEffect(WiringAsWritten(DocumentChangedEvent), documents[doc.uri := doc], doc.uri) == Ok(documents - {doc.uri})
    ensures doc.uri !in documents ==> DocumentEffect(WiringAsWritten(DocumentChangedEvent), documents, doc.uri) == Err(KeyError)
    ensures DocumentEffect(Wiring(DocumentChangedEvent), documents, doc.uri) == Ok(documents)
  {
    assert documents[doc.uri := doc] - {doc.uri} == documents - {doc.uri};
  }

  /**
   * The main loop's guard as written: `not self.shutdown` tests the bound
   * method, which is always truthy, so the loop stops before its first poll
   * whatever the flags say.
   */
  function LoopStopsAsWritten(shutdownFlag: bool, serverShutdown: bool): bool
  {
    var boundMethodIsTruthy := true;
    boundMethodIsTruthy || serverShutdown
  }

  /** The guard evidently intended: stop once this workspace or the server is shut down. */
  function LoopStops(shutdownFlag: bool, serverShutdown: bool): (stop: bool)
    ensures stop <==> shutdownFlag || serverShutdown
  {
    shutdownFlag || serverShutdown
  }

  /** The pending flag after the loop with a given guard: unchanged when it stops at once. */
  function PendingAfterLoop(stops: bool, pending: bool, lastChange: int, ticks: seq<int>): bool
  {
    if stops then pending else PendingAfter(pending, lastChange, ticks)
  }

  /**
   * With no shutdown signalled, as written a pending analysis stays pending
   * even when the files settled long ago; with the intended guard the first
   * settled poll clears it.
   */
  lemma PendingNeverClearsAsWritten(lastChange: int, now: int)
    requires Settled(now, lastChange)
    ensures PendingAfterLoop(LoopStopsAsWritten(false, false), true, lastChange, [now])
    ensures !PendingAfterLoop(LoopStops(false, false), true, lastChange, [now])
  {
  }

  // ---------------------------------------------------------------------------
  // The workspace object.

  /** `SolidityWorkspace`. */
  class Workspace {
    var folders: map<string, Folder>
    var documents: map<string, Document>
    /** `analysis_last_change_time`, in milliseconds. */
    var lastChange: int
    var pending: bool
    /** `_shutdown`. */
    var shutdownFlag: bool
    /** `watch_files_registration_id`: a random UUID, given by the caller. */
    const registrationId: string

    constructor (registrationId: string)
      ensures folders == map[] && documents == map[]
      ensures lastChange == 0 && !pending && !shutdownFlag
      ensures this.registrationId == registrationId
    {
      folders, documents := map[], map[];
      lastChange, pending, shutdownFlag := 0, false, false;
      this.registrationId := registrationId;
    }

    /** `shutdown`: set the flag (which, as written, nothing reads). */
    method Shutdown()
      modifies this`shutdownFlag
      ensures shutdownFlag
    {
      shutdownFlag := true;
    }

    /**
     * `on_server_initialized`: the folders keyed by URI and no open
     * documents. Without workspace folders the comprehension raises
     * TypeError and nothing changes.
     */
    method OnServerInitialized(workspaceFolders: Option<seq<Folder>>) returns (error: Option<PyError>)
      modifies this`folders, this`documents
      ensures workspaceFolders.None? ==> error == Some(TypeError) && folders == old(folders) && documents == old(documents)
      ensures workspaceFolders.Some? ==> error.None? && folders == FoldersByUri(workspaceFolders.value) && documents == map[]
    {
      if workspaceFolders.None? {
        return Some(TypeError);
      }
      var list := workspaceFolders.value;
      var byUri := map[];
      for i := 0 to |list|
        invariant byUri == FoldersByUri(list[..i])
      {
        assert list[..i + 1][..i] == list[..i];
        byUri := byUri[list[i].uri := list[i]];
      }
      assert list[..|list|] == list;
      folders := byUri;
      documents := map[];
      error := None;
    }

    /**
     * `on_did_change_workspace_folders`: store each added folder, then pop
     * each removed one. A removed folder that is absent raises KeyError,
     * keeping what was done before it.
     */
    method OnDidChangeWorkspaceFolders(added: seq<Folder>, removed: seq<Folder>) returns (error: Option<PyError>)
      modifies this`folders
      ensures (folders, error) == WithRemoved(WithAdded(old(folders), added), removed)
    {
      for i := 0 to |added|
        invariant folders == WithAdded(old(folders), added[..i])
      {
        assert added[..i + 1][..i] == added[..i];
        folders := folders[added[i].uri := added[i]];
      }
      assert added[..|added|] == added;
      ghost var start := folders;
      error := None;
      for i := 0 to |removed|
        invariant (folders, None) == WithRemoved(start, removed[..i])
      {
        assert removed[..i + 1][..i] == removed[..i];
        if removed[i].uri !in folders {
          PrefixErrorKept(start, removed, i + 1);
          return Some(KeyError);
        }
        folders := folders - {removed[i].uri};
      }
      assert removed[..|removed|] == removed;
    }

    /** `on_did_open_text_document`: store the document by URI, replacing any earlier one. */
    method OnDidOpenTextDocument(doc: Document)
      modifies this`documents
      ensures documents == old(documents)[doc.uri := doc]
    {
      documents := documents[doc.uri := doc];
    }

    /** `on_did_close_text_document`: forget the document, KeyError if it was not open. */
    method OnDidCloseTextDocument(uri: string) returns (error: Option<PyError>)
      modifies this`documents
      ensures Closed(old(documents), uri).Ok? ==> error.None? && documents == Closed(old(documents), uri).value
      ensures Closed(old(documents), uri).Err? ==> error == Some(KeyError) && documents == old(documents)
    {
      if uri !in documents {
        return Some(KeyError);
      }
      documents := documents - {uri};
      error := None;
    }

    /** `on_did_change_text_document`: nothing. */
    method OnDidChangeTextDocument(uri: string)
    {
    }

    /** A 'textDocument.didChange' event as written: it reaches `on_did_close_text_document`. */
    method OnDocumentChangedAsWritten(uri: string) returns (error: Option<PyError>)
      modifies this`documents
      ensures var effect := DocumentEffect(WiringAsWritten(DocumentChangedEvent), old(documents), uri);
              (effect.Ok? ==> error.None? && documents == effect.value) && (effect.Err? ==> error == Some(effect.error) && documents == old(documents))
    {
      error := OnDidCloseTextDocument(uri);
    }

    /** A 'textDocument.didChange' event under the intended wiring: the open documents stay as they are. */
    method OnDocumentChanged(uri: string) returns (error: Option<PyError>)
      ensures DocumentEffect(Wiring(DocumentChangedEvent), documents, uri) == Ok(documents) && error.None?
    {
      OnDidChangeTextDocument(uri);
      error := None;
    }

    /** `on_did_change_watched_files`: an analysis is pending, counted from `now`. */
    method OnDidChangeWatchedFiles(now: int)
      modifies this`lastChange, this`pending
      ensures lastChange == now && pending
    {
      lastChange := now;
      pending := true;
    }

    /** One poll of the main loop: a pending analysis clears once the files have settled. */
    method Poll(now: int)
      modifies this`pending
      ensures pending == (old(pending) && !Settled(now, lastChange))
    {
      if pending {
        if now - lastChange > AnalysisDelayMs {
          pending := false;
        }
      }
    }

    /**
     * The main loop's body repeated while neither the value the guard reads
     * for this workspace's shutdown, `stopTest`, nor the server's shutdown
     * holds; one poll per clock reading.
     */
    method PollUntil(stopTest: bool, serverShutdown: bool, ticks: seq<int>)
      modifies this`pending
      ensures pending == PendingAfterLoop(stopTest || serverShutdown, old(pending), lastChange, ticks)
    {
      if stopTest || serverShutdown {
        return;
      }
      var i := 0;
      while i < |ticks| && !stopTest && !serverShutdown
        invariant 0 <= i <= |ticks|
        invariant pending == PendingAfter(old(pending), lastChange, ticks[..i])
      {
        Poll(ticks[i]);
        assert ticks[..i + 1][..i] == ticks[..i];
        i := i + 1;
      }
      assert ticks[..|ticks|] == ticks;
    }

    /** `main_loop` as written: the guard reads the bound method `shutdown`, which is truthy. */
    method MainLoopAsWritten(ticks: seq<int>, serverShutdown: bool)
      modifies this`pending
      ensures pending == PendingAfterLoop(LoopStopsAsWritten(shutdownFlag, serverShutdown), old(pending), lastChange, ticks)
    {
      var boundMethodIsTruthy := true;
      PollUntil(boundMethodIsTruthy, serverShutdown, ticks);
    }

    /** `main_loop` with the intended guard, which reads `_shutdown`. */
    method MainLoop(ticks: seq<int>, serverShutdown: bool)
      modifies this`pending
      ensures pending == PendingAfterLoop(LoopStops(shutdownFlag, serverShutdown), old(pending), lastChange, ticks)
    {
      PollUntil(shutdownFlag, serverShutdown, ticks);
    }
  }

  lemma {:induction false} PrefixErrorKept(folders: map<string, Folder>, removed: seq<Folder>, k: int)
    requires 0 < k <= |removed|
    requires WithRemoved(folders, removed[..k - 1]).1.None? && removed[k - 1].uri !in WithRemoved(folders, removed[..k - 1]).0
    ensures WithRemoved(folders, removed) == (WithRemoved(folders, removed[..k - 1]).0, Some(KeyError))
    decreases |removed| - k
  {
    assert removed[..k][..k - 1] == removed[..k - 1];
    if k < |removed| {
      PrefixErrorStays(folders, removed, k);
    }
  }

  lemma {:induction false} PrefixErrorStays(folders: map<string, Folder>, removed: seq<Folder>, k: int)
    requires 0 < k <= |removed| && WithRemoved(folders, removed[..k]).1.Some?
    ensures WithRemoved(folders, removed) == WithRemoved(folders, removed[..k])
    decreases |removed| - k
  {
    if k < |removed| {
      var n := |removed| - 1;
      assert removed[..n][..k] == removed[..k];
      PrefixErrorStays(folders, removed[..n], k);
      assert removed[..n] == removed[..|removed| - 1];
    } else {
      assert removed[..k] == removed;
    }
  }
}
