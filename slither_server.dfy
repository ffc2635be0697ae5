/**
 * app/slither_server.py: the language server's own state. It keeps one
 * analysis result per workspace folder in insertion order, the folders
 * whose compilation is under way, and the detector settings; it queues
 * compilations and refreshes the published diagnostics. A compilation runs
 * on a worker thread under the folder's lock: here it is two steps, begun
 * and finished, between which the other handlers may run.
 */
module SlitherServer {
  import opened Values
  import opened AppTypes
  import opened SlitherObjects
  import opened OrderedDicts
  import opened SlitherDiagnostics

  // ---------------------------------------------------------------------------
  // Names and messages.

  /** The tail `os.path.split` gives: what follows the last '/', or all of a path without one. */
  function PathTail(path: string): string
  {
    if path == [] || path[|path| - 1] == '/' then []
    else PathTail(path[..|path| - 1]) + [path[|path| - 1]]
  }

  /** The tail is a suffix of the path without '/', and just after the last '/' when it is shorter. */
  lemma {:induction false} PathTailIsLastComponent(path: string)
    ensures |PathTail(path)| <= |path| && PathTail(path) == path[|path| - |PathTail(path)|..]
    ensures '/' !in PathTail(path)
    ensures |PathTail(path)| < |path| ==> path[|path| - |PathTail(path)| - 1] == '/'
  {
    if path != [] && path[|path| - 1] != '/' {
      var init := path[..|path| - 1];
      PathTailIsLastComponent(init);
      var rest := PathTail(init);
      assert init[|init| - |rest|..] + [path[|path| - 1]] == path[|path| - |rest| - 1..];
    }
  }

  /** The tail of a folder joined with a name that has no '/' is that name. */
  lemma {:induction false} PathTailOfJoin(folder: string, name: string)
    requires '/' !in name
    ensures PathTail(folder + "/" + name) == name
  {
    var p := folder + "/" + name;
    if name == [] {
      assert p == folder + "/";
    } else {
      var init := name[..|name| - 1];
      assert p[..|p| - 1] == folder + "/" + init;
      assert p[|p| - 1] == name[|name| - 1];
      assert name[|name| - 1] in name;
      PathTailOfJoin(folder, init);
      assert init + [name[|name| - 1]] == name;
    }
  }

  /** The name the messages give a workspace: the last component of its path. */
  function WorkspaceName(uri: string, h: Helpers): string
  {
    PathTail(h.toPath(uri))
  }

  function AnalysisInProgressMessage(name: string): string
  {
    "Analysis for " + name + " is already in progress"
  }

  function CompilationStartedMessage(name: string): string
  {
    "Compilation for " + name + " has started"
  }

  function CompilationSucceededMessage(name: string): string
  {
    "Compilation for " + name + " has completed successfully"
  }

  function CompilationFailedMessage(name: string): string
  {
    "Compilation for " + name + " has failed. See log for details."
  }

  const InitializedMessage := "slither-lsp initialized"

  // ---------------------------------------------------------------------------
  // The result a compilation records.

  /**
   * What CryticCompile, Slither and the detectors produce for a folder: the
   * compilation, the analysis and the detectors' JSON output (`None` when it
   * is not a list), or the exception one of them raised.
   */
  datatype Outcome =
    | Built(compilation: Compilation, analysis: Analysis, detectorOutput: Option<seq<Value>>)
    | BuildFailed(message: string)

  /** `SlitherDetectorResult.from_dict` over the output list: the first that fails to parse fails the whole. */
  function ParseAll(output: seq<Value>, parse: Value -> Result<DetectorResult>): (r: Result<seq<DetectorResult>>)
  {
    if output == [] then Ok([])
    else
      var n := |output| - 1;
      var before := ParseAll(output[..n], parse);
      if before.Err? then before
      else
        var last := parse(output[n]);
        if last.Err? then Err(last.error) else Ok(before.value + [last.value])
  }

  /** Parsing keeps every result in order when each parses, and fails with a parse error otherwise. */
  lemma {:induction false} ParseAllCorrect(output: seq<Value>, parse: Value -> Result<DetectorResult>)
    ensures ParseAll(output, parse).Ok? <==> forall i :: 0 <= i < |output| ==> parse(output[i]).Ok?
    ensures ParseAll(output, parse).Ok? ==>
              |ParseAll(output, parse).value| == |output| &&
              forall i :: 0 <= i < |output| ==> ParseAll(output, parse).value[i] == parse(output[i]).value
    ensures ParseAll(output, parse).Err? ==> exists i :: 0 <= i < |output| && parse(output[i]) == Err(ParseAll(output, parse).error)
  {
    if output != [] {
      var n := |output| - 1;
      ParseAllCorrect(output[..n], parse);
      assert forall i :: 0 <= i < n ==> output[..n][i] == output[i];
      var before := ParseAll(output[..n], parse);
      if before.Err? {
        var i :| 0 <= i < n && parse(output[..n][i]) == Err(before.error);
        assert parse(output[i]) == Err(before.error);
      }
    }
  }

  /** The detector results a successful build keeps: `None` when the output was not a list. */
  function ParsedResults(output: Option<seq<Value>>, parse: Value -> Result<DetectorResult>): Result<Option<seq<DetectorResult>>>
  {
    if output.None? then Ok(None)
    else
      var parsed := ParseAll(output.value, parse);
      if parsed.Err? then Err(parsed.error) else Ok(Some(parsed.value))
  }

  /** The `AnalysisResult` a compilation stores; an exception anywhere in the `try` records a failure. */
  function Recorded(outcome: Outcome, parse: Value -> Result<DetectorResult>): (r: AnalysisResult)
    ensures r.succeeded <==> r.built.Some?
    ensures r.succeeded <==> r.error.None?
    ensures r.detectorResults.Some? ==> r.succeeded
  {
    match outcome
    case BuildFailed(message) => AnalysisResult(false, None, Some(BuildError(message)), None)
    case Built(comp, analysis, output) =>
      var parsed := ParsedResults(output, parse);
      if parsed.Err? then AnalysisResult(false, None, Some(ParseError(parsed.error)), None)
      else AnalysisResult(true, Some((comp, analysis)), None, parsed.value)
  }

  /**
   * A folder's analysis succeeds exactly when it builds and each detector
   * result parses; a success keeps the compilation and the analysis built.
   */
  lemma RecordedSucceeds(outcome: Outcome, parse: Value -> Result<DetectorResult>)
    ensures Recorded(outcome, parse).succeeded <==>
              outcome.Built? && (outcome.detectorOutput.Some? ==> forall i :: 0 <= i < |outcome.detectorOutput.value| ==> parse(outcome.detectorOutput.value[i]).Ok?)
    ensures Recorded(outcome, parse).succeeded ==> Recorded(outcome, parse).built == Some((outcome.compilation, outcome.analysis))
    ensures outcome.BuildFailed? ==> Recorded(outcome, parse).error == Some(BuildError(outcome.message))
  {
    if outcome.Built? && outcome.detectorOutput.Some? {
      ParseAllCorrect(outcome.detectorOutput.value, parse);
    }
  }

  /** The message a compilation ends with: success exactly when the recorded result succeeded. */
  function CompletionMessage(name: string, result: AnalysisResult): (m: string)
    ensures m == CompilationSucceededMessage(name) <==> result.succeeded
  {
    var success := CompilationSucceededMessage(name);
    var failure := CompilationFailedMessage(name);
    assert success != failure by {
      assert success[|success| - 1] == 'y' && failure[|failure| - 1] == '.';
    }
    if result.succeeded then success else failure
  }

  // ---------------------------------------------------------------------------
  // Which folders an analysis request queues.

  /** `params.uris or self.workspaces.keys()`, normalised: an empty or missing list means every folder. */
  function AnalyzeTargets(uris: Option<seq<string>>, folders: seq<string>, h: Helpers): (targets: seq<string>)
    ensures |targets| == if uris.Some? && |uris.value| > 0 then |uris.value| else |folders|
  {
    var given := if uris.Some? && |uris.value| > 0 then uris.value else folders;
    seq(|given|, i requires 0 <= i < |given| => h.normalize(given[i]))
  }

  /** The targets not under way, in order: these are queued. */
  function ToQueue(targets: seq<string>, inProgress: set<string>): seq<string>
  {
    if targets == [] then []
    else
      var n := |targets| - 1;
      ToQueue(targets[..n], inProgress) + (if targets[n] in inProgress then [] else [targets[n]])
  }

  /** One warning per target under way, in order. */
  function InProgressWarnings(targets: seq<string>, inProgress: set<string>, h: Helpers): seq<(string, MessageType)>
  {
    if targets == [] then []
    else
      var n := |targets| - 1;
      InProgressWarnings(targets[..n], inProgress, h) +
        (if targets[n] in inProgress then [(AnalysisInProgressMessage(WorkspaceName(targets[n], h)), WarningMessage)] else [])
  }

  lemma AnalyzeStep(targets: seq<string>, i: int, inProgress: set<string>, h: Helpers)
    requires 0 <= i < |targets|
    ensures ToQueue(targets[..i + 1], inProgress) ==
            ToQueue(targets[..i], inProgress) + (if targets[i] in inProgress then [] else [targets[i]])
    ensures InProgressWarnings(targets[..i + 1], inProgress, h) ==
            InProgressWarnings(targets[..i], inProgress, h) +
              (if targets[i] in inProgress then [(AnalysisInProgressMessage(WorkspaceName(targets[i], h)), WarningMessage)] else [])
  {
    assert targets[..i + 1][..i] == targets[..i];
  }

  /** Every target is queued or warned about, never both: queued exactly when not under way. */
  lemma {:induction false} AnalyzeSplitsTargets(targets: seq<string>, inProgress: set<string>, h: Helpers)
    ensures |ToQueue(targets, inProgress)| + |InProgressWarnings(targets, inProgress, h)| == |targets|
    ensures forall u :: u in ToQueue(targets, inProgress) <==> u in targets && u !in inProgress
  {
    if targets != [] {
      var n := |targets| - 1;
      AnalyzeSplitsTargets(targets[..n], inProgress, h);
      assert targets == targets[..n] + [targets[n]];
    }
  }

  /** `get_analyses_containing(filename)`: the (analysis, compilation) of each built result that knows the file, in order. */
  function Containing(results: seq<AnalysisResult>, filename: string, w: Slither): seq<(Analysis, Compilation)>
  {
    if results == [] then []
    else
      var n := |results| - 1;
      var r := results[n];
      Containing(results[..n], filename, w) +
        (if r.built.Some? && w.filenameLookup(r.built.value.0, filename).Some? then [(r.built.value.1, r.built.value.0)] else [])
  }

  /** An analysis is listed exactly when some built result has it and its compilation knows the file. */
  lemma {:induction false} ContainingCorrect(results: seq<AnalysisResult>, filename: string, w: Slither, p: (Analysis, Compilation))
    ensures p in Containing(results, filename, w) <==>
              exists i :: 0 <= i < |results| && results[i].built == Some((p.1, p.0)) && w.filenameLookup(p.1, filename).Some?
  {
    if results != [] {
      var n := |results| - 1;
      ContainingCorrect(results[..n], filename, w, p);
      assert forall i :: 0 <= i < n ==> results[..n][i] == results[i];
      if exists i :: 0 <= i < |results| && results[i].built == Some((p.1, p.0)) && w.filenameLookup(p.1, filename).Some? {
        var i :| 0 <= i < |results| && results[i].built == Some((p.1, p.0)) && w.filenameLookup(p.1, filename).Some?;
        if i < n {
          assert results[..n][i] == results[i];
        }
      }
    }
  }

  /** Over the folders' results in order: an analysis is listed exactly when some folder has built it and it knows the file. */
  lemma ContainingFolders(ws: Dict<string, AnalysisResult>, filename: string, w: Slither, p: (Analysis, Compilation))
    requires OrderedDicts.Valid(ws)
    ensures p in Containing(ValueList(ws), filename, w) <==>
              exists uri :: uri in ws.values && ws.values[uri].built == Some((p.1, p.0)) &&
                w.filenameLookup(p.1, filename).Some?
  {
    var results := ValueList(ws);
    ContainingCorrect(results, filename, w, p);
    if exists uri :: uri in ws.values && ws.values[uri].built == Some((p.1, p.0)) {
      var uri :| uri in ws.values && ws.values[uri].built == Some((p.1, p.0));
      var i :| 0 <= i < |ws.keys| && ws.keys[i] == uri;
      assert results[i] == ws.values[uri];
    }
  }

  /** Results order the output: the analyses of earlier results come first. */
  lemma {:induction false} ContainingConcat(x: seq<AnalysisResult>, y: seq<AnalysisResult>, filename: string, w: Slither)
    ensures Containing(x + y, filename, w) == Containing(x, filename, w) + Containing(y, filename, w)
    decreases |y|
  {
    if y == [] {
      assert x + y == x;
    } else {
      var n := |y| - 1;
      var r := y[n];
      var last: seq<(Analysis, Compilation)> :=
        if r.built.Some? && w.filenameLookup(r.built.value.0, filename).Some? then [(r.built.value.1, r.built.value.0)] else [];
      assert (x + y)[..|x + y| - 1] == x + y[..n];
      assert (x + y)[|x + y| - 1] == r;
      assert Containing(x + y, filename, w) == Containing(x + y[..n], filename, w) + last;
      ContainingConcat(x, y[..n], filename, w);
      ConcatAssociative(Containing(x, filename, w), Containing(y[..n], filename, w), last);
    }
  }

  /**
   * What a refresh leaves behind: the diagnostics of every result under the
   * settings, and on the wire first an empty list for each file that lost
   * its diagnostics, then every file's new list in order.
   */
  ghost predicate Republished(before: Dict<string, seq<Diagnostic>>, after: Dict<string, seq<Diagnostic>>,
                              publishedBefore: seq<(string, seq<Diagnostic>)>, publishedAfter: seq<(string, seq<Diagnostic>)>,
                              cleared: seq<string>, results: seq<AnalysisResult>, settings: DetectorSettings, h: Helpers)
  {
    after == Group(AllFindings(results, settings, h)) &&
    (forall u :: u in cleared <==> u in before.values && u !in after.values) &&
    publishedAfter == publishedBefore + Cleared(cleared) + Items(after)
  }

  // ---------------------------------------------------------------------------
  // The server.

  /** `SlitherServer`. */
  class Server {
    /** `workspaces`: each folder's latest analysis result, in the order folders were first compiled. */
    var workspaces: Dict<string, AnalysisResult>
    /** The folders whose lock in `workspace_in_progress` is held. */
    var inProgress: set<string>
    var detectorSettings: DetectorSettings
    /** The folders handed to the worker pool, in order. */
    var queued: seq<string>
    const client: Client
    const diagnostics: Diagnostics
    const helpers: Helpers

    ghost predicate Valid()
      reads this, diagnostics
    {
      OrderedDicts.Valid(workspaces) && diagnostics.Valid() &&
      diagnostics.client == client && diagnostics.helpers == helpers
    }

    /** The server at start-up: no folders, detectors enabled and nothing hidden. */
    constructor (client: Client, helpers: Helpers)
      ensures Valid() && fresh(diagnostics)
      ensures workspaces == Empty() && inProgress == {} && queued == []
      ensures detectorSettings == DetectorSettings(true, [])
      ensures diagnostics.diagnostics == Empty()
      ensures this.client == client && this.helpers == helpers
    {
      workspaces := Empty();
      inProgress := {};
      detectorSettings := DetectorSettings(true, []);
      queued := [];
      this.client := client;
      this.helpers := helpers;
      diagnostics := new Diagnostics(client, helpers);
    }

    /** `analyses`: the results in folder order. */
    function Analyses(): (r: seq<AnalysisResult>)
      requires Valid()
      reads this, diagnostics
      ensures |r| == |workspaces.keys|
      ensures forall i :: 0 <= i < |r| ==> r[i] == workspaces.values[workspaces.keys[i]]
    {
      ValueList(workspaces)
    }

    /** `workspace_opened`: whether some folder has a result. */
    function WorkspaceOpened(): (isOpen: bool)
      requires Valid()
      reads this, diagnostics
      ensures isOpen <==> exists uri :: uri in workspaces.values
    {
      if |Items(workspaces)| > 0 then
        assert workspaces.keys[0] in workspaces.values;
        true
      else false
    }

    /** `get_analyses_containing(filename)`. */
    function AnalysesContaining(filename: string, w: Slither): (r: seq<(Analysis, Compilation)>)
      requires Valid()
      reads this, diagnostics
      ensures forall p :: p in r <==>
                exists uri :: uri in workspaces.values && workspaces.values[uri].built == Some((p.1, p.0)) &&
                  w.filenameLookup(p.1, filename).Some?
    {
      forall p
        ensures p in Containing(Analyses(), filename, w) <==>
                  exists uri :: uri in workspaces.values && workspaces.values[uri].built == Some((p.1, p.0)) &&
                    w.filenameLookup(p.1, filename).Some?
      {
        ContainingFolders(workspaces, filename, w, p);
      }
      Containing(Analyses(), filename, w)
    }

    /** `queue_compile_workspace(uri)`: hand the folder to the worker pool. */
    method QueueCompile(uri: string)
      modifies this`queued
      ensures queued == old(queued) + [uri]
    {
      queued := queued + [uri];
    }

    /** `on_initialized`: tell the client the server is up. */
    method OnInitialized()
      modifies client`shown
      ensures client.shown == old(client.shown) + [(InitializedMessage, DebugMessage)]
    {
      client.Show(InitializedMessage, DebugMessage);
    }

    /** `_on_initialize`: queue every workspace folder the client opened with, normalised. */
    method OnInitialize(workspaceFolders: Option<seq<string>>)
      modifies this`queued
      ensures var given := if workspaceFolders.Some? then workspaceFolders.value else [];
              |queued| == |old(queued)| + |given| && queued[..|old(queued)|] == old(queued) &&
              forall i :: 0 <= i < |given| ==> queued[|old(queued)| + i] == helpers.normalize(given[i])
    {
      var given := if workspaceFolders.Some? then workspaceFolders.value else [];
      for i := 0 to |given|
        invariant |queued| == |old(queued)| + i && queued[..|old(queued)|] == old(queued)
        invariant forall j :: 0 <= j < i ==> queued[|old(queued)| + j] == helpers.normalize(given[j])
      {
        QueueCompile(helpers.normalize(given[i]));
      }
    }

    /** `_on_analyze`: queue each requested folder not under way, warn about the rest. */
    method OnAnalyze(uris: Option<seq<string>>)
      requires Valid()
      modifies this`queued, client`shown
      ensures var targets := AnalyzeTargets(uris, workspaces.keys, helpers);
              queued == old(queued) + ToQueue(targets, inProgress) &&
              client.shown == old(client.shown) + InProgressWarnings(targets, inProgress, helpers)
    {
      var targets := AnalyzeTargets(uris, workspaces.keys, helpers);
      for i := 0 to |targets|
        invariant queued == old(queued) + ToQueue(targets[..i], inProgress)
        invariant client.shown == old(client.shown) + InProgressWarnings(targets[..i], inProgress, helpers)
      {
        AnalyzeTarget(targets, i, old(queued), old(client.shown));
      }
      assert targets[..|targets|] == targets;
    }

    /** One pass of `on_analyze`'s loop: warn about a folder already in progress, queue any other. */
    method AnalyzeTarget(targets: seq<string>, i: nat, ghost queued0: seq<string>, ghost shown0: seq<(string, MessageType)>)
      requires i < |targets|
      requires queued == queued0 + ToQueue(targets[..i], inProgress)
      requires client.shown == shown0 + InProgressWarnings(targets[..i], inProgress, helpers)
      modifies this`queued, client`shown
      ensures queued == queued0 + ToQueue(targets[..i + 1], inProgress)
      ensures client.shown == shown0 + InProgressWarnings(targets[..i + 1], inProgress, helpers)
    {
      AnalyzeStep(targets, i, inProgress, helpers);
      var uri := targets[i];
      ghost var toQueue, warnings := ToQueue(targets[..i], inProgress), InProgressWarnings(targets[..i], inProgress, helpers);
      if uri in inProgress {
        var warning := (AnalysisInProgressMessage(WorkspaceName(uri, helpers)), WarningMessage);
        Report(warning.0, warning.1);
        ConcatAssociative(shown0, warnings, [warning]);
        assert toQueue + [] == toQueue;
      } else {
        QueueCompile(uri);
        ConcatAssociative(queued0, toQueue, [uri]);
        assert warnings + [] == warnings;
      }
    }

    /** A queued compilation starts: it takes the folder's lock and says so. */
    method BeginCompile(uri: string)
      requires uri !in inProgress
      modifies this`inProgress, client`shown
      ensures inProgress == old(inProgress) + {uri}
      ensures client.shown == old(client.shown) + [(CompilationStartedMessage(WorkspaceName(uri, helpers)), InfoMessage)]
    {
      inProgress := inProgress + {uri};
      client.Show(CompilationStartedMessage(WorkspaceName(uri, helpers)), InfoMessage);
    }

    /** `_refresh_detector_output`: republish the diagnostics of every result under the current settings. */
    method Refresh() returns (ghost cleared: seq<string>)
      requires Valid()
      modifies diagnostics`diagnostics, client`published
      ensures Valid()
      ensures Republished(old(diagnostics.diagnostics), diagnostics.diagnostics, old(client.published), client.published,
                          cleared, ValueList(workspaces), detectorSettings, helpers)
    {
      cleared := diagnostics.Update(ValueList(workspaces), detectorSettings);
    }

    /**
     * A compilation ends: it reports how it went, records the folder's
     * result, refreshes the diagnostics and releases the lock.
     */
    method FinishCompile(uri: string, outcome: Outcome, parse: Value -> Result<DetectorResult>) returns (ghost cleared: seq<string>)
      requires Valid() && uri in inProgress
      modifies this`workspaces, this`inProgress, client`shown, diagnostics`diagnostics, client`published
      ensures Valid()
      ensures workspaces == Put(old(workspaces), uri, Recorded(outcome, parse))
      ensures client.shown == old(client.shown) + [(CompletionMessage(WorkspaceName(uri, helpers), Recorded(outcome, parse)), InfoMessage)]
      ensures Republished(old(diagnostics.diagnostics), diagnostics.diagnostics, old(client.published), client.published,
                          cleared, ValueList(workspaces), detectorSettings, helpers)
      ensures inProgress == old(inProgress) - {uri}
    {
      var result := Recorded(outcome, parse);
      Report(CompletionMessage(WorkspaceName(uri, helpers), result), InfoMessage);
      workspaces := Put(workspaces, uri, result);
      cleared := Refresh();
      Release(uri);
    }

    /** `show_message`. */
    method Report(text: string, kind: MessageType)
      modifies client`shown
      ensures client.shown == old(client.shown) + [(text, kind)]
    {
      client.Show(text, kind);
    }

    /** The folder's lock is released. */
    method Release(uri: string)
      modifies this`inProgress
      ensures inProgress == old(inProgress) - {uri}
    {
      inProgress := inProgress - {uri};
    }

    /**
     * `_on_did_change_workspace_folders`: queue each added folder not under
     * way, then forget each removed one. Removing waits for the folder's
     * lock, so here no removed folder may be under way. The diagnostics are
     * not refreshed.
     */
    method OnDidChangeWorkspaceFolders(added: seq<string>, removed: seq<string>)
      requires Valid()
      requires forall i :: 0 <= i < |removed| ==> helpers.normalize(removed[i]) !in inProgress
      modifies this`queued, this`workspaces
      ensures Valid()
      ensures queued == old(queued) + ToQueue(seq(|added|, i requires 0 <= i < |added| => helpers.normalize(added[i])), inProgress)
      ensures workspaces.values == old(workspaces.values) - set i | 0 <= i < |removed| :: helpers.normalize(removed[i])
      ensures forall u :: u in workspaces.keys ==> u in old(workspaces.keys)
    {
      QueueAdded(added);
      ForgetRemoved(removed);
    }

    /** The first half of a folder change: queue each added folder not under way. */
    method QueueAdded(added: seq<string>)
      modifies this`queued
      ensures queued == old(queued) + ToQueue(seq(|added|, i requires 0 <= i < |added| => helpers.normalize(added[i])), inProgress)
    {
      var targets := seq(|added|, i requires 0 <= i < |added| => helpers.normalize(added[i]));
      for i := 0 to |added|
        invariant queued == old(queued) + ToQueue(targets[..i], inProgress)
      {
        AnalyzeStep(targets, i, inProgress, helpers);
        ghost var toQueue := ToQueue(targets[..i], inProgress);
        var uri := helpers.normalize(added[i]);
        if uri !in inProgress {
          QueueCompile(uri);
          ConcatAssociative(old(queued), toQueue, [uri]);
        } else {
          assert toQueue + [] == toQueue;
        }
      }
      assert targets[..|added|] == targets;
    }

    /** The second half of a folder change: `workspaces.pop(uri, None)` for each removed folder. */
    method ForgetRemoved(removed: seq<string>)
      requires OrderedDicts.Valid(workspaces)
      modifies this`workspaces
      ensures OrderedDicts.Valid(workspaces)
      ensures workspaces.values == old(workspaces.values) - set i | 0 <= i < |removed| :: helpers.normalize(removed[i])
      ensures forall u :: u in workspaces.keys ==> u in old(workspaces.keys)
    {
      for i := 0 to |removed|
        invariant OrderedDicts.Valid(workspaces)
        invariant workspaces.values == old(workspaces.values) - set j | 0 <= j < i :: helpers.normalize(removed[j])
        invariant forall u :: u in workspaces.keys ==> u in old(workspaces.keys)
      {
        var uri := helpers.normalize(removed[i]);
        RemovedStep(old(workspaces.values), removed, i, helpers);
        RemoveMembers(workspaces.keys, uri);
        workspaces := Pop(workspaces, uri);
      }
    }

    /** `_on_set_detector_settings`: new settings are stored and the diagnostics refreshed; the same settings change nothing. */
    method SetDetectorSettings(settings: DetectorSettings) returns (ghost cleared: seq<string>)
      requires Valid()
      modifies this`detectorSettings, diagnostics`diagnostics, client`published
      ensures Valid()
      ensures detectorSettings == settings
      ensures settings == old(detectorSettings) ==>
                cleared == [] && diagnostics.diagnostics == old(diagnostics.diagnostics) && client.published == old(client.published)
      ensures settings != old(detectorSettings) ==>
                Republished(old(diagnostics.diagnostics), diagnostics.diagnostics, old(client.published), client.published,
                            cleared, ValueList(workspaces), settings, helpers)
    {
      if settings == detectorSettings {
        return [];
      }
      detectorSettings := settings;
      cleared := Refresh();
    }
  }

  /** Forgetting one more removed folder. */
  lemma RemovedStep(m: map<string, AnalysisResult>, removed: seq<string>, i: int, h: Helpers)
    requires 0 <= i < |removed|
    ensures (m - set j | 0 <= j < i :: h.normalize(removed[j])) - {h.normalize(removed[i])} ==
            m - set j | 0 <= j < i + 1 :: h.normalize(removed[j])
  {
    var gone := set j | 0 <= j < i :: h.normalize(removed[j]);
    assert (set j | 0 <= j < i + 1 :: h.normalize(removed[j])) == gone + {h.normalize(removed[i])};
  }

  /**
   * A folder removed from the workspace has no result afterwards, and one
   * neither added nor removed keeps its result.
   */
  lemma FolderRemovalForgets(before: map<string, AnalysisResult>, removed: seq<string>, h: Helpers, uri: string)
    ensures var after := before - set i | 0 <= i < |removed| :: h.normalize(removed[i]);
            ((exists i :: 0 <= i < |removed| && h.normalize(removed[i]) == uri) ==> uri !in after) &&
            ((forall i :: 0 <= i < |removed| ==> h.normalize(removed[i]) != uri) ==> (uri in after <==> uri in before))
  {
    if exists i :: 0 <= i < |removed| && h.normalize(removed[i]) == uri {
      var i :| 0 <= i < |removed| && h.normalize(removed[i]) == uri;
      assert uri in set j | 0 <= j < |removed| :: h.normalize(removed[j]);
    }
  }
}
