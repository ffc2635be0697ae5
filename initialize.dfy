/**
 * The three `initialize` handlers: the legacy one that stores workspace
 * folders (command_handlers/lifecycle/initialize.py), the older one that
 * stores workspace uris (command_handlers/lifecycle/initialize_handler.py) and
 * the typed one (lsp/request_handlers/lifecycle/initialize.py).
 *
 * The version the replies carry is looked up outside the model and is a
 * parameter: the legacy handlers report the slither-analyzer package's
 * version, the typed one the slither-lsp package's.
 */
module Initialize {
  import opened Values
  import opened Codec
  import opened Errors
  import opened ServerContexts
  import opened LspBasic
  import opened LspBasicProps

  /** The error both legacy handlers raise for params that are not a dict. */
  const NotAStructure := LspError(InvalidParams,
    "Invalid params supplied. Expected a dictionary/structure type at the top level.",
    VDict(map["retry" := VBool(true)]))

  /** The reply of both legacy handlers: no capabilities, and the server's name and the slither-analyzer version. */
  function LegacyReply(analyzerVersion: string): Value
  {
    VDict(map[
      "capabilities" := VDict(map[]),
      "serverInfo" := VDict(map["name" := VStr(ServerName), "version" := VStr(analyzerVersion)])])
  }

  /** The trace level after a handler: the given value when it is a str, else the current one. */
  function TraceAfter(params: map<string, Value>, current: Value): (t: Value)
    ensures t.VStr? || t == current
    ensures DictGet(params, "trace").VStr? <==> t == DictGet(params, "trace") && t.VStr?
  {
    var given := DictGet(params, "trace");
    if given.VStr? then given else current
  }

  // ---------------------------------------------------------------------------
  // Keeping the entries of a list that pass a test, in order.

  /** The positions `i` of `entries` whose entry passes `keep`, in increasing order. */
  function Kept(keep: Value -> bool, entries: seq<Value>): (idx: seq<nat>)
    ensures forall k :: 0 <= k < |idx| ==> idx[k] < |entries| && keep(entries[idx[k]])
    ensures forall k, l :: 0 <= k < l < |idx| ==> idx[k] < idx[l]
    ensures forall i :: 0 <= i < |entries| && keep(entries[i]) ==> i in idx
  {
    if entries == [] then []
    else
      var n := |entries| - 1;
      var front := Kept(keep, entries[..n]);
      assert forall i :: 0 <= i < n ==> entries[..n][i] == entries[i];
      if keep(entries[n]) then front + [n] else front
  }

  /** Nothing is kept when no entry passes the test. */
  lemma {:induction false} KeptNone(keep: Value -> bool, entries: seq<Value>)
    requires forall i :: 0 <= i < |entries| ==> !keep(entries[i])
    ensures Kept(keep, entries) == []
  {
    if entries != [] {
      var n := |entries| - 1;
      assert forall i :: 0 <= i < n ==> entries[..n][i] == entries[i];
      KeptNone(keep, entries[..n]);
    }
  }

  // ---------------------------------------------------------------------------
  // command_handlers/lifecycle/initialize.py

  /** A `workspace_types.WorkspaceFolder`; the typed `WorkspaceFolder` instance has the same attributes. */
  function Folder(name: Value, uri: Value): Value
  {
    VObj("WorkspaceFolder", map["uri" := uri, "name" := name])
  }

  /** `client_info` after the legacy handler: a ClientInfo of the given name and version when clientInfo is a dict, else None. */
  function LegacyClientInfo(params: map<string, Value>): (info: Value)
    ensures DictGet(params, "clientInfo").VDict? <==> info != VNone
    ensures info != VNone ==>
              var given := DictGet(params, "clientInfo").entries;
              info == VObj("ClientInfo", map["name" := DictGet(given, "name"), "version" := DictGet(given, "version")])
  {
    var given := DictGet(params, "clientInfo");
    if given.VDict? then
      VObj("ClientInfo", map["name" := DictGet(given.entries, "name"), "version" := DictGet(given.entries, "version")])
    else VNone
  }

  /** The comprehension's test, `workspace_folder.get('uri')` is truthy. */
  predicate HasTruthyUri(entry: Value)
  {
    entry.VDict? && Truthy(DictGet(entry.entries, "uri"))
  }

  /** The folder the comprehension builds from a dict entry. */
  function FolderOf(entry: Value): Value
  {
    if entry.VDict? then Folder(DictGet(entry.entries, "name"), DictGet(entry.entries, "uri")) else VNone
  }

  /** The comprehension over `entries`: `.get` on an entry that is not a dict raises AttributeError. */
  function FolderComprehension(entries: seq<Value>): (r: Result<seq<Value>>)
    ensures r.Err? <==> exists i :: 0 <= i < |entries| && !entries[i].VDict?
    ensures r.Err? ==> r.error == AttributeError
  {
    if entries == [] then Ok([])
    else
      var n := |entries| - 1;
      assert forall i :: 0 <= i < n ==> entries[..n][i] == entries[i];
      var front :- FolderComprehension(entries[..n]);
      if !entries[n].VDict? then Err(AttributeError)
      else Ok(front + if HasTruthyUri(entries[n]) then [FolderOf(entries[n])] else [])
  }

  /** The comprehension keeps exactly the entries with a truthy uri, in their order. */
  lemma {:induction false} ComprehensionKeeps(entries: seq<Value>)
    requires FolderComprehension(entries).Ok?
    ensures var folders := FolderComprehension(entries).value;
            var idx := Kept(HasTruthyUri, entries);
            |folders| == |idx| && forall k :: 0 <= k < |folders| ==> folders[k] == FolderOf(entries[idx[k]])
  {
    if entries != [] {
      var n := |entries| - 1;
      assert forall i :: 0 <= i < n ==> entries[..n][i] == entries[i];
      ComprehensionKeeps(entries[..n]);
    }
  }

  /** `workspace_folders` after the legacy handler, or the exception the comprehension raises. */
  function LegacyFolders(params: map<string, Value>): Result<seq<Value>>
  {
    var listed := DictGet(params, "workspaceFolders");
    var folders :- if listed.VList? then FolderComprehension(listed.items) else Ok([]);
    var root := DictGet(params, "rootUri");
    if |folders| == 0 && root.VStr? then Ok([Folder(VNone, root)]) else Ok(folders)
  }

  /**
   * The listed entries with a truthy uri become the folders, in order; when
   * there are none, a str rootUri becomes the only folder.
   */
  lemma LegacyFoldersFallBack(params: map<string, Value>)
    requires LegacyFolders(params).Ok?
    ensures var listed := DictGet(params, "workspaceFolders");
            var root := DictGet(params, "rootUri");
            var idx := if listed.VList? then Kept(HasTruthyUri, listed.items) else [];
            var folders := LegacyFolders(params).value;
            (idx == [] ==> folders == if root.VStr? then [Folder(VNone, root)] else []) &&
            (idx != [] ==> |folders| == |idx| &&
                           forall k :: 0 <= k < |idx| ==> folders[k] == FolderOf(listed.items[idx[k]]))
  {
    var listed := DictGet(params, "workspaceFolders");
    if listed.VList? {
      ComprehensionKeeps(listed.items);
    }
  }

  /** A list holding an entry that is not a dict makes the legacy handler raise AttributeError. */
  lemma LegacyFoldersFail(params: map<string, Value>)
    ensures var listed := DictGet(params, "workspaceFolders");
            LegacyFolders(params).Err? <==> listed.VList? && exists i :: 0 <= i < |listed.items| && !listed.items[i].VDict?
    ensures LegacyFolders(params).Err? ==> LegacyFolders(params).error == AttributeError
  {
  }

  /** The workspace folders the legacy handler reads from its params, or the exception the comprehension raises. */
  method ReadFolders(p: map<string, Value>) returns (r: Result<seq<Value>>)
    ensures r == LegacyFolders(p)
    ensures r.Err? ==> r.error == AttributeError
  {
    var folders: seq<Value> := [];
    var listed := DictGet(p, "workspaceFolders");
    if listed.VList? {
      var kept := FolderComprehension(listed.items);
      if kept.Err? {
        return Err(kept.error);
      }
      folders := kept.value;
    }
    if |folders| == 0 {
      var root := DictGet(p, "rootUri");
      if root.VStr? {
        folders := [Folder(VNone, root)];
      }
    }
    return Ok(folders);
  }

  /** `ClientInfo(name=..., version=...)` when the params give a clientInfo dict, None otherwise. */
  method ReadClientInfo(p: map<string, Value>) returns (clientInfo: Value)
    ensures clientInfo == LegacyClientInfo(p)
  {
    clientInfo := VNone;
    var info := DictGet(p, "clientInfo");
    if info.VDict? {
      clientInfo := VObj("ClientInfo", map["name" := DictGet(info.entries, "name"), "version" := DictGet(info.entries, "version")]);
    }
  }

  /** The trace level is replaced only by a str one. */
  method ReadTrace(p: map<string, Value>, current: Value) returns (trace: Value)
    ensures trace == TraceAfter(p, current)
  {
    trace := current;
    var level := DictGet(p, "trace");
    if level.VStr? {
      trace := level;
    }
  }

  /** `InitializeHandler.process` of command_handlers/lifecycle/initialize.py. */
  method LegacyInitialize(ctx: LegacyContext, params: Value, analyzerVersion: string) returns (r: Outcome)
    modifies ctx`clientInfo, ctx`trace, ctx`workspaceFolders, ctx`clientCapabilities, ctx`serverInitialized, ctx`fired
    ensures !params.VDict? ==> r == RaisedLsp(NotAStructure) && unchanged(ctx)
    ensures params.VDict? ==>
              ctx.clientInfo == LegacyClientInfo(params.entries) &&
              ctx.trace == TraceAfter(params.entries, old(ctx.trace))
    ensures params.VDict? && LegacyFolders(params.entries).Err? ==>
              r == Raised(AttributeError) && ctx.workspaceFolders == [] &&
              ctx.clientCapabilities == old(ctx.clientCapabilities) &&
              ctx.serverInitialized == old(ctx.serverInitialized) && ctx.fired == old(ctx.fired)
    ensures params.VDict? && LegacyFolders(params.entries).Ok? ==>
              r == Returned(LegacyReply(analyzerVersion)) &&
              ctx.workspaceFolders == LegacyFolders(params.entries).value &&
              ctx.clientCapabilities == DictGet(params.entries, "capabilities") &&
              ctx.serverInitialized &&
              ctx.fired == old(ctx.fired) + if ctx.onServerInitialized then [ServerInitializedEvent] else []
  {
    if !params.VDict? {
      return RaisedLsp(NotAStructure);
    }
    var p := params.entries;
    var clientInfo := ReadClientInfo(p);
    var trace := ReadTrace(p, ctx.trace);
    var folders := ReadFolders(p);
    if folders.Err? {
      ctx.clientInfo, ctx.trace, ctx.workspaceFolders := clientInfo, trace, [];
      return Raised(folders.error);
    }
    ctx.clientInfo, ctx.trace, ctx.workspaceFolders := clientInfo, trace, folders.value;
    ctx.clientCapabilities := DictGet(p, "capabilities");
    ctx.SetServerInitialized(true);
    return Returned(LegacyReply(analyzerVersion));
  }

  // ---------------------------------------------------------------------------
  // command_handlers/lifecycle/initialize_handler.py

  /** The loop's test: the entry is a dict whose 'uri' is a str. */
  predicate HasStrUri(entry: Value)
  {
    entry.VDict? && DictGet(entry.entries, "uri").VStr?
  }

  /** The uri the loop appends for an entry that passes the test. */
  function UriOf(entry: Value): string
  {
    if HasStrUri(entry) then DictGet(entry.entries, "uri").s else ""
  }

  /** The uris the loop appends for `entries`, in order. */
  function StrUris(entries: seq<Value>): seq<string>
  {
    if entries == [] then []
    else
      var n := |entries| - 1;
      StrUris(entries[..n]) + if HasStrUri(entries[n]) then [UriOf(entries[n])] else []
  }

  /** The loop keeps exactly the dict entries with a str uri, in their order. */
  lemma {:induction false} StrUrisKeep(entries: seq<Value>)
    ensures var uris := StrUris(entries);
            var idx := Kept(HasStrUri, entries);
            |uris| == |idx| && forall k :: 0 <= k < |uris| ==> uris[k] == UriOf(entries[idx[k]])
  {
    if entries != [] {
      var n := |entries| - 1;
      var front := entries[..n];
      StrUrisKeep(front);
      var uris, idx := StrUris(entries), Kept(HasStrUri, entries);
      var frontUris, frontIdx := StrUris(front), Kept(HasStrUri, front);
      assert uris[..|frontUris|] == frontUris && idx[..|frontIdx|] == frontIdx;
      forall k | 0 <= k < |frontUris| ensures uris[k] == UriOf(entries[idx[k]]) {
        assert uris[k] == frontUris[k] && idx[k] == frontIdx[k];
        assert front[frontIdx[k]] == entries[idx[k]];
      }
    }
  }

  /** A uri is collected exactly when some dict entry carries it as a str. */
  lemma StrUrisMembers(entries: seq<Value>, u: string)
    ensures u in StrUris(entries) <==>
              exists i :: 0 <= i < |entries| && HasStrUri(entries[i]) && UriOf(entries[i]) == u
  {
    StrUrisKeep(entries);
    var uris := StrUris(entries);
    var idx := Kept(HasStrUri, entries);
    if u in uris {
      var k :| 0 <= k < |uris| && uris[k] == u;
      assert HasStrUri(entries[idx[k]]);
    }
    if i :| 0 <= i < |entries| && HasStrUri(entries[i]) && UriOf(entries[i]) == u {
      var k :| 0 <= k < |idx| && idx[k] == i;
      assert uris[k] == u;
    }
  }

  /** `workspace_uris` after the older handler. */
  function UrisAfter(params: map<string, Value>): seq<string>
  {
    var listed := DictGet(params, "workspaceFolders");
    var uris := if listed.VList? then StrUris(listed.items) else [];
    var root := DictGet(params, "rootUri");
    if |uris| == 0 && root.VStr? then [root.s] else uris
  }

  /** Without any str uri in the folders, the uris are the str rootUri alone, or none. */
  lemma UrisFallBack(params: map<string, Value>)
    requires var listed := DictGet(params, "workspaceFolders");
             !listed.VList? || forall i :: 0 <= i < |listed.items| ==> !HasStrUri(listed.items[i])
    ensures var root := DictGet(params, "rootUri");
            UrisAfter(params) == if root.VStr? then [root.s] else []
  {
    var listed := DictGet(params, "workspaceFolders");
    if listed.VList? {
      StrUrisKeep(listed.items);
      KeptNone(HasStrUri, listed.items);
    }
  }

  /** The loop over the listed folders, then the fall-back on rootUri. */
  method ReadUris(p: map<string, Value>) returns (uris: seq<string>)
    ensures uris == UrisAfter(p)
  {
    uris := [];
    var listed := DictGet(p, "workspaceFolders");
    if listed.VList? {
      var i := 0;
      while i < |listed.items|
        invariant 0 <= i <= |listed.items|
        invariant uris == StrUris(listed.items[..i])
      {
        var entry := listed.items[i];
        if entry.VDict? {
          var uri := DictGet(entry.entries, "uri");
          if uri.VStr? {
            uris := uris + [uri.s];
          }
        }
        assert listed.items[..i + 1][..i] == listed.items[..i];
        i := i + 1;
      }
      assert listed.items[..i] == listed.items;
    }
    if |uris| == 0 {
      var root := DictGet(p, "rootUri");
      if root.VStr? {
        uris := uris + [root.s];
      }
    }
  }

  /** `InitializeHandler.process` of command_handlers/lifecycle/initialize_handler.py. */
  method InitializeUris(ctx: LegacyContext, params: Value, analyzerVersion: string) returns (r: Outcome)
    modifies ctx`clientName, ctx`clientVersion, ctx`trace, ctx`workspaceUris, ctx`serverInitialized, ctx`fired
    ensures !params.VDict? ==> r == RaisedLsp(NotAStructure) && unchanged(ctx)
    ensures params.VDict? ==>
              var given := DictGet(params.entries, "clientInfo");
              r == Returned(LegacyReply(analyzerVersion)) &&
              ctx.clientName == (if given.VDict? then DictGet(given.entries, "name") else VNone) &&
              ctx.clientVersion == (if given.VDict? then DictGet(given.entries, "version") else VNone) &&
              ctx.trace == TraceAfter(params.entries, old(ctx.trace)) &&
              ctx.workspaceUris == UrisAfter(params.entries) &&
              ctx.serverInitialized &&
              ctx.fired == old(ctx.fired) + if ctx.onServerInitialized then [ServerInitializedEvent] else []
  {
    if !params.VDict? {
      return RaisedLsp(NotAStructure);
    }
    var p := params.entries;
    var name, version' := VNone, VNone;
    var info := DictGet(p, "clientInfo");
    if info.VDict? {
      name := DictGet(info.entries, "name");
      version' := DictGet(info.entries, "version");
    }
    var trace := ReadTrace(p, ctx.trace);
    var uris := ReadUris(p);
    ctx.clientName, ctx.clientVersion, ctx.trace, ctx.workspaceUris := name, version', trace, uris;
    ctx.SetServerInitialized(true);
    return Returned(LegacyReply(analyzerVersion));
  }

  // ---------------------------------------------------------------------------
  // lsp/request_handlers/lifecycle/initialize.py

  /** An attribute of a parsed instance; `from_dict` sets every field, so None stands only for the absent case. */
  function Attr(obj: Value, name: string): Value
  {
    if obj.VObj? then DictGet(obj.args, name) else VNone
  }

  /** `len(v)` for a str, list or dict; anything else raises TypeError. */
  function Len(v: Value): (r: Result<nat>)
    ensures r.Ok? <==> v.VStr? || v.VList? || v.VDict?
    ensures r.Err? ==> r.error == TypeError
    ensures v.VList? ==> r == Ok(|v.items|)
  {
    match v
    case VStr(s) => Ok(|s|)
    case VList(items) => Ok(|items|)
    case VDict(entries) => Ok(|entries|)
    case _ => Err(TypeError)
  }

  /** `params.workspace_folders or []`. */
  function ListedOrEmpty(parsed: Value): Value
  {
    var listed := Attr(parsed, "workspace_folders");
    if Truthy(listed) then listed else VList([])
  }

  /** `workspace_folders` after the typed handler, or the TypeError `len` raises. */
  function TypedFolders(parsed: Value): Result<Value>
  {
    var folders := ListedOrEmpty(parsed);
    var n :- Len(folders);
    var root := Attr(parsed, "root_uri");
    if n == 0 && root != VNone then Ok(VList([Folder(VNone, root)])) else Ok(folders)
  }

  /**
   * Parsed folders that form a non-empty list are kept as they are; an empty
   * or missing list becomes the root uri's folder when there is a root uri.
   */
  lemma TypedFoldersFallBack(parsed: Value)
    requires Attr(parsed, "workspace_folders").VList?
    ensures var listed := Attr(parsed, "workspace_folders");
            var root := Attr(parsed, "root_uri");
            TypedFolders(parsed) ==
              Ok(if listed.items != [] then listed
                 else if root != VNone then VList([Folder(VNone, root)])
                 else VList([]))
  {
  }

  /** The reply: `InitializeResult(server_capabilities, server_info)`. */
  function InitializeResultOf(serverCapabilities: Value, lspVersion: string): (result: Value)
    ensures result.VObj? && result.cls == "InitializeResult"
    ensures result.args.Keys == {"capabilities", "server_info"}
    ensures result.args["capabilities"] == serverCapabilities && result.args["server_info"] == ServerInfo(lspVersion)
  {
    VObj("InitializeResult", map["capabilities" := serverCapabilities, "server_info" := ServerInfo(lspVersion)])
  }

  /**
   * The typed reply's server info is written as a dict of the same shape as
   * the legacy replies' `serverInfo`, and is exactly it when the two packages'
   * versions are the same.
   */
  lemma ServerInfoAgrees(schema: Schema, analyzerVersion: string, lspVersion: string)
    requires Declares(schema, "ClientServerInfo", ClientServerInfoDecl)
    ensures ToDict(schema, ServerInfo(lspVersion)) ==
            Ok(VDict(map["name" := VStr(ServerName), "version" := VStr(lspVersion)]))
    ensures ToDict(schema, ServerInfo(lspVersion)) == Ok(LegacyReply(analyzerVersion).entries["serverInfo"]) <==>
            analyzerVersion == lspVersion
  {
    ClientServerInfoToDict(schema, ServerName, lspVersion);
    if analyzerVersion != lspVersion {
      assert LegacyReply(analyzerVersion).entries["serverInfo"].entries["version"] == VStr(analyzerVersion);
    }
  }

  /** How the typed handler ends once the result is built: its `to_dict`, or the exception that raises. */
  function ReplyOf(schema: Schema, result: Value): Outcome
    requires result.VObj?
  {
    var d := ToDict(schema, result);
    if d.Ok? then Returned(d.value) else Raised(d.error)
  }

  /** `InitializeHandler.process` of lsp/request_handlers/lifecycle/initialize.py. */
  method TypedInitialize(schema: Schema, ctx: LspContext, params: Value, lspVersion: string) returns (r: Outcome)
    modifies ctx`clientInfo, ctx`trace, ctx`workspaceFolders, ctx`clientCapabilities, ctx`serverInitialized, ctx`emitted
    ensures var parsed := FromDict(schema, "InitializeParams", params);
            parsed.Err? ==> r == Raised(parsed.error) && unchanged(ctx)
    ensures var parsed := FromDict(schema, "InitializeParams", params);
            parsed.Ok? ==> Stored(schema, ctx, parsed.value, lspVersion, r)
  {
    var parsed := FromDict(schema, "InitializeParams", params);
    if parsed.Err? {
      return Raised(parsed.error);
    }
    r := StoreParsed(schema, ctx, parsed.value, lspVersion);
  }

  /** The state and outcome the typed handler leaves after parsing its params into `p`. */
  twostate predicate Stored(schema: Schema, ctx: LspContext, p: Value, lspVersion: string, r: Outcome)
    reads ctx
  {
    ctx.clientInfo == Attr(p, "client_info") && ctx.trace == Attr(p, "trace") &&
    (TypedFolders(p).Err? ==>
       r == Raised(TypeError) && ctx.workspaceFolders == ListedOrEmpty(p) &&
       ctx.clientCapabilities == old(ctx.clientCapabilities) &&
       ctx.serverInitialized == old(ctx.serverInitialized) && ctx.emitted == old(ctx.emitted)) &&
    (TypedFolders(p).Ok? ==>
       ctx.workspaceFolders == TypedFolders(p).value &&
       ctx.clientCapabilities == Attr(p, "capabilities") &&
       ctx.serverInitialized && ctx.emitted == old(ctx.emitted) + ["server.initialized"] &&
       r == ReplyOf(schema, InitializeResultOf(ctx.serverCapabilities, lspVersion)))
  }

  /** The typed handler after `from_dict`: stores the parsed params and builds the reply. */
  method StoreParsed(schema: Schema, ctx: LspContext, p: Value, lspVersion: string) returns (r: Outcome)
    modifies ctx`clientInfo, ctx`trace, ctx`workspaceFolders, ctx`clientCapabilities, ctx`serverInitialized, ctx`emitted
    ensures Stored(schema, ctx, p, lspVersion, r)
  {
    ctx.clientInfo, ctx.trace := Attr(p, "client_info"), Attr(p, "trace");
    var listed, folders := ReadTypedFolders(p);
    ctx.workspaceFolders := listed;
    if folders.Err? {
      return Raised(folders.error);
    }
    ctx.workspaceFolders := folders.value;
    ctx.clientCapabilities := Attr(p, "capabilities");
    var result := InitializeResultOf(ctx.serverCapabilities, lspVersion);
    ctx.serverInitialized := true;
    ctx.emitted := ctx.emitted + ["server.initialized"];
    return ReplyOf(schema, result);
  }

  /**
   * The typed handler's folder steps: the listed folders (or an empty list),
   * then, when `len` of them is 0 and there is a root uri, the root's folder.
   */
  method ReadTypedFolders(p: Value) returns (listed: Value, r: Result<Value>)
    ensures listed == ListedOrEmpty(p) && r == TypedFolders(p)
    ensures r.Err? ==> r.error == TypeError
  {
    listed := Attr(p, "workspace_folders");
    if !Truthy(listed) {
      listed := VList([]);
    }
    var n := Len(listed);
    if n.Err? {
      return listed, Err(n.error);
    }
    r := Ok(listed);
    if n.value == 0 {
      var root := Attr(p, "root_uri");
      if root != VNone {
        r := Ok(VList([Folder(VNone, root)]));
      }
    }
  }
}
