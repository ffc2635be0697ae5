/**
 * The server state shared by the handlers: the legacy context
 * (state/server_context.py) and the typed one (lsp/state/server_context.py).
 * Both keep the same registry of analyses, which is defined once here.
 */
module ServerContexts {
  import opened Values
  import opened Codec
  import opened CodecRoundTrip
  import opened LspBasic

  /** A Slither analysis object; the registry keeps it by identity. */
  datatype Slither = Slither(handle: nat)

  /** The registry of analyses: `_analysis_results` and `_next_analysis_id`. */
  class AnalysisRegistry {
    var results: map<int, Slither>
    var nextId: int

    /** Every registered id was issued before the counter's current value. */
    predicate Valid()
      reads this
    {
      0 <= nextId && forall id :: id in results ==> 0 <= id < nextId
    }

    constructor ()
      ensures Valid() && results == map[] && nextId == 0
    {
      results := map[];
      nextId := 0;
    }

    /** `register_analysis`: the id is the old counter, which no registered analysis holds and which exceeds every earlier id. */
    method Register(instance: Slither) returns (id: int)
      requires Valid()
      modifies this
      ensures Valid()
      ensures id == old(nextId) && nextId == id + 1
      ensures id !in old(results) && forall k :: k in old(results) ==> k < id
      ensures results == old(results)[id := instance]
    {
      id := nextId;
      nextId := nextId + 1;
      results := results[id := instance];
    }

    /** `unregister_analysis`: removes the id if it is there; the counter does not go back. */
    method Unregister(id: int)
      requires Valid()
      modifies this
      ensures Valid()
      ensures results == old(results) - {id} && nextId == old(nextId)
    {
      results := results - {id};
    }

    /** `get_analysis`: the registered instance, or None for an id that is not registered. */
    function Get(id: int): (r: Option<Slither>)
      reads this
      ensures r.Some? <==> id in results
      ensures r.Some? ==> r.value == results[id]
    {
      if id in results then Some(results[id]) else None
    }
  }

  /** The callbacks the legacy context fires. */
  datatype ContextEvent = ServerInitializedEvent | ClientInitializedEvent

  /** `TraceValue.OFF`. */
  const TraceOff := StrMember(TraceValue, "off")

  /** The legacy `ServerContext`. */
  class LegacyContext {
    var serverInitialized: bool
    var clientInitialized: bool
    var shutdown: bool
    var trace: Value
    var clientInfo: Value
    var clientCapabilities: Value
    var workspaceFolders: seq<Value>
    /** Whether `on_server_initialized` / `on_client_initialized` hold a callback. */
    var onServerInitialized: bool
    var onClientInitialized: bool
    /** The callbacks fired so far, in order. */
    var fired: seq<ContextEvent>
    /** The attributes the older initialize handler writes. */
    var clientName: Value
    var clientVersion: Value
    var workspaceUris: seq<string>
    const analyses: AnalysisRegistry

    constructor ()
      ensures !serverInitialized && !clientInitialized && !shutdown && trace == TraceOff
      ensures clientInfo == VNone && clientCapabilities == VDict(map[]) && workspaceFolders == []
      ensures !onServerInitialized && !onClientInitialized && fired == []
      ensures fresh(analyses) && analyses.Valid() && analyses.results == map[] && analyses.nextId == 0
    {
      serverInitialized, clientInitialized, shutdown := false, false, false;
      trace := TraceOff;
      clientInfo, clientCapabilities, workspaceFolders := VNone, VDict(map[]), [];
      onServerInitialized, onClientInitialized, fired := false, false, [];
      clientName, clientVersion, workspaceUris := VNone, VNone, [];
      analyses := new AnalysisRegistry();
    }

    /** The `server_initialized` setter: stores the flag and fires the callback only when setting True with one registered. */
    method SetServerInitialized(value: bool)
      modifies this`serverInitialized, this`fired
      ensures serverInitialized == value
      ensures fired == old(fired) + if value && onServerInitialized then [ServerInitializedEvent] else []
    {
      serverInitialized := value;
      if value && onServerInitialized {
        fired := fired + [ServerInitializedEvent];
      }
    }

    /** The `client_initialized` setter. */
    method SetClientInitialized(value: bool)
      modifies this`clientInitialized, this`fired
      ensures clientInitialized == value
      ensures fired == old(fired) + if value && onClientInitialized then [ClientInitializedEvent] else []
    {
      clientInitialized := value;
      if value && onClientInitialized {
        fired := fired + [ClientInitializedEvent];
      }
    }
  }

  const ServerName := "Slither Language Server"

  /** `server_info`: the fixed name and the slither-lsp package's version, which is looked up outside the model. */
  function ServerInfo(lspVersion: string): (info: Value)
    ensures info == ClientServerInfoOf(ServerName, VStr(lspVersion))
  {
    assert ArgsOf(ClientServerInfoDecl.fields, [VStr(ServerName), VStr(lspVersion)], 1) == map["name" := VStr(ServerName)];
    VObj("ClientServerInfo", map["name" := VStr(ServerName), "version" := VStr(lspVersion)])
  }

  /** The typed `ServerContext`. */
  class LspContext {
    var serverInitialized: bool
    var clientInitialized: bool
    var shutdown: bool
    var trace: Value
    var clientInfo: Value
    var clientCapabilities: Value
    var serverCapabilities: Value
    var workspaceFolders: Value
    /** The events emitted on the server's event emitter, in order. */
    var emitted: seq<string>
    const analyses: AnalysisRegistry

    /** `ServerContext(server, server_capabilities)`: the capabilities default to fresh default instances. */
    constructor (schema: Schema, given: Option<Value>)
      requires NewInstance(schema, {}, "ClientCapabilities").Ok? && NewInstance(schema, {}, "ServerCapabilities").Ok?
      ensures !serverInitialized && !clientInitialized && !shutdown && trace == TraceOff && clientInfo == VNone
      ensures clientCapabilities == NewInstance(schema, {}, "ClientCapabilities").value
      ensures serverCapabilities == if given.Some? then given.value else NewInstance(schema, {}, "ServerCapabilities").value
      ensures workspaceFolders == VList([]) && emitted == []
      ensures fresh(analyses) && analyses.Valid() && analyses.results == map[] && analyses.nextId == 0
    {
      serverInitialized, clientInitialized, shutdown := false, false, false;
      trace, clientInfo := TraceOff, VNone;
      clientCapabilities := NewInstance(schema, {}, "ClientCapabilities").value;
      serverCapabilities := if given.Some? then given.value else NewInstance(schema, {}, "ServerCapabilities").value;
      workspaceFolders, emitted := VList([]), [];
      analyses := new AnalysisRegistry();
    }
  }
}
