/**
 * The message dispatcher of the legacy server (servers/base_server.py): how a
 * decoded JSON-RPC message is routed to a command handler or to the callbacks
 * of an earlier server request, the responses written back, and the ids of
 * the requests the server sends.
 *
 * The command handlers are a parameter: the set of method names with a
 * handler and, for each, the outcome of its `process` on the given params.
 * Their effects on the server context are modelled with the handlers
 * themselves, not here. Callbacks are named by handles and recorded in the
 * order they are called; messages written to the transport are recorded in
 * the order they are written.
 */
module Dispatcher {
  import opened Values
  import opened Errors
  import opened JsonRpcIo
  import opened ServerContexts

  /** The command handlers: which methods have one, how `process` ends, and the text `traceback.format_exc()` gives. */
  datatype Handlers = Handlers(names: set<string>, process: (string, Value) -> Outcome, traceback: PyError -> string)

  /** A call of a command handler's `process`. */
  datatype Invocation = Invocation(methodName: string, params: Value)

  /** The success and failure callbacks a server request registers, by handle. */
  datatype Callbacks = Callbacks(onSuccess: Option<nat>, onFailure: Option<nat>)

  /** A call of a registered callback. */
  datatype CallbackCall =
    | SuccessCall(callback: nat, result: Value)
    | FailureCall(callback: nat, code: CodeName, message: string, data: Value)

  /** Which messages the shutdown test turns away. */
  datatype ShutdownGuard =
    /** `message_id is None and shutdown` in base_server.py: notifications. */
    | NotificationsAfterShutdown
    /** What the comment above it describes: requests. */
    | RequestsAfterShutdown

  predicate Blocks(guard: ShutdownGuard, id: Value, shutdown: bool)
  {
    match guard
    case NotificationsAfterShutdown => id == VNone && shutdown
    case RequestsAfterShutdown => id != VNone && shutdown
  }

  // ---------------------------------------------------------------------------
  // The messages the server writes.

  const JsonRpcVersion := VStr("2.0")

  /** `_send_response_message`. */
  function ResultResponse(id: Value, result: Value): Value
  {
    VDict(map["jsonrpc" := JsonRpcVersion, "id" := id, "result" := result])
  }

  /** `_send_response_error`: the code is written as its int value. */
  function ErrorResponse(id: Value, e: LspError): Value
  {
    VDict(map["jsonrpc" := JsonRpcVersion, "id" := id,
              "error" := VDict(map["code" := VInt(Errors.Value(e.code)), "message" := VStr(e.message), "data" := e.data])])
  }

  /** `send_request_message`'s message. */
  function RequestMessage(id: string, methodName: string, params: Value): Value
  {
    VDict(map["jsonrpc" := JsonRpcVersion, "id" := VStr(id), "method" := VStr(methodName), "params" := params])
  }

  /** `send_notification_message`. */
  function NotificationMessage(methodName: string, params: Value): Value
  {
    VDict(map["jsonrpc" := JsonRpcVersion, "method" := VStr(methodName), "params" := params])
  }

  /** The errors the dispatcher itself raises. */
  const MethodNotString := LspError(InvalidRequest, "'method' field should be a string type.", VNone)
  const AfterShutdown := LspError(InvalidRequest, "Cannot process additional requests once a shutdown request has been made.", VNone)

  function NoHandler(methodName: string): (e: LspError)
    ensures e.code == MethodNotFound && e.data == VNone
  {
    LspError(MethodNotFound, "A command handler does not exist for method '" + methodName + "'", VNone)
  }

  /** Any exception but an `LSPError` becomes an InternalError carrying the traceback. */
  function Unhandled(traceback: string): (e: LspError)
    ensures e.code == InternalError && e.data == VStr(traceback)
  {
    LspError(InternalError, "An unhandled exception occurred:\r\n" + traceback, VStr(traceback))
  }

  // ---------------------------------------------------------------------------
  // Request ids.

  /** `str(n)`. */
  function DecimalText(n: nat): (r: string)
    ensures |r| == |Decimal(n)|
    ensures forall i :: 0 <= i < |r| ==> r[i] as int == Decimal(n)[i] as int
  {
    var d := Decimal(n);
    seq(|d|, i requires 0 <= i < |d| => d[i] as char)
  }

  const RequestIdPrefix := "slither-lsp-"

  /** The id of the server's `n`-th request. */
  function RequestId(n: nat): string
  {
    RequestIdPrefix + DecimalText(n)
  }

  /** Distinct counters give distinct ids. */
  lemma RequestIdInjective(a: nat, b: nat)
    ensures RequestId(a) == RequestId(b) ==> a == b
  {
    if RequestId(a) == RequestId(b) {
      var da, db := DecimalText(a), DecimalText(b);
      assert da == RequestId(a)[|RequestIdPrefix|..];
      assert db == RequestId(b)[|RequestIdPrefix|..];
      assert Decimal(a) == Decimal(b) by {
        forall i | 0 <= i < |Decimal(a)| ensures Decimal(a)[i] == Decimal(b)[i] {
          assert da[i] == db[i];
        }
      }
      DecimalValue(a);
      DecimalValue(b);
    }
  }

  // ---------------------------------------------------------------------------
  // One received message.

  /** What handling a request or notification does: the handler call, if any, and the message written, if any. */
  datatype Handling = Handling(invoked: Option<Invocation>, reply: Option<Value>)

  /** The error the dispatcher refuses a request or notification with before any handler runs, if any. */
  function Refusal(handlers: Handlers, guard: ShutdownGuard, shutdown: bool, id: Value, methodField: Value): (e: Option<LspError>)
    ensures e.None? <==> methodField.VStr? && !Blocks(guard, id, shutdown) && methodField.s in handlers.names
  {
    if !methodField.VStr? then Some(MethodNotString)
    else if Blocks(guard, id, shutdown) then Some(AfterShutdown)
    else if methodField.s !in handlers.names then Some(NoHandler(methodField.s))
    else None
  }

  /** The request-or-notification branch of `_on_message_received`. */
  function HandleRequest(handlers: Handlers, guard: ShutdownGuard, shutdown: bool, id: Value, methodField: Value, params: Value): Handling
  {
    var refusal := Refusal(handlers, guard, shutdown, id, methodField);
    if refusal.Some? then Handling(None, Some(ErrorResponse(id, refusal.value)))
    else
      var call := Some(Invocation(methodField.s, params));
      match handlers.process(methodField.s, params)
      case Returned(v) => Handling(call, if id != VNone then Some(ResultResponse(id, v)) else None)
      case RaisedLsp(e) => Handling(call, Some(ErrorResponse(id, e)))
      case Raised(ex) => Handling(call, Some(ErrorResponse(id, Unhandled(handlers.traceback(ex)))))
  }

  /**
   * The pending-table test: the keys are the request ids the server issued,
   * all of them str, so an int id never matches one.
   */
  predicate Pending(pending: map<string, Callbacks>, id: Value)
  {
    id.VStr? && id.s in pending
  }

  /**
   * The response branch of `_on_message_received`: the callback called, if any,
   * or the ValueError `LSPErrorCode(code)` raises for a code no member has.
   */
  function HandleResponse(pending: map<string, Callbacks>, message: map<string, Value>): Result<Option<CallbackCall>>
  {
    var id := DictGet(message, "id");
    if id == VNone || (!id.VStr? && !IsPyInt(id)) || !Pending(pending, id) then Ok(None)
    else
      var callbacks := pending[id.s];
      var errorInfo := DictGet(message, "error");
      if errorInfo != VNone then
        if !errorInfo.VDict? then Ok(None)
        else
          var code := DictGet(errorInfo.entries, "code");
          var text := DictGet(errorInfo.entries, "message");
          if callbacks.onFailure.Some? && IsPyInt(code) && text.VStr? then
            match Member(PyIntValue(code))
            case None => Err(ValueError)
            case Some(c) => Ok(Some(FailureCall(callbacks.onFailure.value, c, text.s, DictGet(errorInfo.entries, "data"))))
          else Ok(None)
      else if callbacks.onSuccess.Some? then Ok(Some(SuccessCall(callbacks.onSuccess.value, DictGet(message, "result"))))
      else Ok(None)
  }

  /** Everything one received message leads to. */
  datatype Step = Step(invoked: Option<Invocation>, reply: Option<Value>, callback: Option<CallbackCall>, escaped: Option<PyError>)

  /** `_on_message_received`, with the given shutdown test. */
  function OnMessage(handlers: Handlers, guard: ShutdownGuard, shutdown: bool, pending: map<string, Callbacks>, message: Value): Step
  {
    if !message.VDict? then Step(None, None, None, None)
    else
      var m := message.entries;
      var methodField := DictGet(m, "method");
      if methodField != VNone then
        var h := HandleRequest(handlers, guard, shutdown, DictGet(m, "id"), methodField, DictGet(m, "params"));
        Step(h.invoked, h.reply, None, None)
      else
        match HandleResponse(pending, m)
        case Ok(c) => Step(None, None, c, None)
        case Err(e) => Step(None, None, None, Some(e))
  }

  function Listed<T>(o: Option<T>): seq<T>
  {
    if o.Some? then [o.value] else []
  }

  /**
   * The legacy `BaseServer`. Its shutdown test is fixed when it is built: the
   * written one (`NotificationsAfterShutdown`) or the one its comment
   * describes (`RequestsAfterShutdown`).
   */
  class BaseServer {
    const guard: ShutdownGuard
    var context: LegacyContext
    /** `_pending_response_queue`. */
    var pending: map<string, Callbacks>
    /** `_current_server_request_id`. */
    var requestCounter: nat
    /** The messages written to the transport, in order. */
    var written: seq<Value>
    /** The command handler calls, in order. */
    var invoked: seq<Invocation>
    /** The callback calls, in order. */
    var callbacksRun: seq<CallbackCall>

    /** Every pending id was issued by an earlier request. */
    predicate Valid()
      reads this
    {
      forall id :: id in pending ==> exists n: nat :: n < requestCounter && id == RequestId(n)
    }

    constructor (context: LegacyContext, guard: ShutdownGuard)
      ensures Valid() && this.context == context && this.guard == guard
      ensures pending == map[] && requestCounter == 0 && written == [] && invoked == [] && callbacksRun == []
    {
      this.context, this.guard := context, guard;
      pending, requestCounter := map[], 0;
      written, invoked, callbacksRun := [], [], [];
    }

    /** `_on_message_received(message)`; the result is the exception that escapes it, if any. */
    method OnMessageReceived(handlers: Handlers, message: Value) returns (escaped: Option<PyError>)
      modifies this`written, this`invoked, this`callbacksRun
      ensures var s := OnMessage(handlers, guard, context.shutdown, pending, message);
              written == old(written) + Listed(s.reply) && invoked == old(invoked) + Listed(s.invoked) &&
              callbacksRun == old(callbacksRun) + Listed(s.callback) && escaped == s.escaped
    {
      if !message.VDict? {
        return None;
      }
      var m := message.entries;
      var methodField := DictGet(m, "method");
      if methodField != VNone {
        ReceiveRequest(handlers, DictGet(m, "id"), methodField, DictGet(m, "params"));
        return None;
      }
      escaped := ReceiveResponse(m);
    }

    /** The request-or-notification branch: a handler call and its reply, or the error reply. */
    method ReceiveRequest(handlers: Handlers, id: Value, methodField: Value, params: Value)
      modifies this`written, this`invoked
      ensures var h := HandleRequest(handlers, guard, context.shutdown, id, methodField, params);
              written == old(written) + Listed(h.reply) && invoked == old(invoked) + Listed(h.invoked)
    {
      var error := Admit(handlers, id, methodField);
      if error.None? {
        invoked := invoked + [Invocation(methodField.s, params)];
        match handlers.process(methodField.s, params)
        case Returned(v) =>
          if id != VNone {
            written := written + [ResultResponse(id, v)];
          }
        case RaisedLsp(e) =>
          error := Some(e);
        case Raised(ex) =>
          error := Some(Unhandled(handlers.traceback(ex)));
      }
      if error.Some? {
        written := written + [ErrorResponse(id, error.value)];
      }
    }

    /**
     * The checks before the handler runs: a str method, this server's shutdown
     * test, a registered handler. `ShutdownGuardAsWritten` and
     * `ShutdownGuardIntended` say what each test lets through.
     */
    method Admit(handlers: Handlers, id: Value, methodField: Value) returns (error: Option<LspError>)
      ensures error == Refusal(handlers, guard, context.shutdown, id, methodField)
    {
      if !methodField.VStr? {
        return Some(MethodNotString);
      }
      if Blocks(guard, id, context.shutdown) {
        return Some(AfterShutdown);
      }
      if methodField.s !in handlers.names {
        return Some(NoHandler(methodField.s));
      }
      return None;
    }

    /** The response branch: the callback of the pending request it answers, if any. */
    method ReceiveResponse(m: map<string, Value>) returns (escaped: Option<PyError>)
      modifies this`callbacksRun
      ensures var r := HandleResponse(pending, m);
              callbacksRun == old(callbacksRun) + (if r.Ok? then Listed(r.value) else []) &&
              escaped == (if r.Err? then Some(r.error) else None)
    {
      var id := DictGet(m, "id");
      if id == VNone || (!id.VStr? && !IsPyInt(id)) || !Pending(pending, id) {
        return None;
      }
      var callbacks := pending[id.s];
      var errorInfo := DictGet(m, "error");
      if errorInfo != VNone {
        if !errorInfo.VDict? {
          return None;
        }
        var code := DictGet(errorInfo.entries, "code");
        var text := DictGet(errorInfo.entries, "message");
        if callbacks.onFailure.Some? && IsPyInt(code) && text.VStr? {
          var member := Member(PyIntValue(code));
          if member.None? {
            return Some(ValueError);
          }
          callbacksRun := callbacksRun + [FailureCall(callbacks.onFailure.value, member.value, text.s, DictGet(errorInfo.entries, "data"))];
        }
      } else if callbacks.onSuccess.Some? {
        callbacksRun := callbacksRun + [SuccessCall(callbacks.onSuccess.value, DictGet(m, "result"))];
      }
      return None;
    }

    /** `send_request_message`: the next id, registered before the request is written, and never removed. */
    method SendRequest(methodName: string, params: Value, callbacks: Callbacks) returns (id: string)
      requires Valid()
      modifies this`pending, this`requestCounter, this`written
      ensures Valid()
      ensures id == RequestId(old(requestCounter)) && id !in old(pending)
      ensures requestCounter == old(requestCounter) + 1
      ensures pending == old(pending)[id := callbacks]
      ensures written == old(written) + [RequestMessage(id, methodName, params)]
    {
      id := RequestId(requestCounter);
      if id in pending {
        var n: nat :| n < requestCounter && id == RequestId(n);
        RequestIdInjective(n, requestCounter);
        assert false;
      }
      requestCounter := requestCounter + 1;
      pending := pending[id := callbacks];
      written := written + [RequestMessage(id, methodName, params)];
    }

    /** `send_notification_message`. */
    method SendNotification(methodName: string, params: Value)
      modifies this`written
      ensures written == old(written) + [NotificationMessage(methodName, params)]
    {
      written := written + [NotificationMessage(methodName, params)];
    }
  }

  // ---------------------------------------------------------------------------
  // What the dispatcher does with each kind of message.

  /** A message that is not a dict is dropped without a trace. */
  lemma NonDictIgnored(handlers: Handlers, guard: ShutdownGuard, shutdown: bool, pending: map<string, Callbacks>, message: Value)
    requires !message.VDict?
    ensures OnMessage(handlers, guard, shutdown, pending, message) == Step(None, None, None, None)
  {
  }

  /** A `method` key makes the message a request or notification, which never reaches a callback; without one it is a response, which never reaches a handler or writes anything. */
  lemma MethodSelectsBranch(handlers: Handlers, guard: ShutdownGuard, shutdown: bool, pending: map<string, Callbacks>, m: map<string, Value>)
    ensures var s := OnMessage(handlers, guard, shutdown, pending, VDict(m));
            if DictGet(m, "method") != VNone then s.callback.None? && s.escaped.None?
            else s.invoked.None? && s.reply.None?
  {
  }

  /** A method that is not a str gets InvalidRequest, and no handler runs. */
  lemma NonStringMethod(handlers: Handlers, guard: ShutdownGuard, shutdown: bool, id: Value, methodField: Value, params: Value)
    requires methodField != VNone && !methodField.VStr?
    ensures HandleRequest(handlers, guard, shutdown, id, methodField, params) == Handling(None, Some(ErrorResponse(id, MethodNotString)))
    ensures MethodNotString.code == InvalidRequest
  {
  }

  /** A str method without a handler gets MethodNotFound naming it, unless the shutdown test turned the message away first. */
  lemma UnknownMethod(handlers: Handlers, guard: ShutdownGuard, shutdown: bool, id: Value, name: string, params: Value)
    requires name !in handlers.names && !Blocks(guard, id, shutdown)
    ensures HandleRequest(handlers, guard, shutdown, id, VStr(name), params) == Handling(None, Some(ErrorResponse(id, NoHandler(name))))
  {
  }

  /**
   * A message that reaches its handler calls it with the params once; a
   * return is answered only when there is an id, an `LSPError` is sent back
   * unchanged, and any other exception becomes an InternalError with the
   * traceback as data.
   */
  lemma HandlerReached(handlers: Handlers, guard: ShutdownGuard, shutdown: bool, id: Value, name: string, params: Value)
    requires name in handlers.names && !Blocks(guard, id, shutdown)
    ensures var h := HandleRequest(handlers, guard, shutdown, id, VStr(name), params);
            h.invoked == Some(Invocation(name, params)) &&
            match handlers.process(name, params)
            case Returned(v) => h.reply == (if id != VNone then Some(ResultResponse(id, v)) else None)
            case RaisedLsp(e) => h.reply == Some(ErrorResponse(id, e))
            case Raised(ex) => h.reply == Some(ErrorResponse(id, Unhandled(handlers.traceback(ex))))
  {
  }

  /** Nothing is written back exactly when a notification's handler returns; an error is written even without an id. */
  lemma SilentExactly(handlers: Handlers, guard: ShutdownGuard, shutdown: bool, id: Value, methodField: Value, params: Value)
    requires methodField != VNone
    ensures var h := HandleRequest(handlers, guard, shutdown, id, methodField, params);
            h.reply.None? <==>
              id == VNone && h.invoked.Some? && handlers.process(methodField.s, params).Returned?
  {
  }

  /**
   * As written, the shutdown test turns away notifications, not requests:
   * after shutdown the `exit` notification gets an InvalidRequest reply and
   * its handler never runs, while a request with an id still reaches its
   * handler.
   */
  lemma ShutdownGuardAsWritten(handlers: Handlers, params: Value, id: Value)
    requires "exit" in handlers.names && id != VNone
    ensures var h := HandleRequest(handlers, NotificationsAfterShutdown, true, VNone, VStr("exit"), params);
            h.invoked.None? && h.reply == Some(ErrorResponse(VNone, AfterShutdown))
    ensures HandleRequest(handlers, NotificationsAfterShutdown, true, id, VStr("exit"), params).invoked.Some?
  {
  }

  /** With the test the comment describes, every request after shutdown is refused and no notification is. */
  lemma ShutdownGuardIntended(handlers: Handlers, id: Value, name: string, params: Value)
    ensures id != VNone ==>
              HandleRequest(handlers, RequestsAfterShutdown, true, id, VStr(name), params) ==
              Handling(None, Some(ErrorResponse(id, AfterShutdown)))
    ensures id == VNone && name in handlers.names ==>
              HandleRequest(handlers, RequestsAfterShutdown, true, id, VStr(name), params).invoked ==
              Some(Invocation(name, params))
  {
  }

  /** Before shutdown both tests let every message through. */
  lemma GuardsAgreeBeforeShutdown(id: Value)
    ensures !Blocks(NotificationsAfterShutdown, id, false) && !Blocks(RequestsAfterShutdown, id, false)
  {
  }

  /** A response whose id is not a pending str id changes nothing; in particular an int id never matches. */
  lemma UnknownResponseIgnored(pending: map<string, Callbacks>, m: map<string, Value>)
    requires !Pending(pending, DictGet(m, "id"))
    ensures HandleResponse(pending, m) == Ok(None)
  {
  }

  /** A response without an error goes to the success callback with its `result` (None when absent). */
  lemma SuccessResponse(pending: map<string, Callbacks>, m: map<string, Value>)
    requires Pending(pending, DictGet(m, "id")) && DictGet(m, "error") == VNone
    ensures var cb := pending[DictGet(m, "id").s].onSuccess;
            HandleResponse(pending, m) == Ok(if cb.Some? then Some(SuccessCall(cb.value, DictGet(m, "result"))) else None)
  {
  }

  /**
   * An error response reaches the failure callback exactly when the error is a
   * dict with an int code and a str message and the pending request has a
   * failure callback; a code no `LSPErrorCode` member has then raises
   * ValueError.
   */
  lemma FailureResponse(pending: map<string, Callbacks>, m: map<string, Value>)
    requires Pending(pending, DictGet(m, "id")) && DictGet(m, "error") != VNone
    ensures var e := DictGet(m, "error");
            var cb := pending[DictGet(m, "id").s].onFailure;
            var r := HandleResponse(pending, m);
            (r.Err? || r.value.Some?) <==>
              e.VDict? && cb.Some? && IsPyInt(DictGet(e.entries, "code")) && DictGet(e.entries, "message").VStr?
    ensures var e := DictGet(m, "error");
            var r := HandleResponse(pending, m);
            r.Err? <==> r != Ok(None) && Member(PyIntValue(DictGet(e.entries, "code"))).None?
    ensures var r := HandleResponse(pending, m);
            r.Ok? && r.value.Some? ==> r.value.value.FailureCall?
  {
  }

  /**
   * An error response laid out as the server writes its own reaches the
   * failure callback with the member of the code, the message and the data.
   */
  lemma {:induction false} ErrorResponseReadBack(pending: map<string, Callbacks>, id: string, e: LspError)
    requires id in pending && pending[id].onFailure.Some?
    ensures var r := HandleResponse(pending, ErrorResponse(VStr(id), e).entries);
            r.Ok? && r.value.Some? && r.value.value.FailureCall? &&
            r.value.value.callback == pending[id].onFailure.value &&
            Errors.Value(r.value.value.code) == Errors.Value(e.code) &&
            r.value.value.message == e.message && r.value.value.data == e.data
  {
    MemberOfName(e.code);
  }
}
