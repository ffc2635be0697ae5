/**
 * The error codes of the server and the errors it raises
 * (errors/lsp_error.py, errors/lsp_errors.py and lsp/types/errors.py all
 * declare the same `LSPErrorCode` IntEnum; it is defined once here).
 *
 * Python's `Enum` makes a name whose value was already used by an earlier
 * name an alias of that earlier member. `Member` models that lookup.
 */
module Errors {
  import opened Values

  /** Every name declared in `LSPErrorCode`, aliases included. */
  datatype CodeName =
    | ParseError
    | InvalidRequest
    | MethodNotFound
    | InvalidParams
    | InternalError
    | JsonrpcReservedErrorRangeStart
    | ServerErrorStart
    | ServerNotInitialized
    | UnknownErrorCode
    | JsonrpcReservedErrorRangeEnd
    | ServerErrorEnd
    | LspReservedErrorRangeStart
    | ContentModified
    | RequestCancelled
    | LspReservedErrorRangeEnd

  /** The names in declaration order. */
  const Declared: seq<CodeName> := [
    ParseError, InvalidRequest, MethodNotFound, InvalidParams, InternalError,
    JsonrpcReservedErrorRangeStart, ServerErrorStart, ServerNotInitialized, UnknownErrorCode,
    JsonrpcReservedErrorRangeEnd, ServerErrorEnd, LspReservedErrorRangeStart,
    ContentModified, RequestCancelled, LspReservedErrorRangeEnd ]

  /** The value each name is given. */
  function Value(n: CodeName): int
  {
    match n
    case ParseError => -32700
    case InvalidRequest => -32600
    case MethodNotFound => -32601
    case InvalidParams => -32602
    case InternalError => -32603
    case JsonrpcReservedErrorRangeStart => -32099
    case ServerErrorStart => -32099
    case ServerNotInitialized => -32002
    case UnknownErrorCode => -32001
    case JsonrpcReservedErrorRangeEnd => -32000
    case ServerErrorEnd => -32000
    case LspReservedErrorRangeStart => -32899
    case ContentModified => -32801
    case RequestCancelled => -32800
    case LspReservedErrorRangeEnd => -32800
  }

  /** The first name of `names` whose value is `v`. */
  function FirstWith(names: seq<CodeName>, v: int): (r: Option<CodeName>)
    ensures r.Some? ==> r.value in names && Value(r.value) == v
    ensures r.None? ==> forall i :: 0 <= i < |names| ==> Value(names[i]) != v
  {
    if names == [] then None
    else if Value(names[0]) == v then Some(names[0])
    else FirstWith(names[1..], v)
  }

  /** `LSPErrorCode(v)`: the member with value `v`, which is the first name declared with it. */
  function Member(v: int): Option<CodeName>
  {
    FirstWith(Declared, v)
  }

  /** The first name with a value comes before every other name with that value. */
  lemma {:induction false} FirstWithIsFirst(names: seq<CodeName>, v: int, i: nat)
    requires i < |names| && Value(names[i]) == v
    ensures FirstWith(names, v).Some?
    ensures exists j :: 0 <= j <= i && names[j] == FirstWith(names, v).value
  {
    if Value(names[0]) != v {
      FirstWithIsFirst(names[1..], v, i - 1);
      var j :| 0 <= j <= i - 1 && names[1..][j] == FirstWith(names[1..], v).value;
      assert names[j + 1] == FirstWith(names, v).value;
    }
  }

  /** The search stops at the first name with the value. */
  lemma {:induction false} FirstWithAt(names: seq<CodeName>, v: int, i: nat)
    requires i < |names| && Value(names[i]) == v
    requires forall j :: 0 <= j < i ==> Value(names[j]) != v
    ensures FirstWith(names, v) == Some(names[i])
  {
    if i > 0 {
      FirstWithAt(names[1..], v, i - 1);
    }
  }

  /** The position of a name in the declaration. */
  function Position(n: CodeName): (i: nat)
    ensures i < |Declared| && Declared[i] == n
  {
    match n
    case ParseError => 0
    case InvalidRequest => 1
    case MethodNotFound => 2
    case InvalidParams => 3
    case InternalError => 4
    case JsonrpcReservedErrorRangeStart => 5
    case ServerErrorStart => 6
    case ServerNotInitialized => 7
    case UnknownErrorCode => 8
    case JsonrpcReservedErrorRangeEnd => 9
    case ServerErrorEnd => 10
    case LspReservedErrorRangeStart => 11
    case ContentModified => 12
    case RequestCancelled => 13
    case LspReservedErrorRangeEnd => 14
  }

  /** Every declared name resolves to a member with the same value. */
  lemma MemberOfName(n: CodeName)
    ensures Member(Value(n)).Some? && Value(Member(Value(n)).value) == Value(n)
  {
    FirstWithIsFirst(Declared, Value(n), Position(n));
  }

  /** The codes JSON-RPC 2.0 predefines, as section 5.1 of its specification lists them. */
  function JsonRpcPredefined(v: int): Option<string>
  {
    if v == -32700 then Some("Parse error")
    else if v == -32600 then Some("Invalid Request")
    else if v == -32601 then Some("Method not found")
    else if v == -32602 then Some("Invalid params")
    else if v == -32603 then Some("Internal error")
    else None
  }

  /** Section 5.1 of JSON-RPC 2.0 reserves -32099..-32000 for implementation-defined server errors. */
  predicate InServerErrorRange(v: int) { -32099 <= v <= -32000 }

  /** The five names "Defined by JSON RPC" carry the codes section 5.1 predefines for them. */
  lemma JsonRpcCodes()
    ensures JsonRpcPredefined(Value(ParseError)) == Some("Parse error")
    ensures JsonRpcPredefined(Value(InvalidRequest)) == Some("Invalid Request")
    ensures JsonRpcPredefined(Value(MethodNotFound)) == Some("Method not found")
    ensures JsonRpcPredefined(Value(InvalidParams)) == Some("Invalid params")
    ensures JsonRpcPredefined(Value(InternalError)) == Some("Internal error")
    ensures forall n: CodeName :: JsonRpcPredefined(Value(n)).Some? ==>
              n in {ParseError, InvalidRequest, MethodNotFound, InvalidParams, InternalError}
  {
  }

  /** The two LSP codes kept for compatibility lie in the server error range, which the range names bound. */
  lemma ReservedRange()
    ensures InServerErrorRange(Value(ServerNotInitialized)) && InServerErrorRange(Value(UnknownErrorCode))
    ensures Value(JsonrpcReservedErrorRangeStart) == -32099 && Value(JsonrpcReservedErrorRangeEnd) == -32000
    ensures forall n: CodeName :: InServerErrorRange(Value(n)) ==>
              n in {JsonrpcReservedErrorRangeStart, ServerErrorStart, ServerNotInitialized, UnknownErrorCode,
                    JsonrpcReservedErrorRangeEnd, ServerErrorEnd}
  {
  }

  /** The deprecated names and the LSP range end are aliases of earlier members. */
  lemma Aliases(alias: CodeName, member: CodeName)
    requires (alias, member) in {(ServerErrorStart, JsonrpcReservedErrorRangeStart),
                                 (ServerErrorEnd, JsonrpcReservedErrorRangeEnd),
                                 (LspReservedErrorRangeEnd, RequestCancelled)}
    ensures Member(Value(alias)) == Some(member) && alias != member
  {
    Canonical(member);
    assert Value(alias) == Value(member);
  }

  /** ContentModified lies in the LSP reserved range, whose end is RequestCancelled's value. */
  lemma LspReservedRange()
    ensures Value(LspReservedErrorRangeStart) <= Value(ContentModified) <= Value(LspReservedErrorRangeEnd)
    ensures Value(LspReservedErrorRangeEnd) == Value(RequestCancelled)
  {
  }

  /** The names that are not aliases are their own members, so their values are pairwise distinct. */
  lemma Canonical(n: CodeName)
    requires n !in {ServerErrorStart, ServerErrorEnd, LspReservedErrorRangeEnd}
    ensures Member(Value(n)) == Some(n)
  {
    var i := Position(n);
    forall j | 0 <= j < i ensures Value(Declared[j]) != Value(n) {
      assert Declared[j] != n;
    }
    FirstWithAt(Declared, Value(n), i);
  }

  /** `LSPError(code, message, data)`; the legacy form and the typed form default `data` to None. */
  datatype LspError = LspError(code: CodeName, message: string, data: Value)

  /** `LSPError(code, message)` with `data` left at its default. */
  function NewLspError(code: CodeName, message: string): (e: LspError)
    ensures e.code == code && e.message == message && e.data == VNone
  {
    LspError(code, message, VNone)
  }

  const NotSupportedText := "' is not supported due to client/server capabilities."

  /** The message naming a method the client or server does not support. */
  function NotSupportedMessage(methodName: string): string
  {
    "'" + methodName + NotSupportedText
  }

  /** The method name can be read back from the message, so distinct methods give distinct messages. */
  lemma NotSupportedMessageNames(a: string, b: string)
    ensures NotSupportedMessage(a)[1..1 + |a|] == a
    ensures NotSupportedMessage(a) == NotSupportedMessage(b) ==> a == b
  {
    var m := NotSupportedMessage(a);
    assert m[1..1 + |a|] == a;
    if m == NotSupportedMessage(b) {
      assert |a| == |b|;
      assert NotSupportedMessage(b)[1..1 + |b|] == b;
    }
  }

  /** `LSPCommandNotSupported.from_command(command)`. */
  function CommandNotSupported(methodName: string): (e: LspError)
    ensures e.code == InternalError && e.data == VNone
    ensures e.message == NotSupportedMessage(methodName)
  {
    LspError(InternalError, NotSupportedMessage(methodName), VNone)
  }

  /** `CapabilitiesNotSupportedError(request_or_handler, data, additional_text)`. */
  function CapabilitiesNotSupported(methodName: string, data: Value, additionalText: Option<string>): (e: LspError)
    ensures e.code == InternalError && e.data == data
    ensures |e.message| >= |NotSupportedMessage(methodName)|
    ensures e.message[..|NotSupportedMessage(methodName)|] == NotSupportedMessage(methodName)
    ensures additionalText.None? ==> e.message == NotSupportedMessage(methodName)
    ensures additionalText.Some? ==>
              e.message[|NotSupportedMessage(methodName)|..] == " " + additionalText.value
  {
    var text := NotSupportedMessage(methodName);
    var text := if additionalText.Some? then text + " " + additionalText.value else text;
    LspError(InternalError, text, data)
  }

  /** With no data and no additional text, both generations build the same error. */
  lemma NotSupportedAgree(methodName: string)
    ensures CapabilitiesNotSupported(methodName, VNone, None) == CommandNotSupported(methodName)
  {
  }

  /** How a handler call ends: it returns a value, raises an `LSPError`, or raises another exception. */
  datatype Outcome = Returned(value: Value) | RaisedLsp(error: LspError) | Raised(exception: PyError)
}
