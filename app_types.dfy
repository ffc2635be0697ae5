/**
 * The records the pygls-based server exchanges with the client (the
 * lsprotocol `Position`, `Range`, `Location`, `Diagnostic` and symbol kinds),
 * the tuple forms of request_handlers/types.py with their conversions, the
 * string helpers the app borrows from urllib and `str`, and the client end
 * of the connection, which records what the server sends.
 */
module AppTypes {

  /** lsprotocol's `Position`. */
  datatype Position = Position(line: int, character: int)

  /** lsprotocol's `Range`. */
  datatype Range = Range(start: Position, end: Position)

  /** lsprotocol's `Location`. */
  datatype Location = Location(uri: string, range: Range)

  /** `Pos`: a (line, character) tuple, hashable, used as a set element. */
  type Pos = (int, int)

  /** `Range` of types.py: a (start, end) tuple of `Pos`. */
  type PosRange = (Pos, Pos)

  // ---------------------------------------------------------------------------
  // request_handlers/types.py

  /** `to_lsp_pos`. */
  function ToLspPos(p: Pos): Position
  {
    Position(p.0, p.1)
  }

  /** `to_lsp_range`. */
  function ToLspRange(r: PosRange): Range
  {
    Range(ToLspPos(r.0), ToLspPos(r.1))
  }

  /** `to_pos`. */
  function ToPos(p: Position): Pos
  {
    (p.line, p.character)
  }

  /** `to_range`. */
  function ToRange(r: Range): PosRange
  {
    (ToPos(r.start), ToPos(r.end))
  }

  /** A tuple survives the trip through `Position`. */
  lemma PosRoundTrip(p: Pos)
    ensures ToPos(ToLspPos(p)) == p
  {
  }

  /** A `Position` survives the trip through a tuple, line and character alike. */
  lemma PositionRoundTrip(q: Position)
    ensures ToLspPos(ToPos(q)) == q
  {
  }

  /** A range tuple survives the trip through `Range`. */
  lemma PosRangeRoundTrip(r: PosRange)
    ensures ToRange(ToLspRange(r)) == r
  {
  }

  /** A `Range` survives the trip through a tuple. */
  lemma RangeRoundTrip(r: Range)
    ensures ToLspRange(ToRange(r)) == r
  {
  }

  /** Both conversions keep the start first and the end second. */
  lemma RangeOrderKept(r: PosRange, q: Range)
    ensures ToPos(ToLspRange(r).start) == r.0 && ToPos(ToLspRange(r).end) == r.1
    ensures ToLspPos(ToRange(q).0) == q.start && ToLspPos(ToRange(q).1) == q.end
  {
  }

  /** Two positions or two ranges with the same tuple are the same. */
  lemma ToRangeInjective(a: Range, b: Range)
    ensures ToRange(a) == ToRange(b) <==> a == b
  {
    RangeRoundTrip(a);
    RangeRoundTrip(b);
  }

  // ---------------------------------------------------------------------------
  // Other lsprotocol records.

  /** lsprotocol's `DiagnosticSeverity`. */
  datatype Severity = SeverityError | SeverityWarning | SeverityInformation | SeverityHint

  /** lsprotocol's `Diagnostic`, with the fields the app sets. */
  datatype Diagnostic = Diagnostic(range: Range, message: string, severity: Severity, code: string, source: string)

  /** The members of lsprotocol's `SymbolKind` the app uses. */
  datatype SymbolKind = ClassKind | InterfaceKind | FunctionKind | StructKind | EnumKind

  /** lsprotocol's `MessageType`. */
  datatype MessageType = ErrorMessage | WarningMessage | InfoMessage | LogMessage | DebugMessage

  /**
   * The helpers the app imports from urllib, `os.path` and `str` and does not
   * define: `fs_path_to_uri`, `uri_to_fs_path`, `normalize_uri` and `str.upper`.
   */
  datatype Helpers = Helpers(
    toUri: string -> string,
    toPath: string -> string,
    normalize: string -> string,
    upper: string -> string)

  /** The client side of the connection: what `publish_diagnostics` and `show_message` have sent, in order. */
  class Client {
    /** Each `publish_diagnostics(uri, diagnostics)`. */
    var published: seq<(string, seq<Diagnostic>)>
    /** Each `show_message(text, type)`. */
    var shown: seq<(string, MessageType)>

    constructor ()
      ensures published == [] && shown == []
    {
      published, shown := [], [];
    }

    /** `publish_diagnostics(uri, diagnostics)`. */
    method Publish(uri: string, diagnostics: seq<Diagnostic>)
      modifies this`published
      ensures published == old(published) + [(uri, diagnostics)]
    {
      published := published + [(uri, diagnostics)];
    }

    /** `show_message(text, type)`. */
    method Show(text: string, kind: MessageType)
      modifies this`shown
      ensures shown == old(shown) + [(text, kind)]
    {
      shown := shown + [(text, kind)];
    }
  }
}
