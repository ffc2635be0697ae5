/**
 * app/request_handlers/goto_def_impl_refs.py: go to definition, go to
 * implementation and find references. Each asks every built analysis for
 * the sources it relates to the cursor and returns their locations, one
 * analysis after the other.
 */
module GotoLocations {
  import opened Values
  import opened AppTypes
  import opened AppRanges
  import opened SlitherObjects
  import opened SlitherServer

  /** Which of Slither's offset queries a handler asks. */
  datatype Lookup = Definitions | Implementations | References

  /** The sources the query relates to an offset in a file, or the exception it raises. */
  function Sources(w: Slither, lookup: Lookup, analysis: Analysis, filename: string, offset: int): Result<seq<Source>>
  {
    match lookup
    case Definitions => w.offsetToDefinitions(analysis, filename, offset)
    case Implementations => w.offsetToImplementations(analysis, filename, offset)
    case References => w.offsetToReferences(analysis, filename, offset)
  }

  /** `source_to_location` of each source, in order. */
  function Located(sources: seq<Source>, toUri: string -> string): (r: seq<Location>)
    ensures |r| == |sources|
    ensures forall i :: 0 <= i < |sources| ==> r[i] == SourceToLocation(sources[i], toUri)
  {
    seq(|sources|, i requires 0 <= i < |sources| => SourceToLocation(sources[i], toUri))
  }

  /**
   * What one analysis result contributes: nothing when it was not built or
   * when the offset or the query raises, otherwise the located sources. The
   * offset is the global offset of the line plus the column.
   */
  function AnalysisLocations(r: AnalysisResult, w: Slither, lookup: Lookup, filename: string, line: int, col: int,
                             toUri: string -> string): seq<Location>
  {
    if r.built.None? then []
    else
      var (comp, analysis) := r.built.value;
      var offset := w.globalOffset(comp, filename, line);
      if offset.Err? then []
      else
        var sources := Sources(w, lookup, analysis, filename, offset.value + col);
        if sources.Err? then [] else Located(sources.value, toUri)
  }

  /** `_inspect_analyses`: the contributions of the results, in order. */
  function Inspect(results: seq<AnalysisResult>, w: Slither, lookup: Lookup, filename: string, line: int, col: int,
                   toUri: string -> string): seq<Location>
  {
    if results == [] then []
    else
      var n := |results| - 1;
      Inspect(results[..n], w, lookup, filename, line, col, toUri) + AnalysisLocations(results[n], w, lookup, filename, line, col, toUri)
  }

  lemma InspectStep(results: seq<AnalysisResult>, i: int, w: Slither, lookup: Lookup, filename: string, line: int, col: int,
                    toUri: string -> string)
    requires 0 <= i < |results|
    ensures Inspect(results[..i + 1], w, lookup, filename, line, col, toUri) ==
            Inspect(results[..i], w, lookup, filename, line, col, toUri) + AnalysisLocations(results[i], w, lookup, filename, line, col, toUri)
  {
    assert results[..i + 1][..i] == results[..i];
  }

  /** The results are taken in order: the locations of earlier analyses come first. */
  lemma {:induction false} InspectConcat(x: seq<AnalysisResult>, y: seq<AnalysisResult>, w: Slither, lookup: Lookup,
                                         filename: string, line: int, col: int, toUri: string -> string)
    ensures Inspect(x + y, w, lookup, filename, line, col, toUri) ==
            Inspect(x, w, lookup, filename, line, col, toUri) + Inspect(y, w, lookup, filename, line, col, toUri)
    decreases |y|
  {
    if y == [] {
      assert x + y == x;
    } else {
      var n := |y| - 1;
      var last := AnalysisLocations(y[n], w, lookup, filename, line, col, toUri);
      assert (x + y)[..|x + y| - 1] == x + y[..n];
      assert (x + y)[|x + y| - 1] == y[n];
      assert Inspect(x + y, w, lookup, filename, line, col, toUri) == Inspect(x + y[..n], w, lookup, filename, line, col, toUri) + last;
      InspectConcat(x, y[..n], w, lookup, filename, line, col, toUri);
      OrderedDicts.ConcatAssociative(Inspect(x, w, lookup, filename, line, col, toUri), Inspect(y[..n], w, lookup, filename, line, col, toUri), last);
    }
  }

  /**
   * A result that was not built, or whose offset or query raises, adds
   * nothing and does not disturb the others: the request still succeeds.
   */
  lemma FailingAnalysisSkipped(results: seq<AnalysisResult>, i: int, w: Slither, lookup: Lookup, filename: string, line: int, col: int,
                               toUri: string -> string)
    requires 0 <= i < |results|
    requires results[i].built.None? ||
             w.globalOffset(results[i].built.value.0, filename, line).Err? ||
             Sources(w, lookup, results[i].built.value.1, filename, w.globalOffset(results[i].built.value.0, filename, line).value + col).Err?
    ensures Inspect(results, w, lookup, filename, line, col, toUri) ==
            Inspect(results[..i], w, lookup, filename, line, col, toUri) + Inspect(results[i + 1..], w, lookup, filename, line, col, toUri)
  {
    var before, after := results[..i], results[i + 1..];
    var single := [results[i]];
    assert results == before + (single + after);
    assert AnalysisLocations(results[i], w, lookup, filename, line, col, toUri) == [];
    assert single[..0] == [];
    var none := Inspect(single, w, lookup, filename, line, col, toUri);
    assert none == Inspect([], w, lookup, filename, line, col, toUri) + [];
    InspectConcat(single, after, w, lookup, filename, line, col, toUri);
    var rest := Inspect(after, w, lookup, filename, line, col, toUri);
    assert none + rest == rest;
    InspectConcat(before, single + after, w, lookup, filename, line, col, toUri);
  }

  /** Whether a location is that of a source some built result's query returns at the cursor. */
  predicate FromAnalysis(results: seq<AnalysisResult>, w: Slither, lookup: Lookup, filename: string, line: int, col: int,
                         toUri: string -> string, l: Location)
  {
    exists i :: 0 <= i < |results| && l in AnalysisLocations(results[i], w, lookup, filename, line, col, toUri)
  }

  /** Some element of a non-empty list gives `e` exactly when one before the last does or the last does. */
  lemma SomeGivesStep<X, E>(xs: seq<X>, g: X -> seq<E>, e: E)
    requires xs != []
    ensures var n := |xs| - 1;
            (exists i :: 0 <= i < |xs| && e in g(xs[i])) <==>
            (exists i :: 0 <= i < n && e in g(xs[..n][i])) || e in g(xs[n])
  {
    var n := |xs| - 1;
    if exists i :: 0 <= i < |xs| && e in g(xs[i]) {
      var i :| 0 <= i < |xs| && e in g(xs[i]);
      if i < n {
        assert xs[..n][i] == xs[i];
      }
    }
    if exists i :: 0 <= i < n && e in g(xs[..n][i]) {
      var i :| 0 <= i < n && e in g(xs[..n][i]);
      assert xs[..n][i] == xs[i];
    }
  }

  lemma FromAnalysisStep(results: seq<AnalysisResult>, w: Slither, lookup: Lookup, filename: string, line: int, col: int,
                          toUri: string -> string, l: Location)
    requires results != []
    ensures var n := |results| - 1;
            FromAnalysis(results, w, lookup, filename, line, col, toUri, l) <==>
            FromAnalysis(results[..n], w, lookup, filename, line, col, toUri, l) ||
            l in AnalysisLocations(results[n], w, lookup, filename, line, col, toUri)
  {
    SomeGivesStep(results, r => AnalysisLocations(r, w, lookup, filename, line, col, toUri), l);
  }

  /** A location is returned exactly when some analysis contributes it. */
  lemma {:induction false} InspectMembers(results: seq<AnalysisResult>, w: Slither, lookup: Lookup, filename: string, line: int, col: int,
                                          toUri: string -> string, l: Location)
    ensures l in Inspect(results, w, lookup, filename, line, col, toUri) <==> FromAnalysis(results, w, lookup, filename, line, col, toUri, l)
  {
    if results != [] {
      var n := |results| - 1;
      InspectMembers(results[..n], w, lookup, filename, line, col, toUri, l);
      FromAnalysisStep(results, w, lookup, filename, line, col, toUri, l);
    }
  }

  /** A location an analysis contributes is the location of one of the sources its query returned. */
  lemma AnalysisLocationsSound(r: AnalysisResult, w: Slither, lookup: Lookup, filename: string, line: int, col: int,
                               toUri: string -> string, l: Location)
    requires l in AnalysisLocations(r, w, lookup, filename, line, col, toUri)
    ensures r.built.Some? && w.globalOffset(r.built.value.0, filename, line).Ok?
    ensures var sources := Sources(w, lookup, r.built.value.1, filename, w.globalOffset(r.built.value.0, filename, line).value + col);
            sources.Ok? && exists s :: s in sources.value && l == SourceToLocation(s, toUri)
  {
    var sources := Sources(w, lookup, r.built.value.1, filename, w.globalOffset(r.built.value.0, filename, line).value + col);
    var i :| 0 <= i < |sources.value| && Located(sources.value, toUri)[i] == l;
    assert sources.value[i] in sources.value;
  }

  /** The three handlers differ only in the query: two queries that agree give the same locations. */
  lemma {:induction false} SameQuerySameLocations(results: seq<AnalysisResult>, w: Slither, l1: Lookup, l2: Lookup,
                                                  filename: string, line: int, col: int, toUri: string -> string)
    requires forall a: Analysis, off: int :: Sources(w, l1, a, filename, off) == Sources(w, l2, a, filename, off)
    ensures Inspect(results, w, l1, filename, line, col, toUri) == Inspect(results, w, l2, filename, line, col, toUri)
  {
    if results != [] {
      var n := |results| - 1;
      SameQuerySameLocations(results[..n], w, l1, l2, filename, line, col, toUri);
      SameQuerySameContribution(results[n], w, l1, l2, filename, line, col, toUri);
    }
  }

  lemma SameQuerySameContribution(r: AnalysisResult, w: Slither, l1: Lookup, l2: Lookup,
                                  filename: string, line: int, col: int, toUri: string -> string)
    requires forall a: Analysis, off: int :: Sources(w, l1, a, filename, off) == Sources(w, l2, a, filename, off)
    ensures AnalysisLocations(r, w, l1, filename, line, col, toUri) == AnalysisLocations(r, w, l2, filename, line, col, toUri)
  {
    if r.built.Some? {
      var (comp, analysis) := r.built.value;
      var offset := w.globalOffset(comp, filename, line);
      if offset.Ok? {
        assert Sources(w, l1, analysis, filename, offset.value + col) == Sources(w, l2, analysis, filename, offset.value + col);
      }
    }
  }

  /** `_inspect_analyses`, as the loop the server runs. */
  method InspectAnalyses(results: seq<AnalysisResult>, w: Slither, lookup: Lookup, filename: string, line: int, col: int,
                         toUri: string -> string) returns (locations: seq<Location>)
    ensures locations == Inspect(results, w, lookup, filename, line, col, toUri)
  {
    locations := [];
    for i := 0 to |results|
      invariant locations == Inspect(results[..i], w, lookup, filename, line, col, toUri)
    {
      InspectStep(results, i, w, lookup, filename, line, col, toUri);
      locations := AddAnalysisLocations(locations, results[i], w, lookup, filename, line, col, toUri);
    }
    assert results[..|results|] == results;
  }

  /** The body of the loop: skip a result that is not built or whose offset or query raises, else append its locations. */
  method AddAnalysisLocations(before: seq<Location>, r: AnalysisResult, w: Slither, lookup: Lookup, filename: string, line: int, col: int,
                              toUri: string -> string) returns (locations: seq<Location>)
    ensures locations == before + AnalysisLocations(r, w, lookup, filename, line, col, toUri)
  {
    if r.built.None? {
      assert before + [] == before;
      return before;
    }
    var (comp, analysis) := r.built.value;
    var offset := w.globalOffset(comp, filename, line);
    if offset.Err? {
      assert before + [] == before;
      return before;
    }
    var sources := Sources(w, lookup, analysis, filename, offset.value + col);
    if sources.Err? {
      assert before + [] == before;
      return before;
    }
    locations := AppendLocated(before, sources.value, toUri);
  }

  /** The inner loop: append the location of each source. */
  method AppendLocated(before: seq<Location>, sources: seq<Source>, toUri: string -> string) returns (locations: seq<Location>)
    ensures locations == before + Located(sources, toUri)
  {
    locations := before;
    for j := 0 to |sources|
      invariant locations == before + Located(sources[..j], toUri)
    {
      assert Located(sources[..j + 1], toUri) == Located(sources[..j], toUri) + [SourceToLocation(sources[j], toUri)];
      locations := locations + [SourceToLocation(sources[j], toUri)];
    }
    assert sources[..|sources|] == sources;
  }

  /** The handlers' common part: the file of the request's URI, the line below the cursor's (1-based) and its column. */
  method OnLookup(ls: Server, w: Slither, lookup: Lookup, uri: string, position: Position) returns (locations: seq<Location>)
    requires ls.Valid()
    ensures locations == Inspect(ls.Analyses(), w, lookup, ls.helpers.toPath(uri), position.line + 1, position.character, ls.helpers.toUri)
  {
    locations := InspectAnalyses(ls.Analyses(), w, lookup, ls.helpers.toPath(uri), position.line + 1, position.character, ls.helpers.toUri);
  }

  /** `on_goto_definition`. */
  method OnGotoDefinition(ls: Server, w: Slither, uri: string, position: Position) returns (locations: seq<Location>)
    requires ls.Valid()
    ensures locations == Inspect(ls.Analyses(), w, Definitions, ls.helpers.toPath(uri), position.line + 1, position.character, ls.helpers.toUri)
  {
    locations := OnLookup(ls, w, Definitions, uri, position);
  }

  /** `on_goto_implementation`. */
  method OnGotoImplementation(ls: Server, w: Slither, uri: string, position: Position) returns (locations: seq<Location>)
    requires ls.Valid()
    ensures locations == Inspect(ls.Analyses(), w, Implementations, ls.helpers.toPath(uri), position.line + 1, position.character, ls.helpers.toUri)
  {
    locations := OnLookup(ls, w, Implementations, uri, position);
  }

  /** `on_find_references`. */
  method OnFindReferences(ls: Server, w: Slither, uri: string, position: Position) returns (locations: seq<Location>)
    requires ls.Valid()
    ensures locations == Inspect(ls.Analyses(), w, References, ls.helpers.toPath(uri), position.line + 1, position.character, ls.helpers.toUri)
  {
    locations := OnLookup(ls, w, References, uri, position);
  }
}
