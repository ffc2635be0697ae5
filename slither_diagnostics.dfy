/**
 * feature_analyses/slither_diagnostics.py: turning detector findings into
 * diagnostics grouped by file, and keeping the client's view of them up to
 * date.
 */
module SlitherDiagnostics {
  import opened Values
  import opened AppTypes
  import opened SlitherObjects
  import opened OrderedDicts

  /** A diagnostic goes to the file of the finding's first element, as a URI. */
  type Finding = (string, Diagnostic)

  /** The range of a finding: lines and columns counted from 0 and, unlike `source_to_range`, not clamped. */
  function DiagnosticRange(s: DetectorSource): (r: Range)
    ensures r.start.line + 1 == s.lines[0] && r.start.character + 1 == s.startingColumn
    ensures r.end.line + 1 == s.lines[|s.lines| - 1] && r.end.character + 1 == s.endingColumn
  {
    Range(Position(s.lines[0] - 1, s.startingColumn - 1),
          Position(s.lines[|s.lines| - 1] - 1, s.endingColumn - 1))
  }

  /** The diagnostic for a finding: "[IMPACT] description", informational, coded by the check, from "slither". */
  function DiagnosticOf(r: DetectorResult, s: DetectorSource, upper: string -> string): (d: Diagnostic)
    ensures d.range == DiagnosticRange(s)
    ensures d.message == "[" + upper(r.impact) + "] " + r.description
    ensures d.severity == SeverityInformation && d.code == r.check && d.source == "slither"
  {
    Diagnostic(DiagnosticRange(s), "[" + upper(r.impact) + "] " + r.description, SeverityInformation, r.check, "slither")
  }

  /** Whether a detector result is shown: it has a first element with a source mapping, and its check is not hidden. */
  predicate Shown(r: DetectorResult, hidden: seq<string>)
  {
    |r.elements| > 0 && r.elements[0].sourceMapping.Some? && r.check !in hidden
  }

  /** The finding a shown detector result contributes. */
  function FindingOf(r: DetectorResult, h: Helpers): Finding
    requires |r.elements| > 0 && r.elements[0].sourceMapping.Some?
  {
    var s := r.elements[0].sourceMapping.value;
    (h.toUri(s.filenameAbsolute), DiagnosticOf(r, s, h.upper))
  }

  /** The finding of one detector result, if it is shown. */
  function ResultFindings(r: DetectorResult, hidden: seq<string>, h: Helpers): seq<Finding>
  {
    if Shown(r, hidden) then [FindingOf(r, h)] else []
  }

  /** The findings of some detector results, in order. */
  function Findings(rs: seq<DetectorResult>, hidden: seq<string>, h: Helpers): seq<Finding>
  {
    if rs == [] then []
    else Findings(rs[..|rs| - 1], hidden, h) + ResultFindings(rs[|rs| - 1], hidden, h)
  }

  /** The findings of one analysis: none when it has no detector results. */
  function AnalysisFindings(a: AnalysisResult, hidden: seq<string>, h: Helpers): seq<Finding>
  {
    if a.detectorResults.None? then [] else Findings(a.detectorResults.value, hidden, h)
  }

  /** The findings of every analysis, in order. */
  function AnalysesFindings(analyses: seq<AnalysisResult>, hidden: seq<string>, h: Helpers): seq<Finding>
  {
    if analyses == [] then []
    else AnalysesFindings(analyses[..|analyses| - 1], hidden, h) + AnalysisFindings(analyses[|analyses| - 1], hidden, h)
  }

  /** All findings under some settings: none at all when the detectors are disabled. */
  function AllFindings(analyses: seq<AnalysisResult>, settings: DetectorSettings, h: Helpers): seq<Finding>
  {
    if settings.enabled then AnalysesFindings(analyses, settings.hiddenChecks, h) else []
  }

  /** One more finding: appended to its file's list, a new file going last. */
  function AddFinding(d: Dict<string, seq<Diagnostic>>, f: Finding): (r: Dict<string, seq<Diagnostic>>)
    requires Valid(d)
    ensures Valid(r)
  {
    Put(d, f.0, (if f.0 in d.values then d.values[f.0] else []) + [f.1])
  }

  /** The findings grouped by file, files in the order they first appear. */
  function Group(fs: seq<Finding>): (d: Dict<string, seq<Diagnostic>>)
    ensures Valid(d)
  {
    if fs == [] then Empty() else AddFinding(Group(fs[..|fs| - 1]), fs[|fs| - 1])
  }

  /** The diagnostics of the findings for one file, in order. */
  function ForFile(fs: seq<Finding>, uri: string): seq<Diagnostic>
  {
    if fs == [] then []
    else
      var n := |fs| - 1;
      ForFile(fs[..n], uri) + if fs[n].0 == uri then [fs[n].1] else []
  }

  /** What is sent for each file cleared: an empty list. */
  function Cleared(uris: seq<string>): (r: seq<(string, seq<Diagnostic>)>)
    ensures |r| == |uris| && forall i :: 0 <= i < |uris| ==> r[i] == (uris[i], [])
  {
    seq(|uris|, i requires 0 <= i < |uris| => (uris[i], []))
  }

  // ---------------------------------------------------------------------------
  // What the grouping means.

  lemma GroupStep(fs: seq<Finding>, f: Finding)
    ensures Group(fs + [f]) == AddFinding(Group(fs), f)
  {
    assert (fs + [f])[..|fs|] == fs;
  }

  lemma ForFileStep(fs: seq<Finding>, f: Finding, uri: string)
    ensures ForFile(fs + [f], uri) == ForFile(fs, uri) + if f.0 == uri then [f.1] else []
  {
    assert (fs + [f])[..|fs|] == fs;
  }

  /**
   * A file has an entry exactly when some finding targets it, and its entry
   * lists the diagnostics of the findings for that file, in the order found.
   */
  lemma {:induction false} GroupEntry(fs: seq<Finding>, uri: string)
    ensures uri in Group(fs).values <==> ForFile(fs, uri) != []
    ensures uri in Group(fs).values ==> Group(fs).values[uri] == ForFile(fs, uri)
  {
    if fs != [] {
      var n := |fs| - 1;
      GroupEntry(fs[..n], uri);
    }
  }

  /** The files the findings target, one per finding. */
  function Uris(fs: seq<Finding>): (r: seq<string>)
    ensures |r| == |fs| && forall i :: 0 <= i < |fs| ==> r[i] == fs[i].0
  {
    seq(|fs|, i requires 0 <= i < |fs| => fs[i].0)
  }

  /** The first occurrence of each element, in order. */
  function FirstOccurrences(s: seq<string>): seq<string>
  {
    if s == [] then []
    else
      var n := |s| - 1;
      FirstOccurrences(s[..n]) + if s[n] in s[..n] then [] else [s[n]]
  }

  lemma {:induction false} ForFileEmpty(fs: seq<Finding>, uri: string)
    ensures ForFile(fs, uri) == [] <==> uri !in Uris(fs)
  {
    if fs != [] {
      var n := |fs| - 1;
      ForFileEmpty(fs[..n], uri);
      assert Uris(fs) == Uris(fs[..n]) + [fs[n].0];
    }
  }

  /** The files are listed in the order of their first finding. */
  lemma {:induction false} GroupKeyOrder(fs: seq<Finding>)
    ensures Group(fs).keys == FirstOccurrences(Uris(fs))
  {
    if fs != [] {
      var n := |fs| - 1;
      GroupKeyOrder(fs[..n]);
      GroupEntry(fs[..n], fs[n].0);
      ForFileEmpty(fs[..n], fs[n].0);
      assert Uris(fs)[..n] == Uris(fs[..n]);
    }
  }

  lemma FindingsStep(rs: seq<DetectorResult>, hidden: seq<string>, h: Helpers)
    requires rs != []
    ensures Findings(rs, hidden, h) == Findings(rs[..|rs| - 1], hidden, h) + ResultFindings(rs[|rs| - 1], hidden, h)
  {
  }

  /** `f` is the finding of one of the shown detector results `rs`. */
  predicate FromShownResult(f: Finding, rs: seq<DetectorResult>, hidden: seq<string>, h: Helpers)
  {
    exists j :: 0 <= j < |rs| && Shown(rs[j], hidden) && f == FindingOf(rs[j], h)
  }

  /** Every finding comes from a shown detector result, and every shown result gives one. */
  lemma {:induction false} FindingsSoundAndComplete(rs: seq<DetectorResult>, hidden: seq<string>, h: Helpers)
    ensures forall k :: 0 <= k < |Findings(rs, hidden, h)| ==> FromShownResult(Findings(rs, hidden, h)[k], rs, hidden, h)
    ensures forall j :: 0 <= j < |rs| && Shown(rs[j], hidden) ==> FindingOf(rs[j], h) in Findings(rs, hidden, h)
  {
    if rs != [] {
      var n := |rs| - 1;
      var prefix := rs[..n];
      FindingsSoundAndComplete(prefix, hidden, h);
      FindingsStep(rs, hidden, h);
      var fs, before, last := Findings(rs, hidden, h), Findings(prefix, hidden, h), ResultFindings(rs[n], hidden, h);
      assert fs == before + last;
      forall k | 0 <= k < |fs|
        ensures FromShownResult(fs[k], rs, hidden, h)
      {
        if k < |before| {
          assert FromShownResult(before[k], prefix, hidden, h);
          var j :| 0 <= j < |prefix| && Shown(prefix[j], hidden) && before[k] == FindingOf(prefix[j], h);
          assert prefix[j] == rs[j] && fs[k] == before[k];
        } else {
          assert Shown(rs[n], hidden) && fs[k] == last[0];
        }
      }
      forall j | 0 <= j < |rs| && Shown(rs[j], hidden)
        ensures FindingOf(rs[j], h) in fs
      {
        if j < n {
          assert prefix[j] == rs[j];
          assert FindingOf(rs[j], h) in before;
        } else {
          assert last == [FindingOf(rs[j], h)];
        }
      }
    }
  }

  /** The detector results of hidden checks, left out. */
  function Unhidden(rs: seq<DetectorResult>, hidden: seq<string>): seq<DetectorResult>
  {
    if rs == [] then []
    else
      var n := |rs| - 1;
      Unhidden(rs[..n], hidden) + if rs[n].check in hidden then [] else [rs[n]]
  }

  /** Hiding a check gives what dropping its results beforehand gives. */
  lemma {:induction false} HidingDropsResults(rs: seq<DetectorResult>, hidden: seq<string>, h: Helpers)
    ensures Findings(rs, hidden, h) == Findings(Unhidden(rs, hidden), [], h)
  {
    if rs != [] {
      var n := |rs| - 1;
      HidingDropsResults(rs[..n], hidden, h);
      FindingsStep(rs, hidden, h);
      var kept := Unhidden(rs[..n], hidden);
      var before := Findings(rs[..n], hidden, h);
      if rs[n].check in hidden {
        assert kept + [] == kept && before + [] == before;
        assert Unhidden(rs, hidden) == kept;
      } else {
        var more := kept + [rs[n]];
        assert Unhidden(rs, hidden) == more;
        FindingsStep(more, [], h);
        assert more[..|kept|] == kept && more[|kept|] == rs[n];
        assert ResultFindings(rs[n], [], h) == ResultFindings(rs[n], hidden, h);
      }
    }
  }

  lemma AnalysesFindingsStep(s: seq<AnalysisResult>, hidden: seq<string>, h: Helpers)
    requires s != []
    ensures AnalysesFindings(s, hidden, h) == AnalysesFindings(s[..|s| - 1], hidden, h) + AnalysisFindings(s[|s| - 1], hidden, h)
  {
  }

  lemma {:induction false} AnalysesFindingsConcat(a: seq<AnalysisResult>, b: seq<AnalysisResult>, hidden: seq<string>, h: Helpers)
    ensures AnalysesFindings(a + b, hidden, h) == AnalysesFindings(a, hidden, h) + AnalysesFindings(b, hidden, h)
    decreases |b|
  {
    if b == [] {
      assert a + b == a;
    } else {
      AnalysesFindingsConcat(a, b[..|b| - 1], hidden, h);
      AnalysesFindingsConcatStep(a, b, hidden, h);
    }
  }

  lemma AnalysesFindingsConcatStep(a: seq<AnalysisResult>, b: seq<AnalysisResult>, hidden: seq<string>, h: Helpers)
    requires b != []
    requires AnalysesFindings(a + b[..|b| - 1], hidden, h) == AnalysesFindings(a, hidden, h) + AnalysesFindings(b[..|b| - 1], hidden, h)
    ensures AnalysesFindings(a + b, hidden, h) == AnalysesFindings(a, hidden, h) + AnalysesFindings(b, hidden, h)
  {
    var n := |b| - 1;
    var ab := a + b;
    AnalysesFindingsStep(ab, hidden, h);
    AnalysesFindingsStep(b, hidden, h);
    assert ab[..|ab| - 1] == a + b[..n];
    assert ab[|ab| - 1] == b[n];
    var x, y, z := AnalysesFindings(a, hidden, h), AnalysesFindings(b[..n], hidden, h), AnalysisFindings(b[n], hidden, h);
    ConcatAssociative(x, y, z);
  }


  /** An analysis without detector results contributes nothing: leaving it out changes no finding. */
  lemma AnalysisWithoutResultsSkipped(analyses: seq<AnalysisResult>, i: int, hidden: seq<string>, h: Helpers)
    requires 0 <= i < |analyses| && analyses[i].detectorResults.None?
    ensures AnalysesFindings(analyses, hidden, h) == AnalysesFindings(analyses[..i] + analyses[i + 1..], hidden, h)
  {
    var before, one, after := analyses[..i], [analyses[i]], analyses[i + 1..];
    assert analyses == (before + one) + after;
    AnalysesFindingsConcat(before + one, after, hidden, h);
    AnalysesFindingsConcat(before, one, hidden, h);
    AnalysesFindingsConcat(before, after, hidden, h);
    AnalysesFindingsStep(one, hidden, h);
    assert one[..0] == [] && one[0] == analyses[i];
    var x, y := AnalysesFindings(before, hidden, h), AnalysesFindings(one, hidden, h);
    assert y == [];
    assert x + y == x;
  }

  lemma SkipStep(done: seq<Finding>, rs: seq<DetectorResult>, j: int, hidden: seq<string>, h: Helpers)
    requires 0 <= j < |rs| && !Shown(rs[j], hidden)
    ensures Group(done + Findings(rs[..j + 1], hidden, h)) == Group(done + Findings(rs[..j], hidden, h))
  {
    var prefix := rs[..j + 1];
    FindingsStep(prefix, hidden, h);
    assert prefix[..j] == rs[..j] && prefix[j] == rs[j];
    var x := Findings(rs[..j], hidden, h);
    assert x + [] == x;
    assert Findings(prefix, hidden, h) == x;
  }

  lemma CollectStep(done: seq<Finding>, rs: seq<DetectorResult>, j: int, hidden: seq<string>, h: Helpers)
    requires 0 <= j < |rs| && Shown(rs[j], hidden)
    ensures Group(done + Findings(rs[..j + 1], hidden, h)) == AddFinding(Group(done + Findings(rs[..j], hidden, h)), FindingOf(rs[j], h))
  {
    var prefix := rs[..j + 1];
    FindingsStep(prefix, hidden, h);
    assert prefix[..j] == rs[..j];
    var x, y, z := done, Findings(rs[..j], hidden, h), [FindingOf(rs[j], h)];
    ConcatAssociative(x, y, z);
    GroupStep(x + y, FindingOf(rs[j], h));
  }

  // ---------------------------------------------------------------------------
  // The tracker.

  /** `SlitherDiagnostics`: the diagnostics last published for each file, and the client they go to. */
  class Diagnostics {
    var diagnostics: Dict<string, seq<Diagnostic>>
    const client: Client
    const helpers: Helpers

    ghost predicate Valid()
      reads this
    {
      OrderedDicts.Valid(diagnostics)
    }

    constructor (client: Client, helpers: Helpers)
      ensures Valid() && diagnostics == Empty()
      ensures this.client == client && this.helpers == helpers
    {
      diagnostics := Empty();
      this.client := client;
      this.helpers := helpers;
    }

    /** `_clear_single`: publish no diagnostics for a file, and optionally forget it. */
    method ClearSingle(uri: string, clearFromLookup: bool)
      requires Valid()
      modifies this`diagnostics, client`published
      ensures Valid()
      ensures client.published == old(client.published) + [(uri, [])]
      ensures diagnostics == if clearFromLookup then Pop(old(diagnostics), uri) else old(diagnostics)
    {
      client.Publish(uri, []);
      if clearFromLookup {
        diagnostics := Pop(diagnostics, uri);
      }
    }

    /** `clear`: publish no diagnostics for every tracked file, in order, then forget them all. */
    method Clear()
      requires Valid()
      modifies this`diagnostics, client`published
      ensures Valid() && diagnostics == Empty()
      ensures client.published == old(client.published) + Cleared(old(diagnostics).keys)
    {
      var uris := diagnostics.keys;
      for i := 0 to |uris|
        invariant Valid() && diagnostics == old(diagnostics)
        invariant client.published == old(client.published) + Cleared(uris[..i])
      {
        ClearSingle(uris[i], false);
        assert Cleared(uris[..i + 1]) == Cleared(uris[..i]) + [(uris[i], [])];
      }
      assert uris[..|uris|] == uris;
      diagnostics := Empty();
    }

    /**
     * `update`: the new diagnostics are the findings grouped by file; each
     * file tracked before but absent now is sent an empty list once (in no
     * particular order, as Python's set gives it), then every file's
     * diagnostics are sent in order.
     */
    method Update(analyses: seq<AnalysisResult>, settings: DetectorSettings) returns (ghost cleared: seq<string>)
      requires Valid()
      modifies this`diagnostics, client`published
      ensures Valid()
      ensures diagnostics == Group(AllFindings(analyses, settings, helpers))
      ensures Distinct(cleared)
      ensures forall u :: u in cleared <==> u in old(diagnostics).values && u !in diagnostics.values
      ensures client.published == old(client.published) + Cleared(cleared) + Items(diagnostics)
    {
      var newDiagnostics := Collect(analyses, settings);
      cleared := ClearDropped(diagnostics.values.Keys - newDiagnostics.values.Keys);
      diagnostics := newDiagnostics;
      PublishAll();
      ConcatAssociative(old(client.published), Cleared(cleared), Items(diagnostics));
    }

    /** The clearing loop of `update`: each file of `toClear` is sent an empty list once, in the order the set yields. */
    method ClearDropped(toClear: set<string>) returns (ghost cleared: seq<string>)
      requires Valid()
      modifies this`diagnostics, client`published
      ensures Valid() && diagnostics == old(diagnostics)
      ensures Distinct(cleared)
      ensures forall u :: u in cleared <==> u in toClear
      ensures client.published == old(client.published) + Cleared(cleared)
    {
      var left := toClear;
      cleared := [];
      while left != {}
        invariant Valid() && diagnostics == old(diagnostics)
        invariant left <= toClear && Distinct(cleared)
        invariant forall u :: u in cleared <==> u in toClear && u !in left
        invariant client.published == old(client.published) + Cleared(cleared)
        decreases |left|
      {
        var uri :| uri in left;
        ClearSingle(uri, false);
        ClearedStep(cleared, uri);
        ConcatAssociative(old(client.published), Cleared(cleared), [(uri, [])]);
        cleared := cleared + [uri];
        left := left - {uri};
      }
    }

    /** The publishing loop of `update`: every file's diagnostics, in the lookup's order. */
    method PublishAll()
      requires Valid()
      modifies client`published
      ensures client.published == old(client.published) + Items(diagnostics)
    {
      var items := Items(diagnostics);
      for k := 0 to |items|
        invariant client.published == old(client.published) + items[..k]
      {
        client.Publish(items[k].0, items[k].1);
        TakeStep(items, k);
        ConcatAssociative(old(client.published), items[..k], [items[k]]);
      }
      TakeAll(items);
    }

    /** The nested loops of `update` that build the new lookup. */
    method Collect(analyses: seq<AnalysisResult>, settings: DetectorSettings) returns (newDiagnostics: Dict<string, seq<Diagnostic>>)
      ensures OrderedDicts.Valid(newDiagnostics)
      ensures newDiagnostics == Group(AllFindings(analyses, settings, helpers))
    {
      newDiagnostics := Empty();
      var hidden := set check | check in settings.hiddenChecks;
      if !settings.enabled {
        return;
      }
      for i := 0 to |analyses|
        invariant newDiagnostics == Group(AnalysesFindings(analyses[..i], settings.hiddenChecks, helpers))
      {
        ghost var done := AnalysesFindings(analyses[..i], settings.hiddenChecks, helpers);
        AnalysisStep(analyses, i, settings.hiddenChecks, helpers);
        var detectorResults := analyses[i].detectorResults;
        if detectorResults.None? {
          continue;
        }
        var rs := detectorResults.value;
        assert Findings(rs[..0], settings.hiddenChecks, helpers) == [] && done + [] == done;
        for j := 0 to |rs|
          invariant newDiagnostics == Group(done + Findings(rs[..j], settings.hiddenChecks, helpers))
        {
          newDiagnostics := CollectResult(newDiagnostics, done, rs, j, settings.hiddenChecks, hidden);
        }
        assert rs[..|rs|] == rs;
      }
      assert analyses[..|analyses|] == analyses;
    }

    /** One pass of the inner loop: the finding of result `j`, when shown, is added to its file's list. */
    method CollectResult(newDiagnostics: Dict<string, seq<Diagnostic>>, ghost done: seq<Finding>, rs: seq<DetectorResult>, j: nat,
                         hiddenChecks: seq<string>, hidden: set<string>)
      returns (next: Dict<string, seq<Diagnostic>>)
      requires j < |rs| && hidden == set check | check in hiddenChecks
      requires newDiagnostics == Group(done + Findings(rs[..j], hiddenChecks, helpers))
      ensures next == Group(done + Findings(rs[..j + 1], hiddenChecks, helpers))
    {
      next := newDiagnostics;
      var r := rs[j];
      if !Shown(r, hiddenChecks) {
        SkipStep(done, rs, j, hiddenChecks, helpers);
      }
      if |r.elements| == 0 || r.elements[0].sourceMapping.None? {
        return;
      }
      if r.check in hidden {
        return;
      }
      var target := r.elements[0].sourceMapping.value;
      var uri := helpers.toUri(target.filenameAbsolute);
      var params := Get(next, uri);
      var list := if params.None? then [] else params.value;
      if params.None? {
        next := Put(next, uri, []);
      }
      next := Put(next, uri, list + [DiagnosticOf(r, target, helpers.upper)]);
      AppendToFile(newDiagnostics, uri, DiagnosticOf(r, target, helpers.upper));
      CollectStep(done, rs, j, hiddenChecks, helpers);
    }
  }

  lemma ClearedStep(uris: seq<string>, uri: string)
    ensures Cleared(uris + [uri]) == Cleared(uris) + [(uri, [])]
  {
  }

  /** Creating a file's entry when missing and then appending to it is adding the finding. */
  lemma AppendToFile(d: Dict<string, seq<Diagnostic>>, uri: string, x: Diagnostic)
    requires Valid(d)
    ensures var list := if Get(d, uri).None? then [] else Get(d, uri).value;
            (if Get(d, uri).None? then Put(Put(d, uri, []), uri, list + [x]) else Put(d, uri, list + [x])) == AddFinding(d, (uri, x))
  {
  }

  /** One more analysis adds its findings, none when it has no detector results. */
  lemma AnalysisStep(analyses: seq<AnalysisResult>, i: int, hidden: seq<string>, h: Helpers)
    requires 0 <= i < |analyses|
    ensures analyses[i].detectorResults.None? ==> AnalysesFindings(analyses[..i + 1], hidden, h) == AnalysesFindings(analyses[..i], hidden, h)
    ensures analyses[i].detectorResults.Some? ==>
              AnalysesFindings(analyses[..i + 1], hidden, h) == AnalysesFindings(analyses[..i], hidden, h) + Findings(analyses[i].detectorResults.value, hidden, h)
  {
    var prefix := analyses[..i + 1];
    AnalysesFindingsStep(prefix, hidden, h);
    assert prefix[..i] == analyses[..i] && prefix[i] == analyses[i];
    var x := AnalysesFindings(analyses[..i], hidden, h);
    assert x + [] == x;
  }
}
