/**
 * request_handlers/inlay_hints.py: the hints an editor shows inside the
 * text of a file. Every public or external function of a contract of the
 * file gets its selector (the function id) after its name, and every
 * argument of a call without named arguments gets the name of the
 * parameter it is passed to.
 */
module InlayHints {
  import opened Values
  import opened AppTypes
  import opened AppRanges
  import opened SlitherObjects
  import opened Collecting
  import SlitherServer

  /** The handler's own `InlayHint`: a frozen dataclass, so hints are told apart by position and label. */
  datatype InlayHint = InlayHint(pos: Pos, labelText: string)

  /** lsprotocol's `InlayHint`, as the handler returns it. */
  datatype LspInlayHint = LspInlayHint(position: Position, labelText: string)

  // ---------------------------------------------------------------------------
  // The selector label: f": {function_id:#0{10}x}"

  const HexAlphabet := "0123456789abcdef"

  function HexDigit(d: nat): char
    requires d < 16
  {
    HexAlphabet[d]
  }

  /** Lowercase hexadecimal digits of `n`, without leading zeros (one digit for 0). */
  function Hex(n: nat): (s: string)
    ensures |s| >= 1
    decreases n
  {
    if n < 16 then [HexDigit(n)] else Hex(n / 16) + [HexDigit(n % 16)]
  }

  function Zeros(k: nat): (s: string)
    ensures |s| == k
  {
    seq(k, _ => '0')
  }

  /** The `0` flag with a width: zeros on the left up to the width, never truncating. */
  function ZeroPad(s: string, width: nat): (r: string)
  {
    if |s| >= width then s else Zeros(width - |s|) + s
  }

  /**
   * The label of a selector hint: ": " and then the `#010x` form of the id,
   * the `0x` prefix and the digits padded with zeros to ten characters in all.
   */
  function SelectorLabel(id: nat): string
  {
    ": 0x" + ZeroPad(Hex(id), 8)
  }

  /** The value of one hexadecimal digit. */
  function DigitValue(c: char): nat
  {
    if '0' <= c <= '9' then (c as int - '0' as int) as nat
    else if 'a' <= c <= 'f' then (c as int - 'a' as int + 10) as nat
    else 0
  }

  /** Reading hexadecimal digits back, most significant first: the inverse of `Hex`. */
  function ParseHex(s: string): nat
  {
    if s == [] then 0 else ParseHex(s[..|s| - 1]) * 16 + DigitValue(s[|s| - 1])
  }

  function Pow16(k: nat): nat
  {
    if k == 0 then 1 else 16 * Pow16(k - 1)
  }

  lemma DigitRoundTrip(d: nat)
    requires d < 16
    ensures DigitValue(HexDigit(d)) == d
    ensures HexDigit(d) in HexAlphabet
  {
  }

  /** The digits of a number read back as that number. */
  lemma {:induction false} HexRoundTrip(n: nat)
    ensures ParseHex(Hex(n)) == n
    ensures forall i :: 0 <= i < |Hex(n)| ==> Hex(n)[i] in HexAlphabet
    decreases n
  {
    HexInAlphabet(n);
    if n >= 16 {
      DigitRoundTrip(n % 16);
      HexRoundTrip(n / 16);
      ParseHexSnoc(Hex(n / 16), HexDigit(n % 16));
    } else {
      DigitRoundTrip(n);
      ParseHexSnoc([], HexDigit(n));
      assert Hex(n) == [] + [HexDigit(n)];
    }
  }

  /** Reading one more digit multiplies what was read by 16 and adds the digit. */
  lemma ParseHexSnoc(s: string, c: char)
    ensures ParseHex(s + [c]) == ParseHex(s) * 16 + DigitValue(c)
  {
    assert (s + [c])[..|s|] == s;
  }

  /** Every digit of a number is a lower-case hexadecimal digit. */
  lemma {:induction false} HexInAlphabet(n: nat)
    ensures forall i :: 0 <= i < |Hex(n)| ==> Hex(n)[i] in HexAlphabet
    decreases n
  {
    DigitRoundTrip(n % 16);
    if n >= 16 {
      HexInAlphabet(n / 16);
      var s := Hex(n);
      assert forall i :: 0 <= i < |s| - 1 ==> s[i] == Hex(n / 16)[i];
    }
  }

  /** A number below 16^k has at most k digits. */
  lemma {:induction false} HexLength(n: nat, k: nat)
    requires k >= 1 && n < Pow16(k)
    ensures |Hex(n)| <= k
    decreases n
  {
    if n >= 16 {
      HexLength(n / 16, k - 1);
    }
  }

  /** Leading zeros do not change the value read. */
  lemma {:induction false} LeadingZeros(k: nat, s: string)
    ensures ParseHex(Zeros(k) + s) == ParseHex(s)
    decreases |s|, k
  {
    if s == [] {
      if k > 0 {
        assert Zeros(k) + s == Zeros(k);
        assert Zeros(k)[..k - 1] == Zeros(k - 1);
        LeadingZeros(k - 1, []);
        assert Zeros(k - 1) + [] == Zeros(k - 1);
      }
    } else {
      var t := Zeros(k) + s;
      assert t[..|t| - 1] == Zeros(k) + s[..|s| - 1];
      LeadingZeros(k, s[..|s| - 1]);
    }
  }

  /** Padding keeps the digits, and their value, at the right; it only adds zeros on the left. */
  lemma ZeroPadShape(s: string, width: nat)
    ensures |ZeroPad(s, width)| == if |s| >= width then |s| else width
    ensures ParseHex(ZeroPad(s, width)) == ParseHex(s)
    ensures forall i :: 0 <= i < |ZeroPad(s, width)| ==> ZeroPad(s, width)[i] == '0' || ZeroPad(s, width)[i] in s
  {
    if |s| < width {
      LeadingZeros(width - |s|, s);
      var z := Zeros(width - |s|);
      forall i | 0 <= i < width
        ensures ZeroPad(s, width)[i] == '0' || ZeroPad(s, width)[i] in s
      {
        if i >= |z| {
          assert ZeroPad(s, width)[i] == s[i - |z|];
        }
      }
    }
  }

  /**
   * The selector label reads ": 0x" and then lowercase hexadecimal digits
   * that read back as the function id; for a four-byte id there are exactly
   * eight of them.
   */
  lemma SelectorLabelShape(id: nat)
    ensures SelectorLabel(id)[..4] == ": 0x" && |SelectorLabel(id)| >= 12
    ensures forall i :: 4 <= i < |SelectorLabel(id)| ==> SelectorLabel(id)[i] in HexAlphabet
    ensures ParseHex(SelectorLabel(id)[4..]) == id
    ensures id < 0x1_0000_0000 ==> |SelectorLabel(id)| == 12
  {
    var digits := Hex(id);
    HexRoundTrip(id);
    ZeroPadShape(digits, 8);
    var padded := ZeroPad(digits, 8);
    assert SelectorLabel(id)[4..] == padded;
    assert forall i :: 4 <= i < |SelectorLabel(id)| ==> SelectorLabel(id)[i] == padded[i - 4];
    if id < 0x1_0000_0000 {
      FourBytes(id);
    }
  }

  /** A four-byte id has at most eight digits. */
  lemma FourBytes(id: nat)
    requires id < 0x1_0000_0000
    ensures |Hex(id)| <= 8
  {
    assert Pow16(8) == 0x1_0000_0000;
    HexLength(id, 8);
  }

  // ---------------------------------------------------------------------------
  // The hints

  /** `func.visibility in {"public", "external"}`. */
  predicate ShowsSelector(w: Slither, f: ObjId)
  {
    w.decl(f).kind.FunctionDecl? && w.decl(f).kind.visibility in {"public", "external"}
  }

  /** `add_id_inlay`: the selector of the signature, at the end of the name. */
  function SelectorHint(w: Slither, f: ObjId, comp: Compilation): InlayHint
    requires w.decl(f).kind.FunctionDecl?
  {
    InlayHint(ToPos(ObjectNameRange(w, f, comp).end), SelectorLabel(w.functionId(w.decl(f).kind.soliditySignature)))
  }

  function SelectorHints(w: Slither, f: ObjId, comp: Compilation): seq<InlayHint>
  {
    if ShowsSelector(w, f) then [SelectorHint(w, f, comp)] else []
  }

  /** An internal or high-level call whose expression is a call, to a function, with no argument names given. */
  predicate NeedsArgumentNames(w: Slither, op: Op)
  {
    IsCallOp(op) && op.expression.CallExpression? && IsFunction(w, op.callee) && op.expression.names.None?
  }

  /** The names of a function's parameters; other objects have none. */
  function Parameters(w: Slither, id: ObjId): seq<string>
  {
    if w.decl(id).kind.FunctionDecl? then w.decl(id).kind.parameters else []
  }

  /** The hint before an argument: the parameter's name and ": ", at the argument's start. */
  function ArgumentHint(arg: Source, name: string): InlayHint
  {
    InlayHint(ToPos(SourceToRange(arg).start), name + ": ")
  }

  /** The hints of one operation; a call with more arguments than parameters raises IndexError. */
  function ArgumentHints(w: Slither, op: Op): Result<seq<InlayHint>>
  {
    if !NeedsArgumentNames(w, op) then Ok([])
    else
      var args := op.expression.arguments;
      var params := Parameters(w, op.callee);
      if |params| < |args| then Err(IndexError)
      else Ok(seq(|args|, k requires 0 <= k < |args| => ArgumentHint(args[k], params[k])))
  }

  /** The hints of one function: its selector, then those of each of its operations. */
  function FunctionHints(w: Slither, f: ObjId, comp: Compilation): Result<seq<InlayHint>>
  {
    var args := Flatten(Operations(w, f), op => ArgumentHints(w, op));
    if args.Err? then args else Ok(SelectorHints(w, f, comp) + args.value)
  }

  /** `contracts`: those whose source lies in the file. */
  function FileContracts(w: Slither, contracts: seq<ObjId>, filename: FileName): seq<ObjId>
  {
    Filtered(contracts, c => if InFile(w, c, filename) then Some(c) else None)
  }

  /** `functions`: the functions and modifiers of those contracts, in order. */
  function FileFunctions(w: Slither, contracts: seq<ObjId>): seq<ObjId>
  {
    FlatMap(contracts, c => FunctionsAndModifiersDeclared(w, c))
  }

  /** One analysis: `filename_lookup` (which raises ValueError for a file it does not know), then its functions. */
  function AnalysisHints(w: Slither, target: string, p: (Analysis, Compilation)): Result<seq<InlayHint>>
  {
    match w.filenameLookup(p.1, target)
    case None => Err(ValueError)
    case Some(filename) => Flatten(FileFunctions(w, FileContracts(w, w.contracts(p.0), filename)), f => FunctionHints(w, f, p.1))
  }

  /** The final comprehension: each hint as lsprotocol's, with its position converted. */
  function Shown(hints: set<InlayHint>): set<LspInlayHint>
  {
    set h | h in hints :: LspInlayHint(ToLspPos(h.pos), h.labelText)
  }

  /** `inlay_hints` over the given analyses. */
  function Hints(w: Slither, target: string, analyses: seq<(Analysis, Compilation)>): Result<set<LspInlayHint>>
  {
    var all := Flatten(analyses, p => AnalysisHints(w, target, p));
    if all.Err? then Err(all.error) else Ok(Shown(Elements(all.value)))
  }

  // ---------------------------------------------------------------------------
  // Properties

  /** A hint of an operation: at argument `k` of a call that needs names, the name of parameter `k`. */
  ghost predicate ArgumentHintOf(w: Slither, op: Op, h: InlayHint)
  {
    NeedsArgumentNames(w, op) &&
    exists k :: 0 <= k < |op.expression.arguments| && k < |Parameters(w, op.callee)| &&
      h == ArgumentHint(op.expression.arguments[k], Parameters(w, op.callee)[k])
  }

  /** A hint of function `f`: its selector when public or external, or a hint of one of its operations. */
  ghost predicate HintOf(w: Slither, f: ObjId, comp: Compilation, h: InlayHint)
  {
    (ShowsSelector(w, f) && h == SelectorHint(w, f, comp)) ||
    (exists op :: op in Operations(w, f) && ArgumentHintOf(w, op, h))
  }

  /** The hints of an operation are exactly its `ArgumentHintOf` hints. */
  lemma ArgumentHintsMembers(w: Slither, op: Op, h: InlayHint)
    requires ArgumentHints(w, op).Ok?
    ensures h in ArgumentHints(w, op).value <==> ArgumentHintOf(w, op, h)
  {
    if NeedsArgumentNames(w, op) {
      var args := op.expression.arguments;
      var params := Parameters(w, op.callee);
      if h in ArgumentHints(w, op).value {
        var k :| 0 <= k < |args| && ArgumentHints(w, op).value[k] == h;
        assert h == ArgumentHint(args[k], params[k]);
      }
      if ArgumentHintOf(w, op, h) {
        var k :| 0 <= k < |args| && k < |params| && h == ArgumentHint(args[k], params[k]);
        assert ArgumentHints(w, op).value[k] == h;
      }
    }
  }

  /** An operation fails exactly when it needs names and passes more arguments than the callee has parameters. */
  lemma ArgumentHintsFail(w: Slither, op: Op)
    ensures ArgumentHints(w, op).Err? <==>
              NeedsArgumentNames(w, op) && |Parameters(w, op.callee)| < |op.expression.arguments|
    ensures ArgumentHints(w, op).Err? ==> ArgumentHints(w, op).error == IndexError
    ensures ArgumentHints(w, op).Ok? && !NeedsArgumentNames(w, op) ==> ArgumentHints(w, op).value == []
  {
  }

  /** The hints of a function are exactly its `HintOf` hints. */
  lemma FunctionHintsMembers(w: Slither, f: ObjId, comp: Compilation, h: InlayHint)
    requires FunctionHints(w, f, comp).Ok?
    ensures h in FunctionHints(w, f, comp).value <==> HintOf(w, f, comp, h)
  {
    var ops := Operations(w, f);
    FlattenMembers(ops, op => ArgumentHints(w, op), h);
    FlattenOk(ops, op => ArgumentHints(w, op));
    forall op | op in ops
      ensures h in ArgumentHints(w, op).value <==> ArgumentHintOf(w, op, h)
    {
      ArgumentHintsMembers(w, op, h);
    }
  }

  /** The functions considered are exactly the functions and modifiers of the contracts of the file. */
  lemma FileFunctionsMembers(w: Slither, contracts: seq<ObjId>, filename: FileName, f: ObjId)
    ensures f in FileFunctions(w, FileContracts(w, contracts, filename)) <==>
              exists c :: c in contracts && InFile(w, c, filename) && f in FunctionsAndModifiersDeclared(w, c)
  {
    var cs := FileContracts(w, contracts, filename);
    FlatMapMembers(cs, c => FunctionsAndModifiersDeclared(w, c), f);
    forall c
      ensures c in cs <==> c in contracts && InFile(w, c, filename)
    {
      FilteredMembers(contracts, c => if InFile(w, c, filename) then Some(c) else None, c);
    }
  }

  /** The hint of some function of a contract of the file. */
  ghost predicate FileHint(w: Slither, contracts: seq<ObjId>, filename: FileName, comp: Compilation, h: InlayHint)
  {
    exists f :: f in FileFunctions(w, FileContracts(w, contracts, filename)) && HintOf(w, f, comp, h)
  }

  /** The hints of an analysis are exactly those of the functions and modifiers of the contracts of the file. */
  lemma AnalysisHintsMembers(w: Slither, target: string, p: (Analysis, Compilation), h: InlayHint)
    requires AnalysisHints(w, target, p).Ok?
    ensures w.filenameLookup(p.1, target).Some?
    ensures h in AnalysisHints(w, target, p).value <==>
              FileHint(w, w.contracts(p.0), w.filenameLookup(p.1, target).value, p.1, h)
  {
    var filename := w.filenameLookup(p.1, target).value;
    var fs := FileFunctions(w, FileContracts(w, w.contracts(p.0), filename));
    FlattenMembers(fs, f => FunctionHints(w, f, p.1), h);
    FlattenOk(fs, f => FunctionHints(w, f, p.1));
    forall f | f in fs
      ensures h in FunctionHints(w, f, p.1).value <==> HintOf(w, f, p.1, h)
    {
      FunctionHintsMembers(w, f, p.1, h);
    }
  }

  /**
   * The hints returned are exactly the selector and argument hints of the
   * functions and modifiers of the contracts of the file, over every
   * analysis that knows it.
   */
  lemma HintsMembers(w: Slither, target: string, analyses: seq<(Analysis, Compilation)>, q: LspInlayHint)
    requires Hints(w, target, analyses).Ok?
    ensures q in Hints(w, target, analyses).value <==>
              exists p, h :: p in analyses && w.filenameLookup(p.1, target).Some? &&
                FileHint(w, w.contracts(p.0), w.filenameLookup(p.1, target).value, p.1, h) &&
                q == LspInlayHint(ToLspPos(h.pos), h.labelText)
  {
    var all := Flatten(analyses, p => AnalysisHints(w, target, p));
    FlattenOk(analyses, p => AnalysisHints(w, target, p));
    forall h
      ensures h in all.value <==>
                exists p :: p in analyses && w.filenameLookup(p.1, target).Some? &&
                  FileHint(w, w.contracts(p.0), w.filenameLookup(p.1, target).value, p.1, h)
    {
      FlattenMembers(analyses, p => AnalysisHints(w, target, p), h);
      forall p | p in analyses
        ensures w.filenameLookup(p.1, target).Some? &&
                (h in AnalysisHints(w, target, p).value <==>
                   FileHint(w, w.contracts(p.0), w.filenameLookup(p.1, target).value, p.1, h))
      {
        AnalysisHintsMembers(w, target, p, h);
      }
    }
  }

  /** Two hints that show alike are the same hint: the set removes exactly the duplicates. */
  lemma ShownInjective(hints: set<InlayHint>, a: InlayHint, b: InlayHint)
    requires a in hints && b in hints
    ensures LspInlayHint(ToLspPos(a.pos), a.labelText) == LspInlayHint(ToLspPos(b.pos), b.labelText) <==> a == b
  {
    PosRoundTrip(a.pos);
    PosRoundTrip(b.pos);
  }

  /** Some function of the contracts of the file, in an analysis that knows it, makes a call that raises. */
  ghost predicate Raises(w: Slither, target: string, p: (Analysis, Compilation))
  {
    w.filenameLookup(p.1, target).Some? &&
    exists f, op :: f in FileFunctions(w, FileContracts(w, w.contracts(p.0), w.filenameLookup(p.1, target).value)) &&
      op in Operations(w, f) && ArgumentHints(w, op).Err?
  }

  /** A function fails exactly when one of its operations does, and then with IndexError. */
  lemma FunctionFails(w: Slither, f: ObjId, comp: Compilation)
    ensures FunctionHints(w, f, comp).Err? <==> exists op :: op in Operations(w, f) && ArgumentHints(w, op).Err?
    ensures FunctionHints(w, f, comp).Err? ==> FunctionHints(w, f, comp).error == IndexError
  {
    var ops := Operations(w, f);
    FlattenFails(ops, op => ArgumentHints(w, op));
    if exists op :: op in ops && ArgumentHints(w, op).Err? {
      var op :| op in ops && ArgumentHints(w, op).Err?;
      var k :| 0 <= k < |ops| && ops[k] == op;
    }
  }

  /** An analysis that knows the file fails exactly when one of its operations does, and then with IndexError. */
  lemma AnalysisFails(w: Slither, target: string, p: (Analysis, Compilation))
    requires w.filenameLookup(p.1, target).Some?
    ensures AnalysisHints(w, target, p).Err? <==> Raises(w, target, p)
    ensures AnalysisHints(w, target, p).Err? ==> AnalysisHints(w, target, p).error == IndexError
  {
    var fs := FileFunctions(w, FileContracts(w, w.contracts(p.0), w.filenameLookup(p.1, target).value));
    FlattenFails(fs, f => FunctionHints(w, f, p.1));
    forall j | 0 <= j < |fs|
      ensures FunctionHints(w, fs[j], p.1).Err? <==> exists op :: op in Operations(w, fs[j]) && ArgumentHints(w, op).Err?
      ensures FunctionHints(w, fs[j], p.1).Err? ==> FunctionHints(w, fs[j], p.1).error == IndexError
    {
      FunctionFails(w, fs[j], p.1);
    }
    if Raises(w, target, p) {
      var f, op :| f in fs && op in Operations(w, f) && ArgumentHints(w, op).Err?;
      var j :| 0 <= j < |fs| && fs[j] == f;
      assert FunctionHints(w, fs[j], p.1).Err?;
    }
  }

  /**
   * Over the analyses that know the file the handler raises only
   * IndexError, and exactly when some function of the file makes a call
   * that needs names with more arguments than the callee has parameters.
   */
  lemma HintsFail(w: Slither, target: string, results: seq<AnalysisResult>)
    ensures Hints(w, target, SlitherServer.Containing(results, target, w)).Err? <==>
              exists p :: p in SlitherServer.Containing(results, target, w) && Raises(w, target, p)
    ensures Hints(w, target, SlitherServer.Containing(results, target, w)).Err? ==>
              Hints(w, target, SlitherServer.Containing(results, target, w)).error == IndexError
  {
    var analyses := SlitherServer.Containing(results, target, w);
    forall i | 0 <= i < |analyses|
      ensures AnalysisHints(w, target, analyses[i]).Err? <==> Raises(w, target, analyses[i])
      ensures AnalysisHints(w, target, analyses[i]).Err? ==> AnalysisHints(w, target, analyses[i]).error == IndexError
    {
      SlitherServer.ContainingCorrect(results, target, w, analyses[i]);
      AnalysisFails(w, target, analyses[i]);
    }
    HintsFailOn(w, target, analyses);
  }

  /** The handler fails exactly when one of the analyses does, and then with that analysis's error. */
  lemma HintsFailOn(w: Slither, target: string, analyses: seq<(Analysis, Compilation)>)
    requires forall i :: 0 <= i < |analyses| ==>
               (AnalysisHints(w, target, analyses[i]).Err? <==> Raises(w, target, analyses[i])) &&
               (AnalysisHints(w, target, analyses[i]).Err? ==> AnalysisHints(w, target, analyses[i]).error == IndexError)
    ensures Hints(w, target, analyses).Err? <==> exists p :: p in analyses && Raises(w, target, p)
    ensures Hints(w, target, analyses).Err? ==> Hints(w, target, analyses).error == IndexError
  {
    FlattenFails(analyses, p => AnalysisHints(w, target, p));
    if exists p :: p in analyses && Raises(w, target, p) {
      var p :| p in analyses && Raises(w, target, p);
      var i :| 0 <= i < |analyses| && analyses[i] == p;
      assert AnalysisHints(w, target, analyses[i]).Err?;
    }
  }

  // ---------------------------------------------------------------------------
  // The handler

  /** `inlay_hints`. */
  method OnInlayHints(ls: SlitherServer.Server, w: Slither, uri: string) returns (r: Result<set<LspInlayHint>>)
    requires ls.Valid()
    ensures r == Hints(w, ls.helpers.toPath(uri), SlitherServer.Containing(ls.Analyses(), ls.helpers.toPath(uri), w))
  {
    var target := ls.helpers.toPath(uri);
    var containing := ls.AnalysesContaining(target, w);
    var res: set<InlayHint> := {};
    for i := 0 to |containing|
      invariant Flatten(containing[..i], p => AnalysisHints(w, target, p)).Ok?
      invariant res == Elements(Flatten(containing[..i], p => AnalysisHints(w, target, p)).value)
    {
      FlattenStep(containing, i, p => AnalysisHints(w, target, p));
      var (analysis, comp) := containing[i];
      assert containing[i] in containing;
      var filename := w.filenameLookup(comp, target).value;
      var next := HintsInAnalysis(w, w.contracts(analysis), filename, comp, res);
      if next.Err? {
        FlattenPrefixFails(containing, i + 1, p => AnalysisHints(w, target, p));
        return Err(next.error);
      }
      ElementsConcat(Flatten(containing[..i], p => AnalysisHints(w, target, p)).value,
                     AnalysisHints(w, target, containing[i]).value);
      res := next.value;
    }
    assert containing[..|containing|] == containing;
    return Ok(set hint | hint in res :: LspInlayHint(ToLspPos(hint.pos), hint.labelText));
  }

  /** One analysis: the contracts of the file, their functions, and the loop over them. */
  method HintsInAnalysis(w: Slither, all: seq<ObjId>, filename: FileName, comp: Compilation, before: set<InlayHint>)
    returns (r: Result<set<InlayHint>>)
    ensures r == Gathered(before, Flatten(FileFunctions(w, FileContracts(w, all, filename)), f => FunctionHints(w, f, comp)))
  {
    var contracts := FileContracts(w, all, filename);
    var functions := FileFunctions(w, contracts);
    var res := before;
    for i := 0 to |functions|
      invariant Flatten(functions[..i], f => FunctionHints(w, f, comp)).Ok?
      invariant res == before + Elements(Flatten(functions[..i], f => FunctionHints(w, f, comp)).value)
    {
      FlattenStep(functions, i, f => FunctionHints(w, f, comp));
      var next := AddFunctionHints(w, functions[i], comp, res);
      if next.Err? {
        FlattenPrefixFails(functions, i + 1, f => FunctionHints(w, f, comp));
        return Err(next.error);
      }
      ElementsConcat(Flatten(functions[..i], f => FunctionHints(w, f, comp)).value, FunctionHints(w, functions[i], comp).value);
      res := next.value;
    }
    assert functions[..|functions|] == functions;
    return Ok(res);
  }

  /** The body of the loop over `functions`: the selector hint, then the loop over the operations. */
  method AddFunctionHints(w: Slither, f: ObjId, comp: Compilation, before: set<InlayHint>) returns (r: Result<set<InlayHint>>)
    ensures r == Gathered(before, FunctionHints(w, f, comp))
  {
    var res := before;
    if ShowsSelector(w, f) {
      var functionId := w.functionId(w.decl(f).kind.soliditySignature);
      var nameRange := ObjectNameRange(w, f, comp);
      res := res + {InlayHint(ToPos(nameRange.end), SelectorLabel(functionId))};
    }
    assert res == before + Elements(SelectorHints(w, f, comp));
    var ops := Operations(w, f);
    r := AddOperationHints(w, ops, res);
    var args := Flatten(ops, op => ArgumentHints(w, op));
    if args.Ok? {
      ElementsConcat(SelectorHints(w, f, comp), args.value);
      assert FunctionHints(w, f, comp) == Ok(SelectorHints(w, f, comp) + args.value);
      assert r == Ok(res + Elements(args.value));
      assert res + Elements(args.value) == before + Elements(SelectorHints(w, f, comp) + args.value);
    } else {
      assert FunctionHints(w, f, comp) == args;
    }
  }

  /** The loop over `func.all_slithir_operations()`. */
  method AddOperationHints(w: Slither, ops: seq<Op>, before: set<InlayHint>) returns (r: Result<set<InlayHint>>)
    ensures r == Gathered(before, Flatten(ops, op => ArgumentHints(w, op)))
  {
    var res := before;
    for j := 0 to |ops|
      invariant Flatten(ops[..j], op => ArgumentHints(w, op)).Ok?
      invariant res == before + Elements(Flatten(ops[..j], op => ArgumentHints(w, op)).value)
    {
      FlattenStep(ops, j, op => ArgumentHints(w, op));
      var next := AddArgumentHints(w, ops[j], res);
      if next.Err? {
        FlattenPrefixFails(ops, j + 1, op => ArgumentHints(w, op));
        return Err(next.error);
      }
      ElementsConcat(Flatten(ops[..j], op => ArgumentHints(w, op)).value, ArgumentHints(w, ops[j]).value);
      res := next.value;
    }
    assert ops[..|ops|] == ops;
    return Ok(res);
  }

  /** The body of the loop over the operations: the loop over the arguments of a call that needs names. */
  method AddArgumentHints(w: Slither, op: Op, before: set<InlayHint>) returns (r: Result<set<InlayHint>>)
    ensures r == Gathered(before, ArgumentHints(w, op))
  {
    if !IsCallOp(op) || !op.expression.CallExpression? || !IsFunction(w, op.callee) || op.expression.names.Some? {
      assert !NeedsArgumentNames(w, op);
      assert ArgumentHints(w, op) == Ok([]);
      assert Elements<InlayHint>([]) == {};
      assert before + Elements<InlayHint>([]) == before;
      assert Gathered(before, Ok([])) == Ok(before + Elements<InlayHint>([]));
      return Ok(before);
    }
    var args := op.expression.arguments;
    var params := w.decl(op.callee).kind.parameters;
    var res := before;
    for index := 0 to |args|
      invariant index <= |params|
      invariant res == before + set k | 0 <= k < index :: ArgumentHint(args[k], params[k])
    {
      if index >= |params| {
        return Err(IndexError);
      }
      var pos := ToPos(SourceToRange(args[index]).start);
      res := res + {InlayHint(pos, params[index] + ": ")};
    }
    ghost var hints := seq(|args|, k requires 0 <= k < |args| => ArgumentHint(args[k], params[k]));
    assert Elements(hints) == set k | 0 <= k < |args| :: ArgumentHint(args[k], params[k]) by {
      forall h | h in Elements(hints)
        ensures h in set k | 0 <= k < |args| :: ArgumentHint(args[k], params[k])
      {
        var k :| 0 <= k < |hints| && hints[k] == h;
      }
      forall k | 0 <= k < |args|
        ensures ArgumentHint(args[k], params[k]) in Elements(hints)
      {
        assert hints[k] == ArgumentHint(args[k], params[k]);
      }
    }
    return Ok(res);
  }
}
