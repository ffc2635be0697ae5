/**
 * request_handlers/symbols.py: the document symbols of a file, which
 * editors show as breadcrumbs. Every contract of every analysis that
 * knows the file and whose source lies in it gives one symbol, with its
 * structures, enums, events, functions and modifiers as children.
 */
module Symbols {
  import opened Values
  import opened AppTypes
  import opened AppRanges
  import opened SlitherObjects
  import opened Collecting
  import SlitherServer

  /** The `DocumentSymbol` `add_child` makes for a member of a contract; it has no children. */
  datatype MemberSymbol = MemberSymbol(name: string, kind: SymbolKind, range: Range, selectionRange: Range)

  /** The `DocumentSymbol` of a contract, with the symbols of its members. */
  datatype ContractSymbol = ContractSymbol(name: string, kind: SymbolKind, range: Range, selectionRange: Range,
                                           children: seq<MemberSymbol>)

  /** `add_child`: the whole source range of the member, and the range of its name. */
  function Child(w: Slither, id: ObjId, kind: SymbolKind, comp: Compilation): MemberSymbol
    requires w.decl(id).source.Some?
  {
    MemberSymbol(w.decl(id).name, kind, SourceToRange(w.decl(id).source.value), ObjectNameRange(w, id, comp))
  }

  /** A member without a source mapping is skipped. */
  function ChildIfMapped(w: Slither, id: ObjId, kind: SymbolKind, comp: Compilation): Option<MemberSymbol>
  {
    if w.decl(id).source.Some? then Some(Child(w, id, kind, comp)) else None
  }

  /** One of the loops over a contract's members: each member with a source mapping, in order. */
  function Kept(w: Slither, ids: seq<ObjId>, kind: SymbolKind, comp: Compilation): seq<MemberSymbol>
  {
    Filtered(ids, id => ChildIfMapped(w, id, kind, comp))
  }

  /** The children of a contract: structures, enums, events (shown as enums), then functions and modifiers. */
  function Children(w: Slither, id: ObjId, comp: Compilation): seq<MemberSymbol>
  {
    Kept(w, StructuresDeclared(w, id), StructKind, comp) +
    Kept(w, EnumsDeclared(w, id), EnumKind, comp) +
    Kept(w, EventsDeclared(w, id), EnumKind, comp) +
    Kept(w, FunctionsAndModifiersDeclared(w, id), FunctionKind, comp)
  }

  /** The symbol of a contract that has a source mapping. */
  function Symbol(w: Slither, id: ObjId, comp: Compilation): ContractSymbol
    requires w.decl(id).source.Some?
  {
    ContractSymbol(w.decl(id).name, ContractKind(IsInterface(w, id)), SourceToRange(w.decl(id).source.value),
                   ObjectNameRange(w, id, comp), Children(w, id, comp))
  }

  /** A contract without a source mapping, or whose source lies in another file, is skipped. */
  function SymbolIfInFile(w: Slither, id: ObjId, filename: FileName, comp: Compilation): Option<ContractSymbol>
  {
    if InFile(w, id, filename) then Some(Symbol(w, id, comp)) else None
  }

  /** The loop over `analysis.contracts`: a symbol for each contract whose source lies in the file. */
  function FileSymbols(w: Slither, contracts: seq<ObjId>, filename: FileName, comp: Compilation): seq<ContractSymbol>
  {
    Filtered(contracts, id => SymbolIfInFile(w, id, filename, comp))
  }

  /** One analysis: `filename_lookup` (which raises ValueError for a file it does not know), then its contracts. */
  function AnalysisSymbols(w: Slither, target: string, p: (Analysis, Compilation)): Result<seq<ContractSymbol>>
  {
    match w.filenameLookup(p.1, target)
    case None => Err(ValueError)
    case Some(filename) => Ok(FileSymbols(w, w.contracts(p.0), filename, p.1))
  }

  /** `document_symbol` over the given analyses, in order. */
  function DocumentSymbols(w: Slither, target: string, analyses: seq<(Analysis, Compilation)>): Result<seq<ContractSymbol>>
  {
    Flatten(analyses, p => AnalysisSymbols(w, target, p))
  }

  // ---------------------------------------------------------------------------
  // Properties

  /** The members kept are exactly those with a source mapping, each shown with the loop's kind. */
  lemma KeptMembers(w: Slither, ids: seq<ObjId>, kind: SymbolKind, comp: Compilation, c: MemberSymbol)
    ensures c in Kept(w, ids, kind, comp) <==>
              exists id :: id in ids && w.decl(id).source.Some? && c == Child(w, id, kind, comp)
  {
    FilteredMembers(ids, id => ChildIfMapped(w, id, kind, comp), c);
    if exists id :: id in ids && ChildIfMapped(w, id, kind, comp) == Some(c) {
      var id :| id in ids && ChildIfMapped(w, id, kind, comp) == Some(c);
      assert w.decl(id).source.Some? && c == Child(w, id, kind, comp);
    }
    if exists id :: id in ids && w.decl(id).source.Some? && c == Child(w, id, kind, comp) {
      var id :| id in ids && w.decl(id).source.Some? && c == Child(w, id, kind, comp);
      assert ChildIfMapped(w, id, kind, comp) == Some(c);
    }
  }

  /** No member is dropped when every one has a source mapping, and the order is kept. */
  lemma KeptAll(w: Slither, ids: seq<ObjId>, kind: SymbolKind, comp: Compilation)
    requires forall i :: 0 <= i < |ids| ==> w.decl(ids[i]).source.Some?
    ensures |Kept(w, ids, kind, comp)| == |ids|
    ensures forall i :: 0 <= i < |ids| ==> Kept(w, ids, kind, comp)[i] == Child(w, ids[i], kind, comp)
  {
    FilteredAll(ids, id => ChildIfMapped(w, id, kind, comp));
  }

  /** Every child a loop adds carries that loop's kind. */
  lemma KeptKind(w: Slither, ids: seq<ObjId>, kind: SymbolKind, comp: Compilation)
    ensures forall c :: c in Kept(w, ids, kind, comp) ==> c.kind == kind
  {
    forall c | c in Kept(w, ids, kind, comp)
      ensures c.kind == kind
    {
      FilteredMembers(ids, id => ChildIfMapped(w, id, kind, comp), c);
    }
  }

  /** Where a kind of child sits among the children. */
  function Rank(kind: SymbolKind): nat
  {
    match kind
    case StructKind => 0
    case EnumKind => 1
    case FunctionKind => 2
    case _ => 3
  }

  /** Three runs of children, each of one rank and in rising rank, are ordered by rank. */
  lemma RunsOrdered(a: seq<MemberSymbol>, b: seq<MemberSymbol>, c: seq<MemberSymbol>, ra: nat, rb: nat, rc: nat)
    requires ra <= rb <= rc
    requires forall x :: x in a ==> Rank(x.kind) == ra
    requires forall x :: x in b ==> Rank(x.kind) == rb
    requires forall x :: x in c ==> Rank(x.kind) == rc
    ensures forall i, j :: 0 <= i < j < |a + b + c| ==> Rank((a + b + c)[i].kind) <= Rank((a + b + c)[j].kind)
  {
    var all := a + b + c;
    forall k | 0 <= k < |all|
      ensures Rank(all[k].kind) == (if k < |a| then ra else if k < |a| + |b| then rb else rc)
    {
      if k < |a| {
        assert all[k] == a[k];
      } else if k < |a| + |b| {
        assert all[k] == b[k - |a|];
      } else {
        assert all[k] == c[k - |a| - |b|];
      }
    }
  }

  /** Children come ordered: structures, then enums and events, then functions and modifiers. */
  lemma ChildrenOrdered(w: Slither, id: ObjId, comp: Compilation)
    ensures forall i, j :: 0 <= i < j < |Children(w, id, comp)| ==>
              Rank(Children(w, id, comp)[i].kind) <= Rank(Children(w, id, comp)[j].kind)
    ensures forall c :: c in Children(w, id, comp) ==> c.kind in {StructKind, EnumKind, FunctionKind}
  {
    var a := Kept(w, StructuresDeclared(w, id), StructKind, comp);
    var b := Kept(w, EnumsDeclared(w, id), EnumKind, comp) + Kept(w, EventsDeclared(w, id), EnumKind, comp);
    var c := Kept(w, FunctionsAndModifiersDeclared(w, id), FunctionKind, comp);
    KeptKind(w, StructuresDeclared(w, id), StructKind, comp);
    KeptKind(w, EnumsDeclared(w, id), EnumKind, comp);
    KeptKind(w, EventsDeclared(w, id), EnumKind, comp);
    KeptKind(w, FunctionsAndModifiersDeclared(w, id), FunctionKind, comp);
    assert Children(w, id, comp) == a + b + c;
    RunsOrdered(a, b, c, 0, 1, 2);
  }

  /** The children are exactly the members with a source mapping, each with the kind of the list it is in. */
  lemma ChildrenMembers(w: Slither, id: ObjId, comp: Compilation, c: MemberSymbol)
    ensures c in Children(w, id, comp) <==>
              exists m :: w.decl(m).source.Some? &&
                ((m in StructuresDeclared(w, id) && c == Child(w, m, StructKind, comp)) ||
                 (m in EnumsDeclared(w, id) && c == Child(w, m, EnumKind, comp)) ||
                 (m in EventsDeclared(w, id) && c == Child(w, m, EnumKind, comp)) ||
                 (m in FunctionsAndModifiersDeclared(w, id) && c == Child(w, m, FunctionKind, comp)))
  {
    KeptMembers(w, StructuresDeclared(w, id), StructKind, comp, c);
    KeptMembers(w, EnumsDeclared(w, id), EnumKind, comp, c);
    KeptMembers(w, EventsDeclared(w, id), EnumKind, comp, c);
    KeptMembers(w, FunctionsAndModifiersDeclared(w, id), FunctionKind, comp, c);
  }

  /** The symbols of an analysis are exactly those of its contracts whose source lies in the file. */
  lemma FileSymbolsMembers(w: Slither, contracts: seq<ObjId>, filename: FileName, comp: Compilation, s: ContractSymbol)
    ensures s in FileSymbols(w, contracts, filename, comp) <==>
              exists id :: id in contracts && InFile(w, id, filename) && s == Symbol(w, id, comp)
  {
    FilteredMembers(contracts, id => SymbolIfInFile(w, id, filename, comp), s);
    if exists id :: id in contracts && SymbolIfInFile(w, id, filename, comp) == Some(s) {
      var id :| id in contracts && SymbolIfInFile(w, id, filename, comp) == Some(s);
      assert InFile(w, id, filename) && s == Symbol(w, id, comp);
    }
    if exists id :: id in contracts && InFile(w, id, filename) && s == Symbol(w, id, comp) {
      var id :| id in contracts && InFile(w, id, filename) && s == Symbol(w, id, comp);
      assert SymbolIfInFile(w, id, filename, comp) == Some(s);
    }
  }

  /** One symbol per contract of the file, in the analysis' order: none is dropped when all lie in the file. */
  lemma FileSymbolsAll(w: Slither, contracts: seq<ObjId>, filename: FileName, comp: Compilation)
    requires forall i :: 0 <= i < |contracts| ==> InFile(w, contracts[i], filename)
    ensures |FileSymbols(w, contracts, filename, comp)| == |contracts|
    ensures forall i :: 0 <= i < |contracts| ==>
              w.decl(contracts[i]).source.Some? && FileSymbols(w, contracts, filename, comp)[i] == Symbol(w, contracts[i], comp)
  {
    FilteredAll(contracts, id => SymbolIfInFile(w, id, filename, comp));
  }

  /** A contract outside the file gives no symbol: the count is at most the number of contracts. */
  lemma FileSymbolsBound(w: Slither, contracts: seq<ObjId>, filename: FileName, comp: Compilation)
    ensures |FileSymbols(w, contracts, filename, comp)| <= |contracts|
    ensures (forall i :: 0 <= i < |contracts| ==> !InFile(w, contracts[i], filename)) ==>
              FileSymbols(w, contracts, filename, comp) == []
  {
    FilteredBound(contracts, id => SymbolIfInFile(w, id, filename, comp));
  }

  /** Over the analyses that know the file, `document_symbol` never raises. */
  lemma {:induction false} DocumentSymbolsOk(w: Slither, target: string, results: seq<AnalysisResult>)
    ensures DocumentSymbols(w, target, SlitherServer.Containing(results, target, w)).Ok?
  {
    var analyses := SlitherServer.Containing(results, target, w);
    FlattenFails(analyses, p => AnalysisSymbols(w, target, p));
    forall i | 0 <= i < |analyses|
      ensures AnalysisSymbols(w, target, analyses[i]).Ok?
    {
      SlitherServer.ContainingCorrect(results, target, w, analyses[i]);
    }
  }

  /** The symbols listed are exactly those of the contracts in the file, over every analysis that knows it. */
  lemma DocumentSymbolsMembers(w: Slither, target: string, analyses: seq<(Analysis, Compilation)>, s: ContractSymbol)
    requires DocumentSymbols(w, target, analyses).Ok?
    ensures s in DocumentSymbols(w, target, analyses).value <==>
              exists p :: p in analyses && w.filenameLookup(p.1, target).Some? &&
                s in FileSymbols(w, w.contracts(p.0), w.filenameLookup(p.1, target).value, p.1)
  {
    FlattenMembers(analyses, p => AnalysisSymbols(w, target, p), s);
  }

  // ---------------------------------------------------------------------------
  // The handler

  /** `document_symbol`. */
  method OnDocumentSymbol(ls: SlitherServer.Server, w: Slither, uri: string) returns (r: seq<ContractSymbol>)
    requires ls.Valid()
    ensures DocumentSymbols(w, ls.helpers.toPath(uri), SlitherServer.Containing(ls.Analyses(), ls.helpers.toPath(uri), w)) == Ok(r)
  {
    var target := ls.helpers.toPath(uri);
    var containing := ls.AnalysesContaining(target, w);
    var res: seq<ContractSymbol> := [];
    for i := 0 to |containing|
      invariant DocumentSymbols(w, target, containing[..i]) == Ok(res)
    {
      FlattenStep(containing, i, p => AnalysisSymbols(w, target, p));
      var (analysis, comp) := containing[i];
      assert containing[i] in containing;
      var filename := w.filenameLookup(comp, target).value;
      res := AddContractSymbols(w, w.contracts(analysis), filename, comp, res);
    }
    assert containing[..|containing|] == containing;
    return res;
  }

  /** The loop over `analysis.contracts`, appending to `res`. */
  method AddContractSymbols(w: Slither, contracts: seq<ObjId>, filename: FileName, comp: Compilation, before: seq<ContractSymbol>)
    returns (res: seq<ContractSymbol>)
    ensures res == before + FileSymbols(w, contracts, filename, comp)
  {
    res := before;
    for i := 0 to |contracts|
      invariant res == before + FileSymbols(w, contracts[..i], filename, comp)
    {
      assert contracts[..i + 1][..i] == contracts[..i];
      var symbol := ContractSymbolIn(w, contracts[i], filename, comp);
      if symbol.Some? {
        res := res + [symbol.value];
      }
    }
    assert contracts[..|contracts|] == contracts;
  }

  /** One iteration: the contract's symbol, when its source lies in the file. */
  method ContractSymbolIn(w: Slither, contract: ObjId, filename: FileName, comp: Compilation)
    returns (symbol: Option<ContractSymbol>)
    ensures symbol == SymbolIfInFile(w, contract, filename, comp)
  {
    var source := w.decl(contract).source;
    if source.None? || source.value.filename != filename {
      return None;
    }
    var kind := if IsInterface(w, contract) then InterfaceKind else ClassKind;
    var children := ContractChildren(w, contract, comp);
    return Some(ContractSymbol(w.decl(contract).name, kind, SourceToRange(source.value),
                               ObjectNameRange(w, contract, comp), children));
  }

  /** The four loops that fill `children`. */
  method ContractChildren(w: Slither, contract: ObjId, comp: Compilation) returns (children: seq<MemberSymbol>)
    ensures children == Children(w, contract, comp)
  {
    children := [];
    children := AddChildren(w, StructuresDeclared(w, contract), StructKind, comp, children);
    children := AddChildren(w, EnumsDeclared(w, contract), EnumKind, comp, children);
    children := AddChildren(w, EventsDeclared(w, contract), EnumKind, comp, children);
    children := AddChildren(w, FunctionsAndModifiersDeclared(w, contract), FunctionKind, comp, children);
  }

  /** One loop over a contract's members, calling `add_child` for each that has a source mapping. */
  method AddChildren(w: Slither, ids: seq<ObjId>, kind: SymbolKind, comp: Compilation, before: seq<MemberSymbol>)
    returns (children: seq<MemberSymbol>)
    ensures children == before + Kept(w, ids, kind, comp)
  {
    children := before;
    for i := 0 to |ids|
      invariant children == before + Kept(w, ids[..i], kind, comp)
    {
      assert ids[..i + 1][..i] == ids[..i];
      var id := ids[i];
      var source := w.decl(id).source;
      if source.None? {
        continue;
      }
      children := children + [MemberSymbol(w.decl(id).name, kind, SourceToRange(source.value), ObjectNameRange(w, id, comp))];
    }
    assert ids[..|ids|] == ids;
  }
}
