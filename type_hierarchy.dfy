/**
 * app/request_handlers/type_hierarchy.py: prepare, subtypes and supertypes.
 * Prepare names the contracts at the cursor; subtypes lists the contracts,
 * in any analysis, that inherit directly from a contract at the target;
 * supertypes lists the contracts a contract at the target inherits from
 * directly. Each collects `TypeItem`s into a set.
 */
module TypeHierarchy {
  import opened Values
  import opened AppTypes
  import opened AppRanges
  import opened SlitherObjects
  import opened Collecting
  import opened CallHierarchy
  import SlitherServer

  /** `TypeItem`: the hashable record the hierarchy is collected as; its `range` tuple is kept as its two ends. */
  datatype TypeItem = TypeItem(name: string, rangeStart: Pos, rangeEnd: Pos, kind: SymbolKind, filename: string, offset: int)
  {
    function Range(): PosRange
    {
      (rangeStart, rangeEnd)
    }
  }

  /** `immediate_inheritance` of a contract; other objects inherit from nothing. */
  function Inheritance(w: Slither, id: ObjId): seq<ObjId>
  {
    if w.decl(id).kind.ContractDecl? then w.decl(id).kind.immediateInheritance else []
  }

  /**
   * The `TypeItem` of a contract in a compilation: its name, its name range,
   * the interface or class kind, its file and its definition's offset. A
   * contract without a source mapping raises.
   */
  function TypeItemOf(w: Slither, id: ObjId, comp: Compilation): (r: Result<TypeItem>)
    ensures r.Ok? ==> (r.value.kind == InterfaceKind <==> IsInterface(w, id))
    ensures r.Ok? ==> (r.value.kind == ClassKind <==> !IsInterface(w, id))
    ensures r.Err? <==> w.decl(id).source.None?
  {
    var source := w.decl(id).source;
    if source.None? then Err(AttributeError)
    else
      var range := ToRange(ObjectNameRange(w, id, comp));
      Ok(TypeItem(w.decl(id).name, range.0, range.1, ContractKind(IsInterface(w, id)), source.value.filename.absolute,
                  w.definition(id, comp).start))
  }

  /** The `TypeHierarchyItem` a `TypeItem` is sent as: its name range as both ranges, its file and offset as data. */
  function ItemOfType(t: TypeItem, toUri: string -> string): HierarchyItem
  {
    HierarchyItem(t.name, t.kind, toUri(t.filename), ToLspRange(t.Range()), ToLspRange(t.Range()), ItemData(t.filename, t.offset))
  }

  /** The final comprehension over `res`. */
  function Shown(items: set<TypeItem>, toUri: string -> string): set<HierarchyItem>
  {
    set t | t in items :: ItemOfType(t, toUri)
  }

  // ---------------------------------------------------------------------------
  // Prepare

  /** A contract at the cursor gives its item; other objects give nothing. */
  function PrepareTypeEntry(w: Slither, comp: Compilation, id: ObjId): Result<Option<TypeItem>>
  {
    if !IsContract(w, id) then Ok(None)
    else
      var item :- TypeItemOf(w, id, comp);
      Ok(Some(item))
  }

  /** The objects at the cursor in one analysis: the global offset of the line below plus the column. */
  function PrepareTypeAnalysis(w: Slither, filename: string, position: Position, p: (Analysis, Compilation)): Result<seq<TypeItem>>
  {
    var offset :- w.globalOffset(p.1, filename, position.line + 1);
    Collect(w.offsetToObjects(p.0, filename, offset + position.character), id => PrepareTypeEntry(w, p.1, id))
  }

  /** Every `res.add(...)` of prepare, in order. */
  function PreparedTypes(w: Slither, filename: string, position: Position, containing: seq<(Analysis, Compilation)>)
    : Result<seq<TypeItem>>
  {
    Flatten(containing, p => PrepareTypeAnalysis(w, filename, position, p))
  }

  /** `on_prepare_type_hierarchy`. */
  function PrepareType(w: Slither, toUri: string -> string, filename: string, position: Position,
                       containing: seq<(Analysis, Compilation)>): Result<set<HierarchyItem>>
  {
    var items :- PreparedTypes(w, filename, position, containing);
    Ok(Shown(Elements(items), toUri))
  }

  // ---------------------------------------------------------------------------
  // Subtypes

  /** The contracts among the objects at the target offset in one analysis. */
  function ContractsAt(w: Slither, filename: string, offset: int, p: (Analysis, Compilation)): seq<ObjId>
  {
    FlatMap(w.offsetToObjects(p.0, filename, offset), id => if IsContract(w, id) then [id] else [])
  }

  /** `referenced_contracts`. */
  function ReferencedContracts(w: Slither, filename: string, offset: int, containing: seq<(Analysis, Compilation)>): seq<ObjId>
  {
    FlatMap(containing, p => ContractsAt(w, filename, offset, p))
  }

  /** The contracts of a built result's compilation units, each with the result's compilation. */
  function ResultContracts(w: Slither, r: AnalysisResult): seq<(ObjId, Compilation)>
  {
    if r.built.None? then [] else FlatMap(w.unitContracts(r.built.value.1), c => [(c, r.built.value.0)])
  }

  /** `contracts`: across every analysis result. */
  function AllContracts(w: Slither, results: seq<AnalysisResult>): seq<(ObjId, Compilation)>
  {
    FlatMap(results, r => ResultContracts(w, r))
  }

  /** A contract that inherits directly from `contract` gives its item; any other gives nothing. */
  function Subtype(w: Slither, contract: ObjId, other: (ObjId, Compilation)): Result<Option<TypeItem>>
  {
    if contract !in Inheritance(w, other.0) then Ok(None)
    else
      var item :- TypeItemOf(w, other.0, other.1);
      Ok(Some(item))
  }

  /** Every `res.add(item)` of `on_get_subtypes`, in order. */
  function SubtypeItems(w: Slither, referenced: seq<ObjId>, contracts: seq<(ObjId, Compilation)>): Result<seq<TypeItem>>
  {
    Flatten(referenced, contract => Collect(contracts, other => Subtype(w, contract, other)))
  }

  /** `on_get_subtypes` for an item's data against the server's results. */
  function Subtypes(w: Slither, data: Value, results: seq<AnalysisResult>, toUri: string -> string): Result<set<HierarchyItem>>
  {
    var target :- ItemTarget(data);
    var referenced := ReferencedContracts(w, target.0, target.1, SlitherServer.Containing(results, target.0, w));
    var items :- SubtypeItems(w, referenced, AllContracts(w, results));
    Ok(Shown(Elements(items), toUri))
  }

  // ---------------------------------------------------------------------------
  // Supertypes

  /** The direct supertypes of a contract, each with the compilation it was found in. */
  function SupertypesOf(w: Slither, id: ObjId, comp: Compilation): seq<(ObjId, Compilation)>
  {
    if IsContract(w, id) then FlatMap(Inheritance(w, id), s => [(s, comp)]) else []
  }

  /** The direct supertypes of the contracts at the target offset in one analysis. */
  function SupertypesIn(w: Slither, filename: string, offset: int, p: (Analysis, Compilation)): seq<(ObjId, Compilation)>
  {
    FlatMap(w.offsetToObjects(p.0, filename, offset), id => SupertypesOf(w, id, p.1))
  }

  /** `supertypes`: of every contract at the target offset. */
  function SupertypePairs(w: Slither, filename: string, offset: int, containing: seq<(Analysis, Compilation)>): seq<(ObjId, Compilation)>
  {
    FlatMap(containing, p => SupertypesIn(w, filename, offset, p))
  }

  /** Each supertype gives its item. */
  function Supertype(w: Slither, s: (ObjId, Compilation)): Result<Option<TypeItem>>
  {
    var item :- TypeItemOf(w, s.0, s.1);
    Ok(Some(item))
  }

  /** `on_get_supertypes` for an item's data against the server's results. */
  function Supertypes(w: Slither, data: Value, results: seq<AnalysisResult>, toUri: string -> string): Result<set<HierarchyItem>>
  {
    var target :- ItemTarget(data);
    var pairs := SupertypePairs(w, target.0, target.1, SlitherServer.Containing(results, target.0, w));
    var items :- Collect(pairs, s => Supertype(w, s));
    Ok(Shown(Elements(items), toUri))
  }

  // ---------------------------------------------------------------------------
  // What the results are

  /** A different `TypeItem` is sent as a different item. */
  lemma ItemOfTypeInjective(a: TypeItem, b: TypeItem, toUri: string -> string)
    requires ItemOfType(a, toUri) == ItemOfType(b, toUri)
    ensures a == b
  {
    ToRangeInjective(ToLspRange(a.Range()), ToLspRange(b.Range()));
    assert ItemData(a.filename, a.offset).entries["filename"] == VStr(a.filename);
    assert ItemData(a.filename, a.offset).entries["offset"] == VInt(a.offset);
  }

  /** The result is deduplicated: an item is shown exactly when its `TypeItem` was added, however often. */
  lemma ShownMembers(items: seq<TypeItem>, toUri: string -> string, t: TypeItem)
    ensures ItemOfType(t, toUri) in Shown(Elements(items), toUri) <==> t in items
  {
    if ItemOfType(t, toUri) in Shown(Elements(items), toUri) {
      var u :| u in items && ItemOfType(u, toUri) == ItemOfType(t, toUri);
      ItemOfTypeInjective(u, t, toUri);
    }
  }

  /** An item one analysis adds at prepare: that of a contract at the cursor, once the line's offset is known. */
  ghost predicate TypeEntryAt(w: Slither, filename: string, position: Position, p: (Analysis, Compilation), t: TypeItem)
  {
    var offset := w.globalOffset(p.1, filename, position.line + 1);
    offset.Ok? &&
    exists id :: id in w.offsetToObjects(p.0, filename, offset.value + position.character) && IsContract(w, id) &&
      TypeItemOf(w, id, p.1) == Ok(t)
  }

  lemma PreparedTypesMembers(w: Slither, filename: string, position: Position, containing: seq<(Analysis, Compilation)>, t: TypeItem)
    requires PreparedTypes(w, filename, position, containing).Ok?
    ensures t in PreparedTypes(w, filename, position, containing).value <==>
              exists p :: p in containing && TypeEntryAt(w, filename, position, p, t)
  {
    var g := p => PrepareTypeAnalysis(w, filename, position, p);
    FlattenMembers(containing, g, t);
    FlattenOk(containing, g);
    forall p | p in containing
      ensures t in g(p).value <==> TypeEntryAt(w, filename, position, p, t)
    {
      var offset := w.globalOffset(p.1, filename, position.line + 1).value;
      CollectMembers(w.offsetToObjects(p.0, filename, offset + position.character), id => PrepareTypeEntry(w, p.1, id), t);
    }
  }

  /**
   * Prepare keeps only contracts: every item is that of a contract at the
   * cursor, an interface exactly when the contract is one, and a class otherwise.
   */
  lemma PrepareKeepsContracts(w: Slither, toUri: string -> string, filename: string, position: Position,
                              containing: seq<(Analysis, Compilation)>, item: HierarchyItem)
    requires PrepareType(w, toUri, filename, position, containing).Ok?
    requires item in PrepareType(w, toUri, filename, position, containing).value
    ensures exists p, id :: p in containing && w.globalOffset(p.1, filename, position.line + 1).Ok? &&
              id in w.offsetToObjects(p.0, filename, w.globalOffset(p.1, filename, position.line + 1).value + position.character) &&
              IsContract(w, id) && TypeItemOf(w, id, p.1).Ok? && item == ItemOfType(TypeItemOf(w, id, p.1).value, toUri) &&
              item.kind == ContractKind(IsInterface(w, id))
  {
    var items := PreparedTypes(w, filename, position, containing).value;
    var t :| t in Elements(items) && item == ItemOfType(t, toUri);
    PreparedTypesMembers(w, filename, position, containing, t);
    var p :| p in containing && TypeEntryAt(w, filename, position, p, t);
    var offset := w.globalOffset(p.1, filename, position.line + 1).value;
    var id :| id in w.offsetToObjects(p.0, filename, offset + position.character) && IsContract(w, id) && TypeItemOf(w, id, p.1) == Ok(t);
  }

  /** The referenced contracts are exactly the contracts at the target offset in the analyses containing the file. */
  lemma ReferencedContractsMembers(w: Slither, filename: string, offset: int, containing: seq<(Analysis, Compilation)>, id: ObjId)
    ensures id in ReferencedContracts(w, filename, offset, containing) <==>
              IsContract(w, id) && exists p :: p in containing && id in w.offsetToObjects(p.0, filename, offset)
  {
    FlatMapMembers(containing, p => ContractsAt(w, filename, offset, p), id);
    forall p | p in containing
      ensures id in ContractsAt(w, filename, offset, p) <==> IsContract(w, id) && id in w.offsetToObjects(p.0, filename, offset)
    {
      FlatMapMembers(w.offsetToObjects(p.0, filename, offset), x => if IsContract(w, x) then [x] else [], id);
    }
  }

  /** `contracts` pairs exactly the contracts of every built result's compilation units with its compilation. */
  lemma AllContractsMembers(w: Slither, results: seq<AnalysisResult>, c: (ObjId, Compilation))
    ensures c in AllContracts(w, results) <==>
              exists r :: r in results && r.built.Some? && c.1 == r.built.value.0 && c.0 in w.unitContracts(r.built.value.1)
  {
    FlatMapMembers(results, r => ResultContracts(w, r), c);
    forall r | r in results && r.built.Some?
      ensures c in ResultContracts(w, r) <==> c.1 == r.built.value.0 && c.0 in w.unitContracts(r.built.value.1)
    {
      FlatMapMembers(w.unitContracts(r.built.value.1), x => [(x, r.built.value.0)], c);
    }
  }

  /** A subtype found for the target: a contract, in any built result, whose direct supertypes include a referenced contract. */
  ghost predicate SubtypeFound(w: Slither, referenced: seq<ObjId>, contracts: seq<(ObjId, Compilation)>, t: TypeItem)
  {
    exists contract, other :: contract in referenced && other in contracts && contract in Inheritance(w, other.0) &&
      TypeItemOf(w, other.0, other.1) == Ok(t)
  }

  lemma SubtypeItemsMembers(w: Slither, referenced: seq<ObjId>, contracts: seq<(ObjId, Compilation)>, t: TypeItem)
    requires SubtypeItems(w, referenced, contracts).Ok?
    ensures t in SubtypeItems(w, referenced, contracts).value <==> SubtypeFound(w, referenced, contracts, t)
  {
    FlattenMembers(referenced, contract => Collect(contracts, other => Subtype(w, contract, other)), t);
    FlattenOk(referenced, contract => Collect(contracts, other => Subtype(w, contract, other)));
    forall contract | contract in referenced
      ensures t in Collect(contracts, other => Subtype(w, contract, other)).value <==>
                exists other :: other in contracts && contract in Inheritance(w, other.0) && TypeItemOf(w, other.0, other.1) == Ok(t)
    {
      CollectMembers(contracts, other => Subtype(w, contract, other), t);
    }
  }

  /** Subtypes are exactly the contracts, across all analyses, that inherit directly from a contract at the target. */
  lemma SubtypesExactly(w: Slither, data: Value, results: seq<AnalysisResult>, toUri: string -> string, t: TypeItem)
    requires Subtypes(w, data, results, toUri).Ok?
    ensures var target := ItemTarget(data).value;
            var referenced := ReferencedContracts(w, target.0, target.1, SlitherServer.Containing(results, target.0, w));
            ItemOfType(t, toUri) in Subtypes(w, data, results, toUri).value <==> SubtypeFound(w, referenced, AllContracts(w, results), t)
  {
    var target := ItemTarget(data).value;
    var referenced := ReferencedContracts(w, target.0, target.1, SlitherServer.Containing(results, target.0, w));
    var items := SubtypeItems(w, referenced, AllContracts(w, results)).value;
    ShownMembers(items, toUri, t);
    SubtypeItemsMembers(w, referenced, AllContracts(w, results), t);
  }

  /** The supertype pairs are exactly the direct supertypes of the contracts at the target, with the compilation they were found in. */
  lemma SupertypePairsMembers(w: Slither, filename: string, offset: int, containing: seq<(Analysis, Compilation)>, s: (ObjId, Compilation))
    ensures s in SupertypePairs(w, filename, offset, containing) <==>
              exists p, id :: p in containing && s.1 == p.1 && id in w.offsetToObjects(p.0, filename, offset) && IsContract(w, id) &&
                s.0 in Inheritance(w, id)
  {
    FlatMapMembers(containing, p => SupertypesIn(w, filename, offset, p), s);
    forall p | p in containing
      ensures s in SupertypesIn(w, filename, offset, p) <==>
                exists id :: s.1 == p.1 && id in w.offsetToObjects(p.0, filename, offset) && IsContract(w, id) && s.0 in Inheritance(w, id)
    {
      FlatMapMembers(w.offsetToObjects(p.0, filename, offset), id => SupertypesOf(w, id, p.1), s);
      forall id | id in w.offsetToObjects(p.0, filename, offset) && IsContract(w, id)
        ensures s in SupertypesOf(w, id, p.1) <==> s.1 == p.1 && s.0 in Inheritance(w, id)
      {
        FlatMapMembers(Inheritance(w, id), x => [(x, p.1)], s);
      }
    }
  }

  /** Supertypes are exactly the direct supertypes of the contracts at the target. */
  lemma SupertypesExactly(w: Slither, data: Value, results: seq<AnalysisResult>, toUri: string -> string, t: TypeItem)
    requires Supertypes(w, data, results, toUri).Ok?
    ensures var target := ItemTarget(data).value;
            var pairs := SupertypePairs(w, target.0, target.1, SlitherServer.Containing(results, target.0, w));
            ItemOfType(t, toUri) in Supertypes(w, data, results, toUri).value <==>
              exists s :: s in pairs && TypeItemOf(w, s.0, s.1) == Ok(t)
  {
    var target := ItemTarget(data).value;
    var pairs := SupertypePairs(w, target.0, target.1, SlitherServer.Containing(results, target.0, w));
    var items := Collect(pairs, s => Supertype(w, s)).value;
    ShownMembers(items, toUri, t);
    CollectMembers(pairs, s => Supertype(w, s), t);
  }

  /**
   * The two queries are converse, both being read off `immediate_inheritance`:
   * when `b` inherits directly from `a`, the subtypes of `a` (at its target)
   * list `b`, and the supertypes of `b` (at its own target) list `a`.
   */
  lemma SubtypeThenSupertype(w: Slither, dataA: Value, dataB: Value, results: seq<AnalysisResult>, toUri: string -> string,
                             a: ObjId, b: ObjId, compB: Compilation, p: (Analysis, Compilation))
    requires ItemTarget(dataA).Ok? && ItemTarget(dataB).Ok?
    requires a in ReferencedContracts(w, ItemTarget(dataA).value.0, ItemTarget(dataA).value.1,
                                      SlitherServer.Containing(results, ItemTarget(dataA).value.0, w))
    requires (b, compB) in AllContracts(w, results) && a in Inheritance(w, b)
    requires p in SlitherServer.Containing(results, ItemTarget(dataB).value.0, w)
    requires b in w.offsetToObjects(p.0, ItemTarget(dataB).value.0, ItemTarget(dataB).value.1)
    requires Subtypes(w, dataA, results, toUri).Ok? && Supertypes(w, dataB, results, toUri).Ok?
    ensures IsContract(w, b)
    ensures TypeItemOf(w, b, compB).Ok? && ItemOfType(TypeItemOf(w, b, compB).value, toUri) in Subtypes(w, dataA, results, toUri).value
    ensures TypeItemOf(w, a, p.1).Ok? && ItemOfType(TypeItemOf(w, a, p.1).value, toUri) in Supertypes(w, dataB, results, toUri).value
  {
    var targetA := ItemTarget(dataA).value;
    var referenced := ReferencedContracts(w, targetA.0, targetA.1, SlitherServer.Containing(results, targetA.0, w));
    var contracts := AllContracts(w, results);
    FlattenOk(referenced, contract => Collect(contracts, other => Subtype(w, contract, other)));
    CollectOk(contracts, other => Subtype(w, a, other));
    assert SubtypeFound(w, referenced, contracts, TypeItemOf(w, b, compB).value);
    SubtypesExactly(w, dataA, results, toUri, TypeItemOf(w, b, compB).value);
    var target := ItemTarget(dataB).value;
    var pairs := SupertypePairs(w, target.0, target.1, SlitherServer.Containing(results, target.0, w));
    SupertypePairsMembers(w, target.0, target.1, SlitherServer.Containing(results, target.0, w), (a, p.1));
    CollectOk(pairs, s => Supertype(w, s));
    SupertypesExactly(w, dataB, results, toUri, TypeItemOf(w, a, p.1).value);
  }

  // ---------------------------------------------------------------------------
  // The handlers

  /** `on_prepare_type_hierarchy`. */
  method OnPrepareTypeHierarchy(ls: SlitherServer.Server, w: Slither, uri: string, position: Position)
    returns (r: Result<set<HierarchyItem>>)
    requires ls.Valid()
    ensures r == PrepareType(w, ls.helpers.toUri, ls.helpers.toPath(uri), position,
                             SlitherServer.Containing(ls.Analyses(), ls.helpers.toPath(uri), w))
  {
    var filename := ls.helpers.toPath(uri);
    var containing := ls.AnalysesContaining(filename, w);
    var res: set<TypeItem> := {};
    for i := 0 to |containing|
      invariant PreparedTypes(w, filename, position, containing[..i]).Ok?
      invariant res == Elements(PreparedTypes(w, filename, position, containing[..i]).value)
    {
      FlattenStep(containing, i, p => PrepareTypeAnalysis(w, filename, position, p));
      var next := PrepareTypesIn(w, filename, position, containing[i], res);
      if next.Err? {
        FlattenPrefixFails(containing, i + 1, p => PrepareTypeAnalysis(w, filename, position, p));
        return Err(next.error);
      }
      ElementsConcat(PreparedTypes(w, filename, position, containing[..i]).value,
                     PrepareTypeAnalysis(w, filename, position, containing[i]).value);
      res := next.value;
    }
    assert containing[..|containing|] == containing;
    return Ok(Shown(res, ls.helpers.toUri));
  }

  /** One analysis of prepare: the offset of the cursor, then each contract there. */
  method PrepareTypesIn(w: Slither, filename: string, position: Position, p: (Analysis, Compilation), before: set<TypeItem>)
    returns (r: Result<set<TypeItem>>)
    ensures r == Gathered(before, PrepareTypeAnalysis(w, filename, position, p))
  {
    var (analysis, comp) := p;
    var offset := w.globalOffset(comp, filename, position.line + 1);
    if offset.Err? {
      return Err(offset.error);
    }
    var objects := w.offsetToObjects(analysis, filename, offset.value + position.character);
    var res := before;
    for j := 0 to |objects|
      invariant Collect(objects[..j], id => PrepareTypeEntry(w, comp, id)).Ok?
      invariant res == before + Elements(Collect(objects[..j], id => PrepareTypeEntry(w, comp, id)).value)
    {
      CollectStep(objects, j, id => PrepareTypeEntry(w, comp, id));
      var id := objects[j];
      if !IsContract(w, id) {
        continue;
      }
      var item := TypeItemOf(w, id, comp);
      if item.Err? {
        CollectPrefixFails(objects, j + 1, id => PrepareTypeEntry(w, comp, id));
        return Err(item.error);
      }
      ElementsConcat(Collect(objects[..j], id => PrepareTypeEntry(w, comp, id)).value, [item.value]);
      res := res + {item.value};
    }
    assert objects[..|objects|] == objects;
    return Ok(res);
  }

  /** `on_get_subtypes`. */
  method OnGetSubtypes(ls: SlitherServer.Server, w: Slither, item: HierarchyItem) returns (r: Result<set<HierarchyItem>>)
    requires ls.Valid()
    ensures r == Subtypes(w, item.data, ls.Analyses(), ls.helpers.toUri)
  {
    var target := ItemTarget(item.data);
    if target.Err? {
      return Err(target.error);
    }
    var (filename, offset) := target.value;
    var referenced := ReferencedContracts(w, filename, offset, ls.AnalysesContaining(filename, w));
    var contracts := AllContracts(w, ls.Analyses());
    var res: set<TypeItem> := {};
    for i := 0 to |referenced|
      invariant SubtypeItems(w, referenced[..i], contracts).Ok?
      invariant res == Elements(SubtypeItems(w, referenced[..i], contracts).value)
    {
      FlattenStep(referenced, i, contract => Collect(contracts, other => Subtype(w, contract, other)));
      var next := AddSubtypes(w, referenced[i], contracts, res);
      if next.Err? {
        FlattenPrefixFails(referenced, i + 1, contract => Collect(contracts, other => Subtype(w, contract, other)));
        return Err(next.error);
      }
      ElementsConcat(SubtypeItems(w, referenced[..i], contracts).value, Collect(contracts, other => Subtype(w, referenced[i], other)).value);
      res := next.value;
    }
    assert referenced[..|referenced|] == referenced;
    return Ok(Shown(res, ls.helpers.toUri));
  }

  /** The loop over `contracts` for one referenced contract: add each that inherits from it directly. */
  method AddSubtypes(w: Slither, contract: ObjId, contracts: seq<(ObjId, Compilation)>, before: set<TypeItem>)
    returns (r: Result<set<TypeItem>>)
    ensures r == Gathered(before, Collect(contracts, other => Subtype(w, contract, other)))
  {
    var res := before;
    for k := 0 to |contracts|
      invariant Collect(contracts[..k], other => Subtype(w, contract, other)).Ok?
      invariant res == before + Elements(Collect(contracts[..k], other => Subtype(w, contract, other)).value)
    {
      CollectStep(contracts, k, other => Subtype(w, contract, other));
      var (other, otherComp) := contracts[k];
      if contract !in Inheritance(w, other) {
        continue;
      }
      var item := TypeItemOf(w, other, otherComp);
      if item.Err? {
        CollectPrefixFails(contracts, k + 1, other => Subtype(w, contract, other));
        return Err(item.error);
      }
      ElementsConcat(Collect(contracts[..k], other => Subtype(w, contract, other)).value, [item.value]);
      res := res + {item.value};
    }
    assert contracts[..|contracts|] == contracts;
    return Ok(res);
  }

  /** `on_get_supertypes`. */
  method OnGetSupertypes(ls: SlitherServer.Server, w: Slither, item: HierarchyItem) returns (r: Result<set<HierarchyItem>>)
    requires ls.Valid()
    ensures r == Supertypes(w, item.data, ls.Analyses(), ls.helpers.toUri)
  {
    var target := ItemTarget(item.data);
    if target.Err? {
      return Err(target.error);
    }
    var (filename, offset) := target.value;
    var supertypes := SupertypePairs(w, filename, offset, ls.AnalysesContaining(filename, w));
    var res: set<TypeItem> := {};
    for i := 0 to |supertypes|
      invariant Collect(supertypes[..i], s => Supertype(w, s)).Ok?
      invariant res == Elements(Collect(supertypes[..i], s => Supertype(w, s)).value)
    {
      CollectStep(supertypes, i, s => Supertype(w, s));
      var (sup, comp) := supertypes[i];
      var t := TypeItemOf(w, sup, comp);
      if t.Err? {
        CollectPrefixFails(supertypes, i + 1, s => Supertype(w, s));
        return Err(t.error);
      }
      ElementsConcat(Collect(supertypes[..i], s => Supertype(w, s)).value, [t.value]);
      res := res + {t.value};
    }
    assert supertypes[..|supertypes|] == supertypes;
    return Ok(Shown(res, ls.helpers.toUri));
  }
}
