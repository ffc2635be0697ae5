/**
 * app/request_handlers/call_hierarchy.py: prepare, incoming calls and
 * outgoing calls. Prepare names the functions at the cursor and stores the
 * file and the definition offset in each item's data; incoming and
 * outgoing read those back and list, one hop away, the functions that call
 * the target or that it calls, each with the ranges of the calls.
 */
module CallHierarchy {
  import opened Values
  import opened AppTypes
  import opened AppRanges
  import opened SlitherObjects
  import opened OrderedDicts
  import opened Collecting
  import SlitherServer

  /** `CallItem`: the hashable record calls are grouped by; its `range` tuple is kept as its two ends. */
  datatype CallItem = CallItem(name: string, rangeStart: Pos, rangeEnd: Pos, filename: string, offset: int)
  {
    function Range(): PosRange
    {
      (rangeStart, rangeEnd)
    }
  }

  /** lsprotocol's `CallHierarchyItem`. */
  datatype HierarchyItem = HierarchyItem(name: string, kind: SymbolKind, uri: string, range: Range, selectionRange: Range, data: Value)

  /**
   * `CallHierarchyIncomingCall` and `CallHierarchyOutgoingCall`: the function
   * at the other end and the ranges of the calls.
   */
  datatype HierarchyCall = HierarchyCall(item: HierarchyItem, fromRanges: set<Range>)

  /** An item's `data`: `{"filename": filename, "offset": offset}`. */
  function ItemData(filename: string, offset: int): Value
  {
    VDict(map["filename" := VStr(filename), "offset" := VInt(offset)])
  }

  /** `params.item.data["filename"]` and `params.item.data["offset"]`. */
  function ItemTarget(data: Value): (r: Result<(string, int)>)
    ensures r.Ok? ==> data.VDict? && "filename" in data.entries && "offset" in data.entries
    ensures r.Ok? ==> data.entries["filename"] == VStr(r.value.0) && data.entries["offset"] == VInt(r.value.1)
    ensures !data.VDict? ==> r == Err(TypeError)
    ensures data.VDict? && "filename" !in data.entries ==> r == Err(KeyError)
  {
    var filename :- Index(data, "filename");
    var offset :- Index(data, "offset");
    if filename.VStr? && offset.VInt? then Ok((filename.s, offset.i)) else Err(TypeError)
  }

  /** The data prepare stores is read back by incoming and outgoing unchanged. */
  lemma ItemDataRoundTrip(filename: string, offset: int)
    ensures ItemTarget(ItemData(filename, offset)) == Ok((filename, offset))
  {
    assert Index(ItemData(filename, offset), "filename") == Ok(VStr(filename));
  }

  // ---------------------------------------------------------------------------
  // Prepare

  /**
   * What prepare makes of one object at the cursor: nothing for a
   * non-function; otherwise the item keyed by the request's file and the
   * definition's offset. A function without a source mapping raises.
   */
  function PrepareEntry(w: Slither, toUri: string -> string, filename: string, comp: Compilation, id: ObjId)
    : Result<Option<((string, int), HierarchyItem)>>
  {
    if !IsFunction(w, id) then Ok(None)
    else
      var source := w.decl(id).source;
      var offset := w.definition(id, comp).start;
      if source.None? then Err(AttributeError)
      else
        Ok(Some(((filename, offset),
                 HierarchyItem(w.decl(id).canonicalName, FunctionKind, toUri(source.value.filename.absolute),
                               SourceToRange(source.value), ObjectNameRange(w, id, comp), ItemData(filename, offset)))))
  }

  /** The objects at the cursor in one analysis: the global offset of the line below plus the column. */
  function PrepareAnalysis(w: Slither, toUri: string -> string, filename: string, position: Position, p: (Analysis, Compilation))
    : Result<seq<((string, int), HierarchyItem)>>
  {
    var offset :- w.globalOffset(p.1, filename, position.line + 1);
    Collect(w.offsetToObjects(p.0, filename, offset + position.character), id => PrepareEntry(w, toUri, filename, p.1, id))
  }

  /** Every assignment to `res`, in the order the loops make them. */
  function PrepareEntries(w: Slither, toUri: string -> string, filename: string, position: Position,
                          containing: seq<(Analysis, Compilation)>): Result<seq<((string, int), HierarchyItem)>>
  {
    Flatten(containing, p => PrepareAnalysis(w, toUri, filename, position, p))
  }

  /** `on_prepare_call_hierarchy`: the values of `res` after the assignments. */
  function Prepare(w: Slither, toUri: string -> string, filename: string, position: Position,
                   containing: seq<(Analysis, Compilation)>): Result<seq<HierarchyItem>>
  {
    var entries :- PrepareEntries(w, toUri, filename, position, containing);
    Ok(ValueList(PutAll(Empty(), entries)))
  }

  // ---------------------------------------------------------------------------
  // Call sites

  /** The `CallItem` of a function; one without a source mapping raises. */
  function CallItemOf(w: Slither, id: ObjId, comp: Compilation): Result<CallItem>
  {
    var source := w.decl(id).source;
    if source.None? then Err(AttributeError)
    else
      var range := ToRange(SourceToRange(source.value));
      Ok(CallItem(w.decl(id).canonicalName, range.0, range.1, source.value.filename.absolute, w.definition(id, comp).start))
  }

  /**
   * One call recorded under the function at the other end (the callee for
   * outgoing calls, the caller for incoming ones): its item and the range of
   * the call's expression. A missing source mapping on either raises.
   */
  function CallSite(w: Slither, other: ObjId, op: Op, comp: Compilation): Result<(CallItem, PosRange)>
  {
    var expression := op.expression.SourceMapping();
    if expression.None? then Err(AttributeError)
    else
      var item :- CallItemOf(w, other, comp);
      Ok((item, ToRange(SourceToRange(expression.value))))
  }

  /** The ranges recorded for one item. */
  function RangesOf(sites: seq<(CallItem, PosRange)>, c: CallItem): set<Range>
  {
    set i | 0 <= i < |sites| && sites[i].0 == c :: ToLspRange(sites[i].1)
  }

  /** The item a `CallItem` is sent as: its name, its range as both ranges, its file and offset as data. */
  function ItemOfCall(c: CallItem, toUri: string -> string): HierarchyItem
  {
    HierarchyItem(c.name, FunctionKind, toUri(c.filename), ToLspRange(c.Range()), ToLspRange(c.Range()), ItemData(c.filename, c.offset))
  }

  /** The final comprehension over `res.items()`. */
  function Grouped(d: Dict<CallItem, set<PosRange>>, toUri: string -> string): (r: seq<HierarchyCall>)
    requires Valid(d)
    ensures |r| == |d.keys|
    ensures forall i :: 0 <= i < |r| ==> r[i].item == ItemOfCall(d.keys[i], toUri)
    ensures forall i :: 0 <= i < |r| ==> r[i].fromRanges == (set x | x in d.values[d.keys[i]] :: ToLspRange(x))
  {
    seq(|d.keys|, i requires 0 <= i < |d.keys| =>
      HierarchyCall(ItemOfCall(d.keys[i], toUri), set x | x in d.values[d.keys[i]] :: ToLspRange(x)))
  }

  /** `res[item].add(range)` for each site, starting from the empty `defaultdict(set)`. */
  function GroupSites(sites: seq<(CallItem, PosRange)>, toUri: string -> string): seq<HierarchyCall>
  {
    Grouped(AddAll(Empty(), sites), toUri)
  }

  // ---------------------------------------------------------------------------
  // Outgoing calls

  /** A call op whose callee is a function gives a site under the callee; other ops give nothing. */
  function Callee(w: Slither, comp: Compilation, op: Op): Result<Option<(CallItem, PosRange)>>
  {
    if !IsCallOp(op) || !IsFunction(w, op.callee) then Ok(None)
    else
      var site :- CallSite(w, op.callee, op, comp);
      Ok(Some(site))
  }

  /** The sites of one object at the target: a non-function gives none. */
  function CalleesOf(w: Slither, comp: Compilation, id: ObjId): Result<seq<(CallItem, PosRange)>>
  {
    if !IsFunction(w, id) then Ok([]) else Collect(Operations(w, id), op => Callee(w, comp, op))
  }

  /** The sites of the objects at the target offset in one analysis. */
  function OutgoingAnalysis(w: Slither, filename: string, offset: int, p: (Analysis, Compilation)): Result<seq<(CallItem, PosRange)>>
  {
    Flatten(w.offsetToObjects(p.0, filename, offset), id => CalleesOf(w, p.1, id))
  }

  /** Every `res[item].add(...)` of `on_get_outgoing_calls`, in order. */
  function OutgoingSites(w: Slither, filename: string, offset: int, containing: seq<(Analysis, Compilation)>)
    : Result<seq<(CallItem, PosRange)>>
  {
    Flatten(containing, p => OutgoingAnalysis(w, filename, offset, p))
  }

  /** `on_get_outgoing_calls` for an item's data against the server's results. */
  function Outgoing(w: Slither, data: Value, results: seq<AnalysisResult>, toUri: string -> string): Result<seq<HierarchyCall>>
  {
    var target :- ItemTarget(data);
    var sites :- OutgoingSites(w, target.0, target.1, SlitherServer.Containing(results, target.0, w));
    Ok(GroupSites(sites, toUri))
  }

  // ---------------------------------------------------------------------------
  // Incoming calls

  /** The functions among the objects at the target offset in one analysis. */
  function FunctionsAt(w: Slither, filename: string, offset: int, p: (Analysis, Compilation)): seq<ObjId>
  {
    FlatMap(w.offsetToObjects(p.0, filename, offset), id => if IsFunction(w, id) then [id] else [])
  }

  /** `referenced_functions`. */
  function Referenced(w: Slither, filename: string, offset: int, containing: seq<(Analysis, Compilation)>): seq<ObjId>
  {
    FlatMap(containing, p => FunctionsAt(w, filename, offset, p))
  }

  /** The calls a function makes to functions, each with the function and its compilation. */
  function CallsIn(w: Slither, f: ObjId, comp: Compilation): seq<(ObjId, Op, Compilation)>
  {
    FlatMap(Operations(w, f), op => if IsCallOp(op) && IsFunction(w, op.callee) then [(f, op, comp)] else [])
  }

  /** The calls of every function of a built result's compilation units; a result not built has none. */
  function ResultCalls(w: Slither, r: AnalysisResult): seq<(ObjId, Op, Compilation)>
  {
    if r.built.None? then [] else FlatMap(w.unitFunctions(r.built.value.1), f => CallsIn(w, f, r.built.value.0))
  }

  /** `calls`: across every analysis result. */
  function Calls(w: Slither, results: seq<AnalysisResult>): seq<(ObjId, Op, Compilation)>
  {
    FlatMap(results, r => ResultCalls(w, r))
  }

  /** A call to `func` gives a site under its caller; a call to another function gives nothing. */
  function Caller(w: Slither, func: ObjId, call: (ObjId, Op, Compilation)): Result<Option<(CallItem, PosRange)>>
  {
    if call.1.callee != func then Ok(None)
    else
      var site :- CallSite(w, call.0, call.1, call.2);
      Ok(Some(site))
  }

  /** Every `res[item].add(...)` of `on_get_incoming_calls`, in order. */
  function IncomingSites(w: Slither, referenced: seq<ObjId>, calls: seq<(ObjId, Op, Compilation)>): Result<seq<(CallItem, PosRange)>>
  {
    Flatten(referenced, func => Collect(calls, call => Caller(w, func, call)))
  }

  /** `on_get_incoming_calls` for an item's data against the server's results. */
  function Incoming(w: Slither, data: Value, results: seq<AnalysisResult>, toUri: string -> string): Result<seq<HierarchyCall>>
  {
    var target :- ItemTarget(data);
    var referenced := Referenced(w, target.0, target.1, SlitherServer.Containing(results, target.0, w));
    var sites :- IncomingSites(w, referenced, Calls(w, results));
    Ok(GroupSites(sites, toUri))
  }

  // ---------------------------------------------------------------------------
  // Grouping

  /** The grouped calls are exactly the items of the recorded sites, each with all the ranges recorded for it. */
  lemma GroupedMembers(sites: seq<(CallItem, PosRange)>, toUri: string -> string, hc: HierarchyCall)
    ensures hc in GroupSites(sites, toUri) <==> exists s :: s in sites && hc == HierarchyCall(ItemOfCall(s.0, toUri), RangesOf(sites, s.0))
  {
    if hc in GroupSites(sites, toUri) {
      GroupedSound(sites, toUri, hc);
    }
    if exists s :: s in sites && hc == HierarchyCall(ItemOfCall(s.0, toUri), RangesOf(sites, s.0)) {
      var s :| s in sites && hc == HierarchyCall(ItemOfCall(s.0, toUri), RangesOf(sites, s.0));
      GroupedComplete(sites, toUri, s);
    }
  }

  lemma GroupedSound(sites: seq<(CallItem, PosRange)>, toUri: string -> string, hc: HierarchyCall)
    requires hc in GroupSites(sites, toUri)
    ensures exists s :: s in sites && hc == HierarchyCall(ItemOfCall(s.0, toUri), RangesOf(sites, s.0))
  {
    var d := AddAll(Empty(), sites);
    var j :| 0 <= j < |d.keys| && GroupSites(sites, toUri)[j] == hc;
    var c := d.keys[j];
    AddAllKeys(Empty(), sites, c);
    var i :| 0 <= i < |sites| && sites[i].0 == c;
    GroupedRanges(sites, c);
    assert sites[i] in sites;
  }

  lemma GroupedComplete(sites: seq<(CallItem, PosRange)>, toUri: string -> string, s: (CallItem, PosRange))
    requires s in sites
    ensures HierarchyCall(ItemOfCall(s.0, toUri), RangesOf(sites, s.0)) in GroupSites(sites, toUri)
  {
    var d := AddAll(Empty(), sites);
    var i :| 0 <= i < |sites| && sites[i] == s;
    AddAllKeys(Empty(), sites, s.0);
    var j :| 0 <= j < |d.keys| && d.keys[j] == s.0;
    GroupedRanges(sites, s.0);
    assert GroupSites(sites, toUri)[j] == HierarchyCall(ItemOfCall(s.0, toUri), RangesOf(sites, s.0));
  }

  lemma GroupedRanges(sites: seq<(CallItem, PosRange)>, c: CallItem)
    requires c in AddAll(Empty(), sites).values
    ensures (set x | x in AddAll(Empty(), sites).values[c] :: ToLspRange(x)) == RangesOf(sites, c)
  {
    var d := AddAll(Empty(), sites);
    forall r | r in RangesOf(sites, c)
      ensures r in (set x | x in d.values[c] :: ToLspRange(x))
    {
      var i :| 0 <= i < |sites| && sites[i].0 == c && r == ToLspRange(sites[i].1);
      AddAllElements(Empty(), sites, c, sites[i].1);
    }
    forall r | r in (set x | x in d.values[c] :: ToLspRange(x))
      ensures r in RangesOf(sites, c)
    {
      var x :| x in d.values[c] && r == ToLspRange(x);
      AddAllElements(Empty(), sites, c, x);
    }
  }

  /** Each item is listed once: a different `CallItem` is sent as a different item. */
  lemma ItemOfCallInjective(a: CallItem, b: CallItem, toUri: string -> string)
    requires ItemOfCall(a, toUri) == ItemOfCall(b, toUri)
    ensures a == b
  {
    ToRangeInjective(ToLspRange(a.Range()), ToLspRange(b.Range()));
    assert ItemData(a.filename, a.offset).entries["filename"] == VStr(a.filename);
    assert ItemData(a.filename, a.offset).entries["offset"] == VInt(a.offset);
  }

  /** One entry per distinct callee or caller: no two grouped calls share an item. */
  lemma GroupedDistinct(sites: seq<(CallItem, PosRange)>, toUri: string -> string, i: int, j: int)
    requires 0 <= i < j < |GroupSites(sites, toUri)|
    ensures GroupSites(sites, toUri)[i].item != GroupSites(sites, toUri)[j].item
  {
    var d := AddAll(Empty(), sites);
    if GroupSites(sites, toUri)[i].item == GroupSites(sites, toUri)[j].item {
      ItemOfCallInjective(d.keys[i], d.keys[j], toUri);
    }
  }

  // ---------------------------------------------------------------------------
  // Prepare: what the items are

  /** An entry one analysis assigns: that of an object at the cursor, once the line's offset is known. */
  ghost predicate EntryAt(w: Slither, toUri: string -> string, filename: string, position: Position, p: (Analysis, Compilation),
                          e: ((string, int), HierarchyItem))
  {
    var offset := w.globalOffset(p.1, filename, position.line + 1);
    offset.Ok? &&
    exists id :: id in w.offsetToObjects(p.0, filename, offset.value + position.character) &&
      PrepareEntry(w, toUri, filename, p.1, id) == Ok(Some(e))
  }

  lemma PrepareAnalysisMembers(w: Slither, toUri: string -> string, filename: string, position: Position, p: (Analysis, Compilation),
                               e: ((string, int), HierarchyItem))
    requires PrepareAnalysis(w, toUri, filename, position, p).Ok?
    ensures e in PrepareAnalysis(w, toUri, filename, position, p).value <==> EntryAt(w, toUri, filename, position, p, e)
  {
    var offset := w.globalOffset(p.1, filename, position.line + 1).value;
    CollectMembers(w.offsetToObjects(p.0, filename, offset + position.character), id => PrepareEntry(w, toUri, filename, p.1, id), e);
  }

  /** The assignments are exactly the entries of the function objects at the cursor. */
  lemma PrepareEntriesMembers(w: Slither, toUri: string -> string, filename: string, position: Position,
                              containing: seq<(Analysis, Compilation)>, e: ((string, int), HierarchyItem))
    requires PrepareEntries(w, toUri, filename, position, containing).Ok?
    ensures e in PrepareEntries(w, toUri, filename, position, containing).value <==>
              exists p :: p in containing && EntryAt(w, toUri, filename, position, p, e)
  {
    var g := p => PrepareAnalysis(w, toUri, filename, position, p);
    FlattenMembers(containing, g, e);
    FlattenOk(containing, g);
    forall p | p in containing
      ensures e in g(p).value <==> EntryAt(w, toUri, filename, position, p, e)
    {
      PrepareAnalysisMembers(w, toUri, filename, position, p, e);
    }
  }

  /** A value prepare returns was assigned by some entry. */
  lemma PreparedFromEntry(w: Slither, toUri: string -> string, filename: string, position: Position,
                          containing: seq<(Analysis, Compilation)>, item: HierarchyItem)
    requires Prepare(w, toUri, filename, position, containing).Ok?
    requires item in Prepare(w, toUri, filename, position, containing).value
    ensures exists k :: (k, item) in PrepareEntries(w, toUri, filename, position, containing).value
  {
    var entries := PrepareEntries(w, toUri, filename, position, containing).value;
    var d := PutAll(Empty(), entries);
    var j :| 0 <= j < |d.keys| && ValueList(d)[j] == item;
    PutAllFrom(Empty(), entries, d.keys[j]);
    var i :| 0 <= i < |entries| && entries[i] == (d.keys[j], item);
    assert entries[i] in entries;
  }

  /**
   * Prepare keeps only functions: every item is that of a function object at
   * the cursor, names it by its canonical name with the function kind, and
   * carries the request's file and the definition's offset as data.
   */
  lemma PrepareKeepsFunctions(w: Slither, toUri: string -> string, filename: string, position: Position,
                              containing: seq<(Analysis, Compilation)>, item: HierarchyItem)
    requires Prepare(w, toUri, filename, position, containing).Ok?
    requires item in Prepare(w, toUri, filename, position, containing).value
    ensures exists p, id :: p in containing && w.globalOffset(p.1, filename, position.line + 1).Ok? &&
              id in w.offsetToObjects(p.0, filename, w.globalOffset(p.1, filename, position.line + 1).value + position.character) &&
              IsFunction(w, id) && w.decl(id).source.Some? &&
              item.name == w.decl(id).canonicalName && item.kind == FunctionKind &&
              item.data == ItemData(filename, w.definition(id, p.1).start)
  {
    PreparedFromEntry(w, toUri, filename, position, containing, item);
    var k :| (k, item) in PrepareEntries(w, toUri, filename, position, containing).value;
    PrepareEntriesMembers(w, toUri, filename, position, containing, (k, item));
    var p :| p in containing && EntryAt(w, toUri, filename, position, p, (k, item));
    EntryAtFunction(w, toUri, filename, position, p, k, item);
  }

  /** An entry found in one analysis comes from a function at the cursor that has a source mapping. */
  lemma EntryAtFunction(w: Slither, toUri: string -> string, filename: string, position: Position, p: (Analysis, Compilation),
                        k: (string, int), item: HierarchyItem)
    requires EntryAt(w, toUri, filename, position, p, (k, item))
    ensures w.globalOffset(p.1, filename, position.line + 1).Ok?
    ensures exists id :: id in w.offsetToObjects(p.0, filename, w.globalOffset(p.1, filename, position.line + 1).value + position.character) &&
              IsFunction(w, id) && w.decl(id).source.Some? &&
              item.name == w.decl(id).canonicalName && item.kind == FunctionKind &&
              item.data == ItemData(filename, w.definition(id, p.1).start)
  {
    var offset := w.globalOffset(p.1, filename, position.line + 1).value;
    var id :| id in w.offsetToObjects(p.0, filename, offset + position.character) &&
              PrepareEntry(w, toUri, filename, p.1, id) == Ok(Some((k, item)));
    assert IsFunction(w, id) && w.decl(id).source.Some?;
  }

  /** An item's data is its key: the request's file and the definition's offset. */
  lemma EntriesKeyedByData(w: Slither, toUri: string -> string, filename: string, position: Position,
                           containing: seq<(Analysis, Compilation)>, e: ((string, int), HierarchyItem))
    requires PrepareEntries(w, toUri, filename, position, containing).Ok?
    requires e in PrepareEntries(w, toUri, filename, position, containing).value
    ensures e.0.0 == filename && e.1.data == ItemData(e.0.0, e.0.1)
  {
    PrepareEntriesMembers(w, toUri, filename, position, containing, e);
  }

  /** One item per definition: no two items prepare returns carry the same data. */
  lemma PrepareDistinct(w: Slither, toUri: string -> string, filename: string, position: Position,
                        containing: seq<(Analysis, Compilation)>, i: int, j: int)
    requires Prepare(w, toUri, filename, position, containing).Ok?
    requires 0 <= i < j < |Prepare(w, toUri, filename, position, containing).value|
    ensures Prepare(w, toUri, filename, position, containing).value[i].data != Prepare(w, toUri, filename, position, containing).value[j].data
  {
    var entries := PrepareEntries(w, toUri, filename, position, containing).value;
    var d := PutAll(Empty(), entries);
    var ki: (string, int), kj: (string, int) := d.keys[i], d.keys[j];
    PutAllFrom(Empty(), entries, ki);
    PutAllFrom(Empty(), entries, kj);
    var a :| 0 <= a < |entries| && entries[a] == (ki, d.values[ki]);
    var b :| 0 <= b < |entries| && entries[b] == (kj, d.values[kj]);
    EntriesKeyedByData(w, toUri, filename, position, containing, entries[a]);
    EntriesKeyedByData(w, toUri, filename, position, containing, entries[b]);
    assert ItemData(ki.0, ki.1).entries["offset"] == VInt(ki.1);
    assert ItemData(kj.0, kj.1).entries["offset"] == VInt(kj.1);
  }

  /** The last assignment to a key wins: its item is the one returned. */
  lemma PrepareLastWins(w: Slither, toUri: string -> string, filename: string, position: Position,
                        containing: seq<(Analysis, Compilation)>, i: int)
    requires PrepareEntries(w, toUri, filename, position, containing).Ok?
    requires 0 <= i < |PrepareEntries(w, toUri, filename, position, containing).value|
    requires var entries := PrepareEntries(w, toUri, filename, position, containing).value;
             forall j :: i < j < |entries| ==> entries[j].0 != entries[i].0
    ensures PrepareEntries(w, toUri, filename, position, containing).value[i].1 in Prepare(w, toUri, filename, position, containing).value
  {
    var entries := PrepareEntries(w, toUri, filename, position, containing).value;
    var d := PutAll(Empty(), entries);
    PutAllLastWins(Empty(), entries, i);
    var k := entries[i].0;
    var j :| 0 <= j < |d.keys| && d.keys[j] == k;
    assert ValueList(d)[j] == entries[i].1;
  }

  /** What incoming and outgoing read from a prepared item is its file and the definition's offset. */
  lemma PreparedDataReadBack(w: Slither, toUri: string -> string, filename: string, position: Position,
                             containing: seq<(Analysis, Compilation)>, item: HierarchyItem)
    requires Prepare(w, toUri, filename, position, containing).Ok?
    requires item in Prepare(w, toUri, filename, position, containing).value
    ensures exists offset :: ItemTarget(item.data) == Ok((filename, offset)) && item.data == ItemData(filename, offset)
  {
    PrepareKeepsFunctions(w, toUri, filename, position, containing, item);
    var p, id :| p in containing && IsFunction(w, id) && item.data == ItemData(filename, w.definition(id, p.1).start);
    ItemDataRoundTrip(filename, w.definition(id, p.1).start);
  }

  // ---------------------------------------------------------------------------
  // Outgoing: one hop to the callees

  /** A site outgoing from the target: a call op of a function at the target offset, to a function. */
  ghost predicate OutgoingSite(w: Slither, filename: string, offset: int, containing: seq<(Analysis, Compilation)>,
                               s: (CallItem, PosRange))
  {
    exists p, id, op :: p in containing && id in w.offsetToObjects(p.0, filename, offset) && IsFunction(w, id) &&
      op in Operations(w, id) && IsCallOp(op) && IsFunction(w, op.callee) && CallSite(w, op.callee, op, p.1) == Ok(s)
  }

  lemma CalleesMembers(w: Slither, comp: Compilation, id: ObjId, s: (CallItem, PosRange))
    requires CalleesOf(w, comp, id).Ok?
    ensures s in CalleesOf(w, comp, id).value <==>
              IsFunction(w, id) &&
              (exists op :: op in Operations(w, id) && IsCallOp(op) && IsFunction(w, op.callee) && CallSite(w, op.callee, op, comp) == Ok(s))
  {
    if IsFunction(w, id) {
      CollectMembers(Operations(w, id), op => Callee(w, comp, op), s);
    }
  }

  /** The outgoing sites are exactly the direct calls the functions at the target make to functions. */
  lemma OutgoingSitesMembers(w: Slither, filename: string, offset: int, containing: seq<(Analysis, Compilation)>,
                             s: (CallItem, PosRange))
    requires OutgoingSites(w, filename, offset, containing).Ok?
    ensures s in OutgoingSites(w, filename, offset, containing).value <==> OutgoingSite(w, filename, offset, containing, s)
  {
    FlattenMembers(containing, p => OutgoingAnalysis(w, filename, offset, p), s);
    FlattenOk(containing, p => OutgoingAnalysis(w, filename, offset, p));
    forall p | p in containing
      ensures s in OutgoingAnalysis(w, filename, offset, p).value <==>
                exists id, op :: id in w.offsetToObjects(p.0, filename, offset) && IsFunction(w, id) &&
                  op in Operations(w, id) && IsCallOp(op) && IsFunction(w, op.callee) && CallSite(w, op.callee, op, p.1) == Ok(s)
    {
      var objects := w.offsetToObjects(p.0, filename, offset);
      FlattenMembers(objects, id => CalleesOf(w, p.1, id), s);
      FlattenOk(objects, id => CalleesOf(w, p.1, id));
      forall id | id in objects
        ensures s in CalleesOf(w, p.1, id).value <==>
                  IsFunction(w, id) &&
                  (exists op :: op in Operations(w, id) && IsCallOp(op) && IsFunction(w, op.callee) && CallSite(w, op.callee, op, p.1) == Ok(s))
      {
        CalleesMembers(w, p.1, id, s);
      }
    }
  }

  /**
   * Outgoing calls are one hop: each entry is a callee of a direct call made
   * by a function at the target, with every range recorded for it, and each
   * such callee has an entry.
   */
  lemma OutgoingCallees(w: Slither, data: Value, results: seq<AnalysisResult>, toUri: string -> string, hc: HierarchyCall)
    requires Outgoing(w, data, results, toUri).Ok?
    ensures var target := ItemTarget(data).value;
            var containing := SlitherServer.Containing(results, target.0, w);
            var sites := OutgoingSites(w, target.0, target.1, containing).value;
            hc in Outgoing(w, data, results, toUri).value <==>
              exists s :: OutgoingSite(w, target.0, target.1, containing, s) &&
                hc == HierarchyCall(ItemOfCall(s.0, toUri), RangesOf(sites, s.0))
  {
    var target := ItemTarget(data).value;
    var containing := SlitherServer.Containing(results, target.0, w);
    var sites := OutgoingSites(w, target.0, target.1, containing).value;
    assert Outgoing(w, data, results, toUri).value == GroupSites(sites, toUri);
    GroupedMembers(sites, toUri, hc);
    forall s
      ensures s in sites <==> OutgoingSite(w, target.0, target.1, containing, s)
    {
      OutgoingSitesMembers(w, target.0, target.1, containing, s);
    }
  }

  // ---------------------------------------------------------------------------
  // Incoming: one hop to the callers

  /** The referenced functions are exactly the functions at the target offset in the analyses containing the file. */
  lemma ReferencedMembers(w: Slither, filename: string, offset: int, containing: seq<(Analysis, Compilation)>, id: ObjId)
    ensures id in Referenced(w, filename, offset, containing) <==>
              IsFunction(w, id) && exists p :: p in containing && id in w.offsetToObjects(p.0, filename, offset)
  {
    FlatMapMembers(containing, p => FunctionsAt(w, filename, offset, p), id);
    forall p | p in containing
      ensures id in FunctionsAt(w, filename, offset, p) <==> IsFunction(w, id) && id in w.offsetToObjects(p.0, filename, offset)
    {
      FlatMapMembers(w.offsetToObjects(p.0, filename, offset), x => if IsFunction(w, x) then [x] else [], id);
    }
  }

  /** The calls are exactly the call ops, to functions, of the functions of every built result. */
  lemma CallsMembers(w: Slither, results: seq<AnalysisResult>, c: (ObjId, Op, Compilation))
    ensures c in Calls(w, results) <==>
              exists r :: r in results && r.built.Some? && c.2 == r.built.value.0 && c.0 in w.unitFunctions(r.built.value.1) &&
                c.1 in Operations(w, c.0) && IsCallOp(c.1) && IsFunction(w, c.1.callee)
  {
    FlatMapMembers(results, r => ResultCalls(w, r), c);
    forall r | r in results && r.built.Some?
      ensures c in ResultCalls(w, r) <==>
                c.2 == r.built.value.0 && c.0 in w.unitFunctions(r.built.value.1) &&
                c.1 in Operations(w, c.0) && IsCallOp(c.1) && IsFunction(w, c.1.callee)
    {
      var comp := r.built.value.0;
      FlatMapMembers(w.unitFunctions(r.built.value.1), f => CallsIn(w, f, comp), c);
      forall f | f in w.unitFunctions(r.built.value.1)
        ensures c in CallsIn(w, f, comp) <==> c.0 == f && c.2 == comp && c.1 in Operations(w, f) && IsCallOp(c.1) && IsFunction(w, c.1.callee)
      {
        FlatMapMembers(Operations(w, f), op => if IsCallOp(op) && IsFunction(w, op.callee) then [(f, op, comp)] else [], c);
      }
    }
  }

  /** The incoming sites are exactly the calls, among `calls`, whose callee is a referenced function. */
  lemma IncomingSitesMembers(w: Slither, referenced: seq<ObjId>, calls: seq<(ObjId, Op, Compilation)>, s: (CallItem, PosRange))
    requires IncomingSites(w, referenced, calls).Ok?
    ensures s in IncomingSites(w, referenced, calls).value <==>
              exists func, c :: func in referenced && c in calls && c.1.callee == func && CallSite(w, c.0, c.1, c.2) == Ok(s)
  {
    FlattenMembers(referenced, func => Collect(calls, call => Caller(w, func, call)), s);
    FlattenOk(referenced, func => Collect(calls, call => Caller(w, func, call)));
    forall func | func in referenced
      ensures s in Collect(calls, call => Caller(w, func, call)).value <==>
                exists c :: c in calls && c.1.callee == func && CallSite(w, c.0, c.1, c.2) == Ok(s)
    {
      CollectMembers(calls, call => Caller(w, func, call), s);
    }
  }

  /** A site incoming to the target: a call op, in any built result, to a function at the target offset. */
  ghost predicate IncomingSite(w: Slither, filename: string, offset: int, results: seq<AnalysisResult>, s: (CallItem, PosRange))
  {
    exists func, c :: func in Referenced(w, filename, offset, SlitherServer.Containing(results, filename, w)) &&
      c in Calls(w, results) && c.1.callee == func && CallSite(w, c.0, c.1, c.2) == Ok(s)
  }

  /**
   * Incoming calls are one hop: each entry is the caller of a direct call to
   * a function at the target, with every range recorded for it, and each
   * such caller has an entry.
   */
  lemma IncomingCallers(w: Slither, data: Value, results: seq<AnalysisResult>, toUri: string -> string, hc: HierarchyCall)
    requires Incoming(w, data, results, toUri).Ok?
    ensures var target := ItemTarget(data).value;
            var referenced := Referenced(w, target.0, target.1, SlitherServer.Containing(results, target.0, w));
            var sites := IncomingSites(w, referenced, Calls(w, results)).value;
            hc in Incoming(w, data, results, toUri).value <==>
              exists s :: IncomingSite(w, target.0, target.1, results, s) && hc == HierarchyCall(ItemOfCall(s.0, toUri), RangesOf(sites, s.0))
  {
    var target := ItemTarget(data).value;
    var referenced := Referenced(w, target.0, target.1, SlitherServer.Containing(results, target.0, w));
    var sites := IncomingSites(w, referenced, Calls(w, results)).value;
    assert Incoming(w, data, results, toUri).value == GroupSites(sites, toUri);
    GroupedMembers(sites, toUri, hc);
    forall s
      ensures s in sites <==> IncomingSite(w, target.0, target.1, results, s)
    {
      IncomingSitesMembers(w, referenced, Calls(w, results), s);
    }
  }

  // ---------------------------------------------------------------------------
  // Recursion

  /** Nothing excludes a call a function makes to itself: a recursive function at the target is its own callee. */
  lemma RecursiveIsOwnCallee(w: Slither, data: Value, results: seq<AnalysisResult>, toUri: string -> string,
                             p: (Analysis, Compilation), f: ObjId, op: Op)
    requires ItemTarget(data).Ok? && Outgoing(w, data, results, toUri).Ok?
    requires p in SlitherServer.Containing(results, ItemTarget(data).value.0, w)
    requires f in w.offsetToObjects(p.0, ItemTarget(data).value.0, ItemTarget(data).value.1) && IsFunction(w, f)
    requires op in Operations(w, f) && IsCallOp(op) && op.callee == f
    ensures CallItemOf(w, f, p.1).Ok?
    ensures exists hc :: hc in Outgoing(w, data, results, toUri).value && hc.item == ItemOfCall(CallItemOf(w, f, p.1).value, toUri)
  {
    var target := ItemTarget(data).value;
    var containing := SlitherServer.Containing(results, target.0, w);
    var sites := OutgoingSites(w, target.0, target.1, containing).value;
    OutgoingCallSitesOk(w, target.0, target.1, containing, p, f, op);
    var s := CallSite(w, f, op, p.1).value;
    assert OutgoingSite(w, target.0, target.1, containing, s);
    OutgoingCallees(w, data, results, toUri, HierarchyCall(ItemOfCall(s.0, toUri), RangesOf(sites, s.0)));
  }

  /** When the outgoing sites are computed, every call they cover has a site. */
  lemma OutgoingCallSitesOk(w: Slither, filename: string, offset: int, containing: seq<(Analysis, Compilation)>,
                            p: (Analysis, Compilation), f: ObjId, op: Op)
    requires OutgoingSites(w, filename, offset, containing).Ok?
    requires p in containing && f in w.offsetToObjects(p.0, filename, offset) && IsFunction(w, f)
    requires op in Operations(w, f) && IsCallOp(op) && IsFunction(w, op.callee)
    ensures CallSite(w, op.callee, op, p.1).Ok?
  {
    FlattenOk(containing, q => OutgoingAnalysis(w, filename, offset, q));
    FlattenOk(w.offsetToObjects(p.0, filename, offset), id => CalleesOf(w, p.1, id));
    CollectOk(Operations(w, f), x => Callee(w, p.1, x));
  }

  /** Nothing excludes a call a function makes to itself: a recursive function at the target is its own caller. */
  lemma RecursiveIsOwnCaller(w: Slither, data: Value, results: seq<AnalysisResult>, toUri: string -> string,
                             p: (Analysis, Compilation), r: AnalysisResult, f: ObjId, op: Op)
    requires ItemTarget(data).Ok? && Incoming(w, data, results, toUri).Ok?
    requires p in SlitherServer.Containing(results, ItemTarget(data).value.0, w)
    requires f in w.offsetToObjects(p.0, ItemTarget(data).value.0, ItemTarget(data).value.1) && IsFunction(w, f)
    requires r in results && r.built.Some? && f in w.unitFunctions(r.built.value.1)
    requires op in Operations(w, f) && IsCallOp(op) && op.callee == f
    ensures CallItemOf(w, f, r.built.value.0).Ok?
    ensures exists hc :: hc in Incoming(w, data, results, toUri).value && hc.item == ItemOfCall(CallItemOf(w, f, r.built.value.0).value, toUri)
  {
    var target := ItemTarget(data).value;
    var containing := SlitherServer.Containing(results, target.0, w);
    var referenced := Referenced(w, target.0, target.1, containing);
    var calls := Calls(w, results);
    var sites := IncomingSites(w, referenced, calls).value;
    var call := (f, op, r.built.value.0);
    ReferencedMembers(w, target.0, target.1, containing, f);
    CallsMembers(w, results, call);
    FlattenOk(referenced, func => Collect(calls, c => Caller(w, func, c)));
    CollectOk(calls, c => Caller(w, f, c));
    var s := CallSite(w, f, op, r.built.value.0).value;
    assert IncomingSite(w, target.0, target.1, results, s);
    IncomingCallers(w, data, results, toUri, HierarchyCall(ItemOfCall(s.0, toUri), RangesOf(sites, s.0)));
  }

  // ---------------------------------------------------------------------------
  // The handlers

  /** `res` after a run of assignments, or the exception one of them raised. */
  function Assigned(d: Dict<(string, int), HierarchyItem>, entries: Result<seq<((string, int), HierarchyItem)>>)
    : Result<Dict<(string, int), HierarchyItem>>
    requires Valid(d)
  {
    if entries.Err? then Err(entries.error) else Ok(PutAll(d, entries.value))
  }

  /** `res` after a run of `res[item].add(range)`, or the exception one of them raised. */
  function Added(d: Dict<CallItem, set<PosRange>>, sites: Result<seq<(CallItem, PosRange)>>): Result<Dict<CallItem, set<PosRange>>>
    requires Valid(d)
  {
    if sites.Err? then Err(sites.error) else Ok(AddAll(d, sites.value))
  }

  /** `on_prepare_call_hierarchy`. */
  method OnPrepareCallHierarchy(ls: SlitherServer.Server, w: Slither, uri: string, position: Position)
    returns (r: Result<seq<HierarchyItem>>)
    requires ls.Valid()
    ensures r == Prepare(w, ls.helpers.toUri, ls.helpers.toPath(uri), position,
                         SlitherServer.Containing(ls.Analyses(), ls.helpers.toPath(uri), w))
  {
    var toUri := ls.helpers.toUri;
    var filename := ls.helpers.toPath(uri);
    var containing := ls.AnalysesContaining(filename, w);
    var res: Dict<(string, int), HierarchyItem> := Empty();
    for i := 0 to |containing|
      invariant PrepareEntries(w, toUri, filename, position, containing[..i]).Ok?
      invariant res == PutAll(Empty(), PrepareEntries(w, toUri, filename, position, containing[..i]).value)
    {
      FlattenStep(containing, i, p => PrepareAnalysis(w, toUri, filename, position, p));
      var next := PrepareInAnalysis(w, toUri, filename, position, containing[i], res);
      if next.Err? {
        FlattenPrefixFails(containing, i + 1, p => PrepareAnalysis(w, toUri, filename, position, p));
        return Err(next.error);
      }
      PutAllConcat(Empty(), PrepareEntries(w, toUri, filename, position, containing[..i]).value,
                   PrepareAnalysis(w, toUri, filename, position, containing[i]).value);
      res := next.value;
    }
    assert containing[..|containing|] == containing;
    return Ok(ValueList(res));
  }

  /** One analysis: the offset of the cursor, then the objects there. */
  method PrepareInAnalysis(w: Slither, toUri: string -> string, filename: string, position: Position, p: (Analysis, Compilation),
                           before: Dict<(string, int), HierarchyItem>) returns (r: Result<Dict<(string, int), HierarchyItem>>)
    requires Valid(before)
    ensures r == Assigned(before, PrepareAnalysis(w, toUri, filename, position, p))
  {
    var (analysis, comp) := p;
    var offset := w.globalOffset(comp, filename, position.line + 1);
    if offset.Err? {
      return Err(offset.error);
    }
    var objects := w.offsetToObjects(analysis, filename, offset.value + position.character);
    r := PrepareObjects(w, toUri, filename, comp, objects, before);
  }

  /** The inner loop of prepare: assign the item of each function object. */
  method PrepareObjects(w: Slither, toUri: string -> string, filename: string, comp: Compilation, objects: seq<ObjId>,
                        before: Dict<(string, int), HierarchyItem>) returns (r: Result<Dict<(string, int), HierarchyItem>>)
    requires Valid(before)
    ensures r == Assigned(before, Collect(objects, id => PrepareEntry(w, toUri, filename, comp, id)))
  {
    var res := before;
    for j := 0 to |objects|
      invariant Collect(objects[..j], id => PrepareEntry(w, toUri, filename, comp, id)).Ok?
      invariant res == PutAll(before, Collect(objects[..j], id => PrepareEntry(w, toUri, filename, comp, id)).value)
    {
      CollectStep(objects, j, id => PrepareEntry(w, toUri, filename, comp, id));
      var id := objects[j];
      var source := w.decl(id).source;
      if !IsFunction(w, id) {
        continue;
      }
      var offset := w.definition(id, comp).start;
      if source.None? {
        CollectPrefixFails(objects, j + 1, id => PrepareEntry(w, toUri, filename, comp, id));
        return Err(AttributeError);
      }
      var item := HierarchyItem(w.decl(id).canonicalName, FunctionKind, toUri(source.value.filename.absolute),
                                SourceToRange(source.value), ObjectNameRange(w, id, comp), ItemData(filename, offset));
      PutAllSnoc(before, Collect(objects[..j], id => PrepareEntry(w, toUri, filename, comp, id)).value, ((filename, offset), item));
      res := Put(res, (filename, offset), item);
    }
    assert objects[..|objects|] == objects;
    return Ok(res);
  }

  /** `on_get_outgoing_calls`. */
  method OnOutgoingCalls(ls: SlitherServer.Server, w: Slither, item: HierarchyItem) returns (r: Result<seq<HierarchyCall>>)
    requires ls.Valid()
    ensures r == Outgoing(w, item.data, ls.Analyses(), ls.helpers.toUri)
  {
    var target := ItemTarget(item.data);
    if target.Err? {
      return Err(target.error);
    }
    var (filename, offset) := target.value;
    var containing := ls.AnalysesContaining(filename, w);
    var res: Dict<CallItem, set<PosRange>> := Empty();
    for i := 0 to |containing|
      invariant OutgoingSites(w, filename, offset, containing[..i]).Ok?
      invariant res == AddAll(Empty(), OutgoingSites(w, filename, offset, containing[..i]).value)
    {
      FlattenStep(containing, i, p => OutgoingAnalysis(w, filename, offset, p));
      var (analysis, comp) := containing[i];
      var next := AddObjectCallees(w, comp, w.offsetToObjects(analysis, filename, offset), res);
      if next.Err? {
        FlattenPrefixFails(containing, i + 1, p => OutgoingAnalysis(w, filename, offset, p));
        return Err(next.error);
      }
      AddAllConcat(Empty(), OutgoingSites(w, filename, offset, containing[..i]).value,
                   OutgoingAnalysis(w, filename, offset, containing[i]).value);
      res := next.value;
    }
    assert containing[..|containing|] == containing;
    return Ok(Grouped(res, ls.helpers.toUri));
  }

  /** The loop over the objects at the target: the callees of each function. */
  method AddObjectCallees(w: Slither, comp: Compilation, objects: seq<ObjId>, before: Dict<CallItem, set<PosRange>>)
    returns (r: Result<Dict<CallItem, set<PosRange>>>)
    requires Valid(before)
    ensures r == Added(before, Flatten(objects, id => CalleesOf(w, comp, id)))
  {
    var res := before;
    for j := 0 to |objects|
      invariant Flatten(objects[..j], id => CalleesOf(w, comp, id)).Ok?
      invariant res == AddAll(before, Flatten(objects[..j], id => CalleesOf(w, comp, id)).value)
    {
      FlattenStep(objects, j, id => CalleesOf(w, comp, id));
      var id := objects[j];
      if !IsFunction(w, id) {
        assert Flatten(objects[..j], id => CalleesOf(w, comp, id)).value + [] == Flatten(objects[..j], id => CalleesOf(w, comp, id)).value;
        continue;
      }
      var next := AddCallees(w, comp, Operations(w, id), res);
      if next.Err? {
        FlattenPrefixFails(objects, j + 1, id => CalleesOf(w, comp, id));
        return Err(next.error);
      }
      AddAllConcat(before, Flatten(objects[..j], id => CalleesOf(w, comp, id)).value, CalleesOf(w, comp, id).value);
      res := next.value;
    }
    assert objects[..|objects|] == objects;
    return Ok(res);
  }

  /**
   * The loop over one function's operations: each call op to a function adds
   * the callee's item and the call's range. The source first lists the call
   * ops and then skips those whose callee is not a function; the one loop
   * here does both.
   */
  method AddCallees(w: Slither, comp: Compilation, ops: seq<Op>, before: Dict<CallItem, set<PosRange>>)
    returns (r: Result<Dict<CallItem, set<PosRange>>>)
    requires Valid(before)
    ensures r == Added(before, Collect(ops, op => Callee(w, comp, op)))
  {
    var res := before;
    for k := 0 to |ops|
      invariant Collect(ops[..k], op => Callee(w, comp, op)).Ok?
      invariant res == AddAll(before, Collect(ops[..k], op => Callee(w, comp, op)).value)
    {
      CollectStep(ops, k, op => Callee(w, comp, op));
      var op := ops[k];
      if !IsCallOp(op) || !IsFunction(w, op.callee) {
        continue;
      }
      var site := CallSite(w, op.callee, op, comp);
      if site.Err? {
        CollectPrefixFails(ops, k + 1, op => Callee(w, comp, op));
        return Err(site.error);
      }
      AddAllSnoc(before, Collect(ops[..k], op => Callee(w, comp, op)).value, site.value);
      res := AddTo(res, site.value.0, site.value.1);
    }
    assert ops[..|ops|] == ops;
    return Ok(res);
  }

  /** `on_get_incoming_calls`. */
  method OnIncomingCalls(ls: SlitherServer.Server, w: Slither, item: HierarchyItem) returns (r: Result<seq<HierarchyCall>>)
    requires ls.Valid()
    ensures r == Incoming(w, item.data, ls.Analyses(), ls.helpers.toUri)
  {
    var target := ItemTarget(item.data);
    if target.Err? {
      return Err(target.error);
    }
    var (filename, offset) := target.value;
    var referenced := Referenced(w, filename, offset, ls.AnalysesContaining(filename, w));
    var calls := Calls(w, ls.Analyses());
    var res: Dict<CallItem, set<PosRange>> := Empty();
    for i := 0 to |referenced|
      invariant IncomingSites(w, referenced[..i], calls).Ok?
      invariant res == AddAll(Empty(), IncomingSites(w, referenced[..i], calls).value)
    {
      FlattenStep(referenced, i, func => Collect(calls, call => Caller(w, func, call)));
      var next := AddCallers(w, referenced[i], calls, res);
      if next.Err? {
        FlattenPrefixFails(referenced, i + 1, func => Collect(calls, call => Caller(w, func, call)));
        return Err(next.error);
      }
      AddAllConcat(Empty(), IncomingSites(w, referenced[..i], calls).value, Collect(calls, call => Caller(w, referenced[i], call)).value);
      res := next.value;
    }
    assert referenced[..|referenced|] == referenced;
    return Ok(Grouped(res, ls.helpers.toUri));
  }

  /** The loop over the calls for one referenced function: each call to it adds the caller's item and the call's range. */
  method AddCallers(w: Slither, func: ObjId, calls: seq<(ObjId, Op, Compilation)>, before: Dict<CallItem, set<PosRange>>)
    returns (r: Result<Dict<CallItem, set<PosRange>>>)
    requires Valid(before)
    ensures r == Added(before, Collect(calls, call => Caller(w, func, call)))
  {
    var res := before;
    for k := 0 to |calls|
      invariant Collect(calls[..k], call => Caller(w, func, call)).Ok?
      invariant res == AddAll(before, Collect(calls[..k], call => Caller(w, func, call)).value)
    {
      CollectStep(calls, k, call => Caller(w, func, call));
      var (callFrom, call, callComp) := calls[k];
      if call.callee != func {
        continue;
      }
      var site := CallSite(w, callFrom, call, callComp);
      if site.Err? {
        CollectPrefixFails(calls, k + 1, call => Caller(w, func, call));
        return Err(site.error);
      }
      AddAllSnoc(before, Collect(calls[..k], call => Caller(w, func, call)).value, site.value);
      res := AddTo(res, site.value.0, site.value.1);
    }
    assert calls[..|calls|] == calls;
    return Ok(res);
  }
}
