/**
 * The legacy hand-written codecs (slither_lsp/types). Every class gives its
 * own `_init_args_from_dict` hook, which fills the dict of constructor
 * arguments in place, and its own `to_dict` hook, which writes keys into a
 * result dict. Each hook is a straight-line program over a handful of
 * statement shapes, so a class is described here by its dataclass fields and
 * the statements of its two hooks, and the base class's `from_dict` and the
 * hooks are run by the methods below, each proved against a function over
 * values.
 */
module LegacyCodec {
  import opened Values
  import opened PyInts

  /** One statement of an `_init_args_from_dict` hook: it sets `init_args[field]` from `source_dict`. */
  datatype ReadStep =
      /** `source_dict.get(key)`. */
    | Copy(field: string, key: string)
      /** `source_dict[key]`. */
    | Subscript(field: string, key: string)
      /** `cls.from_dict(v)` for `v = source_dict.get(key)` when it is not None, else `v`. */
    | Nested(field: string, key: string, cls: string)
      /** The same, but only when `v` is also a dict. */
    | NestedIfDict(field: string, key: string, cls: string)
      /** `cls.from_dict(source_dict.get(key))`, whatever the value. */
    | NestedAlways(field: string, key: string, cls: string)
      /** `enum(v)` when `v` is a str, else `v`; `members` are the enum's values. */
    | EnumIfStr(field: string, key: string, enum: string, members: seq<string>)
      /** `enum(source_dict.get(key))`, whatever the value. */
    | EnumAlways(field: string, key: string, enum: string, members: seq<string>)
      /** `[cls.from_dict(x) for x in v]` when `v` is a list, else `v`. */
    | NestedList(field: string, key: string, cls: string)

  /** One statement of a `to_dict` hook: it may write `result[key]` from `self.field`. */
  datatype WriteStep =
      /** Writes the attribute when it is not None. */
    | PutIfSet(key: string, field: string)
      /** Writes the attribute. */
    | Put(key: string, field: string)
      /** Writes `int(self.field)`. */
    | PutInt(key: string, field: string)
      /** Writes `self.field.to_dict()`. */
    | PutNested(key: string, field: string)
      /** Writes `self.field.to_dict()` when the attribute is not None. */
    | PutNestedIfSet(key: string, field: string)
      /** Writes `[x.to_dict() for x in self.field]` when the attribute is a list. */
    | PutEach(key: string, field: string)

  /** How a `to_dict` hook picks the dict it writes into. */
  datatype ResultDict =
      /** `result if result is not None else {}`. */
    | FreshIfNone
      /** `result or {}`: a given empty dict is replaced by a fresh one too. */
    | FreshIfFalsy
      /** `result` as passed, so that None makes the first write raise TypeError. */
    | AsGiven

  datatype LegacyField = LegacyField(name: string, default: Option<Value>)

  /**
   * A legacy dataclass: its fields in declaration order and the statements of
   * its hooks; a hook that is None is the base class's, which raises
   * NotImplementedError.
   */
  datatype LegacyClass = LegacyClass(
    fields: seq<LegacyField>,
    read: Option<seq<ReadStep>>,
    write: Option<seq<WriteStep>>,
    resultDict: ResultDict)

  type LegacySchema = map<string, LegacyClass>

  /** A class the schema does not describe overrides neither hook. */
  function HooksOf(schema: LegacySchema, cls: string): LegacyClass
  {
    if cls in schema then schema[cls] else LegacyClass([], None, None, FreshIfNone)
  }

  // ---------------------------------------------------------------------------
  // Construction: `cls(**init_args)`.

  function FieldNames(fields: seq<LegacyField>): set<string>
  {
    set i | 0 <= i < |fields| :: fields[i].name
  }

  lemma FieldNamesCons(fields: seq<LegacyField>)
    requires fields != []
    ensures FieldNames(fields) == {fields[0].name} + FieldNames(fields[1..])
  {
    forall n | n in FieldNames(fields) ensures n in {fields[0].name} + FieldNames(fields[1..]) {
      var i :| 0 <= i < |fields| && fields[i].name == n;
      if i > 0 {
        assert fields[1..][i - 1] == fields[i];
      }
    }
    forall n | n in FieldNames(fields[1..]) ensures n in FieldNames(fields) {
      var i :| 0 <= i < |fields[1..]| && fields[1..][i].name == n;
      assert fields[i + 1] == fields[1..][i];
    }
  }

  /**
   * The attributes `__init__` gives the dataclass: each field's argument, else
   * its default; a field with neither raises TypeError.
   */
  function Fill(fields: seq<LegacyField>, args: map<string, Value>): (r: Result<map<string, Value>>)
    ensures r.Ok? <==> forall i :: 0 <= i < |fields| ==> fields[i].name in args || fields[i].default.Some?
    ensures r.Ok? ==> r.value.Keys == FieldNames(fields)
    ensures r.Ok? ==> forall k :: k in args && k in r.value ==> r.value[k] == args[k]
    ensures r.Err? ==> r.error == TypeError
  {
    if fields == [] then Ok(map[])
    else
      FieldNamesCons(fields);
      var rest := Fill(fields[1..], args);
      var f := fields[0];
      if rest.Err? then rest
      else if f.name in args then Ok(rest.value[f.name := args[f.name]])
      else if f.default.Some? then Ok(rest.value[f.name := f.default.value])
      else Err(TypeError)
  }

  /** `cls(**args)`: an argument that names no field, or a missing required one, raises TypeError. */
  function Construct(cls: string, decl: LegacyClass, args: map<string, Value>): Result<Value>
  {
    if !(args.Keys <= FieldNames(decl.fields)) then Err(TypeError)
    else
      var attributes :- Fill(decl.fields, args);
      Ok(VObj(cls, attributes))
  }

  /** Keyword construction with an argument for every field, and no other, sets exactly those attributes. */
  lemma ConstructWithAll(cls: string, decl: LegacyClass, args: map<string, Value>)
    requires args.Keys == FieldNames(decl.fields)
    ensures Construct(cls, decl, args) == Ok(VObj(cls, args))
  {
    var f := Fill(decl.fields, args);
    assert forall i :: 0 <= i < |decl.fields| ==> decl.fields[i].name in FieldNames(decl.fields);
    assert f.Ok?;
    assert f.value == args;
  }

  // ---------------------------------------------------------------------------
  // Parsing, as functions over values.

  /** Orders None below every other value, so that `cls.from_dict(None)` may be called from anywhere. */
  function Nullness(v: Value): nat { if v == VNone then 0 else 1 }

  /** `enum(v)`: the member whose value is `v` (or `v` itself when it is one), else ValueError. */
  function EnumOf(enum: string, members: seq<string>, v: Value): (r: Result<Value>)
    ensures r.Ok? <==> (v.VStr? && v.s in members) || (v.VEnum? && v.enum == enum && v.member.VStr? && v.member.s in members)
    ensures r.Ok? ==> r.value.VEnum? && r.value.enum == enum && (v.VStr? ==> r.value.member == v)
    ensures r.Err? ==> r.error == ValueError
  {
    if v.VStr? && v.s in members then Ok(VEnum(enum, v))
    else if v.VEnum? && v.enum == enum && v.member.VStr? && v.member.s in members then Ok(v)
    else Err(ValueError)
  }

  /** `cls.from_dict(v)`: the instance, or the exception raised on the way. */
  function FromDictOf(schema: LegacySchema, cls: string, v: Value): Result<Value>
    decreases Nullness(v), v, 2, 0
  {
    var decl := HooksOf(schema, cls);
    if decl.read.None? then Err(NotImplementedError)
    else
      var args :- ReadAll(schema, v, decl.read.value, map[]);
      Construct(cls, decl, args)
  }

  /**
   * The statements `steps` run in order on `init_args` holding `acc`. Each
   * statement reads `source` with `.get` (AttributeError unless a dict) or with
   * `[...]` (TypeError unless a dict).
   */
  function ReadAll(schema: LegacySchema, source: Value, steps: seq<ReadStep>, acc: map<string, Value>)
    : Result<map<string, Value>>
    decreases Nullness(source), source, 1, |steps|
  {
    if steps == [] then Ok(acc)
    else if !source.VDict? then Err(if steps[0].Subscript? then TypeError else AttributeError)
    else
      var v :- ReadValue(schema, source, steps[0]);
      ReadAll(schema, source, steps[1..], acc[steps[0].field := v])
  }

  /** The value one statement stores for its field. */
  function ReadValue(schema: LegacySchema, source: Value, step: ReadStep): Result<Value>
    requires source.VDict?
    decreases Nullness(source), source, 0, 0
  {
    var v := DictGet(source.entries, step.key);
    match step
    case Copy(_, _) => Ok(v)
    case Subscript(_, key) => Index(source, key)
    case Nested(_, _, cls) => if v == VNone then Ok(v) else FromDictOf(schema, cls, v)
    case NestedIfDict(_, _, cls) => if v.VDict? then FromDictOf(schema, cls, v) else Ok(v)
    case NestedAlways(_, _, cls) => FromDictOf(schema, cls, v)
    case EnumIfStr(_, _, enum, members) => if v.VStr? then EnumOf(enum, members, v) else Ok(v)
    case EnumAlways(_, _, enum, members) => EnumOf(enum, members, v)
    case NestedList(_, _, cls) =>
      if v.VList? then
        var items :- FromDictEach(schema, cls, v, 0, []);
        Ok(VList(items))
      else Ok(v)
  }

  /** The comprehension `[cls.from_dict(x) for x in list]` from the `i`th item on, after `acc`. */
  function FromDictEach(schema: LegacySchema, cls: string, list: Value, i: nat, acc: seq<Value>): Result<seq<Value>>
    requires list.VList? && i <= |list.items|
    decreases Nullness(list), list, 3, |list.items| - i
  {
    if i == |list.items| then Ok(acc)
    else
      var item :- FromDictOf(schema, cls, list.items[i]);
      FromDictEach(schema, cls, list, i + 1, acc + [item])
  }

  // ---------------------------------------------------------------------------
  // Writing, as functions over values.

  /**
   * The dict a `to_dict` call ends with: the contents of the dict it wrote
   * into (the given one untouched when it raised before writing), and the
   * exception it raised, if any.
   */
  datatype Written = Written(entries: map<string, Value>, error: Option<PyError>)

  /** The contents the hook starts writing into, or None when it has no dict to write into. */
  function Start(policy: ResultDict, given: Option<map<string, Value>>): Option<map<string, Value>>
  {
    match policy
    case FreshIfNone => Some(if given.Some? then given.value else map[])
    case FreshIfFalsy => Some(if given.Some? && given.value != map[] then given.value else map[])
    case AsGiven => given
  }

  /** Whether the hook writes into the dict it was given rather than a new one. */
  predicate IntoGiven(policy: ResultDict, given: Option<map<string, Value>>)
  {
    given.Some? && (policy == FreshIfFalsy ==> given.value != map[])
  }

  /** The policy of the class of `obj`. */
  function PolicyOf(schema: LegacySchema, obj: Value): ResultDict
  {
    if obj.VObj? then HooksOf(schema, obj.cls).resultDict else FreshIfNone
  }

  /** `obj.to_dict(result)`, with `given` the contents of `result` when one is passed. */
  function ToDictOf(schema: LegacySchema, obj: Value, given: Option<map<string, Value>>): Written
    decreases obj, 2, 0
  {
    var untouched := if given.Some? then given.value else map[];
    if !obj.VObj? then Written(untouched, Some(AttributeError))
    else
      var decl := HooksOf(schema, obj.cls);
      if decl.write.None? then Written(untouched, Some(NotImplementedError))
      else
        var start := Start(decl.resultDict, given);
        if start.None? then Written(untouched, Some(TypeError))
        else WriteAll(schema, obj, decl.write.value, start.value)
  }

  /** The statements `steps` run in order on a result dict holding `acc`. */
  function WriteAll(schema: LegacySchema, obj: Value, steps: seq<WriteStep>, acc: map<string, Value>): Written
    requires obj.VObj?
    decreases obj, 1, |steps|
  {
    if steps == [] then Written(acc, None)
    else
      var w := WriteValue(schema, obj, steps[0]);
      if w.Err? then Written(acc, Some(w.error))
      else WriteAll(schema, obj, steps[1..], if w.value.Some? then acc[steps[0].key := w.value.value] else acc)
  }

  /** What one statement writes under its key: Some value, None for nothing, or the exception. */
  function WriteValue(schema: LegacySchema, obj: Value, step: WriteStep): Result<Option<Value>>
    requires obj.VObj?
    decreases obj, 0, 0
  {
    if step.field !in obj.args then Err(AttributeError)
    else
      var v := obj.args[step.field];
      match step
      case PutIfSet(_, _) => Ok(if v == VNone then None else Some(v))
      case Put(_, _) => Ok(Some(v))
      case PutInt(_, _) => var i :- PyInt(v); Ok(Some(VInt(i)))
      case PutNested(_, _) => var d :- NestedToDict(schema, v); Ok(Some(d))
      case PutNestedIfSet(_, _) =>
        if v == VNone then Ok(None) else var d :- NestedToDict(schema, v); Ok(Some(d))
      case PutEach(_, _) =>
        if v.VList? then var ds :- ToDictEach(schema, v, 0, []); Ok(Some(VList(ds))) else Ok(None)
  }

  /** `v.to_dict()`: the dict it returns, or its exception. */
  function NestedToDict(schema: LegacySchema, v: Value): Result<Value>
    decreases v, 3, 0
  {
    var w := ToDictOf(schema, v, None);
    if w.error.Some? then Err(w.error.value) else Ok(VDict(w.entries))
  }

  /** The comprehension `[x.to_dict() for x in list]` from the `i`th item on, after `acc`. */
  function ToDictEach(schema: LegacySchema, list: Value, i: nat, acc: seq<Value>): Result<seq<Value>>
    requires list.VList? && i <= |list.items|
    decreases list, 4, |list.items| - i
  {
    if i == |list.items| then Ok(acc)
    else
      var d :- NestedToDict(schema, list.items[i]);
      ToDictEach(schema, list, i + 1, acc + [d])
  }

  /** The parsing comprehension succeeds exactly when every item parses. */
  lemma {:induction false} FromDictEachSucceeds(
    schema: LegacySchema, cls: string, list: Value, i: nat, acc: seq<Value>)
    requires list.VList? && i <= |list.items|
    ensures FromDictEach(schema, cls, list, i, acc).Ok? <==>
              forall j :: i <= j < |list.items| ==> FromDictOf(schema, cls, list.items[j]).Ok?
    decreases |list.items| - i
  {
    if i < |list.items| {
      var item := FromDictOf(schema, cls, list.items[i]);
      if item.Ok? {
        FromDictEachSucceeds(schema, cls, list, i + 1, acc + [item.value]);
      }
    }
  }

  /** A successful parsing comprehension keeps what it had and adds one result per item. */
  lemma {:induction false} FromDictEachLength(
    schema: LegacySchema, cls: string, list: Value, i: nat, acc: seq<Value>)
    requires list.VList? && i <= |list.items|
    requires FromDictEach(schema, cls, list, i, acc).Ok?
    ensures var r := FromDictEach(schema, cls, list, i, acc).value;
            |r| == |acc| + |list.items| - i && r[..|acc|] == acc
    decreases |list.items| - i
  {
    if i < |list.items| {
      var item := FromDictOf(schema, cls, list.items[i]);
      var acc' := acc + [item.value];
      var r := FromDictEach(schema, cls, list, i, acc);
      assert r == FromDictEach(schema, cls, list, i + 1, acc');
      FromDictEachLength(schema, cls, list, i + 1, acc');
      assert r.value[..|acc|] == r.value[..|acc'|][..|acc|];
    }
  }

  /** Each item's place in a successful parsing comprehension holds that item's own result. */
  lemma {:induction false} FromDictEachItem(
    schema: LegacySchema, cls: string, list: Value, i: nat, acc: seq<Value>, j: nat)
    requires list.VList? && i <= j < |list.items|
    requires FromDictEach(schema, cls, list, i, acc).Ok?
    ensures var r := FromDictEach(schema, cls, list, i, acc).value;
            |acc| + j - i < |r| && FromDictOf(schema, cls, list.items[j]) == Ok(r[|acc| + j - i])
    decreases |list.items| - i
  {
    var item := FromDictOf(schema, cls, list.items[i]);
    var acc' := acc + [item.value];
    var r := FromDictEach(schema, cls, list, i, acc);
    assert r == FromDictEach(schema, cls, list, i + 1, acc');
    FromDictEachLength(schema, cls, list, i + 1, acc');
    if j == i {
      assert r.value[..|acc'|][|acc|] == item.value;
    } else {
      FromDictEachItem(schema, cls, list, i + 1, acc', j);
    }
  }

  /** A failing comprehension raises the exception of its first failing item. */
  lemma {:induction false} FromDictEachFirstError(
    schema: LegacySchema, cls: string, list: Value, i: nat, acc: seq<Value>)
    requires list.VList? && i <= |list.items|
    ensures var r := FromDictEach(schema, cls, list, i, acc);
            r.Err? ==> exists j :: i <= j < |list.items| && FromDictOf(schema, cls, list.items[j]) == Err(r.error) &&
                          forall l :: i <= l < j ==> FromDictOf(schema, cls, list.items[l]).Ok?
    decreases |list.items| - i
  {
    if i < |list.items| {
      var item := FromDictOf(schema, cls, list.items[i]);
      if item.Ok? {
        var acc' := acc + [item.value];
        var r := FromDictEach(schema, cls, list, i, acc);
        assert r == FromDictEach(schema, cls, list, i + 1, acc');
        FromDictEachFirstError(schema, cls, list, i + 1, acc');
        if r.Err? {
          var j :| i + 1 <= j < |list.items| && FromDictOf(schema, cls, list.items[j]) == Err(r.error) &&
                   forall l :: i + 1 <= l < j ==> FromDictOf(schema, cls, list.items[l]).Ok?;
          assert forall l :: i <= l < j ==> FromDictOf(schema, cls, list.items[l]).Ok?;
        }
      } else {
        assert FromDictEach(schema, cls, list, i, acc) == Err(item.error);
      }
    }
  }

  /** The writing comprehension succeeds exactly when every item writes. */
  lemma {:induction false} ToDictEachSucceeds(schema: LegacySchema, list: Value, i: nat, acc: seq<Value>)
    requires list.VList? && i <= |list.items|
    ensures ToDictEach(schema, list, i, acc).Ok? <==>
              forall j :: i <= j < |list.items| ==> NestedToDict(schema, list.items[j]).Ok?
    decreases |list.items| - i
  {
    if i < |list.items| {
      var d := NestedToDict(schema, list.items[i]);
      if d.Ok? {
        ToDictEachSucceeds(schema, list, i + 1, acc + [d.value]);
      }
    }
  }

  /** A successful writing comprehension keeps what it had and adds one dict per item. */
  lemma {:induction false} ToDictEachLength(schema: LegacySchema, list: Value, i: nat, acc: seq<Value>)
    requires list.VList? && i <= |list.items|
    requires ToDictEach(schema, list, i, acc).Ok?
    ensures var r := ToDictEach(schema, list, i, acc).value;
            |r| == |acc| + |list.items| - i && r[..|acc|] == acc
    decreases |list.items| - i
  {
    if i < |list.items| {
      var d := NestedToDict(schema, list.items[i]);
      var acc' := acc + [d.value];
      var r := ToDictEach(schema, list, i, acc);
      assert r == ToDictEach(schema, list, i + 1, acc');
      ToDictEachLength(schema, list, i + 1, acc');
      assert r.value[..|acc|] == r.value[..|acc'|][..|acc|];
    }
  }

  /** Each item's place in a successful writing comprehension holds that item's own dict. */
  lemma {:induction false} ToDictEachItem(schema: LegacySchema, list: Value, i: nat, acc: seq<Value>, j: nat)
    requires list.VList? && i <= j < |list.items|
    requires ToDictEach(schema, list, i, acc).Ok?
    ensures var r := ToDictEach(schema, list, i, acc).value;
            |acc| + j - i < |r| && NestedToDict(schema, list.items[j]) == Ok(r[|acc| + j - i])
    decreases |list.items| - i
  {
    var d := NestedToDict(schema, list.items[i]);
    var acc' := acc + [d.value];
    var r := ToDictEach(schema, list, i, acc);
    assert r == ToDictEach(schema, list, i + 1, acc');
    ToDictEachLength(schema, list, i + 1, acc');
    if j == i {
      assert r.value[..|acc'|][|acc|] == d.value;
    } else {
      ToDictEachItem(schema, list, i + 1, acc', j);
    }
  }

  /** A failing writing comprehension raises the exception of its first failing item. */
  lemma {:induction false} ToDictEachFirstError(schema: LegacySchema, list: Value, i: nat, acc: seq<Value>)
    requires list.VList? && i <= |list.items|
    ensures var r := ToDictEach(schema, list, i, acc);
            r.Err? ==> exists j :: i <= j < |list.items| && NestedToDict(schema, list.items[j]) == Err(r.error) &&
                          forall l :: i <= l < j ==> NestedToDict(schema, list.items[l]).Ok?
    decreases |list.items| - i
  {
    if i < |list.items| {
      var d := NestedToDict(schema, list.items[i]);
      if d.Ok? {
        var acc' := acc + [d.value];
        var r := ToDictEach(schema, list, i, acc);
        assert r == ToDictEach(schema, list, i + 1, acc');
        ToDictEachFirstError(schema, list, i + 1, acc');
        if r.Err? {
          var j :| i + 1 <= j < |list.items| && NestedToDict(schema, list.items[j]) == Err(r.error) &&
                   forall l :: i + 1 <= l < j ==> NestedToDict(schema, list.items[l]).Ok?;
          assert forall l :: i <= l < j ==> NestedToDict(schema, list.items[l]).Ok?;
        }
      } else {
        assert ToDictEach(schema, list, i, acc) == Err(d.error);
      }
    }
  }

  /** Running two blocks of statements in a row is running the second on what the first stored, unless it raised. */
  lemma {:induction false} ReadAllConcat(
    schema: LegacySchema, source: Value, first: seq<ReadStep>, second: seq<ReadStep>, acc: map<string, Value>)
    ensures ReadAll(schema, source, first + second, acc) ==
            match ReadAll(schema, source, first, acc)
            case Ok(m) => ReadAll(schema, source, second, m)
            case Err(e) => Err(e)
    decreases |first|
  {
    if first == [] {
      assert first + second == second;
    } else {
      var steps := first + second;
      assert steps[0] == first[0];
      assert steps[1..] == first[1..] + second;
      if source.VDict? {
        var v := ReadValue(schema, source, first[0]);
        if v.Ok? {
          ReadAllConcat(schema, source, first[1..], second, acc[first[0].field := v.value]);
        }
      }
    }
  }

  /** A statement that stores `v` for its field, and the rest run after it. */
  lemma ReadStepOk(schema: LegacySchema, source: Value, steps: seq<ReadStep>, acc: map<string, Value>, v: Value)
    requires source.VDict? && steps != [] && ReadValue(schema, source, steps[0]) == Ok(v)
    ensures ReadAll(schema, source, steps, acc) == ReadAll(schema, source, steps[1..], acc[steps[0].field := v])
  {
  }

  /** A statement that raises ends the hook with its exception. */
  lemma ReadStepErr(schema: LegacySchema, source: Value, steps: seq<ReadStep>, acc: map<string, Value>, e: PyError)
    requires source.VDict? && steps != [] && ReadValue(schema, source, steps[0]) == Err(e)
    ensures ReadAll(schema, source, steps, acc) == Err(e)
  {
  }

  /** Once the statements are done, the arguments are what they stored. */
  lemma ReadDone(schema: LegacySchema, source: Value, steps: seq<ReadStep>, acc: map<string, Value>)
    requires steps == []
    ensures ReadAll(schema, source, steps, acc) == Ok(acc)
  {
  }

  /** `m` with `m[k] = v` done only when `v` is not None. */
  function SetUnlessNone(m: map<string, Value>, k: string, v: Value): map<string, Value>
  {
    if v == VNone then m else m[k := v]
  }

  /** A `PutIfSet` statement writes its attribute unless it is None, and the rest run after it. */
  lemma WriteIfSetStep(schema: LegacySchema, obj: Value, steps: seq<WriteStep>, acc: map<string, Value>)
    requires obj.VObj? && steps != [] && steps[0].PutIfSet? && steps[0].field in obj.args
    ensures WriteAll(schema, obj, steps, acc) ==
            WriteAll(schema, obj, steps[1..], SetUnlessNone(acc, steps[0].key, obj.args[steps[0].field]))
  {
  }

  /** A `Put` statement writes its attribute, and the rest run after it. */
  lemma WritePutStep(schema: LegacySchema, obj: Value, steps: seq<WriteStep>, acc: map<string, Value>)
    requires obj.VObj? && steps != [] && steps[0].Put? && steps[0].field in obj.args
    ensures WriteAll(schema, obj, steps, acc) ==
            WriteAll(schema, obj, steps[1..], acc[steps[0].key := obj.args[steps[0].field]])
  {
  }

  /** A `PutNestedIfSet` statement whose attribute writes without raising. */
  lemma WriteNestedIfSetStep(schema: LegacySchema, obj: Value, steps: seq<WriteStep>, acc: map<string, Value>)
    requires obj.VObj? && steps != [] && steps[0].PutNestedIfSet? && steps[0].field in obj.args
    requires var v := obj.args[steps[0].field]; v == VNone || NestedToDict(schema, v).Ok?
    ensures var v := obj.args[steps[0].field];
            WriteAll(schema, obj, steps, acc) ==
            WriteAll(schema, obj, steps[1..], SetUnlessNone(acc, steps[0].key,
                                                            if v == VNone then VNone else NestedToDict(schema, v).value))
  {
    var v := obj.args[steps[0].field];
    if v != VNone {
      assert WriteValue(schema, obj, steps[0]) == Ok(Some(NestedToDict(schema, v).value));
    }
  }

  /** A statement that writes `w` (Some value, or None for nothing), and the rest run after it. */
  lemma WriteStepOk(schema: LegacySchema, obj: Value, steps: seq<WriteStep>, acc: map<string, Value>, w: Option<Value>)
    requires obj.VObj? && steps != [] && WriteValue(schema, obj, steps[0]) == Ok(w)
    ensures WriteAll(schema, obj, steps, acc) ==
            WriteAll(schema, obj, steps[1..], if w.Some? then acc[steps[0].key := w.value] else acc)
  {
  }

  /** A statement that raises ends the hook, with what was written before it. */
  lemma WriteStepErr(schema: LegacySchema, obj: Value, steps: seq<WriteStep>, acc: map<string, Value>, e: PyError)
    requires obj.VObj? && steps != [] && WriteValue(schema, obj, steps[0]) == Err(e)
    ensures WriteAll(schema, obj, steps, acc) == Written(acc, Some(e))
  {
  }

  /** Once the statements are done, the dict is what they wrote. */
  lemma WriteDone(schema: LegacySchema, obj: Value, steps: seq<WriteStep>, acc: map<string, Value>)
    requires obj.VObj? && steps == []
    ensures WriteAll(schema, obj, steps, acc) == Written(acc, None)
  {
  }

  /** `cls.from_dict(obj.to_dict())` succeeds and gives `obj` back. */
  predicate RoundTrips(schema: LegacySchema, cls: string, obj: Value)
  {
    var w := ToDictOf(schema, obj, None);
    w.error.None? && FromDictOf(schema, cls, VDict(w.entries)) == Ok(obj)
  }

  /** A list of objects that each round-trip: parsing the list of their dicts gives the list back. */
  lemma EachRoundTrip(schema: LegacySchema, cls: string, list: Value)
    requires list.VList?
    requires forall j :: 0 <= j < |list.items| ==> RoundTrips(schema, cls, list.items[j])
    ensures ToDictEach(schema, list, 0, []).Ok?
    ensures FromDictEach(schema, cls, VList(ToDictEach(schema, list, 0, []).value), 0, []) == Ok(list.items)
  {
    EachWritten(schema, cls, list);
    EachParsed(schema, cls, ToDictEach(schema, list, 0, []).value, list.items);
  }

  /** Each object of the list is written as a dict that parses back to it. */
  lemma EachWritten(schema: LegacySchema, cls: string, list: Value)
    requires list.VList?
    requires forall j :: 0 <= j < |list.items| ==> RoundTrips(schema, cls, list.items[j])
    ensures ToDictEach(schema, list, 0, []).Ok?
    ensures var ds := ToDictEach(schema, list, 0, []).value;
            |ds| == |list.items| && forall j :: 0 <= j < |ds| ==> FromDictOf(schema, cls, ds[j]) == Ok(list.items[j])
  {
    ToDictEachSucceeds(schema, list, 0, []);
    var ds := ToDictEach(schema, list, 0, []).value;
    ToDictEachLength(schema, list, 0, []);
    forall j | 0 <= j < |ds| ensures FromDictOf(schema, cls, ds[j]) == Ok(list.items[j]) {
      ToDictEachItem(schema, list, 0, [], j);
    }
  }

  /** Dicts that each parse to their object parse, as a list, to the list of those objects. */
  lemma EachParsed(schema: LegacySchema, cls: string, ds: seq<Value>, items: seq<Value>)
    requires |ds| == |items|
    requires forall j :: 0 <= j < |ds| ==> FromDictOf(schema, cls, ds[j]) == Ok(items[j])
    ensures FromDictEach(schema, cls, VList(ds), 0, []) == Ok(items)
  {
    var dicts := VList(ds);
    FromDictEachSucceeds(schema, cls, dicts, 0, []);
    var back := FromDictEach(schema, cls, dicts, 0, []).value;
    FromDictEachLength(schema, cls, dicts, 0, []);
    forall j | 0 <= j < |ds| ensures back[j] == items[j] {
      FromDictEachItem(schema, cls, dicts, 0, [], j);
    }
    assert back == items;
  }

  // ---------------------------------------------------------------------------
  // The hooks as they run: on a mutable dict.

  /** A Python dict with str keys, updated in place. */
  class PyDict {
    var entries: map<string, Value>

    constructor (entries: map<string, Value>)
      ensures this.entries == entries
    {
      this.entries := entries;
    }
  }

  /** The base class's `from_dict`: a fresh `init_args` dict, filled by the hook, then the construction. */
  method FromDict(schema: LegacySchema, cls: string, source: Value) returns (r: Result<Value>)
    ensures r == FromDictOf(schema, cls, source)
    decreases Nullness(source), source, 2, 0
  {
    var decl := HooksOf(schema, cls);
    if decl.read.None? {
      return Err(NotImplementedError);
    }
    var initArgs := new PyDict(map[]);
    var error := InitArgsFromDict(schema, decl.read.value, initArgs, source);
    if error.Some? {
      return Err(error.value);
    }
    r := Construct(cls, decl, initArgs.entries);
  }

  /** A hook `_init_args_from_dict(init_args, source_dict)`: its statements, run on `initArgs`. */
  method InitArgsFromDict(schema: LegacySchema, steps: seq<ReadStep>, initArgs: PyDict, source: Value)
    returns (error: Option<PyError>)
    modifies initArgs
    decreases Nullness(source), source, 1, 0
    ensures var r := ReadAll(schema, source, steps, old(initArgs.entries));
            if r.Ok? then error.None? && initArgs.entries == r.value else error == Some(r.error)
  {
    var i := 0;
    while i < |steps|
      invariant 0 <= i <= |steps|
      invariant ReadAll(schema, source, steps, old(initArgs.entries)) ==
                ReadAll(schema, source, steps[i..], initArgs.entries)
    {
      assert steps[i..][0] == steps[i] && steps[i..][1..] == steps[i + 1..];
      if !source.VDict? {
        return Some(if steps[i].Subscript? then TypeError else AttributeError);
      }
      var v := ReadStepValue(schema, source, steps[i]);
      if v.Err? {
        return Some(v.error);
      }
      initArgs.entries := initArgs.entries[steps[i].field := v.value];
      i := i + 1;
    }
    assert steps[i..] == [];
    return None;
  }

  /** One statement of a hook: the value it stores. */
  method ReadStepValue(schema: LegacySchema, source: Value, step: ReadStep) returns (r: Result<Value>)
    requires source.VDict?
    ensures r == ReadValue(schema, source, step)
    decreases Nullness(source), source, 0, 0
  {
    var v := DictGet(source.entries, step.key);
    match step
    case Copy(_, _) =>
      r := Ok(v);
    case Subscript(_, key) =>
      r := Index(source, key);
    case Nested(_, _, cls) =>
      if v == VNone {
        r := Ok(v);
      } else {
        r := FromDict(schema, cls, v);
      }
    case NestedIfDict(_, _, cls) =>
      if v.VDict? {
        r := FromDict(schema, cls, v);
      } else {
        r := Ok(v);
      }
    case NestedAlways(_, _, cls) =>
      r := FromDict(schema, cls, v);
    case EnumIfStr(_, _, enum, members) =>
      r := if v.VStr? then EnumOf(enum, members, v) else Ok(v);
    case EnumAlways(_, _, enum, members) =>
      r := EnumOf(enum, members, v);
    case NestedList(_, _, cls) =>
      if v.VList? {
        var items := FromDictList(schema, cls, v);
        r := if items.Err? then Err(items.error) else Ok(VList(items.value));
      } else {
        r := Ok(v);
      }
  }

  /** `[cls.from_dict(x) for x in list]`. */
  method FromDictList(schema: LegacySchema, cls: string, list: Value) returns (r: Result<seq<Value>>)
    requires list.VList?
    ensures r == FromDictEach(schema, cls, list, 0, [])
    decreases Nullness(list), list, 3, 0
  {
    var parsed := [];
    var i := 0;
    while i < |list.items|
      invariant 0 <= i <= |list.items|
      invariant FromDictEach(schema, cls, list, 0, []) == FromDictEach(schema, cls, list, i, parsed)
    {
      var item := FromDict(schema, cls, list.items[i]);
      if item.Err? {
        return Err(item.error);
      }
      parsed := parsed + [item.value];
      i := i + 1;
    }
    return Ok(parsed);
  }

  /**
   * `obj.to_dict(result)`, with null for None: the dict it returns, or its
   * exception. It writes into `result` itself unless the class's policy makes
   * a fresh dict, and the contents of the dict written into are those of
   * `ToDictOf` whether or not a statement raised.
   */
  method ToDict(schema: LegacySchema, obj: Value, result: PyDict?) returns (r: Result<PyDict>)
    modifies result
    decreases obj, 2, 0
    ensures var given := if result == null then None else Some(old(result.entries));
            var w := ToDictOf(schema, obj, given);
            var into := IntoGiven(PolicyOf(schema, obj), given);
            && (r.Ok? <==> w.error.None?)
            && (r.Err? ==> r.error == w.error.value)
            && (result != null ==> result.entries == if into then w.entries else old(result.entries))
            && (r.Ok? ==> r.value.entries == w.entries && if into then r.value == result else fresh(r.value))
  {
    if !obj.VObj? {
      return Err(AttributeError);
    }
    var decl := HooksOf(schema, obj.cls);
    if decl.write.None? {
      return Err(NotImplementedError);
    }
    if decl.resultDict == AsGiven && result == null {
      return Err(TypeError);
    }
    var target: PyDict;
    if result != null && (decl.resultDict == FreshIfFalsy ==> result.entries != map[]) {
      target := result;
    } else {
      target := new PyDict(map[]);
    }
    var error := WriteFields(schema, obj, decl.write.value, target);
    if error.Some? {
      return Err(error.value);
    }
    return Ok(target);
  }

  /** The statements of a `to_dict` hook, run on `target`. */
  method WriteFields(schema: LegacySchema, obj: Value, steps: seq<WriteStep>, target: PyDict)
    returns (error: Option<PyError>)
    requires obj.VObj?
    modifies target
    decreases obj, 1, 0
    ensures WriteAll(schema, obj, steps, old(target.entries)) == Written(target.entries, error)
  {
    var i := 0;
    while i < |steps|
      invariant 0 <= i <= |steps|
      invariant WriteAll(schema, obj, steps, old(target.entries)) == WriteAll(schema, obj, steps[i..], target.entries)
    {
      assert steps[i..][0] == steps[i] && steps[i..][1..] == steps[i + 1..];
      var w := WriteStepValue(schema, obj, steps[i]);
      if w.Err? {
        return Some(w.error);
      }
      if w.value.Some? {
        target.entries := target.entries[steps[i].key := w.value.value];
      }
      i := i + 1;
    }
    assert steps[i..] == [];
    return None;
  }

  /** One statement of a `to_dict` hook: what it writes. */
  method WriteStepValue(schema: LegacySchema, obj: Value, step: WriteStep) returns (r: Result<Option<Value>>)
    requires obj.VObj?
    ensures r == WriteValue(schema, obj, step)
    decreases obj, 0, 0
  {
    if step.field !in obj.args {
      return Err(AttributeError);
    }
    var v := obj.args[step.field];
    match step
    case PutIfSet(_, _) =>
      r := Ok(if v == VNone then None else Some(v));
    case Put(_, _) =>
      r := Ok(Some(v));
    case PutInt(_, _) =>
      var i := PyInt(v);
      r := if i.Err? then Err(i.error) else Ok(Some(VInt(i.value)));
    case PutNested(_, _) =>
      var d := NestedDict(schema, v);
      r := if d.Err? then Err(d.error) else Ok(Some(d.value));
    case PutNestedIfSet(_, _) =>
      if v == VNone {
        r := Ok(None);
      } else {
        var d := NestedDict(schema, v);
        r := if d.Err? then Err(d.error) else Ok(Some(d.value));
      }
    case PutEach(_, _) =>
      if v.VList? {
        var ds := ToDictList(schema, v);
        r := if ds.Err? then Err(ds.error) else Ok(Some(VList(ds.value)));
      } else {
        r := Ok(None);
      }
  }

  /** `v.to_dict()` with no dict passed: the new dict's contents. */
  method NestedDict(schema: LegacySchema, v: Value) returns (r: Result<Value>)
    ensures r == NestedToDict(schema, v)
    decreases v, 3, 0
  {
    var d := ToDict(schema, v, null);
    r := if d.Err? then Err(d.error) else Ok(VDict(d.value.entries));
  }

  /** `[x.to_dict() for x in list]`. */
  method ToDictList(schema: LegacySchema, list: Value) returns (r: Result<seq<Value>>)
    requires list.VList?
    ensures r == ToDictEach(schema, list, 0, [])
    decreases list, 4, 0
  {
    var dicts := [];
    var i := 0;
    while i < |list.items|
      invariant 0 <= i <= |list.items|
      invariant ToDictEach(schema, list, 0, []) == ToDictEach(schema, list, i, dicts)
    {
      var d := NestedDict(schema, list.items[i]);
      if d.Err? {
        return Err(d.error);
      }
      dicts := dicts + [d.value];
      i := i + 1;
    }
    return Ok(dicts);
  }
}
