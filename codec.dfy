/**
 * The schema-driven JSON codec of `SerializableStructure`
 * (lsp/types/base_serializable_structure.py).
 *
 * Python reflection over dataclass fields and `typing` annotations is replaced
 * by an explicit schema: a map from class name to its fields, each with a type
 * descriptor, a default and the serialization metadata dict.
 */
module Codec {
  import opened Values
  import opened Naming

  /** A field's annotated type. `Optional[X]` is `TUnion([X, TNone])`; a bare `list` is `TList(TAny)`. */
  datatype Ty =
    | TAny
    | TInt
    | TStr
    | TBool
    | TNone
    | TIntEnum(name: string, intValues: seq<int>)    // an IntEnum subclass
    | TStrEnum(name: string, strValues: seq<string>) // an Enum subclass with str values
    | TFlag(name: string, flagValues: seq<int>)      // an IntFlag subclass (not an IntEnum)
    | TStruct(cls: string)                           // a SerializableStructure subclass
    | TList(elem: Ty)
    | TDict(key: Ty, value: Ty)                      // `Dict[K, V]`: no branch of either loop handles it
    | TUnion(alts: seq<Ty>)

  /** A dataclass field default: `default=`, `default_factory=list`, `default_factory=SomeClass`, or none. */
  datatype Default = NoDefault | Const(value: Value) | FactoryList | FactoryClass(cls: string)

  datatype Field = Field(name: string, ty: Ty, default: Default, meta: map<string, Value>)

  /** A dataclass: its fields in declaration order (inherited ones first) and all its base classes. */
  datatype ClassDecl = ClassDecl(fields: seq<Field>, bases: set<string>)

  type Schema = map<string, ClassDecl>

  /** One iteration of the loop over candidate types: no match, or an early return/raise. */
  datatype Step = NoMatch | Done(r: Result<Value>)

  // ---------------------------------------------------------------------------
  // Writing schemas down.

  /** `Optional[t]`. */
  function Opt(t: Ty): Ty { TUnion([t, TNone]) }

  /** A field without a default and without metadata. */
  function Required(name: string, ty: Ty): Field { Field(name, ty, NoDefault, map[]) }

  /** A field with a default (or default_factory) and without metadata. */
  function Defaulted(name: string, ty: Ty, d: Default): Field { Field(name, ty, d, map[]) }

  /** `Optional[t] = None`, the most common declaration. */
  function OptNone(name: string, t: Ty): Field { Field(name, Opt(t), Const(VNone), map[]) }

  predicate Declares(schema: Schema, cls: string, decl: ClassDecl)
  {
    cls in schema && schema[cls] == decl
  }

  // ---------------------------------------------------------------------------
  // Field metadata and defaults.

  /** `serialization_metadata`: each key is present only when its argument is not None. */
  function SerializationMetadata(nameOverride: Option<string>, includeNone: Option<bool>,
                                 enforceAsConstant: Option<bool>): (m: map<string, Value>)
    ensures m.Keys <= {"name", "include_none", "enforce_as_constant"}
    ensures "name" in m <==> nameOverride.Some?
    ensures "include_none" in m <==> includeNone.Some?
    ensures "enforce_as_constant" in m <==> enforceAsConstant.Some?
    ensures nameOverride.Some? ==> m["name"] == VStr(nameOverride.value)
    ensures includeNone.Some? ==> m["include_none"] == VBool(includeNone.value)
    ensures enforceAsConstant.Some? ==> m["enforce_as_constant"] == VBool(enforceAsConstant.value)
  {
    var m0: map<string, Value> := map[];
    var m1 := if nameOverride.Some? then m0["name" := VStr(nameOverride.value)] else m0;
    var m2 := if includeNone.Some? then m1["include_none" := VBool(includeNone.value)] else m1;
    if enforceAsConstant.Some? then m2["enforce_as_constant" := VBool(enforceAsConstant.value)] else m2
  }

  /** Python truthiness. */
  predicate Truthy(v: Value)
  {
    match v
    case VNone => false
    case VBool(b) => b
    case VInt(i) => i != 0
    case VStr(s) => |s| > 0
    case VList(items) => |items| > 0
    case VDict(entries) => |entries| > 0
    case VEnum(_, m) => !m.VInt? || m.i != 0
    case VObj(_, _) => true
  }

  predicate EnforcedAsConstant(f: Field) { Truthy(DictGet(f.meta, "enforce_as_constant")) }
  predicate IncludesNone(f: Field) { Truthy(DictGet(f.meta, "include_none")) }

  /** The JSON key of a field: the metadata 'name' override, or else the camelCase field name. */
  function KeyOf(f: Field): string
  {
    var o := DictGet(f.meta, "name");
    if o.VStr? then o.s else ToCamelCase(f.name)
  }

  function Fields(schema: Schema, cls: string): seq<Field>
  {
    if cls in schema then schema[cls].fields else []
  }

  /** `isinstance` on dataclass instances. */
  predicate IsInstance(schema: Schema, objCls: string, cls: string)
  {
    objCls == cls || (objCls in schema && cls in schema[objCls].bases)
  }

  /**
   * `SomeClass()` for a default_factory: every field must have a default
   * (TypeError otherwise); defaults are then evaluated in field order.
   * `visited` holds the classes under construction, so a factory cycle is a
   * RecursionError.
   */
  function NewInstance(schema: Schema, visited: set<string>, cls: string): Result<Value>
    decreases schema.Keys - visited, 1, 0
  {
    if cls !in schema then Ok(VObj(cls, map[]))
    else if cls in visited then Err(RecursionError)
    else if exists k :: 0 <= k < |schema[cls].fields| && schema[cls].fields[k].default.NoDefault? then Err(TypeError)
    else
      var args :- InitDefaults(schema, visited, cls, |schema[cls].fields|);
      Ok(VObj(cls, args))
  }

  /** The constructor arguments of `cls()` for its first `n` fields. */
  function InitDefaults(schema: Schema, visited: set<string>, cls: string, n: nat): Result<map<string, Value>>
    requires cls in schema && cls !in visited && n <= |schema[cls].fields|
    decreases schema.Keys - visited, 0, n
  {
    if n == 0 then Ok(map[])
    else
      var acc :- InitDefaults(schema, visited, cls, n - 1);
      var f := schema[cls].fields[n - 1];
      var d :- match f.default
        case Const(d) => Ok(d)
        case FactoryList => Ok(VList([]))
        case FactoryClass(c) => NewInstance(schema, visited + {cls}, c)
        case NoDefault => Ok(VNone);
      Ok(acc[f.name := d])
  }

  /** `_get_default_value`: the default, else the factory's product, else None. */
  function DefaultValue(schema: Schema, f: Field): Result<Value>
  {
    match f.default
    case Const(d) => Ok(d)
    case FactoryList => Ok(VList([]))
    case FactoryClass(c) => NewInstance(schema, {}, c)
    case NoDefault => Ok(VNone)
  }

  // ---------------------------------------------------------------------------
  // Candidate types.

  /** The satisfying types: a Union's arguments, or the type itself. */
  function Alternatives(ty: Ty): seq<Ty>
  {
    if ty.TUnion? then ty.alts else [ty]
  }

  /** `list.remove(x)`: drops the first occurrence only. */
  function RemoveFirst(alts: seq<Ty>, x: Ty): (r: seq<Ty>)
    ensures forall t :: t in r ==> t in alts
    ensures x !in alts ==> r == alts
  {
    if |alts| == 0 then []
    else if alts[0] == x then alts[1..]
    else [alts[0]] + RemoveFirst(alts[1..], x)
  }

  predicate IsEnumTy(t: Ty) { t.TIntEnum? || t.TStrEnum? || t.TFlag? }

  function EnumName(t: Ty): string
    requires IsEnumTy(t)
  {
    if t.TIntEnum? then t.name else if t.TStrEnum? then t.name else t.name
  }

  /** `int(v)` for the int-like values accepted by the IntEnum conversion. */
  function IntOf(v: Value): int
    requires IsPyInt(v)
  {
    match v
    case VInt(i) => i
    case VBool(b) => if b then 1 else 0
    case VEnum(_, m) => m.i
  }

  /** `SomeIntEnum(v)`: the member with that value, else ValueError. */
  function IntEnumMember(t: Ty, v: Value): Result<Value>
    requires t.TIntEnum? && IsPyInt(v)
  {
    if IntOf(v) in t.intValues then Ok(VEnum(t.name, VInt(IntOf(v)))) else Err(ValueError)
  }

  /** `SomeEnum(s)` for a str: only an Enum with that str value has such a member. */
  function StrEnumMember(t: Ty, s: string): Result<Value>
    requires IsEnumTy(t)
  {
    if t.TStrEnum? && s in t.strValues then Ok(VEnum(t.name, VStr(s))) else Err(ValueError)
  }

  // ---------------------------------------------------------------------------
  // Serialization (`_serialize_field` and `to_dict`).

  function Rank(v: Value): nat { if ObjFree(v) then 0 else 1 }

  /** `_serialize_field(value, ty)`. */
  function Serialize(schema: Schema, ty: Ty, v: Value): Result<Value>
    decreases Rank(v), v, 5, 0
  {
    var alts := Alternatives(ty);
    if v == VNone then
      if TNone in alts || TAny in alts then Ok(VNone) else Err(ValueError)
    else
      SerializeAlts(schema, RemoveFirst(alts, TNone), v)
  }

  /** The loop over satisfying types; falling off its end raises ValueError. */
  function SerializeAlts(schema: Schema, alts: seq<Ty>, v: Value): Result<Value>
    decreases Rank(v), v, 4, |alts|
  {
    if |alts| == 0 then Err(ValueError)
    else match SerializeAlt(schema, alts[0], v)
      case NoMatch => SerializeAlts(schema, alts[1..], v)
      case Done(r) => r
  }

  /**
   * One iteration for candidate `t` and a non-None value. The IntEnum and Enum
   * branches of the source both return `.value`, so they are merged here.
   */
  function SerializeAlt(schema: Schema, t: Ty, v: Value): Step
    decreases Rank(v), v, 3, 0
  {
    if (t == TInt && IsPyInt(v)) || (t == TStr && v.VStr?) || (t == TBool && v.VBool?) then
      Done(Ok(v))
    else if v.VEnum? && ((IsEnumTy(t) && v.enum == EnumName(t)) || t == TAny) then
      Done(Ok(v.member))
    else if v.VObj? && ((t.TStruct? && IsInstance(schema, v.cls, t.cls)) || t == TAny) then
      Done(ToDict(schema, v))
    else if v.VList? && t.TList? then
      match SerializeItems(schema, t.elem, v, 0)
      case Ok(items) => Done(Ok(VList(items)))
      case Err(ValueError) => NoMatch
      case Err(e) => Done(Err(e))
    else if t == TAny then
      Done(Ok(v))
    else
      NoMatch
  }

  /** The list comprehension over `list.items[i..]`, in order. */
  function SerializeItems(schema: Schema, elem: Ty, list: Value, i: nat): Result<seq<Value>>
    requires list.VList? && i <= |list.items|
    decreases Rank(list), list, 2, |list.items| - i
  {
    if i == |list.items| then Ok([])
    else
      var h :- Serialize(schema, elem, list.items[i]);
      var t :- SerializeItems(schema, elem, list, i + 1);
      Ok([h] + t)
  }

  /** `to_dict()` of a dataclass instance. */
  function ToDict(schema: Schema, obj: Value): Result<Value>
    requires obj.VObj?
    decreases Rank(obj), obj, 2, 0
  {
    var fields := Fields(schema, obj.cls);
    var entries :- ToDictEntries(schema, obj, fields, |fields|);
    Ok(VDict(entries))
  }

  /**
   * The result dict after the loop has handled `fields[..n]`. An enforced
   * constant serializes its default; a default holding an object is not
   * modelled (RecursionError).
   */
  function ToDictEntries(schema: Schema, obj: Value, fields: seq<Field>, n: nat): Result<map<string, Value>>
    requires obj.VObj? && n <= |fields|
    decreases Rank(obj), obj, 1, n
  {
    if n == 0 then Ok(map[])
    else
      var acc :- ToDictEntries(schema, obj, fields, n - 1);
      var f := fields[n - 1];
      if f.name !in obj.args then Err(AttributeError)
      else
      var s :- ToDictValue(schema, obj, f, obj.args[f.name]);
      if s != VNone || IncludesNone(f) then Ok(acc[KeyOf(f) := s]) else Ok(acc)
  }

  /** The serialized value of one field: an enforced constant serializes its default. */
  function ToDictValue(schema: Schema, obj: Value, f: Field, raw: Value): Result<Value>
    requires obj.VObj? && f.name in obj.args && raw == obj.args[f.name]
    decreases Rank(obj), obj, 0, 0
  {
    if EnforcedAsConstant(f) then
      var d :- DefaultValue(schema, f);
      if ObjFree(d) then Serialize(schema, f.ty, d) else Err(RecursionError)
    else Serialize(schema, f.ty, raw)
  }

  // ---------------------------------------------------------------------------
  // Deserialization (`_deserialize_field` and `from_dict`).

  /** `_deserialize_field(value, ty)`. */
  function Deserialize(schema: Schema, ty: Ty, v: Value): Result<Value>
    decreases v, 5, 0
  {
    var alts := Alternatives(ty);
    if v == VNone then
      if TNone in alts || TAny in alts then Ok(VNone) else Err(ValueError)
    else
      DeserializeAlts(schema, RemoveFirst(alts, TNone), v)
  }

  function DeserializeAlts(schema: Schema, alts: seq<Ty>, v: Value): Result<Value>
    decreases v, 4, |alts|
  {
    if |alts| == 0 then Err(ValueError)
    else match DeserializeAlt(schema, alts[0], v)
      case NoMatch => DeserializeAlts(schema, alts[1..], v)
      case Done(r) => r
  }

  /**
   * One iteration for candidate `t` and a non-None value. A failed enum
   * conversion raises out of the loop; a ValueError from a nested structure or
   * list is caught and the next candidate is tried.
   */
  function DeserializeAlt(schema: Schema, t: Ty, v: Value): Step
    decreases v, 3, 0
  {
    if t == TAny then Done(Ok(v))
    else if (t == TInt && IsPyInt(v)) || (t == TStr && v.VStr?) || (t == TBool && v.VBool?) then
      Done(Ok(v))
    else if t.TIntEnum? && IsPyInt(v) then
      Done(IntEnumMember(t, v))
    else if IsEnumTy(t) && v.VStr? then
      Done(StrEnumMember(t, v.s))
    else if t.TStruct? && v.VDict? then
      match FromDict(schema, t.cls, v)
      case Ok(o) => Done(Ok(o))
      case Err(ValueError) => NoMatch
      case Err(e) => Done(Err(e))
    else if v.VList? && t.TList? then
      match DeserializeItems(schema, t.elem, v, 0)
      case Ok(items) => Done(Ok(VList(items)))
      case Err(ValueError) => NoMatch
      case Err(e) => Done(Err(e))
    else
      NoMatch
  }

  function DeserializeItems(schema: Schema, elem: Ty, list: Value, i: nat): Result<seq<Value>>
    requires list.VList? && i <= |list.items|
    decreases list, 2, |list.items| - i
  {
    if i == |list.items| then Ok([])
    else
      var h :- Deserialize(schema, elem, list.items[i]);
      var t :- DeserializeItems(schema, elem, list, i + 1);
      Ok([h] + t)
  }

  /** `cls.from_dict(obj)`; `obj.get` on a non-dict raises AttributeError. */
  function FromDict(schema: Schema, cls: string, obj: Value): Result<Value>
    decreases obj, 2, 0
  {
    var fields := Fields(schema, cls);
    var args :- InitArgs(schema, obj, fields, |fields|);
    Ok(VObj(cls, args))
  }

  /** `init_args` after the loop has handled `fields[..n]`. */
  function InitArgs(schema: Schema, obj: Value, fields: seq<Field>, n: nat): Result<map<string, Value>>
    requires n <= |fields|
    decreases obj, 1, n
  {
    if n == 0 then Ok(map[])
    else
      var acc :- InitArgs(schema, obj, fields, n - 1);
      var f := fields[n - 1];
      var x :- InitArg(schema, obj, f);
      Ok(acc[f.name := x])
  }

  /** The value `from_dict` stores for one field. */
  function InitArg(schema: Schema, obj: Value, f: Field): Result<Value>
    decreases obj, 0, 0
  {
    if !obj.VDict? then Err(AttributeError)
    else if KeyOf(f) in obj.entries then
      var x :- Deserialize(schema, f.ty, obj.entries[KeyOf(f)]);
      if EnforcedAsConstant(f) then
        var d :- DefaultValue(schema, f);
        if x != d then Err(ValueError) else Ok(x)
      else Ok(x)
    else DefaultValue(schema, f)
  }

  /** `clone()`: `from_dict(to_dict())` on the instance's own class. */
  function CloneOf(schema: Schema, obj: Value): Result<Value>
    requires obj.VObj?
  {
    var d :- ToDict(schema, obj);
    FromDict(schema, obj.cls, d)
  }

  // ---------------------------------------------------------------------------
  // The loops of the source, each proved to compute the function above.

  /** `_serialize_field`: the None check, then the loop over candidate types with early returns. */
  method SerializeField(schema: Schema, v: Value, ty: Ty) returns (r: Result<Value>)
    ensures r == Serialize(schema, ty, v)
  {
    var alts := Alternatives(ty);
    if v == VNone {
      if TNone in alts || TAny in alts {
        return Ok(VNone);
      }
      return Err(ValueError);
    }
    alts := RemoveFirst(alts, TNone);
    var i := 0;
    while i < |alts|
      invariant 0 <= i <= |alts|
      invariant SerializeAlts(schema, alts[i..], v) == Serialize(schema, ty, v)
    {
      assert alts[i..][1..] == alts[i + 1..];
      var step := SerializeAlt(schema, alts[i], v);
      if step.Done? {
        return step.r;
      }
      i := i + 1;
    }
    return Err(ValueError);
  }

  /** `_deserialize_field`: the None check, then the loop over candidate types with early returns. */
  method DeserializeField(schema: Schema, v: Value, ty: Ty) returns (r: Result<Value>)
    ensures r == Deserialize(schema, ty, v)
  {
    var alts := Alternatives(ty);
    if v == VNone {
      if TNone in alts || TAny in alts {
        return Ok(VNone);
      }
      return Err(ValueError);
    }
    alts := RemoveFirst(alts, TNone);
    var i := 0;
    while i < |alts|
      invariant 0 <= i <= |alts|
      invariant DeserializeAlts(schema, alts[i..], v) == Deserialize(schema, ty, v)
    {
      assert alts[i..][1..] == alts[i + 1..];
      var step := DeserializeAlt(schema, alts[i], v);
      if step.Done? {
        return step.r;
      }
      i := i + 1;
    }
    return Err(ValueError);
  }

  lemma ToDictEntriesErr(schema: Schema, obj: Value, fields: seq<Field>, n: nat, m: nat)
    requires obj.VObj? && n <= m <= |fields|
    requires ToDictEntries(schema, obj, fields, n).Err?
    ensures ToDictEntries(schema, obj, fields, m) == ToDictEntries(schema, obj, fields, n)
    decreases m
  {
    if m > n {
      ToDictEntriesErr(schema, obj, fields, n, m - 1);
    }
  }

  lemma InitArgsErr(schema: Schema, obj: Value, fields: seq<Field>, n: nat, m: nat)
    requires n <= m <= |fields|
    requires InitArgs(schema, obj, fields, n).Err?
    ensures InitArgs(schema, obj, fields, m) == InitArgs(schema, obj, fields, n)
    decreases m
  {
    if m > n {
      InitArgsErr(schema, obj, fields, n, m - 1);
    }
  }

  /** `to_dict`: the loop over the fields filling `result`. */
  method ToDictLoop(schema: Schema, obj: Value) returns (r: Result<Value>)
    requires obj.VObj?
    ensures r == ToDict(schema, obj)
  {
    var fields := Fields(schema, obj.cls);
    var result: map<string, Value> := map[];
    var i := 0;
    while i < |fields|
      invariant 0 <= i <= |fields|
      invariant ToDictEntries(schema, obj, fields, i) == Ok(result)
    {
      var f := fields[i];
      if f.name !in obj.args {
        ToDictEntriesErr(schema, obj, fields, i + 1, |fields|);
        return Err(AttributeError);
      }
      var value := obj.args[f.name];
      if EnforcedAsConstant(f) {
        var d := DefaultValue(schema, f);
        if d.Err? {
          ToDictEntriesErr(schema, obj, fields, i + 1, |fields|);
          return Err(d.error);
        }
        if !ObjFree(d.value) {
          ToDictEntriesErr(schema, obj, fields, i + 1, |fields|);
          return Err(RecursionError);
        }
        value := d.value;
      }
      var s := SerializeField(schema, value, f.ty);
      if s.Err? {
        ToDictEntriesErr(schema, obj, fields, i + 1, |fields|);
        return Err(s.error);
      }
      if s.value != VNone || IncludesNone(f) {
        result := result[KeyOf(f) := s.value];
      }
      i := i + 1;
    }
    return Ok(VDict(result));
  }

  /** `from_dict`: the loop over the fields filling `init_args`, then the constructor call. */
  method FromDictLoop(schema: Schema, cls: string, obj: Value) returns (r: Result<Value>)
    ensures r == FromDict(schema, cls, obj)
  {
    var fields := Fields(schema, cls);
    var initArgs: map<string, Value> := map[];
    var i := 0;
    while i < |fields|
      invariant 0 <= i <= |fields|
      invariant InitArgs(schema, obj, fields, i) == Ok(initArgs)
    {
      var f := fields[i];
      var x := ReadField(schema, obj, f);
      if x.Err? {
        InitArgsErr(schema, obj, fields, i + 1, |fields|);
        return Err(x.error);
      }
      initArgs := initArgs[f.name := x.value];
      i := i + 1;
    }
    return Ok(VObj(cls, initArgs));
  }

  /** One pass of `from_dict`'s loop: the field's value read from `obj`, or its default, or the exception raised. */
  method ReadField(schema: Schema, obj: Value, f: Field) returns (r: Result<Value>)
    ensures r == InitArg(schema, obj, f)
  {
    if !obj.VDict? {
      return Err(AttributeError);
    }
    var key := KeyOf(f);
    if key in obj.entries {
      var x := DeserializeField(schema, obj.entries[key], f.ty);
      if x.Err? {
        return Err(x.error);
      }
      if EnforcedAsConstant(f) {
        var d := DefaultValue(schema, f);
        if d.Err? {
          return Err(d.error);
        }
        if x.value != d.value {
          return Err(ValueError);
        }
      }
      return Ok(x.value);
    }
    r := DefaultValue(schema, f);
  }

  /** `clone()`. */
  method Clone(schema: Schema, obj: Value) returns (r: Result<Value>)
    requires obj.VObj?
    ensures r == CloneOf(schema, obj)
  {
    var d := ToDictLoop(schema, obj);
    if d.Err? {
      return Err(d.error);
    }
    r := FromDictLoop(schema, obj.cls, d.value);
  }
}
