/**
 * Properties of the schema-driven codec: key naming, defaults for absent keys,
 * None handling, enforced constants, include_none, enums, lists, first-match
 * unions, and the round trip `from_dict(to_dict(x)) == x`.
 */
module CodecLaws {
  import opened Values
  import opened Naming
  import opened Codec

  // ---------------------------------------------------------------------------
  // Keys.

  /** The JSON key is the metadata 'name' override, or else `_to_camel_case` of the field name. */
  lemma KeyOfMetadata(f: Field, nameOverride: Option<string>, includeNone: Option<bool>, enforce: Option<bool>)
    requires f.meta == SerializationMetadata(nameOverride, includeNone, enforce)
    ensures KeyOf(f) == (if nameOverride.Some? then nameOverride.value else ToCamelCase(f.name))
    ensures nameOverride.None? && NoUnderscore(f.name) ==> KeyOf(f) == f.name
  {
    if nameOverride.None? && NoUnderscore(f.name) {
      CamelCaseIdentity(f.name);
    }
  }

  /** The metadata flags read back what `serialization_metadata` was given; absent means falsy. */
  lemma MetadataFlags(f: Field, nameOverride: Option<string>, includeNone: Option<bool>, enforce: Option<bool>)
    requires f.meta == SerializationMetadata(nameOverride, includeNone, enforce)
    ensures IncludesNone(f) <==> includeNone == Some(true)
    ensures EnforcedAsConstant(f) <==> enforce == Some(true)
  {
  }

  // ---------------------------------------------------------------------------
  // None.

  /** None is accepted exactly when the type admits None or Any, in both directions. */
  lemma NoneHandling(schema: Schema, ty: Ty)
    ensures Serialize(schema, ty, VNone).Ok? <==> (TNone in Alternatives(ty) || TAny in Alternatives(ty))
    ensures Deserialize(schema, ty, VNone).Ok? <==> (TNone in Alternatives(ty) || TAny in Alternatives(ty))
    ensures Serialize(schema, ty, VNone).Err? ==> Serialize(schema, ty, VNone).error == ValueError
    ensures Deserialize(schema, ty, VNone).Err? ==> Deserialize(schema, ty, VNone).error == ValueError
    ensures Serialize(schema, ty, VNone).Ok? ==> Serialize(schema, ty, VNone).value == VNone
    ensures Deserialize(schema, ty, VNone).Ok? ==> Deserialize(schema, ty, VNone).value == VNone
  {
  }

  // ---------------------------------------------------------------------------
  // Candidate types: first match wins, no match is ValueError.

  function FirstSerializeMatch(schema: Schema, alts: seq<Ty>, v: Value): (k: nat)
    ensures k <= |alts|
    ensures forall j :: 0 <= j < k ==> SerializeAlt(schema, alts[j], v).NoMatch?
    ensures k < |alts| ==> SerializeAlt(schema, alts[k], v).Done?
  {
    if |alts| == 0 then 0
    else if SerializeAlt(schema, alts[0], v).Done? then 0
    else 1 + FirstSerializeMatch(schema, alts[1..], v)
  }

  /**
   * The loop over candidate types returns the outcome of the first candidate
   * that matches, and raises ValueError when none does.
   */
  lemma {:induction false} SerializeAltsFirstMatch(schema: Schema, alts: seq<Ty>, v: Value, k: nat)
    requires k <= |alts|
    requires forall j :: 0 <= j < k ==> SerializeAlt(schema, alts[j], v).NoMatch?
    ensures k < |alts| && SerializeAlt(schema, alts[k], v).Done? ==>
      SerializeAlts(schema, alts, v) == SerializeAlt(schema, alts[k], v).r
    ensures k == |alts| ==> SerializeAlts(schema, alts, v) == Err(ValueError)
    decreases k
  {
    if k > 0 {
      assert SerializeAlt(schema, alts[0], v).NoMatch?;
      assert forall j :: 0 <= j < k - 1 ==> alts[1..][j] == alts[j + 1];
      SerializeAltsFirstMatch(schema, alts[1..], v, k - 1);
    }
  }

  function FirstDeserializeMatch(schema: Schema, alts: seq<Ty>, v: Value): (k: nat)
    ensures k <= |alts|
    ensures forall j :: 0 <= j < k ==> DeserializeAlt(schema, alts[j], v).NoMatch?
    ensures k < |alts| ==> DeserializeAlt(schema, alts[k], v).Done?
  {
    if |alts| == 0 then 0
    else if DeserializeAlt(schema, alts[0], v).Done? then 0
    else 1 + FirstDeserializeMatch(schema, alts[1..], v)
  }

  lemma {:induction false} DeserializeAltsFirstMatch(schema: Schema, alts: seq<Ty>, v: Value, k: nat)
    requires k <= |alts|
    requires forall j :: 0 <= j < k ==> DeserializeAlt(schema, alts[j], v).NoMatch?
    ensures k < |alts| && DeserializeAlt(schema, alts[k], v).Done? ==>
      DeserializeAlts(schema, alts, v) == DeserializeAlt(schema, alts[k], v).r
    ensures k == |alts| ==> DeserializeAlts(schema, alts, v) == Err(ValueError)
    decreases k
  {
    if k > 0 {
      assert DeserializeAlt(schema, alts[0], v).NoMatch?;
      assert forall j :: 0 <= j < k - 1 ==> alts[1..][j] == alts[j + 1];
      DeserializeAltsFirstMatch(schema, alts[1..], v, k - 1);
    }
  }

  /**
   * Whether candidate `t` returns (or raises) in `_serialize_field`'s loop for
   * the non-None value `v`, stated on the type and the value's kind alone.
   */
  predicate SerHandles(schema: Schema, t: Ty, v: Value)
  {
    || (t == TInt && IsPyInt(v)) || (t == TStr && v.VStr?) || (t == TBool && v.VBool?)
    || (v.VEnum? && IsEnumTy(t) && v.enum == EnumName(t))
    || (v.VObj? && t.TStruct? && IsInstance(schema, v.cls, t.cls))
    || (v.VList? && t.TList?)
    || t == TAny
  }

  /** A candidate that does not handle the value lets the loop go on. */
  lemma SerNoMatch(schema: Schema, t: Ty, v: Value)
    requires !SerHandles(schema, t, v)
    ensures SerializeAlt(schema, t, v) == NoMatch
  {
  }

  /**
   * Whether candidate `t` may return in `_deserialize_field`'s loop for the
   * non-None JSON value `s`; a nested structure or list may still fall through
   * with a caught ValueError.
   */
  predicate DesHandles(t: Ty, s: Value)
  {
    || t == TAny
    || (t == TInt && IsPyInt(s)) || (t == TStr && s.VStr?) || (t == TBool && s.VBool?)
    || (t.TIntEnum? && IsPyInt(s)) || (IsEnumTy(t) && s.VStr?)
    || (t.TStruct? && s.VDict?)
    || (t.TList? && s.VList?)
  }

  lemma DesNoMatch(schema: Schema, t: Ty, s: Value)
    requires !DesHandles(t, s)
    ensures DeserializeAlt(schema, t, s) == NoMatch
  {
  }

  /** Two values built by the same constructor. */
  predicate SameKind(a: Value, b: Value)
  {
    && a.VNone? == b.VNone? && a.VBool? == b.VBool? && a.VInt? == b.VInt? && a.VStr? == b.VStr?
    && a.VList? == b.VList? && a.VDict? == b.VDict? && a.VEnum? == b.VEnum? && a.VObj? == b.VObj?
  }

  /** Which candidates may handle a value depends only on its kind. */
  lemma DesHandlesByKind(t: Ty, a: Value, b: Value)
    requires SameKind(a, b) && !a.VEnum?
    ensures DesHandles(t, a) <==> DesHandles(t, b)
  {
  }

  /** The index of the first candidate that handles `v`, or `|alts|`. */
  function FirstHandler(schema: Schema, alts: seq<Ty>, v: Value): (k: nat)
    ensures k <= |alts|
    ensures forall j :: 0 <= j < k ==> !SerHandles(schema, alts[j], v)
    ensures k < |alts| ==> SerHandles(schema, alts[k], v)
  {
    if |alts| == 0 then 0
    else if SerHandles(schema, alts[0], v) then 0
    else 1 + FirstHandler(schema, alts[1..], v)
  }

  /** A union serializes a non-None value through its first matching alternative (in declaration order). */
  lemma UnionSerializeFirstMatch(schema: Schema, ty: Ty, v: Value)
    requires v != VNone
    ensures var alts := RemoveFirst(Alternatives(ty), TNone);
            var k := FirstSerializeMatch(schema, alts, v);
            Serialize(schema, ty, v) == if k < |alts| then SerializeAlt(schema, alts[k], v).r else Err(ValueError)
  {
    var alts := RemoveFirst(Alternatives(ty), TNone);
    SerializeAltsFirstMatch(schema, alts, v, FirstSerializeMatch(schema, alts, v));
  }

  lemma UnionDeserializeFirstMatch(schema: Schema, ty: Ty, v: Value)
    requires v != VNone
    ensures var alts := RemoveFirst(Alternatives(ty), TNone);
            var k := FirstDeserializeMatch(schema, alts, v);
            Deserialize(schema, ty, v) == if k < |alts| then DeserializeAlt(schema, alts[k], v).r else Err(ValueError)
  {
    var alts := RemoveFirst(Alternatives(ty), TNone);
    DeserializeAltsFirstMatch(schema, alts, v, FirstDeserializeMatch(schema, alts, v));
  }

  // ---------------------------------------------------------------------------
  // Lists are mapped element-wise.

  /** The loop `[f(x) for x in xs[i:]]` for any conversion `f` that may raise. */
  function MapItems<X, Y>(xs: seq<X>, i: nat, f: X -> Result<Y>): Result<seq<Y>>
    requires i <= |xs|
    decreases |xs| - i
  {
    if i == |xs| then Ok([])
    else
      var h :- f(xs[i]);
      var t :- MapItems(xs, i + 1, f);
      Ok([h] + t)
  }

  /** Mapping succeeds exactly when every item converts, and then item `j` gives entry `j - i`. */
  lemma {:induction false} MapItemsElementwise<X, Y>(xs: seq<X>, i: nat, f: X -> Result<Y>)
    requires i <= |xs|
    ensures MapItems(xs, i, f).Ok? <==> forall j :: i <= j < |xs| ==> f(xs[j]).Ok?
    ensures MapItems(xs, i, f).Ok? ==>
      var out := MapItems(xs, i, f).value;
      |out| == |xs| - i && forall j :: i <= j < |xs| ==> out[j - i] == f(xs[j]).value
    decreases |xs| - i
  {
    if i < |xs| {
      MapItemsElementwise(xs, i + 1, f);
    }
  }

  lemma {:induction false} SerializeItemsAsMap(schema: Schema, elem: Ty, list: Value, i: nat)
    requires list.VList? && i <= |list.items|
    ensures SerializeItems(schema, elem, list, i) == MapItems(list.items, i, x => Serialize(schema, elem, x))
    decreases |list.items| - i
  {
    if i < |list.items| {
      SerializeItemsAsMap(schema, elem, list, i + 1);
    }
  }

  lemma {:induction false} DeserializeItemsAsMap(schema: Schema, elem: Ty, list: Value, i: nat)
    requires list.VList? && i <= |list.items|
    ensures DeserializeItems(schema, elem, list, i) == MapItems(list.items, i, x => Deserialize(schema, elem, x))
    decreases |list.items| - i
  {
    if i < |list.items| {
      DeserializeItemsAsMap(schema, elem, list, i + 1);
    }
  }

  lemma SerializeItemsElementwise(schema: Schema, elem: Ty, list: Value, i: nat)
    requires list.VList? && i <= |list.items|
    ensures SerializeItems(schema, elem, list, i).Ok? <==>
      forall j :: i <= j < |list.items| ==> Serialize(schema, elem, list.items[j]).Ok?
    ensures SerializeItems(schema, elem, list, i).Ok? ==>
      var out := SerializeItems(schema, elem, list, i).value;
      |out| == |list.items| - i &&
      forall j :: i <= j < |list.items| ==> out[j - i] == Serialize(schema, elem, list.items[j]).value
  {
    SerializeItemsAsMap(schema, elem, list, i);
    MapItemsElementwise(list.items, i, x => Serialize(schema, elem, x));
  }

  lemma DeserializeItemsElementwise(schema: Schema, elem: Ty, list: Value, i: nat)
    requires list.VList? && i <= |list.items|
    ensures DeserializeItems(schema, elem, list, i).Ok? <==>
      forall j :: i <= j < |list.items| ==> Deserialize(schema, elem, list.items[j]).Ok?
    ensures DeserializeItems(schema, elem, list, i).Ok? ==>
      var out := DeserializeItems(schema, elem, list, i).value;
      |out| == |list.items| - i &&
      forall j :: i <= j < |list.items| ==> out[j - i] == Deserialize(schema, elem, list.items[j]).value
  {
    DeserializeItemsAsMap(schema, elem, list, i);
    MapItemsElementwise(list.items, i, x => Deserialize(schema, elem, x));
  }

  // ---------------------------------------------------------------------------
  // A single non-union type is one iteration of the loop.

  lemma SingleSerialize(schema: Schema, t: Ty, v: Value)
    requires !t.TUnion? && t != TNone && v != VNone
    ensures SerializeAlt(schema, t, v).NoMatch? ==> Serialize(schema, t, v) == Err(ValueError)
    ensures SerializeAlt(schema, t, v).Done? ==> Serialize(schema, t, v) == SerializeAlt(schema, t, v).r
  {
    assert Alternatives(t) == [t];
    assert RemoveFirst([t], TNone) == [t] by {
      assert RemoveFirst([t][1..], TNone) == [];
    }
    assert [t][1..] == [];
    assert SerializeAlts(schema, [], v) == Err(ValueError);
  }

  lemma SingleDeserialize(schema: Schema, t: Ty, v: Value)
    requires !t.TUnion? && t != TNone && v != VNone
    ensures DeserializeAlt(schema, t, v).NoMatch? ==> Deserialize(schema, t, v) == Err(ValueError)
    ensures DeserializeAlt(schema, t, v).Done? ==> Deserialize(schema, t, v) == DeserializeAlt(schema, t, v).r
  {
    assert Alternatives(t) == [t];
    assert RemoveFirst([t], TNone) == [t] by {
      assert RemoveFirst([t][1..], TNone) == [];
    }
    assert [t][1..] == [];
    assert DeserializeAlts(schema, [], v) == Err(ValueError);
  }

  // ---------------------------------------------------------------------------
  // Enums.

  /** An enum member serializes to its `.value`. */
  lemma EnumSerializesToValue(schema: Schema, t: Ty, v: Value)
    requires IsEnumTy(t) && v.VEnum? && v.enum == EnumName(t)
    ensures Serialize(schema, t, v) == Ok(v.member)
  {
    SingleSerialize(schema, t, v);
  }

  /**
   * Parsing under an IntEnum type: an int (or bool) becomes the member with that
   * value or raises ValueError; any other value raises ValueError.
   */
  lemma IntEnumParse(schema: Schema, t: Ty, v: Value)
    requires t.TIntEnum? && v != VNone
    ensures IsPyInt(v) ==>
      Deserialize(schema, t, v) == (if IntOf(v) in t.intValues then Ok(VEnum(t.name, VInt(IntOf(v)))) else Err(ValueError))
    ensures !IsPyInt(v) ==> Deserialize(schema, t, v) == Err(ValueError)
  {
    SingleDeserialize(schema, t, v);
  }

  /** Parsing under a str-valued Enum type: a str becomes the member with that value, else ValueError. */
  /** A `str` field accepts exactly the strings. */
  lemma StrDeserialize(schema: Schema, v: Value)
    ensures Deserialize(schema, TStr, v) == if v.VStr? then Ok(v) else Err(ValueError)
  {
    if v == VNone {
      assert Alternatives(TStr) == [TStr];
    } else {
      SingleDeserialize(schema, TStr, v);
    }
  }

  lemma StrEnumParse(schema: Schema, t: Ty, v: Value)
    requires t.TStrEnum? && v != VNone
    ensures v.VStr? ==>
      Deserialize(schema, t, v) == (if v.s in t.strValues then Ok(VEnum(t.name, v)) else Err(ValueError))
    ensures !v.VStr? ==> Deserialize(schema, t, v) == Err(ValueError)
  {
    SingleDeserialize(schema, t, v);
  }

  /** An IntFlag is not an IntEnum: no value parses under a flag type. */
  lemma FlagNeverParses(schema: Schema, t: Ty, v: Value)
    requires t.TFlag?
    ensures Deserialize(schema, t, v) == Err(ValueError)
  {
    if v != VNone {
      SingleDeserialize(schema, t, v);
    }
  }

  // ---------------------------------------------------------------------------
  // from_dict field by field.

  function NamesUpTo(fields: seq<Field>, n: nat): set<string>
    requires n <= |fields|
  {
    set k | 0 <= k < n :: fields[k].name
  }

  predicate DistinctNames(fields: seq<Field>)
  {
    forall a, b :: 0 <= a < b < |fields| ==> fields[a].name != fields[b].name
  }

  predicate DistinctKeys(fields: seq<Field>)
  {
    forall a, b :: 0 <= a < b < |fields| ==> KeyOf(fields[a]) != KeyOf(fields[b])
  }

  /** Three fields with pairwise different names and keys. */
  lemma DistinctThree(fields: seq<Field>, n0: string, n1: string, n2: string, k0: string, k1: string, k2: string)
    requires |fields| == 3
    requires fields[0].name == n0 && fields[1].name == n1 && fields[2].name == n2
    requires KeyOf(fields[0]) == k0 && KeyOf(fields[1]) == k1 && KeyOf(fields[2]) == k2
    requires n0 != n1 && n0 != n2 && n1 != n2 && k0 != k1 && k0 != k2 && k1 != k2
    ensures DistinctNames(fields) && DistinctKeys(fields)
  {
  }

  /** `from_dict`'s loop over the first `n` fields succeeds exactly when every field's step does. */
  lemma {:induction false} InitArgsOk(schema: Schema, obj: Value, fields: seq<Field>, n: nat)
    requires n <= |fields|
    ensures InitArgs(schema, obj, fields, n).Ok? <==> forall j :: 0 <= j < n ==> InitArg(schema, obj, fields[j]).Ok?
    decreases n
  {
    if n > 0 {
      InitArgsOk(schema, obj, fields, n - 1);
      assert InitArgs(schema, obj, fields, n).Ok? <==>
             InitArgs(schema, obj, fields, n - 1).Ok? && InitArg(schema, obj, fields[n - 1]).Ok?;
    }
  }

  /** It fails with the error of the first failing field. */
  lemma InitArgsFirstErr(schema: Schema, obj: Value, fields: seq<Field>, n: nat, k: nat)
    requires k < n <= |fields|
    requires forall j :: 0 <= j < k ==> InitArg(schema, obj, fields[j]).Ok?
    requires InitArg(schema, obj, fields[k]).Err?
    ensures InitArgs(schema, obj, fields, n) == Err(InitArg(schema, obj, fields[k]).error)
  {
    assert InitArgs(schema, obj, fields, k + 1) == Err(InitArg(schema, obj, fields[k]).error) by {
      InitArgsOk(schema, obj, fields, k);
    }
    InitArgsErr(schema, obj, fields, k + 1, n);
  }

  /** On success it maps each (distinct) field name to that field's value. */
  lemma InitArgsValues(schema: Schema, obj: Value, fields: seq<Field>, n: nat)
    requires n <= |fields| && DistinctNames(fields)
    requires InitArgs(schema, obj, fields, n).Ok?
    ensures forall j :: 0 <= j < n ==> InitArg(schema, obj, fields[j]).Ok?
    ensures var m := InitArgs(schema, obj, fields, n).value;
            m.Keys == NamesUpTo(fields, n) &&
            forall j :: 0 <= j < n ==> m[fields[j].name] == InitArg(schema, obj, fields[j]).value
  {
    InitArgsOk(schema, obj, fields, n);
    InitArgsKeys(schema, obj, fields, n);
    InitArgsLookups(schema, obj, fields, n);
  }

  /** The value stored under each of the first `n` names is that field's own argument. */
  lemma {:induction false} InitArgsLookups(schema: Schema, obj: Value, fields: seq<Field>, n: nat)
    requires n <= |fields| && DistinctNames(fields)
    requires InitArgs(schema, obj, fields, n).Ok?
    ensures forall j :: 0 <= j < n ==> InitArg(schema, obj, fields[j]).Ok?
    ensures forall j :: 0 <= j < n ==>
              fields[j].name in InitArgs(schema, obj, fields, n).value &&
              InitArgs(schema, obj, fields, n).value[fields[j].name] == InitArg(schema, obj, fields[j]).value
    decreases n
  {
    if n > 0 {
      InitArgsLookups(schema, obj, fields, n - 1);
      InitArgsNext(schema, obj, fields, n);
      var acc := InitArgs(schema, obj, fields, n - 1).value;
      var m := InitArgs(schema, obj, fields, n).value;
      forall j | 0 <= j < n
        ensures InitArg(schema, obj, fields[j]).Ok?
        ensures fields[j].name in m && m[fields[j].name] == InitArg(schema, obj, fields[j]).value
      {
        if j < n - 1 {
          assert fields[j].name != fields[n - 1].name;
          assert m[fields[j].name] == acc[fields[j].name];
        }
      }
    }
  }

  /** The keys stored by the loop over the first `n` fields are their names. */
  lemma {:induction false} InitArgsKeys(schema: Schema, obj: Value, fields: seq<Field>, n: nat)
    requires n <= |fields| && InitArgs(schema, obj, fields, n).Ok?
    ensures InitArgs(schema, obj, fields, n).value.Keys == NamesUpTo(fields, n)
    decreases n
  {
    if n > 0 {
      InitArgsNext(schema, obj, fields, n);
      InitArgsKeys(schema, obj, fields, n - 1);
      assert NamesUpTo(fields, n) == NamesUpTo(fields, n - 1) + {fields[n - 1].name};
    } else {
      assert NamesUpTo(fields, 0) == {};
    }
  }

  /** Storing field `n - 1` after the first `n - 1`: a new key, the others keep their values. */
  /** A loop that got through `n` fields got through `n - 1` and then stored the last one's value. */
  lemma InitArgsNext(schema: Schema, obj: Value, fields: seq<Field>, n: nat)
    requires 0 < n <= |fields| && InitArgs(schema, obj, fields, n).Ok?
    ensures InitArgs(schema, obj, fields, n - 1).Ok? && InitArg(schema, obj, fields[n - 1]).Ok?
    ensures InitArgs(schema, obj, fields, n).value ==
            InitArgs(schema, obj, fields, n - 1).value[fields[n - 1].name := InitArg(schema, obj, fields[n - 1]).value]
  {
  }

  lemma InsertNext(acc: map<string, Value>, fields: seq<Field>, n: nat, x: Value)
    requires 0 < n <= |fields| && DistinctNames(fields) && acc.Keys == NamesUpTo(fields, n - 1)
    ensures acc[fields[n - 1].name := x].Keys == NamesUpTo(fields, n)
    ensures forall j :: 0 <= j < n - 1 ==> acc[fields[n - 1].name := x][fields[j].name] == acc[fields[j].name]
  {
    assert NamesUpTo(fields, n) == NamesUpTo(fields, n - 1) + {fields[n - 1].name};
    forall j | 0 <= j < n - 1
      ensures acc[fields[n - 1].name := x][fields[j].name] == acc[fields[j].name]
    {
      assert fields[j].name != fields[n - 1].name;
    }
  }

  /** The whole `from_dict`, for a class whose field names are distinct. */
  lemma FromDictCharacterized(schema: Schema, cls: string, obj: Value)
    requires DistinctNames(Fields(schema, cls))
    ensures var fields := Fields(schema, cls);
            FromDict(schema, cls, obj).Ok? <==> forall j :: 0 <= j < |fields| ==> InitArg(schema, obj, fields[j]).Ok?
    ensures var fields := Fields(schema, cls);
            FromDict(schema, cls, obj).Ok? ==>
              var o := FromDict(schema, cls, obj).value;
              o.VObj? && o.cls == cls && o.args.Keys == NamesUpTo(fields, |fields|) &&
              forall j :: 0 <= j < |fields| ==> o.args[fields[j].name] == InitArg(schema, obj, fields[j]).value
  {
    var fields := Fields(schema, cls);
    InitArgsOk(schema, obj, fields, |fields|);
    if FromDict(schema, cls, obj).Ok? {
      InitArgsValues(schema, obj, fields, |fields|);
    }
  }

  /** `from_dict` builds exactly the instance whose arguments are the fields' parsed values. */
  lemma FromDictIs(schema: Schema, cls: string, obj: Value, args: map<string, Value>)
    requires DistinctNames(Fields(schema, cls))
    requires args.Keys == NamesUpTo(Fields(schema, cls), |Fields(schema, cls)|)
    requires var fields := Fields(schema, cls);
             forall j :: 0 <= j < |fields| ==> fields[j].name in args && InitArg(schema, obj, fields[j]) == Ok(args[fields[j].name])
    ensures FromDict(schema, cls, obj) == Ok(VObj(cls, args))
  {
    FromDictCharacterized(schema, cls, obj);
    var o := FromDict(schema, cls, obj).value;
    assert o.args == args;
  }

  /**
   * An absent key takes the default, else the factory's product, else None: a
   * missing required field is not an error.
   */
  lemma AbsentKeyTakesDefault(schema: Schema, obj: Value, f: Field)
    requires obj.VDict? && KeyOf(f) !in obj.entries
    ensures InitArg(schema, obj, f) == DefaultValue(schema, f)
    ensures f.default.NoDefault? ==> InitArg(schema, obj, f) == Ok(VNone)
    ensures f.default.Const? ==> InitArg(schema, obj, f) == Ok(f.default.value)
    ensures f.default.FactoryList? ==> InitArg(schema, obj, f) == Ok(VList([]))
  {
  }

  /** A present key is deserialized with the field's type; an enforced constant must equal the default. */
  lemma PresentKeyDeserialized(schema: Schema, obj: Value, f: Field)
    requires obj.VDict? && KeyOf(f) in obj.entries
    ensures !EnforcedAsConstant(f) ==> InitArg(schema, obj, f) == Deserialize(schema, f.ty, obj.entries[KeyOf(f)])
    ensures EnforcedAsConstant(f) && InitArg(schema, obj, f).Ok? ==>
      InitArg(schema, obj, f) == Deserialize(schema, f.ty, obj.entries[KeyOf(f)]) == DefaultValue(schema, f)
    ensures EnforcedAsConstant(f) && Deserialize(schema, f.ty, obj.entries[KeyOf(f)]).Ok? &&
            DefaultValue(schema, f).Ok? &&
            Deserialize(schema, f.ty, obj.entries[KeyOf(f)]).value != DefaultValue(schema, f).value ==>
      InitArg(schema, obj, f) == Err(ValueError)
  {
  }

  /** A non-dict argument fails on `obj.get` unless the class has no fields. */
  lemma FromDictNonDict(schema: Schema, cls: string, obj: Value)
    requires !obj.VDict?
    ensures FromDict(schema, cls, obj) == if |Fields(schema, cls)| == 0 then Ok(VObj(cls, map[])) else Err(AttributeError)
  {
    var fields := Fields(schema, cls);
    if |fields| > 0 {
      assert InitArgs(schema, obj, fields, 1) == Err(AttributeError);
      InitArgsErr(schema, obj, fields, 1, |fields|);
    }
  }

  /** A field reads only its own key. */
  lemma InitArgIgnoresOtherKey(schema: Schema, entries: map<string, Value>, key: string, w: Value, f: Field)
    requires KeyOf(f) != key
    ensures InitArg(schema, VDict(entries[key := w]), f) == InitArg(schema, VDict(entries), f)
  {
    assert KeyOf(f) in entries[key := w] <==> KeyOf(f) in entries;
    if KeyOf(f) in entries {
      assert entries[key := w][KeyOf(f)] == entries[KeyOf(f)];
    }
  }

  /** Keys that are not the key of some field are ignored. */
  lemma {:induction false} InitArgsIgnoresExtraKey(schema: Schema, entries: map<string, Value>, key: string, w: Value,
                                                  fields: seq<Field>, n: nat)
    requires n <= |fields|
    requires forall j :: 0 <= j < n ==> KeyOf(fields[j]) != key
    ensures InitArgs(schema, VDict(entries[key := w]), fields, n) == InitArgs(schema, VDict(entries), fields, n)
    decreases n
  {
    if n > 0 {
      InitArgsIgnoresExtraKey(schema, entries, key, w, fields, n - 1);
      InitArgIgnoresOtherKey(schema, entries, key, w, fields[n - 1]);
    }
  }

  lemma FromDictIgnoresExtraKey(schema: Schema, cls: string, entries: map<string, Value>, key: string, w: Value)
    requires forall j :: 0 <= j < |Fields(schema, cls)| ==> KeyOf(Fields(schema, cls)[j]) != key
    ensures FromDict(schema, cls, VDict(entries[key := w])) == FromDict(schema, cls, VDict(entries))
  {
    InitArgsIgnoresExtraKey(schema, entries, key, w, Fields(schema, cls), |Fields(schema, cls)|);
  }

  // ---------------------------------------------------------------------------
  // to_dict field by field.

  /** The serialized value `to_dict` computes for a field, or the error it raises there. */
  function FieldOut(schema: Schema, obj: Value, f: Field): Result<Value>
    requires obj.VObj?
  {
    if f.name !in obj.args then Err(AttributeError) else ToDictValue(schema, obj, f, obj.args[f.name])
  }

  /** Whether `to_dict` writes the field's key. */
  predicate Written(schema: Schema, obj: Value, f: Field)
    requires obj.VObj?
  {
    FieldOut(schema, obj, f).Ok? && (FieldOut(schema, obj, f).value != VNone || IncludesNone(f))
  }

  /** `to_dict`'s loop over the first `n` fields succeeds exactly when every field's value does. */
  lemma {:induction false} ToDictEntriesOk(schema: Schema, obj: Value, fields: seq<Field>, n: nat)
    requires obj.VObj? && n <= |fields|
    ensures ToDictEntries(schema, obj, fields, n).Ok? <==> forall j :: 0 <= j < n ==> FieldOut(schema, obj, fields[j]).Ok?
    decreases n
  {
    if n > 0 {
      ToDictEntriesOk(schema, obj, fields, n - 1);
      assert ToDictEntries(schema, obj, fields, n).Ok? <==>
             ToDictEntries(schema, obj, fields, n - 1).Ok? && FieldOut(schema, obj, fields[n - 1]).Ok?;
    }
  }

  /** It fails with the error of the first failing field. */
  lemma ToDictEntriesFirstErr(schema: Schema, obj: Value, fields: seq<Field>, n: nat, k: nat)
    requires obj.VObj? && k < n <= |fields|
    requires forall j :: 0 <= j < k ==> FieldOut(schema, obj, fields[j]).Ok?
    requires FieldOut(schema, obj, fields[k]).Err?
    ensures ToDictEntries(schema, obj, fields, n) == Err(FieldOut(schema, obj, fields[k]).error)
  {
    assert ToDictEntries(schema, obj, fields, k + 1) == Err(FieldOut(schema, obj, fields[k]).error) by {
      ToDictEntriesOk(schema, obj, fields, k);
    }
    ToDictEntriesErr(schema, obj, fields, k + 1, n);
  }

  /** The keys of the written fields among the first `n`. */
  function WrittenKeys(schema: Schema, obj: Value, fields: seq<Field>, n: nat): (keys: set<string>)
    requires obj.VObj? && n <= |fields|
    ensures forall j :: 0 <= j < n && Written(schema, obj, fields[j]) ==> KeyOf(fields[j]) in keys
  {
    if n == 0 then {}
    else WrittenKeys(schema, obj, fields, n - 1) + if Written(schema, obj, fields[n - 1]) then {KeyOf(fields[n - 1])} else {}
  }

  /** Every written key comes from some written field among the first `n`. */
  lemma {:induction false} WrittenKeysMeaning(schema: Schema, obj: Value, fields: seq<Field>, n: nat)
    requires obj.VObj? && n <= |fields|
    ensures forall key :: key in WrittenKeys(schema, obj, fields, n) ==>
              exists j :: 0 <= j < n && Written(schema, obj, fields[j]) && KeyOf(fields[j]) == key
    decreases n
  {
    if n > 0 {
      WrittenKeysMeaning(schema, obj, fields, n - 1);
      var rest := WrittenKeys(schema, obj, fields, n - 1);
      var f := fields[n - 1];
      assert WrittenKeys(schema, obj, fields, n) == rest + if Written(schema, obj, f) then {KeyOf(f)} else {};
      forall key | key in WrittenKeys(schema, obj, fields, n)
        ensures exists j :: 0 <= j < n && Written(schema, obj, fields[j]) && KeyOf(fields[j]) == key
      {
        if key !in rest {
          assert Written(schema, obj, fields[n - 1]) && KeyOf(fields[n - 1]) == key;
        }
      }
    }
  }

  /** One step of `to_dict`'s loop, in terms of the field's serialized value. */
  lemma ToDictEntriesStep(schema: Schema, obj: Value, fields: seq<Field>, n: nat)
    requires obj.VObj? && 0 < n <= |fields|
    requires ToDictEntries(schema, obj, fields, n - 1).Ok? && FieldOut(schema, obj, fields[n - 1]).Ok?
    ensures var acc := ToDictEntries(schema, obj, fields, n - 1).value;
            var f := fields[n - 1];
            ToDictEntries(schema, obj, fields, n) ==
              Ok(if Written(schema, obj, f) then acc[KeyOf(f) := FieldOut(schema, obj, f).value] else acc)
  {
  }

  /** A successful loop over `n` fields succeeded over the first `n - 1` and on the last. */
  lemma ToDictEntriesNext(schema: Schema, obj: Value, fields: seq<Field>, n: nat)
    requires obj.VObj? && 0 < n <= |fields|
    requires ToDictEntries(schema, obj, fields, n).Ok?
    ensures ToDictEntries(schema, obj, fields, n - 1).Ok? && FieldOut(schema, obj, fields[n - 1]).Ok?
  {
  }

  /** On success its keys are those of the written fields. */
  lemma {:induction false} ToDictEntriesKeys(schema: Schema, obj: Value, fields: seq<Field>, n: nat)
    requires obj.VObj? && n <= |fields|
    requires ToDictEntries(schema, obj, fields, n).Ok?
    ensures ToDictEntries(schema, obj, fields, n).value.Keys == WrittenKeys(schema, obj, fields, n)
    decreases n
  {
    if n > 0 {
      ToDictEntriesNext(schema, obj, fields, n);
      ToDictEntriesKeys(schema, obj, fields, n - 1);
      ToDictEntriesStep(schema, obj, fields, n);
      var f := fields[n - 1];
      var acc := ToDictEntries(schema, obj, fields, n - 1).value;
      var rest := WrittenKeys(schema, obj, fields, n - 1);
      assert WrittenKeys(schema, obj, fields, n) == rest + if Written(schema, obj, f) then {KeyOf(f)} else {};
      if Written(schema, obj, f) {
        assert acc[KeyOf(f) := FieldOut(schema, obj, f).value].Keys == acc.Keys + {KeyOf(f)};
      }
    }
  }

  /** The dict built in order from keys, whether each is written, and values. */
  function Fold<V>(keys: seq<string>, ws: seq<bool>, vs: seq<V>, n: nat): map<string, V>
    requires n <= |keys| && n <= |ws| && n <= |vs|
  {
    if n == 0 then map[]
    else
      var acc := Fold(keys, ws, vs, n - 1);
      if ws[n - 1] then acc[keys[n - 1] := vs[n - 1]] else acc
  }

  /** With distinct keys, each written key holds its own value. */
  lemma {:induction false} FoldValues<V>(keys: seq<string>, ws: seq<bool>, vs: seq<V>, n: nat)
    requires n <= |keys| && n <= |ws| && n <= |vs|
    requires forall a, b :: 0 <= a < b < n ==> keys[a] != keys[b]
    ensures forall j :: 0 <= j < n && ws[j] ==> keys[j] in Fold(keys, ws, vs, n) && Fold(keys, ws, vs, n)[keys[j]] == vs[j]
    decreases n
  {
    if n > 0 {
      FoldValues(keys, ws, vs, n - 1);
      var acc := Fold(keys, ws, vs, n - 1);
      forall j | 0 <= j < n - 1 && ws[j]
        ensures keys[j] in Fold(keys, ws, vs, n) && Fold(keys, ws, vs, n)[keys[j]] == vs[j]
      {
        assert keys[j] in acc && acc[keys[j]] == vs[j];
        assert keys[j] != keys[n - 1];
      }
    }
  }

  /** The keys, written flags and values of the fields, position by position. */
  function KeysOf(fields: seq<Field>): (keys: seq<string>)
  {
    seq(|fields|, j requires 0 <= j < |fields| => KeyOf(fields[j]))
  }

  function WrittenOf(schema: Schema, obj: Value, fields: seq<Field>): seq<bool>
    requires obj.VObj?
  {
    seq(|fields|, j requires 0 <= j < |fields| => Written(schema, obj, fields[j]))
  }

  function OutsOf(schema: Schema, obj: Value, fields: seq<Field>): seq<Value>
    requires obj.VObj?
  {
    seq(|fields|, j requires 0 <= j < |fields| =>
      var o := FieldOut(schema, obj, fields[j]); if o.Ok? then o.value else VNone)
  }

  /** On success, `to_dict`'s loop builds the fold of the fields' keys, flags and values. */
  lemma {:induction false} ToDictEntriesFold(schema: Schema, obj: Value, fields: seq<Field>, n: nat)
    requires obj.VObj? && n <= |fields|
    requires ToDictEntries(schema, obj, fields, n).Ok?
    ensures ToDictEntries(schema, obj, fields, n).value ==
            Fold(KeysOf(fields), WrittenOf(schema, obj, fields), OutsOf(schema, obj, fields), n)
    decreases n
  {
    if n > 0 {
      ToDictEntriesFold(schema, obj, fields, n - 1);
      ToDictEntriesStep(schema, obj, fields, n);
    }
  }

  /** On success each written field's key holds that field's serialized value. */
  lemma ToDictEntriesValues(schema: Schema, obj: Value, fields: seq<Field>, n: nat)
    requires obj.VObj? && n <= |fields| && DistinctKeys(fields)
    requires ToDictEntries(schema, obj, fields, n).Ok?
    ensures var m := ToDictEntries(schema, obj, fields, n).value;
            forall j :: 0 <= j < n && Written(schema, obj, fields[j]) ==>
              KeyOf(fields[j]) in m && m[KeyOf(fields[j])] == FieldOut(schema, obj, fields[j]).value
  {
    var keys, ws, vs := KeysOf(fields), WrittenOf(schema, obj, fields), OutsOf(schema, obj, fields);
    forall a, b | 0 <= a < b < n ensures keys[a] != keys[b] {
      assert KeyOf(fields[a]) != KeyOf(fields[b]);
    }
    ToDictEntriesFold(schema, obj, fields, n);
    FoldValues(keys, ws, vs, n);
    var m := ToDictEntries(schema, obj, fields, n).value;
    forall j | 0 <= j < n && Written(schema, obj, fields[j])
      ensures KeyOf(fields[j]) in m && m[KeyOf(fields[j])] == FieldOut(schema, obj, fields[j]).value
    {
      assert ws[j] && keys[j] == KeyOf(fields[j]) && vs[j] == FieldOut(schema, obj, fields[j]).value;
    }
  }

  lemma ToDictCharacterized(schema: Schema, obj: Value)
    requires obj.VObj? && DistinctKeys(Fields(schema, obj.cls))
    ensures var fields := Fields(schema, obj.cls);
            ToDict(schema, obj).Ok? <==> forall j :: 0 <= j < |fields| ==> FieldOut(schema, obj, fields[j]).Ok?
    ensures var fields := Fields(schema, obj.cls);
            ToDict(schema, obj).Ok? ==>
              var d := ToDict(schema, obj).value;
              d.VDict? && d.entries.Keys == WrittenKeys(schema, obj, fields, |fields|) &&
              forall j :: 0 <= j < |fields| && Written(schema, obj, fields[j]) ==>
                d.entries[KeyOf(fields[j])] == FieldOut(schema, obj, fields[j]).value
  {
    var fields := Fields(schema, obj.cls);
    ToDictEntriesOk(schema, obj, fields, |fields|);
    if ToDict(schema, obj).Ok? {
      ToDictEntriesValues(schema, obj, fields, |fields|);
      ToDictEntriesKeys(schema, obj, fields, |fields|);
    }
  }

  /** `to_dict` yields exactly the dict that holds each written field's serialized value under its key. */
  lemma ToDictIs(schema: Schema, obj: Value, m: map<string, Value>)
    requires obj.VObj? && DistinctKeys(Fields(schema, obj.cls))
    requires var fields := Fields(schema, obj.cls);
             forall j :: 0 <= j < |fields| ==> FieldOut(schema, obj, fields[j]).Ok?
    requires m.Keys == WrittenKeys(schema, obj, Fields(schema, obj.cls), |Fields(schema, obj.cls)|)
    requires var fields := Fields(schema, obj.cls);
             forall j :: 0 <= j < |fields| && Written(schema, obj, fields[j]) ==>
               m[KeyOf(fields[j])] == FieldOut(schema, obj, fields[j]).value
    ensures ToDict(schema, obj) == Ok(VDict(m))
  {
    ToDictCharacterized(schema, obj);
    WrittenKeysMeaning(schema, obj, Fields(schema, obj.cls), |Fields(schema, obj.cls)|);
    var d := ToDict(schema, obj).value.entries;
    var fields := Fields(schema, obj.cls);
    forall key | key in m ensures d[key] == m[key] {
      var j :| 0 <= j < |fields| && Written(schema, obj, fields[j]) && KeyOf(fields[j]) == key;
    }
    assert d == m;
  }

  /** The conditional key set `{k} if written else {}`. */
  function KeyIf(b: bool, k: string): set<string>
  {
    if b then {k} else {}
  }

  /** The written keys of a class with two, three or four fields, given their keys. */
  lemma WrittenKeys2(schema: Schema, obj: Value, fields: seq<Field>, k0: string, k1: string)
    requires obj.VObj? && |fields| == 2 && KeyOf(fields[0]) == k0 && KeyOf(fields[1]) == k1
    ensures WrittenKeys(schema, obj, fields, 2) ==
      KeyIf(Written(schema, obj, fields[0]), k0) + KeyIf(Written(schema, obj, fields[1]), k1)
  {
    assert WrittenKeys(schema, obj, fields, 1) == {} + KeyIf(Written(schema, obj, fields[0]), k0);
  }

  lemma WrittenKeys3(schema: Schema, obj: Value, fields: seq<Field>, k0: string, k1: string, k2: string)
    requires obj.VObj? && |fields| == 3 && KeyOf(fields[0]) == k0 && KeyOf(fields[1]) == k1 && KeyOf(fields[2]) == k2
    ensures WrittenKeys(schema, obj, fields, 3) ==
      KeyIf(Written(schema, obj, fields[0]), k0) + KeyIf(Written(schema, obj, fields[1]), k1) +
      KeyIf(Written(schema, obj, fields[2]), k2)
  {
    WrittenKeys2(schema, obj, fields[..2], k0, k1);
    assert WrittenKeys(schema, obj, fields, 2) == WrittenKeys(schema, obj, fields[..2], 2) by {
      WrittenKeysPrefix(schema, obj, fields, 2, 2);
    }
  }

  lemma WrittenKeys4(schema: Schema, obj: Value, fields: seq<Field>, k0: string, k1: string, k2: string, k3: string)
    requires obj.VObj? && |fields| == 4
    requires KeyOf(fields[0]) == k0 && KeyOf(fields[1]) == k1 && KeyOf(fields[2]) == k2 && KeyOf(fields[3]) == k3
    ensures WrittenKeys(schema, obj, fields, 4) ==
      KeyIf(Written(schema, obj, fields[0]), k0) + KeyIf(Written(schema, obj, fields[1]), k1) +
      KeyIf(Written(schema, obj, fields[2]), k2) + KeyIf(Written(schema, obj, fields[3]), k3)
  {
    WrittenKeys3(schema, obj, fields[..3], k0, k1, k2);
    assert WrittenKeys(schema, obj, fields, 3) == WrittenKeys(schema, obj, fields[..3], 3) by {
      WrittenKeysPrefix(schema, obj, fields, 3, 3);
    }
  }

  /** `to_dict` of an instance of a two-field class whose fields are both written. */
  lemma ToDictTwo(schema: Schema, obj: Value, k0: string, k1: string)
    requires obj.VObj? && |Fields(schema, obj.cls)| == 2 && DistinctKeys(Fields(schema, obj.cls))
    requires var fields := Fields(schema, obj.cls);
             KeyOf(fields[0]) == k0 && KeyOf(fields[1]) == k1 &&
             Written(schema, obj, fields[0]) && Written(schema, obj, fields[1])
    ensures var fields := Fields(schema, obj.cls);
            ToDict(schema, obj) == Ok(VDict(map[k0 := FieldOut(schema, obj, fields[0]).value,
                                                k1 := FieldOut(schema, obj, fields[1]).value]))
  {
    var fields := Fields(schema, obj.cls);
    WrittenKeys2(schema, obj, fields, k0, k1);
    var m := map[k0 := FieldOut(schema, obj, fields[0]).value, k1 := FieldOut(schema, obj, fields[1]).value];
    assert k0 != k1;
    ToDictIs(schema, obj, m);
  }

  /** `to_dict` of an instance of a three-field class whose fields are all written. */
  lemma ToDictThree(schema: Schema, obj: Value, k0: string, k1: string, k2: string)
    requires obj.VObj? && |Fields(schema, obj.cls)| == 3 && DistinctKeys(Fields(schema, obj.cls))
    requires var fields := Fields(schema, obj.cls);
             KeyOf(fields[0]) == k0 && KeyOf(fields[1]) == k1 && KeyOf(fields[2]) == k2 &&
             Written(schema, obj, fields[0]) && Written(schema, obj, fields[1]) && Written(schema, obj, fields[2])
    ensures var fields := Fields(schema, obj.cls);
            ToDict(schema, obj) == Ok(VDict(map[k0 := FieldOut(schema, obj, fields[0]).value,
                                                k1 := FieldOut(schema, obj, fields[1]).value,
                                                k2 := FieldOut(schema, obj, fields[2]).value]))
  {
    var fields := Fields(schema, obj.cls);
    WrittenKeys3(schema, obj, fields, k0, k1, k2);
    var m := map[k0 := FieldOut(schema, obj, fields[0]).value,
                 k1 := FieldOut(schema, obj, fields[1]).value,
                 k2 := FieldOut(schema, obj, fields[2]).value];
    assert k0 != k1 && k0 != k2 && k1 != k2;
    ToDictIs(schema, obj, m);
  }

  /** `to_dict` of an instance whose three fields are all written, given the value each field is written as. */
  lemma ToDictThreeOut(schema: Schema, obj: Value, fields: seq<Field>, k0: string, k1: string, k2: string,
                       v0: Value, v1: Value, v2: Value)
    requires obj.VObj? && Fields(schema, obj.cls) == fields && |fields| == 3 && DistinctKeys(fields)
    requires KeyOf(fields[0]) == k0 && KeyOf(fields[1]) == k1 && KeyOf(fields[2]) == k2
    requires FieldOut(schema, obj, fields[0]) == Ok(v0) && v0 != VNone
    requires FieldOut(schema, obj, fields[1]) == Ok(v1) && v1 != VNone
    requires FieldOut(schema, obj, fields[2]) == Ok(v2) && v2 != VNone
    ensures ToDict(schema, obj) == Ok(VDict(map[k0 := v0, k1 := v1, k2 := v2]))
  {
    ToDictThree(schema, obj, k0, k1, k2);
  }

  /** WrittenKeys of the first `n` fields depends only on those fields. */
  lemma {:induction false} WrittenKeysPrefix(schema: Schema, obj: Value, fields: seq<Field>, m: nat, n: nat)
    requires obj.VObj? && n <= m <= |fields|
    ensures WrittenKeys(schema, obj, fields, n) == WrittenKeys(schema, obj, fields[..m], n)
    decreases n
  {
    if n > 0 {
      WrittenKeysPrefix(schema, obj, fields, m, n - 1);
      assert fields[..m][n - 1] == fields[n - 1];
    }
  }

  /** Without a 'name' override, a one-word field name is its own key. */
  lemma KeyIsName(f: Field)
    requires "name" !in f.meta && NoUnderscore(f.name)
    ensures KeyOf(f) == f.name
  {
    CamelCaseIdentity(f.name);
  }

  /** The dict `to_dict` returns holds a written field's serialized value under its key. */
  lemma ToDictEntry(schema: Schema, obj: Value, j: nat)
    requires obj.VObj? && DistinctKeys(Fields(schema, obj.cls)) && ToDict(schema, obj).Ok?
    requires j < |Fields(schema, obj.cls)| && Written(schema, obj, Fields(schema, obj.cls)[j])
    ensures var f := Fields(schema, obj.cls)[j];
            ToDict(schema, obj).value.VDict? && KeyOf(f) in ToDict(schema, obj).value.entries &&
            ToDict(schema, obj).value.entries[KeyOf(f)] == FieldOut(schema, obj, f).value
  {
    ToDictCharacterized(schema, obj);
  }

  /** A field that `to_dict` does not write has no key in the dict, when no other field shares its key. */
  lemma ToDictOmits(schema: Schema, obj: Value, j: nat)
    requires obj.VObj? && DistinctKeys(Fields(schema, obj.cls)) && ToDict(schema, obj).Ok?
    requires j < |Fields(schema, obj.cls)| && !Written(schema, obj, Fields(schema, obj.cls)[j])
    ensures ToDict(schema, obj).value.VDict? && KeyOf(Fields(schema, obj.cls)[j]) !in ToDict(schema, obj).value.entries
  {
    ToDictCharacterized(schema, obj);
    var fields := Fields(schema, obj.cls);
    forall i | 0 <= i < |fields| && Written(schema, obj, fields[i]) ensures KeyOf(fields[i]) != KeyOf(fields[j]) {
      assert i != j;
    }
    WrittenKeysMeaning(schema, obj, fields, |fields|);
  }

  /** None is written only under include_none; an include_none field's None is written as null. */
  lemma NoneOmittedUnlessIncluded(schema: Schema, obj: Value, f: Field)
    requires obj.VObj? && FieldOut(schema, obj, f) == Ok(VNone)
    ensures Written(schema, obj, f) <==> IncludesNone(f)
  {
  }

  /** An enforced constant is written from its default, whatever the instance holds. */
  lemma EnforcedWritesDefault(schema: Schema, obj: Value, f: Field, w: Value)
    requires obj.VObj? && f.name in obj.args && EnforcedAsConstant(f)
    requires DefaultValue(schema, f).Ok? && ObjFree(DefaultValue(schema, f).value)
    ensures FieldOut(schema, obj, f) == Serialize(schema, f.ty, DefaultValue(schema, f).value)
    ensures FieldOut(schema, VObj(obj.cls, obj.args[f.name := w]), f) == FieldOut(schema, obj, f)
  {
  }

  // ---------------------------------------------------------------------------
  // clone.

  /** `clone()` is `from_dict(to_dict(self))` on the instance's own class. */
  lemma CloneIsFromDictOfToDict(schema: Schema, obj: Value)
    requires obj.VObj?
    ensures ToDict(schema, obj).Err? ==> CloneOf(schema, obj) == Err(ToDict(schema, obj).error)
    ensures ToDict(schema, obj).Ok? ==> CloneOf(schema, obj) == FromDict(schema, obj.cls, ToDict(schema, obj).value)
  {
  }
}
