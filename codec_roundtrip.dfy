/**
 * `from_dict(to_dict(x)) == x`, and `_deserialize_field(_serialize_field(v, t), t) == v`,
 * for every value that the annotated types describe unambiguously.
 */
module CodecRoundTrip {
  import opened Values
  import opened Naming
  import opened Codec
  import opened CodecLaws

  /** A candidate type that is tried as one iteration of the loop (no nested union, no None, no IntFlag). */
  predicate Simple(t: Ty)
  {
    !t.TUnion? && t != TNone && !t.TFlag?
  }

  /**
   * `v` is a value of type `ty` that survives a round trip:
   *  - enum members must belong to their enum; IntFlag values and `Dict[...]` fields never parse;
   *  - Any holds JSON data only;
   *  - in a union, no candidate before the one that serializes `v` may
   *    handle the kind of JSON value it produces;
   *  - an instance holds exactly its class's fields (see StructRT).
   */
  predicate RT(schema: Schema, ty: Ty, v: Value)
    decreases v, ty, 2
  {
    match ty
    case TAny => IsJson(v)
    case TInt => v.VInt?
    case TStr => v.VStr?
    case TBool => v.VBool?
    case TNone => v == VNone
    case TIntEnum(n, vals) => v.VEnum? && v.enum == n && v.member.VInt? && v.member.i in vals
    case TStrEnum(n, vals) => v.VEnum? && v.enum == n && v.member.VStr? && v.member.s in vals
    case TFlag(_, _) => false
    case TDict(_, _) => false
    case TList(e) => v.VList? && forall i :: 0 <= i < |v.items| ==> RT(schema, e, v.items[i])
    case TStruct(c) => v.VObj? && v.cls == c && c in schema && StructRT(schema, ty, v)
    case TUnion(alts) => if v == VNone then TNone in alts || TAny in alts else UnionRT(schema, ty, v)
  }

  predicate UnionRT(schema: Schema, ty: Ty, v: Value)
    requires ty.TUnion?
    decreases v, ty, 1
  {
    var alts := RemoveFirst(ty.alts, TNone);
    var k := FirstHandler(schema, alts, v);
    k < |alts| && alts[k] in ty.alts && Simple(alts[k]) && RT(schema, alts[k], v) &&
    forall l :: 0 <= l < k ==> !DesHandles(alts[l], Image(alts[k], v))
  }

  /** A value of the kind that `_serialize_field` produces for `v` under the candidate `t`. */
  function Image(t: Ty, v: Value): Value
  {
    if t.TStruct? then VDict(map[])
    else if t.TList? then VList([])
    else if v.VEnum? then v.member
    else v
  }

  /**
   * An instance round-trips when it holds exactly its class's fields (distinct
   * names and keys), each field's value round-trips, an enforced constant holds
   * its default, and a None that `to_dict` omits is also what `from_dict` fills in.
   */
  predicate StructRT(schema: Schema, ty: Ty, v: Value)
    requires v.VObj? && v.cls in schema
    decreases v, ty, 0
  {
    var fields := schema[v.cls].fields;
    DistinctNames(fields) && DistinctKeys(fields) && v.args.Keys == NamesUpTo(fields, |fields|) &&
    forall j :: 0 <= j < |fields| ==>
      fields[j].name in v.args && RT(schema, fields[j].ty, v.args[fields[j].name]) &&
      FieldOk(schema, fields[j], v.args[fields[j].name])
  }

  predicate FieldOk(schema: Schema, f: Field, x: Value)
  {
    (EnforcedAsConstant(f) ==> DefaultValue(schema, f) == Ok(x) && ObjFree(x)) &&
    (x == VNone && !IncludesNone(f) ==> DefaultValue(schema, f) == Ok(VNone))
  }

  /** The round trip of one value through `_serialize_field` and `_deserialize_field`. */
  lemma {:induction false} RoundTrip(schema: Schema, ty: Ty, v: Value)
    requires RT(schema, ty, v)
    ensures Serialize(schema, ty, v).Ok?
    ensures IsJson(Serialize(schema, ty, v).value)
    ensures v != VNone ==> Serialize(schema, ty, v).value != VNone
    ensures Deserialize(schema, ty, Serialize(schema, ty, v).value) == Ok(v)
    decreases v, ty, 3
  {
    if v == VNone {
      NoneHandling(schema, ty);
      return;
    }
    if ty.TList? {
      ListRoundTrip(schema, ty, v);
    } else if ty.TStruct? {
      StructValueRoundTrip(schema, ty, v);
    } else if ty.TUnion? {
      UnionRoundTrip(schema, ty, v);
    } else {
      ScalarRoundTrip(schema, ty, v);
    }
  }

  /** A dataclass instance goes through `to_dict` and `from_dict`. */
  lemma {:induction false} StructValueRoundTrip(schema: Schema, ty: Ty, v: Value)
    requires ty.TStruct? && RT(schema, ty, v) && v != VNone
    ensures Serialize(schema, ty, v).Ok?
    ensures IsJson(Serialize(schema, ty, v).value)
    ensures Serialize(schema, ty, v).value != VNone
    ensures Deserialize(schema, ty, Serialize(schema, ty, v).value) == Ok(v)
    decreases v, ty, 2
  {
    StructRoundTrip(schema, ty, v);
    StructWritten(schema, ty.cls, v);
    StructRead(schema, ty.cls, ToDict(schema, v).value);
  }

  /** An instance of the class, as that class, is written as its `to_dict()`. */
  lemma StructWritten(schema: Schema, cls: string, v: Value)
    requires v.VObj? && v.cls == cls && cls in schema
    ensures Serialize(schema, TStruct(cls), v) == ToDict(schema, v)
  {
    SingleSerialize(schema, TStruct(cls), v);
  }

  /** A dict the class's `from_dict` accepts is read as that instance. */
  lemma StructRead(schema: Schema, cls: string, d: Value)
    requires d.VDict? && FromDict(schema, cls, d).Ok?
    ensures Deserialize(schema, TStruct(cls), d) == FromDict(schema, cls, d)
  {
    SingleDeserialize(schema, TStruct(cls), d);
  }

  /** Any, the primitive types and the enums: the value, or the member's `.value`, and back. */
  lemma ScalarRoundTrip(schema: Schema, ty: Ty, v: Value)
    requires RT(schema, ty, v) && v != VNone && !ty.TList? && !ty.TStruct? && !ty.TUnion?
    ensures Serialize(schema, ty, v).Ok?
    ensures IsJson(Serialize(schema, ty, v).value)
    ensures Serialize(schema, ty, v).value != VNone
    ensures Serialize(schema, ty, v).value == Image(ty, v)
    ensures Deserialize(schema, ty, Serialize(schema, ty, v).value) == Ok(v)
  {
    if ty.TIntEnum? || ty.TStrEnum? {
      EnumRoundTrip(schema, ty, v);
    } else {
      PlainRoundTrip(schema, ty, v);
    }
  }

  /** An enum member is written as its value, which parses back as the member. */
  lemma EnumRoundTrip(schema: Schema, ty: Ty, v: Value)
    requires RT(schema, ty, v) && (ty.TIntEnum? || ty.TStrEnum?)
    ensures Serialize(schema, ty, v).Ok?
    ensures IsJson(Serialize(schema, ty, v).value)
    ensures Serialize(schema, ty, v).value != VNone
    ensures Serialize(schema, ty, v).value == Image(ty, v)
    ensures Deserialize(schema, ty, Serialize(schema, ty, v).value) == Ok(v)
  {
    SingleSerialize(schema, ty, v);
    SingleDeserialize(schema, ty, v.member);
  }

  /** An int, str, bool or JSON value is written as itself and parses back as itself. */
  lemma PlainRoundTrip(schema: Schema, ty: Ty, v: Value)
    requires RT(schema, ty, v) && v != VNone && (ty.TAny? || ty.TInt? || ty.TStr? || ty.TBool?)
    ensures Serialize(schema, ty, v).Ok?
    ensures IsJson(Serialize(schema, ty, v).value)
    ensures Serialize(schema, ty, v).value != VNone
    ensures Serialize(schema, ty, v).value == Image(ty, v)
    ensures Deserialize(schema, ty, Serialize(schema, ty, v).value) == Ok(v)
  {
    SingleSerialize(schema, ty, v);
    SingleDeserialize(schema, ty, v);
  }

  lemma {:induction false} ListRoundTrip(schema: Schema, ty: Ty, v: Value)
    requires ty.TList? && RT(schema, ty, v) && v != VNone
    ensures Serialize(schema, ty, v).Ok?
    ensures IsJson(Serialize(schema, ty, v).value)
    ensures Serialize(schema, ty, v).value.VList?
    ensures Deserialize(schema, ty, Serialize(schema, ty, v).value) == Ok(v)
    decreases v, ty, 1
  {
    var e := ty.elem;
    forall j | 0 <= j < |v.items|
      ensures Serialize(schema, e, v.items[j]).Ok?
      ensures IsJson(Serialize(schema, e, v.items[j]).value)
      ensures Deserialize(schema, e, Serialize(schema, e, v.items[j]).value) == Ok(v.items[j])
    {
      RoundTrip(schema, e, v.items[j]);
    }
    ListSerializes(schema, ty, v);
    var out := Serialize(schema, ty, v).value.items;
    ListDeserializes(schema, ty, VList(out), v.items);
  }

  /** A list whose items all serialize is written item by item. */
  lemma ListSerializes(schema: Schema, ty: Ty, v: Value)
    requires ty.TList? && v.VList?
    requires forall j :: 0 <= j < |v.items| ==> Serialize(schema, ty.elem, v.items[j]).Ok?
    ensures Serialize(schema, ty, v).Ok? && Serialize(schema, ty, v).value.VList?
    ensures var out := Serialize(schema, ty, v).value.items;
            |out| == |v.items| && forall j :: 0 <= j < |out| ==> out[j] == Serialize(schema, ty.elem, v.items[j]).value
  {
    SerializeItemsElementwise(schema, ty.elem, v, 0);
    var out := SerializeItems(schema, ty.elem, v, 0).value;
    SingleSerialize(schema, ty, v);
    assert Serialize(schema, ty, v) == Ok(VList(out));
    forall j | 0 <= j < |out| ensures out[j] == Serialize(schema, ty.elem, v.items[j]).value {
      assert out[j] == out[j - 0];
    }
  }

  /** A list whose items all parse is read item by item. */
  lemma ListDeserializes(schema: Schema, ty: Ty, w: Value, items: seq<Value>)
    requires ty.TList? && w.VList? && |w.items| == |items|
    requires forall j :: 0 <= j < |items| ==> Deserialize(schema, ty.elem, w.items[j]) == Ok(items[j])
    ensures Deserialize(schema, ty, w) == Ok(VList(items))
  {
    DeserializeItemsElementwise(schema, ty.elem, w, 0);
    var back := DeserializeItems(schema, ty.elem, w, 0).value;
    assert back == items by {
      forall j | 0 <= j < |items| ensures back[j] == items[j] {
        assert back[j - 0] == Deserialize(schema, ty.elem, w.items[j]).value;
      }
    }
    SingleDeserialize(schema, ty, w);
  }

  lemma {:induction false} UnionRoundTrip(schema: Schema, ty: Ty, v: Value)
    requires ty.TUnion? && RT(schema, ty, v) && v != VNone
    ensures Serialize(schema, ty, v).Ok?
    ensures IsJson(Serialize(schema, ty, v).value)
    ensures Serialize(schema, ty, v).value != VNone
    ensures Deserialize(schema, ty, Serialize(schema, ty, v).value) == Ok(v)
    decreases v, ty, 1
  {
    var alts := RemoveFirst(ty.alts, TNone);
    var k := FirstHandler(schema, alts, v);
    var t := alts[k];
    RoundTrip(schema, t, v);
    ImageKind(schema, t, v);
    SingleSerialize(schema, t, v);
    forall l | 0 <= l < k ensures SerializeAlt(schema, alts[l], v).NoMatch? {
      SerNoMatch(schema, alts[l], v);
    }
    SerializeAltsFirstMatch(schema, alts, v, k);
    var s := Serialize(schema, t, v).value;
    assert Serialize(schema, ty, v) == Ok(s);
    SingleDeserialize(schema, t, s);
    forall l | 0 <= l < k ensures DeserializeAlt(schema, alts[l], s).NoMatch? {
      DesHandlesByKind(alts[l], Image(t, v), s);
      DesNoMatch(schema, alts[l], s);
    }
    DeserializeAltsFirstMatch(schema, alts, s, k);
  }

  /** The serialized form of a value of a candidate type has the kind `Image` predicts. */
  lemma ImageKind(schema: Schema, t: Ty, v: Value)
    requires Simple(t) && RT(schema, t, v) && v != VNone
    ensures Serialize(schema, t, v).Ok?
    ensures SameKind(Image(t, v), Serialize(schema, t, v).value)
    ensures !Image(t, v).VEnum?
    decreases v, t, 3
  {
    if t.TStruct? {
      assert Serialize(schema, t, v) == ToDict(schema, v) && ToDict(schema, v).Ok? && ToDict(schema, v).value.VDict? by {
        StructRoundTrip(schema, t, v);
        SingleSerialize(schema, t, v);
      }
    } else if t.TList? {
      ListRoundTrip(schema, t, v);
    } else {
      ScalarRoundTrip(schema, t, v);
    }
  }

  /** The round trip of an instance through `to_dict` and `from_dict`. */
  lemma {:induction false} StructRoundTrip(schema: Schema, ty: Ty, v: Value)
    requires ty.TStruct? && RT(schema, ty, v)
    ensures ToDict(schema, v).Ok?
    ensures ToDict(schema, v).value.VDict? && IsJson(ToDict(schema, v).value)
    ensures FromDict(schema, v.cls, ToDict(schema, v).value) == Ok(v)
    decreases v, ty, 1
  {
    StructFieldsRoundTrip(schema, ty, v);
    ToDictCharacterized(schema, v);
    StructToDict(schema, v);
    StructFromDict(schema, v, ToDict(schema, v).value);
  }

  /** Each field's value round-trips, and `to_dict` computes its serialized form. */
  lemma {:induction false} StructFieldsRoundTrip(schema: Schema, ty: Ty, v: Value)
    requires ty.TStruct? && RT(schema, ty, v)
    ensures var fields := schema[v.cls].fields;
      forall j :: 0 <= j < |fields| ==>
        fields[j].name in v.args &&
        var x := v.args[fields[j].name];
        && FieldOut(schema, v, fields[j]) == Serialize(schema, fields[j].ty, x)
        && Serialize(schema, fields[j].ty, x).Ok?
        && IsJson(Serialize(schema, fields[j].ty, x).value)
        && (x != VNone ==> Serialize(schema, fields[j].ty, x).value != VNone)
        && Deserialize(schema, fields[j].ty, Serialize(schema, fields[j].ty, x).value) == Ok(x)
    decreases v, ty, 0
  {
    var fields := schema[v.cls].fields;
    forall j | 0 <= j < |fields|
      ensures FieldOut(schema, v, fields[j]) == Serialize(schema, fields[j].ty, v.args[fields[j].name])
      ensures Serialize(schema, fields[j].ty, v.args[fields[j].name]).Ok?
      ensures IsJson(Serialize(schema, fields[j].ty, v.args[fields[j].name]).value)
      ensures v.args[fields[j].name] != VNone ==> Serialize(schema, fields[j].ty, v.args[fields[j].name]).value != VNone
      ensures Deserialize(schema, fields[j].ty, Serialize(schema, fields[j].ty, v.args[fields[j].name]).value) ==
              Ok(v.args[fields[j].name])
    {
      RoundTrip(schema, fields[j].ty, v.args[fields[j].name]);
    }
  }

  /** The fields' facts that `from_dict` needs to rebuild an instance from its dict. */
  predicate Rebuildable(schema: Schema, v: Value)
    requires v.VObj? && v.cls in schema
  {
    var fields := schema[v.cls].fields;
    DistinctNames(fields) && DistinctKeys(fields) && v.args.Keys == NamesUpTo(fields, |fields|) &&
    forall j :: 0 <= j < |fields| ==>
      fields[j].name in v.args &&
      var x := v.args[fields[j].name];
      && FieldOk(schema, fields[j], x)
      && FieldOut(schema, v, fields[j]) == Serialize(schema, fields[j].ty, x)
      && Serialize(schema, fields[j].ty, x).Ok?
      && IsJson(Serialize(schema, fields[j].ty, x).value)
      && (x != VNone ==> Serialize(schema, fields[j].ty, x).value != VNone)
      && Deserialize(schema, fields[j].ty, Serialize(schema, fields[j].ty, x).value) == Ok(x)
  }

  /** `to_dict` of a rebuildable instance succeeds with JSON data. */
  lemma StructToDict(schema: Schema, v: Value)
    requires v.VObj? && v.cls in schema && Rebuildable(schema, v)
    ensures ToDict(schema, v).Ok? && ToDict(schema, v).value.VDict? && IsJson(ToDict(schema, v).value)
  {
    var fields := schema[v.cls].fields;
    assert Fields(schema, v.cls) == fields;
    ToDictCharacterized(schema, v);
    WrittenKeysMeaning(schema, v, fields, |fields|);
    var m := ToDict(schema, v).value.entries;
    forall key | key in m ensures IsJson(m[key]) {
      var j :| 0 <= j < |fields| && Written(schema, v, fields[j]) && KeyOf(fields[j]) == key;
    }
  }

  /** `from_dict` of the dict `to_dict` wrote gives back the instance. */
  lemma StructFromDict(schema: Schema, v: Value, obj: Value)
    requires v.VObj? && v.cls in schema && Rebuildable(schema, v)
    requires ToDict(schema, v) == Ok(obj)
    ensures FromDict(schema, v.cls, obj) == Ok(v)
  {
    var fields := schema[v.cls].fields;
    assert Fields(schema, v.cls) == fields;
    StructInitArgs(schema, v, obj);
    FromDictIs(schema, v.cls, obj, v.args);
  }

  lemma StructInitArgs(schema: Schema, v: Value, obj: Value)
    requires v.VObj? && v.cls in schema && Rebuildable(schema, v)
    requires ToDict(schema, v) == Ok(obj)
    ensures forall j :: 0 <= j < |schema[v.cls].fields| ==>
              InitArg(schema, obj, schema[v.cls].fields[j]) == Ok(v.args[schema[v.cls].fields[j].name])
  {
    forall j | 0 <= j < |schema[v.cls].fields|
      ensures InitArg(schema, obj, schema[v.cls].fields[j]) == Ok(v.args[schema[v.cls].fields[j].name])
    {
      StructInitArg(schema, v, obj, j);
    }
  }

  /** `from_dict` reads each field of the dict `to_dict` wrote back to the instance's value. */
  lemma StructInitArg(schema: Schema, v: Value, obj: Value, j: nat)
    requires v.VObj? && v.cls in schema && Rebuildable(schema, v)
    requires ToDict(schema, v) == Ok(obj) && j < |schema[v.cls].fields|
    ensures InitArg(schema, obj, schema[v.cls].fields[j]) == Ok(v.args[schema[v.cls].fields[j].name])
  {
    var fields := schema[v.cls].fields;
    assert Fields(schema, v.cls) == fields;
    ToDictCharacterized(schema, v);
    var f := fields[j];
    if Written(schema, v, f) {
      PresentKeyDeserialized(schema, obj, f);
    } else {
      forall l | 0 <= l < |fields| && Written(schema, v, fields[l])
        ensures KeyOf(fields[l]) != KeyOf(f)
      {
        assert l != j;
      }
      WrittenKeysMeaning(schema, v, fields, |fields|);
      AbsentKeyTakesDefault(schema, obj, f);
    }
  }

  /** `clone()` returns an equal instance for every round-trippable instance. */
  lemma CloneIsIdentity(schema: Schema, ty: Ty, v: Value)
    requires ty.TStruct? && RT(schema, ty, v)
    ensures CloneOf(schema, v) == Ok(v)
  {
    StructRoundTrip(schema, ty, v);
  }

  /** `to_dict` is unchanged by the round trip: the dict parses back to a value with the same dict. */
  lemma ToDictStable(schema: Schema, ty: Ty, v: Value)
    requires ty.TStruct? && RT(schema, ty, v)
    ensures var d := ToDict(schema, v);
            d.Ok? && FromDict(schema, v.cls, d.value).Ok? &&
            ToDict(schema, FromDict(schema, v.cls, d.value).value) == d
  {
    StructRoundTrip(schema, ty, v);
  }

  // ---------------------------------------------------------------------------
  // Helpers for concrete schemas.

  /** `Optional[t]` holds None or a round-trippable value of `t`. */
  lemma OptionalRT(schema: Schema, t: Ty, v: Value)
    requires Simple(t) && (v == VNone || RT(schema, t, v))
    ensures RT(schema, Opt(t), v)
  {
    if v != VNone {
      var alts := RemoveFirst(Opt(t).alts, TNone);
      assert alts == [t] by {
        assert RemoveFirst(Opt(t).alts[1..], TNone) == [];
      }
      assert FirstHandler(schema, alts, v) == 0 by {
        ImageKind(schema, t, v);
        if !SerHandles(schema, t, v) {
          SerNoMatch(schema, t, v);
          SingleSerialize(schema, t, v);
        }
      }
    }
  }

  /** The arguments `{f1.name: v1, ..., fn.name: vn}` of the first `n` fields, in order. */
  function ArgsOf(fields: seq<Field>, vals: seq<Value>, n: nat): map<string, Value>
    requires |vals| == |fields| && n <= |fields|
  {
    if n == 0 then map[] else ArgsOf(fields, vals, n - 1)[fields[n - 1].name := vals[n - 1]]
  }

  /** The instance `cls(f1=v1, ..., fn=vn)` of a class with fields `fields`, given their values in order. */
  function Instance(cls: string, fields: seq<Field>, vals: seq<Value>): Value
    requires |vals| == |fields|
  {
    VObj(cls, ArgsOf(fields, vals, |fields|))
  }

  /** With distinct names, the arguments hold exactly the fields, each with its own value. */
  lemma {:induction false} ArgsOfValues(fields: seq<Field>, vals: seq<Value>, n: nat)
    requires |vals| == |fields| && n <= |fields| && DistinctNames(fields)
    ensures ArgsOf(fields, vals, n).Keys == NamesUpTo(fields, n)
    ensures forall j :: 0 <= j < n ==> fields[j].name in ArgsOf(fields, vals, n) && ArgsOf(fields, vals, n)[fields[j].name] == vals[j]
    decreases n
  {
    if n > 0 {
      ArgsOfValues(fields, vals, n - 1);
      assert NamesUpTo(fields, n) == NamesUpTo(fields, n - 1) + {fields[n - 1].name};
      forall j | 0 <= j < n - 1 ensures ArgsOf(fields, vals, n)[fields[j].name] == vals[j] {
        assert fields[j].name != fields[n - 1].name;
      }
    }
  }

  /** Fields `i..` hold values that fit them: each round-trips and is fine for its field. */
  predicate FitFrom(schema: Schema, fields: seq<Field>, vals: seq<Value>, i: nat)
    requires |vals| == |fields|
    decreases |fields| - i
  {
    i >= |fields| ||
    (RT(schema, fields[i].ty, vals[i]) && FieldOk(schema, fields[i], vals[i]) && FitFrom(schema, fields, vals, i + 1))
  }

  lemma {:induction false} FitFromAll(schema: Schema, fields: seq<Field>, vals: seq<Value>, i: nat)
    requires |vals| == |fields| && FitFrom(schema, fields, vals, i)
    ensures forall j :: i <= j < |fields| ==> RT(schema, fields[j].ty, vals[j]) && FieldOk(schema, fields[j], vals[j])
    decreases |fields| - i
  {
    if i < |fields| {
      FitFromAll(schema, fields, vals, i + 1);
    }
  }

  /** An instance round-trips when its class has distinct names and keys and each value fits its field. */
  lemma InstanceRT(schema: Schema, cls: string, vals: seq<Value>)
    requires cls in schema
    requires var fields := schema[cls].fields;
             |vals| == |fields| && DistinctNames(fields) && DistinctKeys(fields) && FitFrom(schema, fields, vals, 0)
    ensures RT(schema, TStruct(cls), Instance(cls, schema[cls].fields, vals))
  {
    var fields := schema[cls].fields;
    var args := ArgsOf(fields, vals, |fields|);
    ArgsOfValues(fields, vals, |fields|);
    FitFromAll(schema, fields, vals, 0);
    forall j | 0 <= j < |fields|
      ensures fields[j].name in args && RT(schema, fields[j].ty, args[fields[j].name]) && FieldOk(schema, fields[j], args[fields[j].name])
    {
      assert args[fields[j].name] == vals[j];
    }
    assert StructRT(schema, TStruct(cls), VObj(cls, args));
  }

  /** An instance of a declared class round-trips when its values fit the declared fields. */
  lemma DeclaredInstanceRT(schema: Schema, cls: string, decl: ClassDecl, vals: seq<Value>)
    requires Declares(schema, cls, decl)
    requires |vals| == |decl.fields| && DistinctNames(decl.fields) && DistinctKeys(decl.fields)
    requires FitFrom(schema, decl.fields, vals, 0)
    ensures RT(schema, TStruct(cls), Instance(cls, decl.fields, vals))
  {
    InstanceRT(schema, cls, vals);
  }

  /** A field without metadata is fine for any value, and for None when its default is None. */
  lemma PlainFieldOk(schema: Schema, f: Field, x: Value)
    requires f.meta == map[] && (x == VNone ==> f.default == Const(VNone) || f.default == NoDefault)
    ensures FieldOk(schema, f, x)
  {
  }

  /**
   * For a round-trippable instance, `to_dict` writes a field's key exactly when
   * the field's value is not None or the field has include_none.
   */
  lemma RTWritten(schema: Schema, v: Value, j: nat)
    requires v.VObj? && RT(schema, TStruct(v.cls), v) && j < |schema[v.cls].fields|
    ensures var f := schema[v.cls].fields[j];
            f.name in v.args && (Written(schema, v, f) <==> v.args[f.name] != VNone || IncludesNone(f))
  {
    StructFieldsRoundTrip(schema, TStruct(v.cls), v);
    NoneHandling(schema, schema[v.cls].fields[j].ty);
  }

  /** RTWritten for `cls(f1=v1, ..., fn=vn)`, in terms of the given values. */
  lemma InstanceWritten(schema: Schema, cls: string, vals: seq<Value>, j: nat)
    requires cls in schema && |vals| == |schema[cls].fields| && j < |vals| && DistinctNames(schema[cls].fields)
    requires RT(schema, TStruct(cls), Instance(cls, schema[cls].fields, vals))
    ensures var f := schema[cls].fields[j];
            Written(schema, Instance(cls, schema[cls].fields, vals), f) <==> vals[j] != VNone || IncludesNone(f)
  {
    ArgsOfValues(schema[cls].fields, vals, |vals|);
    RTWritten(schema, Instance(cls, schema[cls].fields, vals), j);
  }

  /** A non-None value of `Optional[t]` is serialized as `t` serializes it. */
  lemma OptionalSerialize(schema: Schema, t: Ty, v: Value)
    requires Simple(t) && RT(schema, t, v) && v != VNone
    ensures Serialize(schema, Opt(t), v) == Serialize(schema, t, v)
  {
    var alts := RemoveFirst(Opt(t).alts, TNone);
    assert alts == [t] by {
      assert Opt(t).alts[1..] == [TNone];
      assert RemoveFirst([TNone], TNone) == [];
    }
    RoundTrip(schema, t, v);
    SingleSerialize(schema, t, v);
    SerializeAltsFirstMatch(schema, alts, v, 0);
  }

  /** `to_dict` serializes a field of `cls(f1=v1, ..., fn=vn)` from the value given for it. */
  lemma ArgOut(schema: Schema, cls: string, fields: seq<Field>, vals: seq<Value>, j: nat)
    requires |vals| == |fields| && DistinctNames(fields) && j < |fields| && !EnforcedAsConstant(fields[j])
    ensures FieldOut(schema, Instance(cls, fields, vals), fields[j]) == Serialize(schema, fields[j].ty, vals[j])
  {
    ArgsOfValues(fields, vals, |fields|);
  }

  /** A nested instance given for a field of its class is written as its own `to_dict()`. */
  lemma ArgNestedOut(schema: Schema, cls: string, fields: seq<Field>, vals: seq<Value>, j: nat)
    requires |vals| == |fields| && DistinctNames(fields) && j < |fields| && !EnforcedAsConstant(fields[j])
    requires fields[j].ty.TStruct? && vals[j].VObj? && vals[j].cls == fields[j].ty.cls
    ensures FieldOut(schema, Instance(cls, fields, vals), fields[j]) == ToDict(schema, vals[j])
  {
    ArgOut(schema, cls, fields, vals, j);
    SingleSerialize(schema, fields[j].ty, vals[j]);
  }

  /** A str, int or bool given for a field of that type is written as itself. */
  lemma ArgPlainOut(schema: Schema, cls: string, fields: seq<Field>, vals: seq<Value>, j: nat)
    requires |vals| == |fields| && DistinctNames(fields) && j < |fields| && !EnforcedAsConstant(fields[j])
    requires (fields[j].ty == TStr && vals[j].VStr?) || (fields[j].ty == TInt && vals[j].VInt?) ||
             (fields[j].ty == TBool && vals[j].VBool?)
    ensures FieldOut(schema, Instance(cls, fields, vals), fields[j]) == Ok(vals[j])
  {
    ArgOut(schema, cls, fields, vals, j);
    SingleSerialize(schema, fields[j].ty, vals[j]);
  }

  /** A str or int given for an Optional[str] or Optional[int] field is written as itself. */
  lemma ArgOptPlainOut(schema: Schema, cls: string, fields: seq<Field>, vals: seq<Value>, j: nat)
    requires |vals| == |fields| && DistinctNames(fields) && j < |fields| && !EnforcedAsConstant(fields[j])
    requires (fields[j].ty == Opt(TStr) && vals[j].VStr?) || (fields[j].ty == Opt(TInt) && vals[j].VInt?)
    ensures FieldOut(schema, Instance(cls, fields, vals), fields[j]) == Ok(vals[j])
  {
    var t := if fields[j].ty == Opt(TStr) then TStr else TInt;
    ArgOut(schema, cls, fields, vals, j);
    OptionalSerialize(schema, t, vals[j]);
    SingleSerialize(schema, t, vals[j]);
  }

  /** `[SomeEnum(x) for x in xs]` for an IntEnum type. */
  function EnumMembers(t: Ty, xs: seq<int>): Value
    requires t.TIntEnum?
  {
    VList(seq(|xs|, i requires 0 <= i < |xs| => VEnum(t.name, VInt(xs[i]))))
  }

  /** The JSON list of the integers `xs`. */
  function IntList(xs: seq<int>): Value
  {
    VList(seq(|xs|, i requires 0 <= i < |xs| => VInt(xs[i])))
  }

  /** A list of IntEnum members is serialized as the list of their integer values. */
  lemma IntEnumListSerialize(schema: Schema, t: Ty, xs: seq<int>)
    requires t.TIntEnum?
    ensures Serialize(schema, TList(t), EnumMembers(t, xs)) == Ok(IntList(xs))
  {
    var members := EnumMembers(t, xs);
    forall j | 0 <= j < |xs| ensures Serialize(schema, t, members.items[j]) == Ok(VInt(xs[j])) {
      EnumSerializesToValue(schema, t, members.items[j]);
    }
    ListSerializes(schema, TList(t), members);
    var out := Serialize(schema, TList(t), members).value.items;
    assert out == IntList(xs).items;
  }

  /** Members of an IntEnum whose values all belong to it form a round-trippable list. */
  lemma EnumMembersRT(schema: Schema, t: Ty, xs: seq<int>)
    requires t.TIntEnum? && forall i :: 0 <= i < |xs| ==> xs[i] in t.intValues
    ensures RT(schema, TList(t), EnumMembers(t, xs))
  {
  }

  /** A list of members given for an `Optional[List[SomeIntEnum]]` field is written as their integers. */
  lemma ArgEnumListOut(schema: Schema, cls: string, fields: seq<Field>, vals: seq<Value>, j: nat, t: Ty, xs: seq<int>)
    requires |vals| == |fields| && DistinctNames(fields) && j < |fields| && !EnforcedAsConstant(fields[j])
    requires t.TIntEnum? && fields[j].ty == Opt(TList(t)) && vals[j] == EnumMembers(t, xs)
    requires forall i :: 0 <= i < |xs| ==> xs[i] in t.intValues
    ensures FieldOut(schema, Instance(cls, fields, vals), fields[j]) == Ok(IntList(xs))
  {
    ArgOut(schema, cls, fields, vals, j);
    EnumMembersRT(schema, t, xs);
    OptionalSerialize(schema, TList(t), vals[j]);
    IntEnumListSerialize(schema, t, xs);
  }

  /** A member given for an `Optional[SomeIntEnum]` field is written as its integer. */
  lemma ArgEnumOut(schema: Schema, cls: string, fields: seq<Field>, vals: seq<Value>, j: nat, t: Ty, x: int)
    requires |vals| == |fields| && DistinctNames(fields) && j < |fields| && !EnforcedAsConstant(fields[j])
    requires t.TIntEnum? && fields[j].ty == Opt(t) && vals[j] == VEnum(t.name, VInt(x)) && x in t.intValues
    ensures FieldOut(schema, Instance(cls, fields, vals), fields[j]) == Ok(VInt(x))
  {
    ArgOut(schema, cls, fields, vals, j);
    OptionalSerialize(schema, t, vals[j]);
    EnumSerializesToValue(schema, t, vals[j]);
  }

  /** A field of an instance whose value is written and not None is in the dict under its key. */
  lemma InstanceEntry(schema: Schema, cls: string, fields: seq<Field>, vals: seq<Value>, j: nat, out: Value)
    requires Fields(schema, cls) == fields && |vals| == |fields| && DistinctKeys(fields) && j < |fields|
    requires ToDict(schema, Instance(cls, fields, vals)).Ok?
    requires FieldOut(schema, Instance(cls, fields, vals), fields[j]) == Ok(out) && out != VNone
    ensures var d := ToDict(schema, Instance(cls, fields, vals)).value;
            d.VDict? && KeyOf(fields[j]) in d.entries && d.entries[KeyOf(fields[j])] == out
  {
    ToDictEntry(schema, Instance(cls, fields, vals), j);
  }

  /** A list of JSON values under `List[Any]` is written unchanged, element by element. */
  lemma AnyListSerialize(schema: Schema, xs: seq<Value>)
    requires forall i :: 0 <= i < |xs| ==> IsJson(xs[i])
    ensures Serialize(schema, TList(TAny), VList(xs)) == Ok(VList(xs))
  {
    var l := VList(xs);
    forall j | 0 <= j < |xs| ensures Serialize(schema, TAny, xs[j]) == Ok(xs[j]) {
      if xs[j] != VNone {
        SingleSerialize(schema, TAny, xs[j]);
      }
    }
    SerializeItemsElementwise(schema, TAny, l, 0);
    var out := SerializeItems(schema, TAny, l, 0).value;
    assert out == xs by {
      forall j | 0 <= j < |xs| ensures out[j] == xs[j] {
        assert out[j - 0] == Serialize(schema, TAny, l.items[j]).value;
      }
    }
    SingleSerialize(schema, TList(TAny), l);
  }

  /** A field whose key is the camelCase of a snake_case name. */
  predicate PlainSnake(f: Field)
  {
    "name" !in f.meta && IsSnake(f.name)
  }

  /** Fields `i..` are all PlainSnake. */
  predicate PlainSnakeFrom(fields: seq<Field>, i: nat)
    decreases |fields| - i
  {
    i >= |fields| || (PlainSnake(fields[i]) && PlainSnakeFrom(fields, i + 1))
  }

  lemma {:induction false} PlainSnakeFromAll(fields: seq<Field>, i: nat)
    requires PlainSnakeFrom(fields, i)
    ensures forall j :: i <= j < |fields| ==> PlainSnake(fields[j])
    decreases |fields| - i
  {
    if i < |fields| {
      PlainSnakeFromAll(fields, i + 1);
    }
  }

  /** Distinct snake_case names give distinct keys. */
  lemma SnakeKeys(fields: seq<Field>)
    requires PlainSnakeFrom(fields, 0)
    requires DistinctNames(fields)
    ensures DistinctKeys(fields)
  {
    PlainSnakeFromAll(fields, 0);
    forall a, b | 0 <= a < b < |fields| ensures KeyOf(fields[a]) != KeyOf(fields[b]) {
      CamelCaseInjective(fields[a].name, fields[b].name);
    }
  }

  /** `satisfying_types.remove(type(None))` on `Union[..., None]` leaves the other candidates in order. */
  lemma {:induction false} RemoveTrailingNone(ts: seq<Ty>)
    requires TNone !in ts
    ensures RemoveFirst(ts + [TNone], TNone) == ts
  {
    if |ts| == 0 {
      assert RemoveFirst([TNone], TNone) == [];
    } else {
      assert (ts + [TNone])[1..] == ts[1..] + [TNone];
      RemoveTrailingNone(ts[1..]);
    }
  }

  /** An instance given for `Optional[SomeStructure]` is written as its own `to_dict()`. */
  lemma OptStructOut(schema: Schema, c: string, o: Value)
    requires o.VObj? && o.cls == c
    ensures Serialize(schema, Opt(TStruct(c)), o) == ToDict(schema, o)
  {
    assert RemoveFirst(Opt(TStruct(c)).alts, TNone) == [TStruct(c)] by {
      assert RemoveFirst([TNone], TNone) == [];
    }
    assert SerializeAlt(schema, TStruct(c), o) == Done(ToDict(schema, o));
  }

  /** `[x.to_dict() for x in items]`, the list `_serialize_field` builds for `List[SomeStructure]`. */
  lemma StructListSerialize(schema: Schema, c: string, items: seq<Value>)
    requires forall i :: 0 <= i < |items| ==> items[i].VObj? && items[i].cls == c
    requires forall i :: 0 <= i < |items| ==> ToDict(schema, items[i]).Ok?
    ensures var r := Serialize(schema, TList(TStruct(c)), VList(items));
            r.Ok? && r.value.VList? && |r.value.items| == |items| &&
            forall i :: 0 <= i < |items| ==> r.value.items[i] == ToDict(schema, items[i]).value
  {
    var t := TStruct(c);
    forall i | 0 <= i < |items| ensures Serialize(schema, t, items[i]) == ToDict(schema, items[i]) {
      SingleSerialize(schema, t, items[i]);
      assert SerializeAlt(schema, t, items[i]) == Done(ToDict(schema, items[i]));
    }
    ListSerializes(schema, TList(t), VList(items));
  }
}
