/**
 * Defaults and omitted fields, field by field: what `SomeClass()` builds from
 * the declared defaults and factories, what `from_dict` builds when keys are
 * absent, and what `to_dict` writes when most fields hold None. Each lemma
 * turns a whole-class statement into one small fact per field.
 */
module CodecDefaults {
  import opened Values
  import opened Codec
  import opened CodecLaws
  import opened CodecRoundTrip

  // ---------------------------------------------------------------------------
  // Looking up the arguments of an instance.

  /** Each argument holds the value given for some field of that name. */
  lemma {:induction false} ArgsOfLookup(fields: seq<Field>, vals: seq<Value>, n: nat, j: nat)
    requires |vals| == |fields| && j < n <= |fields|
    ensures fields[j].name in ArgsOf(fields, vals, n)
    ensures exists k :: 0 <= k < n && fields[k].name == fields[j].name && ArgsOf(fields, vals, n)[fields[j].name] == vals[k]
    decreases n
  {
    if j < n - 1 {
      ArgsOfLookup(fields, vals, n - 1, j);
      if fields[n - 1].name == fields[j].name {
        assert ArgsOf(fields, vals, n)[fields[j].name] == vals[n - 1];
      }
    }
  }

  /** The argument of a field whose name no other field shares is the value given for it. */
  lemma ArgsOfUnique(fields: seq<Field>, vals: seq<Value>, j: nat)
    requires |vals| == |fields| && j < |fields|
    requires forall k :: 0 <= k < |fields| && k != j ==> fields[k].name != fields[j].name
    ensures fields[j].name in ArgsOf(fields, vals, |fields|) && ArgsOf(fields, vals, |fields|)[fields[j].name] == vals[j]
  {
    ArgsOfLookup(fields, vals, |fields|, j);
  }

  /** When every other field is given None, a field whose name differs from field `j` holds None. */
  lemma ArgsOfNoneElsewhere(fields: seq<Field>, vals: seq<Value>, j: nat, i: nat)
    requires |vals| == |fields| && j < |fields| && i < |fields|
    requires forall k :: 0 <= k < |fields| && k != j ==> vals[k] == VNone
    requires i == j || fields[i].name != fields[j].name
    ensures fields[i].name in ArgsOf(fields, vals, |fields|)
    ensures i != j ==> ArgsOf(fields, vals, |fields|)[fields[i].name] == VNone
  {
    ArgsOfLookup(fields, vals, |fields|, i);
  }

  // ---------------------------------------------------------------------------
  // `SomeClass()` through default factories.

  /** The value `cls()` gives field `f`, with `visited` the classes under construction (the body of `InitDefaults`). */
  function FactoryDefault(schema: Schema, visited: set<string>, f: Field): Result<Value>
  {
    match f.default
    case Const(d) => Ok(d)
    case FactoryList => Ok(VList([]))
    case FactoryClass(c) => NewInstance(schema, visited, c)
    case NoDefault => Ok(VNone)
  }

  lemma {:induction false} InitDefaultsIs(schema: Schema, visited: set<string>, cls: string, vals: seq<Value>, n: nat)
    requires cls in schema && cls !in visited && |vals| == |schema[cls].fields| && n <= |vals|
    requires forall j :: 0 <= j < n ==> FactoryDefault(schema, visited + {cls}, schema[cls].fields[j]) == Ok(vals[j])
    ensures InitDefaults(schema, visited, cls, n) == Ok(ArgsOf(schema[cls].fields, vals, n))
    decreases n
  {
    if n > 0 {
      InitDefaultsIs(schema, visited, cls, vals, n - 1);
    }
  }

  /**
   * `cls()` for a class whose every field has a default builds the instance
   * holding, field by field, the default or the factory's product.
   */
  lemma NewInstanceIs(schema: Schema, visited: set<string>, cls: string, vals: seq<Value>)
    requires cls in schema && cls !in visited && |vals| == |schema[cls].fields|
    requires forall j :: 0 <= j < |vals| ==> !schema[cls].fields[j].default.NoDefault?
    requires forall j :: 0 <= j < |vals| ==> FactoryDefault(schema, visited + {cls}, schema[cls].fields[j]) == Ok(vals[j])
    ensures NewInstance(schema, visited, cls) == Ok(Instance(cls, schema[cls].fields, vals))
  {
    InitDefaultsIs(schema, visited, cls, vals, |vals|);
  }

  /** `cls()` raises TypeError when some field has no default. */
  lemma NewInstanceMissingArgument(schema: Schema, visited: set<string>, cls: string, j: nat)
    requires cls in schema && cls !in visited && j < |schema[cls].fields| && schema[cls].fields[j].default.NoDefault?
    ensures NewInstance(schema, visited, cls) == Err(TypeError)
  {
  }

  // ---------------------------------------------------------------------------
  // `from_dict` field by field, without any condition on the names.

  /** The step of `from_dict` for a present key of a field that is not an enforced constant. */
  lemma InitArgPresent(schema: Schema, d: map<string, Value>, f: Field, out: Value)
    requires KeyOf(f) in d && !EnforcedAsConstant(f) && Deserialize(schema, f.ty, d[KeyOf(f)]) == Ok(out)
    ensures InitArg(schema, VDict(d), f) == Ok(out)
  {
  }

  /** The step of `from_dict` for an absent key: the field's default. */
  lemma InitArgAbsent(schema: Schema, d: map<string, Value>, f: Field, out: Value)
    requires KeyOf(f) !in d && DefaultValue(schema, f) == Ok(out)
    ensures InitArg(schema, VDict(d), f) == Ok(out)
  {
  }

  lemma {:induction false} InitArgsIs(schema: Schema, obj: Value, fields: seq<Field>, vals: seq<Value>, n: nat)
    requires |vals| == |fields| && n <= |fields|
    requires forall j :: 0 <= j < n ==> InitArg(schema, obj, fields[j]) == Ok(vals[j])
    ensures InitArgs(schema, obj, fields, n) == Ok(ArgsOf(fields, vals, n))
    decreases n
  {
    if n > 0 {
      InitArgsIs(schema, obj, fields, vals, n - 1);
    }
  }

  /** `from_dict` builds the instance whose arguments are the values each field's step stores. */
  lemma FromDictInstance(schema: Schema, cls: string, obj: Value, vals: seq<Value>)
    requires |vals| == |Fields(schema, cls)|
    requires forall j :: 0 <= j < |vals| ==> InitArg(schema, obj, Fields(schema, cls)[j]) == Ok(vals[j])
    ensures FromDict(schema, cls, obj) == Ok(Instance(cls, Fields(schema, cls), vals))
  {
    InitArgsIs(schema, obj, Fields(schema, cls), vals, |vals|);
  }

  /** `from_dict` of a class with three fields, given what each field's argument is. */
  lemma FromDictThree(schema: Schema, cls: string, obj: Value, fields: seq<Field>, v0: Value, v1: Value, v2: Value)
    requires Fields(schema, cls) == fields && |fields| == 3
    requires InitArg(schema, obj, fields[0]) == Ok(v0) && InitArg(schema, obj, fields[1]) == Ok(v1)
    requires InitArg(schema, obj, fields[2]) == Ok(v2)
    ensures FromDict(schema, cls, obj) == Ok(Instance(cls, fields, [v0, v1, v2]))
  {
    var vals := [v0, v1, v2];
    forall j | 0 <= j < 3 ensures InitArg(schema, obj, fields[j]) == Ok(vals[j]) {
    }
    FromDictInstance(schema, cls, obj, vals);
  }

  /** `from_dict({})` gives every field its default: the values of the declared defaults and factories. */
  lemma FromEmptyDict(schema: Schema, cls: string, vals: seq<Value>)
    requires |vals| == |Fields(schema, cls)|
    requires forall j :: 0 <= j < |vals| ==> DefaultValue(schema, Fields(schema, cls)[j]) == Ok(vals[j])
    ensures FromDict(schema, cls, VDict(map[])) == Ok(Instance(cls, Fields(schema, cls), vals))
  {
    FromDictInstance(schema, cls, VDict(map[]), vals);
  }

  lemma {:induction false} InitArgsKeeps(schema: Schema, obj: Value, fields: seq<Field>, n: nat, j: nat)
    requires j < n <= |fields|
    requires forall k :: j < k < n ==> fields[k].name != fields[j].name
    ensures InitArgs(schema, obj, fields, n).Ok? ==>
              InitArg(schema, obj, fields[j]).Ok? && fields[j].name in InitArgs(schema, obj, fields, n).value &&
              InitArgs(schema, obj, fields, n).value[fields[j].name] == InitArg(schema, obj, fields[j]).value
    decreases n
  {
    if n - 1 > j {
      InitArgsKeeps(schema, obj, fields, n - 1, j);
    }
  }

  /**
   * What `from_dict` stores for field `j` is that field's own step, provided no
   * later field has the same name (a later one would overwrite it).
   */
  lemma FromDictArg(schema: Schema, cls: string, obj: Value, j: nat)
    requires j < |Fields(schema, cls)|
    requires var fields := Fields(schema, cls);
             forall k :: j < k < |fields| ==> fields[k].name != fields[j].name
    ensures var f := Fields(schema, cls)[j];
            FromDict(schema, cls, obj).Ok? ==>
              InitArg(schema, obj, f).Ok? && FromDict(schema, cls, obj).value.VObj? &&
              f.name in FromDict(schema, cls, obj).value.args &&
              FromDict(schema, cls, obj).value.args[f.name] == InitArg(schema, obj, f).value
  {
    var fields := Fields(schema, cls);
    InitArgsKeeps(schema, obj, fields, |fields|, j);
  }

  /** A key the dict does not give: `from_dict` stores the field's default under its name. */
  lemma FromDictAbsent(schema: Schema, cls: string, d: map<string, Value>, j: nat, name: string, out: Value)
    requires j < |Fields(schema, cls)|
    requires var fields := Fields(schema, cls);
             forall k :: j < k < |fields| ==> fields[k].name != fields[j].name
    requires Fields(schema, cls)[j].name == name && KeyOf(Fields(schema, cls)[j]) !in d
    requires DefaultValue(schema, Fields(schema, cls)[j]) == Ok(out)
    ensures var r := FromDict(schema, cls, VDict(d));
            r.Ok? ==> r.value.VObj? && name in r.value.args && r.value.args[name] == out
  {
    InitArgAbsent(schema, d, Fields(schema, cls)[j], out);
    FromDictArg(schema, cls, VDict(d), j);
  }

  lemma {:induction false} InitArgsFails(schema: Schema, obj: Value, fields: seq<Field>, n: nat, j: nat)
    requires j < n <= |fields| && InitArg(schema, obj, fields[j]).Err?
    ensures InitArgs(schema, obj, fields, n).Err?
    decreases n
  {
    if n - 1 > j {
      InitArgsFails(schema, obj, fields, n - 1, j);
    }
  }

  /** `from_dict` fails as soon as one field's step fails. */
  lemma FromDictFails(schema: Schema, cls: string, obj: Value, j: nat)
    requires j < |Fields(schema, cls)| && InitArg(schema, obj, Fields(schema, cls)[j]).Err?
    ensures FromDict(schema, cls, obj).Err?
  {
    InitArgsFails(schema, obj, Fields(schema, cls), |Fields(schema, cls)|, j);
  }

  // ---------------------------------------------------------------------------
  // `to_dict` when most fields are dropped.

  /** A field `to_dict` drops: its serialized value is None and it does not have include_none. */
  predicate Omitted(schema: Schema, obj: Value, f: Field)
    requires obj.VObj?
  {
    FieldOut(schema, obj, f) == Ok(VNone) && !IncludesNone(f)
  }

  lemma {:induction false} ToDictEntriesOnly(schema: Schema, obj: Value, fields: seq<Field>, n: nat, j: nat, out: Value)
    requires obj.VObj? && n <= |fields| && j < |fields|
    requires forall i :: 0 <= i < |fields| && i != j ==> Omitted(schema, obj, fields[i])
    requires FieldOut(schema, obj, fields[j]) == Ok(out) && (out != VNone || IncludesNone(fields[j]))
    ensures ToDictEntries(schema, obj, fields, n) == Ok(if j < n then map[KeyOf(fields[j]) := out] else map[])
    decreases n
  {
    if n > 0 {
      ToDictEntriesOnly(schema, obj, fields, n - 1, j, out);
    }
  }

  /** `to_dict` of an instance that writes a single field is the dict of that one key. */
  lemma ToDictOnly(schema: Schema, obj: Value, j: nat, out: Value)
    requires obj.VObj? && j < |Fields(schema, obj.cls)|
    requires var fields := Fields(schema, obj.cls);
             forall i :: 0 <= i < |fields| && i != j ==> Omitted(schema, obj, fields[i])
    requires FieldOut(schema, obj, Fields(schema, obj.cls)[j]) == Ok(out)
    requires out != VNone || IncludesNone(Fields(schema, obj.cls)[j])
    ensures ToDict(schema, obj) == Ok(VDict(map[KeyOf(Fields(schema, obj.cls)[j]) := out]))
  {
    var fields := Fields(schema, obj.cls);
    ToDictEntriesOnly(schema, obj, fields, |fields|, j, out);
  }

  lemma {:induction false} ToDictEntriesNothing(schema: Schema, obj: Value, fields: seq<Field>, n: nat)
    requires obj.VObj? && n <= |fields|
    requires forall i :: 0 <= i < n ==> Omitted(schema, obj, fields[i])
    ensures ToDictEntries(schema, obj, fields, n) == Ok(map[])
    decreases n
  {
    if n > 0 {
      ToDictEntriesNothing(schema, obj, fields, n - 1);
    }
  }

  /** `to_dict` of an instance whose every field is dropped is `{}`. */
  lemma ToDictNothing(schema: Schema, obj: Value)
    requires obj.VObj?
    requires var fields := Fields(schema, obj.cls);
             forall i :: 0 <= i < |fields| ==> Omitted(schema, obj, fields[i])
    ensures ToDict(schema, obj) == Ok(VDict(map[]))
  {
    ToDictEntriesNothing(schema, obj, Fields(schema, obj.cls), |Fields(schema, obj.cls)|);
  }

  /** A None argument of an optional, non-constant field without include_none is dropped. */
  lemma NoneArgOmitted(schema: Schema, obj: Value, f: Field)
    requires obj.VObj? && f.name in obj.args && obj.args[f.name] == VNone
    requires (TNone in Alternatives(f.ty) || TAny in Alternatives(f.ty)) && !EnforcedAsConstant(f) && !IncludesNone(f)
    ensures Omitted(schema, obj, f)
  {
    assert Serialize(schema, f.ty, VNone) == Ok(VNone);
  }

  lemma {:induction false} ToDictEntriesPair(schema: Schema, obj: Value, fields: seq<Field>, n: nat, j: nat, k: nat, outJ: Value, outK: Value)
    requires obj.VObj? && n <= |fields| && j < k < |fields|
    requires forall i :: 0 <= i < |fields| && i != j && i != k ==> Omitted(schema, obj, fields[i])
    requires FieldOut(schema, obj, fields[j]) == Ok(outJ) && (outJ != VNone || IncludesNone(fields[j]))
    requires FieldOut(schema, obj, fields[k]) == Ok(outK) && (outK != VNone || IncludesNone(fields[k]))
    ensures ToDictEntries(schema, obj, fields, n) ==
            Ok(if k < n then map[KeyOf(fields[j]) := outJ][KeyOf(fields[k]) := outK]
               else if j < n then map[KeyOf(fields[j]) := outJ] else map[])
    decreases n
  {
    if n > 0 {
      ToDictEntriesPair(schema, obj, fields, n - 1, j, k, outJ, outK);
      if n - 1 != j && n - 1 != k {
        assert Omitted(schema, obj, fields[n - 1]);
      }
    }
  }

  /** `to_dict` of an instance that writes exactly fields `j` and `k`. */
  lemma ToDictPair(schema: Schema, obj: Value, j: nat, k: nat, outJ: Value, outK: Value)
    requires obj.VObj? && j < k < |Fields(schema, obj.cls)|
    requires var fields := Fields(schema, obj.cls);
             forall i :: 0 <= i < |fields| && i != j && i != k ==> Omitted(schema, obj, fields[i])
    requires FieldOut(schema, obj, Fields(schema, obj.cls)[j]) == Ok(outJ) && (outJ != VNone || IncludesNone(Fields(schema, obj.cls)[j]))
    requires FieldOut(schema, obj, Fields(schema, obj.cls)[k]) == Ok(outK) && (outK != VNone || IncludesNone(Fields(schema, obj.cls)[k]))
    ensures var fields := Fields(schema, obj.cls);
            ToDict(schema, obj) == Ok(VDict(map[KeyOf(fields[j]) := outJ][KeyOf(fields[k]) := outK]))
  {
    var fields := Fields(schema, obj.cls);
    ToDictEntriesPair(schema, obj, fields, |fields|, j, k, outJ, outK);
  }

  // ---------------------------------------------------------------------------
  // Classes whose every field is `Optional[...] = None`.

  /** A field declared `Optional[...] = None` (or `Any = None`) without metadata. */
  predicate NoneField(f: Field)
  {
    f.default == Const(VNone) && (TNone in Alternatives(f.ty) || TAny in Alternatives(f.ty)) && f.meta == map[]
  }

  function NoneVals(n: nat): (vals: seq<Value>)
    ensures |vals| == n && forall i :: 0 <= i < n ==> vals[i] == VNone
  {
    seq(n, i => VNone)
  }

  /** The instance `cls()` of a class of None fields: every argument is None. */
  function NoneInstance(cls: string, fields: seq<Field>): Value
  {
    Instance(cls, fields, NoneVals(|fields|))
  }

  /** `cls()`, for a class of None fields. */
  lemma NewNoneInstance(schema: Schema, visited: set<string>, cls: string)
    requires cls in schema && cls !in visited
    requires forall j :: 0 <= j < |schema[cls].fields| ==> NoneField(schema[cls].fields[j])
    ensures NewInstance(schema, visited, cls) == Ok(NoneInstance(cls, schema[cls].fields))
  {
    NewInstanceIs(schema, visited, cls, NoneVals(|schema[cls].fields|));
  }

  /** `from_dict({})`, for a class of None fields. */
  lemma FromEmptyNoneInstance(schema: Schema, cls: string)
    requires forall j :: 0 <= j < |Fields(schema, cls)| ==> NoneField(Fields(schema, cls)[j])
    ensures FromDict(schema, cls, VDict(map[])) == Ok(NoneInstance(cls, Fields(schema, cls)))
  {
    FromEmptyDict(schema, cls, NoneVals(|Fields(schema, cls)|));
  }

  /** An instance of a class of None fields that holds None everywhere writes `{}`. */
  lemma NoneInstanceToDict(schema: Schema, cls: string)
    requires forall j :: 0 <= j < |Fields(schema, cls)| ==> NoneField(Fields(schema, cls)[j])
    ensures ToDict(schema, NoneInstance(cls, Fields(schema, cls))) == Ok(VDict(map[]))
  {
    var fields := Fields(schema, cls);
    var obj := NoneInstance(cls, fields);
    forall i | 0 <= i < |fields| ensures Omitted(schema, obj, fields[i]) {
      ArgsOfLookup(fields, NoneVals(|fields|), |fields|, i);
      NoneArgOmitted(schema, obj, fields[i]);
    }
    ToDictNothing(schema, obj);
  }
}
