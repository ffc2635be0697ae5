/**
 * The nested-path capability store of the legacy server (state/capabilities.py):
 * a dict of JSON-like values read and written along a list of keys.
 *
 * The source walks a reference down the nested dicts and assigns into the
 * innermost one in place; here the nested dicts are values, so `SetAtPath`
 * keeps the dicts it walked through and puts the changed ones back on the way up.
 */
module StateCapabilities {
  import opened Values

  /**
   * What the walk of `get_from_path` finds: None when a key is missing or a
   * non-dict is reached (the default is returned), an error when the
   * membership test itself raises.
   */
  function FollowPath(v: Value, path: seq<string>): Result<Option<Value>>
    decreases |path|
  {
    if path == [] then Ok(Some(v))
    else
      match Contains(v, path[0])
      case Err(e) => Err(e)
      case Ok(present) =>
        if !present || !v.VDict? then Ok(None)
        else FollowPath(v.entries[path[0]], path[1..])
  }

  /** The value at `path`, treating every non-dict on the way as "key absent". */
  function Lookup(v: Value, path: seq<string>): Option<Value>
    decreases |path|
  {
    if path == [] then Some(v)
    else if !v.VDict? || path[0] !in v.entries then None
    else Lookup(v.entries[path[0]], path[1..])
  }

  /** The types `enforce_type` is given. */
  datatype PyType = DictType | ListType | StrType | IntType | BoolType | NoneType

  /** `isinstance(v, t)`; a bool is an int. */
  predicate IsInstance(v: Value, t: PyType)
  {
    match t
    case DictType => v.VDict?
    case ListType => v.VList?
    case StrType => v.VStr?
    case IntType => IsPyInt(v)
    case BoolType => v.VBool?
    case NoneType => v.VNone?
  }

  /** The value `get_from_path` returns once the walk has found `found`. */
  function Answer(found: Result<Option<Value>>, default: Value, enforceType: Option<PyType>): (r: Result<Value>)
    ensures found.Err? <==> r.Err?
    ensures found.Ok? && found.value.None? ==> r == Ok(default)
    ensures found.Ok? && found.value.Some? ==>
              r == Ok(if enforceType.None? || IsInstance(found.value.value, enforceType.value) then found.value.value else default)
  {
    match found
    case Err(e) => Err(e)
    case Ok(None) => Ok(default)
    case Ok(Some(x)) =>
      if enforceType.Some? && !IsInstance(x, enforceType.value) then Ok(default) else Ok(x)
  }

  /** The error `set_at_path` raises at a non-dict: ValueError when the key test passes, else TypeError from the test or the assignment. */
  function NonDictError(v: Value, key: string): PyError
  {
    if Contains(v, key) == Ok(true) then ValueError else TypeError
  }

  /** `set_at_path` on a dict: missing intermediate keys get {}, the last key is overwritten. */
  function SetPath(d: map<string, Value>, path: seq<string>, value: Value): (r: Result<map<string, Value>>)
    ensures r.Ok? && path != [] ==> path[0] in r.value
    ensures r.Ok? ==> forall k :: k in d ==> k in r.value
    decreases |path|
  {
    if path == [] then Ok(d)
    else if |path| == 1 then Ok(d[path[0] := value])
    else
      var child := if path[0] in d then d[path[0]] else VDict(map[]);
      if !child.VDict? then Err(NonDictError(child, path[1]))
      else
        match SetPath(child.entries, path[1..], value)
        case Err(e) => Err(e)
        case Ok(inner) => Ok(d[path[0] := VDict(inner)])
  }

  /** The dicts `ancestors` (one per key of `path` before them), each with its key set to the one below it. */
  function Rebuild(ancestors: seq<map<string, Value>>, path: seq<string>, inner: map<string, Value>): map<string, Value>
    requires |ancestors| <= |path|
    decreases |ancestors|
  {
    if ancestors == [] then inner
    else
      var n := |ancestors| - 1;
      Rebuild(ancestors[..n], path, ancestors[n][path[n] := VDict(inner)])
  }

  function Wrap(ancestors: seq<map<string, Value>>, path: seq<string>, r: Result<map<string, Value>>): Result<map<string, Value>>
    requires |ancestors| <= |path|
  {
    if r.Err? then r else Ok(Rebuild(ancestors, path, r.value))
  }

  /** The data `ServerCapabilities()` starts with. */
  const ServerCapabilitiesData: map<string, Value> :=
    map["workspace" := VDict(map["workspaceFolders" := VDict(map["supported" := VBool(true)])])]

  /** `Capabilities`: the underlying client or server capability dict. */
  class Capabilities {
    var data: map<string, Value>

    /** `Capabilities(data)`: the given dict, or {} when None. */
    constructor (init: Option<map<string, Value>>)
      ensures data == if init.Some? then init.value else map[]
    {
      data := if init.Some? then init.value else map[];
    }

    /** `ServerCapabilities()`. */
    constructor Server()
      ensures data == ServerCapabilitiesData
    {
      data := ServerCapabilitiesData;
    }

    /** `get_from_path(path, default, enforce_type)`. */
    method GetFromPath(path: seq<string>, default: Value, enforceType: Option<PyType>) returns (r: Result<Value>)
      ensures r == Answer(FollowPath(VDict(data), path), default, enforceType)
    {
      var result := VDict(data);
      var i := 0;
      while i < |path|
        invariant 0 <= i <= |path|
        invariant FollowPath(VDict(data), path) == FollowPath(result, path[i..])
      {
        var present := Contains(result, path[i]);
        if present.Err? {
          return Err(present.error);
        }
        if !present.value || !result.VDict? {
          return Ok(default);
        }
        assert path[i..][1..] == path[i + 1..];
        result := result.entries[path[i]];
        i := i + 1;
      }
      if enforceType.Some? && !IsInstance(result, enforceType.value) {
        return Ok(default);
      }
      return Ok(result);
    }

    /** `set_at_path(path, value)`: on an error the data is left as it was. */
    method SetAtPath(path: seq<string>, value: Value) returns (err: Option<PyError>)
      modifies this
      ensures SetPath(old(data), path, value).Ok? ==> err.None? && data == SetPath(old(data), path, value).value
      ensures SetPath(old(data), path, value).Err? ==> err == Some(SetPath(old(data), path, value).error) && data == old(data)
    {
      if path == [] {
        return None;
      }
      var ancestors: seq<map<string, Value>> := [];
      var cur := data;
      var i := 0;
      while i < |path| - 1
        invariant 0 <= i < |path| && |ancestors| == i && data == old(data)
        invariant SetPath(data, path, value) == Wrap(ancestors, path, SetPath(cur, path[i..], value))
      {
        var child := if path[i] in cur then cur[path[i]] else VDict(map[]);
        assert path[i..][0] == path[i] && path[i..][1] == path[i + 1] && path[i..][1..] == path[i + 1..];
        if !child.VDict? {
          assert SetPath(cur, path[i..], value) == Err(NonDictError(child, path[i + 1]));
          return Some(NonDictError(child, path[i + 1]));
        }
        RebuildStep(ancestors, cur, path, SetPath(child.entries, path[i + 1..], value));
        ancestors := ancestors + [cur];
        cur := child.entries;
        i := i + 1;
      }
      assert path[i..] == [path[i]];
      var inner := cur[path[i] := value];
      var j := i;
      assert ancestors[..j] == ancestors;
      while j > 0
        invariant 0 <= j <= i && j <= |ancestors| && data == old(data)
        invariant Rebuild(ancestors, path, cur[path[i] := value]) == Rebuild(ancestors[..j], path, inner)
      {
        assert ancestors[..j][..j - 1] == ancestors[..j - 1];
        inner := ancestors[j - 1][path[j - 1] := VDict(inner)];
        j := j - 1;
      }
      data := inner;
      return None;
    }
  }

  /** One more level of the walk: the dict just left becomes the innermost ancestor. */
  lemma RebuildStep(ancestors: seq<map<string, Value>>, cur: map<string, Value>, path: seq<string>, r: Result<map<string, Value>>)
    requires |ancestors| < |path|
    ensures Wrap(ancestors + [cur], path, r) ==
            Wrap(ancestors, path, if r.Err? then r else Ok(cur[path[|ancestors|] := VDict(r.value)]))
  {
    if r.Ok? {
      assert (ancestors + [cur])[..|ancestors|] == ancestors;
    }
  }

  // ---------------------------------------------------------------------------
  // What the two walks promise.

  /** Where the walk of `get_from_path` does not raise, it finds what `Lookup` finds. */
  lemma {:induction false} FollowPathIsLookup(v: Value, path: seq<string>)
    requires FollowPath(v, path).Ok?
    ensures FollowPath(v, path).value == Lookup(v, path)
    decreases |path|
  {
    if path != [] && v.VDict? && path[0] in v.entries {
      FollowPathIsLookup(v.entries[path[0]], path[1..]);
    }
  }

  /** A value `Lookup` finds is found by the walk too, without an error. */
  lemma {:induction false} LookupIsFollowPath(v: Value, path: seq<string>)
    requires Lookup(v, path).Some?
    ensures FollowPath(v, path) == Ok(Lookup(v, path))
    decreases |path|
  {
    if path != [] {
      LookupIsFollowPath(v.entries[path[0]], path[1..]);
    }
  }

  /** Reaching an int below the top level makes the `in` test raise TypeError instead of returning the default. */
  lemma GetThroughInt()
    ensures FollowPath(VDict(map["a" := VInt(1)]), ["a", "b"]) == Err(TypeError)
    ensures Lookup(VDict(map["a" := VInt(1)]), ["a", "b"]) == None
  {
    var v := VDict(map["a" := VInt(1)]);
    assert ["a", "b"][1..] == ["b"];
    assert FollowPath(v, ["a", "b"]) == FollowPath(VInt(1), ["b"]);
  }

  /** After `set_at_path(p, v)` succeeds, `get_from_path(p)` finds `v`. */
  lemma {:induction false} GetAfterSet(d: map<string, Value>, path: seq<string>, value: Value)
    requires path != [] && SetPath(d, path, value).Ok?
    ensures Lookup(VDict(SetPath(d, path, value).value), path) == Some(value)
    ensures FollowPath(VDict(SetPath(d, path, value).value), path) == Ok(Some(value))
    decreases |path|
  {
    var d' := SetPath(d, path, value).value;
    if |path| > 1 {
      var child := if path[0] in d then d[path[0]] else VDict(map[]);
      GetAfterSet(child.entries, path[1..], value);
      assert d'[path[0]] == VDict(SetPath(child.entries, path[1..], value).value);
    }
    LookupIsFollowPath(VDict(d'), path);
  }

  /** `q` leaves `p` at some key before the end of both. */
  predicate Diverge(p: seq<string>, q: seq<string>)
  {
    p != [] && q != [] && (p[0] != q[0] || Diverge(p[1..], q[1..]))
  }

  /** Setting the value at `p` leaves the value at every path that does not pass through `p` as it was. */
  lemma {:induction false} SetLeavesOthers(d: map<string, Value>, p: seq<string>, value: Value, q: seq<string>)
    requires SetPath(d, p, value).Ok? && Diverge(p, q)
    ensures Lookup(VDict(SetPath(d, p, value).value), q) == Lookup(VDict(d), q)
    decreases |p|
  {
    var d' := SetPath(d, p, value).value;
    if p[0] == q[0] {
      var child := if p[0] in d then d[p[0]] else VDict(map[]);
      var inner := SetPath(child.entries, p[1..], value).value;
      assert d'[p[0]] == VDict(inner);
      SetLeavesOthers(child.entries, p[1..], value, q[1..]);
      if p[0] !in d {
        EmptyLookup(q[1..]);
      }
    } else {
      assert q[0] in d' <==> q[0] in d;
    }
  }

  /** Nothing lies below a fresh {} except at the empty path. */
  lemma EmptyLookup(q: seq<string>)
    requires q != []
    ensures Lookup(VDict(map[]), q) == None
  {
  }

  /** `set_at_path` raises exactly when a proper prefix of the path leads to a value that is not a dict. */
  lemma {:induction false} SetPathFails(d: map<string, Value>, p: seq<string>, value: Value)
    ensures SetPath(d, p, value).Err? <==>
              exists k :: 1 <= k < |p| && Lookup(VDict(d), p[..k]).Some? && !Lookup(VDict(d), p[..k]).value.VDict?
    decreases |p|
  {
    if |p| > 1 {
      var child := if p[0] in d then d[p[0]] else VDict(map[]);
      if child.VDict? {
        SetPathFails(child.entries, p[1..], value);
        if SetPath(d, p, value).Err? {
          var k :| 1 <= k < |p[1..]| && Lookup(child, p[1..][..k]).Some? && !Lookup(child, p[1..][..k]).value.VDict?;
          if p[0] in d {
            PrefixLookup(VDict(d), p, k + 1);
          }
        } else {
          forall k | 1 <= k < |p| && Lookup(VDict(d), p[..k]).Some?
            ensures Lookup(VDict(d), p[..k]).value.VDict?
          {
            if k > 1 {
              PrefixLookup(VDict(d), p, k);
            }
          }
        }
      } else {
        assert Lookup(VDict(d), p[..1]) == Lookup(child, []);
      }
    }
  }

  /** Looking up `p[..k]` from a dict that holds `p[0]` looks up the rest from the value there. */
  lemma PrefixLookup(v: Value, p: seq<string>, k: nat)
    requires 1 <= k <= |p| && v.VDict? && p[0] in v.entries
    ensures Lookup(v, p[..k]) == Lookup(v.entries[p[0]], p[1..][..k - 1])
  {
    assert p[..k][0] == p[0] && p[..k][1..] == p[1..][..k - 1];
  }

  /** An empty path reads the whole data and a set at it changes nothing. */
  lemma EmptyPath(d: map<string, Value>, value: Value)
    ensures FollowPath(VDict(d), []) == Ok(Some(VDict(d)))
    ensures SetPath(d, [], value) == Ok(d)
  {
  }

  /** The server capabilities start saying that workspace folders are supported. */
  lemma ServerSupportsFolders()
    ensures FollowPath(VDict(ServerCapabilitiesData), ["workspace", "workspaceFolders", "supported"]) == Ok(Some(VBool(true)))
  {
    var path := ["workspace", "workspaceFolders", "supported"];
    assert path[1..] == ["workspaceFolders", "supported"] && path[1..][1..] == ["supported"];
    LookupIsFollowPath(VDict(ServerCapabilitiesData), path);
  }
}
