/**
 * The dynamic values the server's Python code passes around: JSON data as
 * decoded from the wire, enum members and dataclass instances. Python
 * exceptions are modelled as an explicit error result.
 */
module Values {

  datatype Option<T> = None | Some(value: T)

  /** The Python exception classes the modelled code can raise. */
  datatype PyError =
    | ValueError
    | TypeError
    | KeyError
    | AttributeError
    | AssertionError
    | NotImplementedError
    | RecursionError
    | IndexError
    | OSError

  datatype Result<T> = Ok(value: T) | Err(error: PyError)
  {
    predicate IsFailure() { Err? }
    function PropagateFailure<U>(): Result<U>
      requires Err?
    {
      Err(error)
    }
    function Extract(): T
      requires Ok?
    {
      value
    }
  }

  /**
   * A Python value. `VEnum(enum, member)` is a member of the enum class `enum`
   * whose `.value` is `member`; `VObj(cls, args)` is an instance of the dataclass
   * `cls` whose attributes are `args`, keyed by Python field name.
   */
  datatype Value =
    | VNone
    | VBool(b: bool)
    | VInt(i: int)
    | VStr(s: string)
    | VList(items: seq<Value>)
    | VDict(entries: map<string, Value>)
    | VEnum(enum: string, member: Value)
    | VObj(cls: string, args: map<string, Value>)

  /** Values that `json.loads` can produce (no enum members, no objects). */
  predicate IsJson(v: Value)
  {
    match v
    case VNone => true
    case VBool(_) => true
    case VInt(_) => true
    case VStr(_) => true
    case VList(items) => forall i :: 0 <= i < |items| ==> IsJson(items[i])
    case VDict(entries) => forall k :: k in entries ==> IsJson(entries[k])
    case VEnum(_, _) => false
    case VObj(_, _) => false
  }

  /** True when `v` holds no dataclass instance anywhere inside it. */
  predicate ObjFree(v: Value)
  {
    match v
    case VList(items) => forall i :: 0 <= i < |items| ==> ObjFree(items[i])
    case VDict(entries) => forall k :: k in entries ==> ObjFree(entries[k])
    case VEnum(_, m) => ObjFree(m)
    case VObj(_, _) => false
    case _ => true
  }

  /**
   * `isinstance(v, int)`: Python's bool is a subclass of int, and the members of
   * the int-valued enums (all IntEnum or IntFlag) are ints too.
   */
  predicate IsPyInt(v: Value)
  {
    v.VInt? || v.VBool? || (v.VEnum? && v.member.VInt?)
  }

  /** The int an `isinstance(v, int)` value stands for, as `int(v)` gives it. */
  function PyIntValue(v: Value): int
    requires IsPyInt(v)
  {
    match v
    case VInt(i) => i
    case VBool(b) => if b then 1 else 0
    case VEnum(_, m) => m.i
  }

  /** `d.get(key)`: the value under `key`, or None. */
  function DictGet(d: map<string, Value>, key: string): (r: Value)
    ensures key in d ==> r == d[key]
    ensures key !in d ==> r == VNone
  {
    if key in d then d[key] else VNone
  }

  /** Python's `key in container` for a str key: dict keys, list items, substrings; anything else raises TypeError. */
  function Contains(container: Value, key: string): (r: Result<bool>)
    ensures r.Err? <==> !(container.VDict? || container.VList? || container.VStr?)
    ensures r.Err? ==> r.error == TypeError
    ensures container.VDict? ==> r == Ok(key in container.entries)
  {
    match container
    case VDict(entries) => Ok(key in entries)
    case VList(items) => Ok(VStr(key) in items)
    case VStr(s) => Ok(Substring(key, s))
    case _ => Err(TypeError)
  }

  /** `key in s` for two strings. */
  predicate Substring(key: string, s: string)
  {
    key <= s || (s != [] && Substring(key, s[1..]))
  }

  /** `container[key]` for a str key: KeyError on a dict without it, TypeError on anything but a dict. */
  function Index(container: Value, key: string): (r: Result<Value>)
    ensures r.Ok? <==> container.VDict? && key in container.entries
    ensures r.Ok? ==> r.value == container.entries[key]
    ensures container.VDict? && key !in container.entries ==> r == Err(KeyError)
    ensures !container.VDict? ==> r == Err(TypeError)
  {
    if !container.VDict? then Err(TypeError)
    else if key in container.entries then Ok(container.entries[key])
    else Err(KeyError)
  }

  lemma JsonIsObjFree(v: Value)
    requires IsJson(v)
    ensures ObjFree(v)
  {
    match v
    case VList(items) =>
      forall i | 0 <= i < |items| ensures ObjFree(items[i]) { JsonIsObjFree(items[i]); }
    case VDict(entries) =>
      forall k | k in entries ensures ObjFree(entries[k]) { JsonIsObjFree(entries[k]); }
    case _ =>
  }
}
