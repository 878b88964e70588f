// The open-ended values stored in the run state's `Dict[str, Any]` fields
// (JSON-like: None, bool, int, float, str, list, dict with string keys) and
// the few Python operations the agents apply to them.
module Values {
  import opened Wrappers
  import opened Dicts
  import opened Text

  datatype Value =
    | VNone
    | VBool(b: bool)
    | VInt(i: int)
    | VFloat(f: real)
    | VStr(s: string)
    | VList(items: seq<Value>)
    | VDict(entries: Dict<Value>)

  function StrList(xs: seq<string>): (v: Value)
    ensures v.VList? && |v.items| == |xs|
    ensures forall i :: 0 <= i < |xs| ==> v.items[i] == VStr(xs[i])
  {
    VList(seq(|xs|, i requires 0 <= i < |xs| => VStr(xs[i])))
  }

  /** `type(v).__name__`. */
  function TypeName(v: Value): string {
    match v
    case VNone => "NoneType"
    case VBool(_) => "bool"
    case VInt(_) => "int"
    case VFloat(_) => "float"
    case VStr(_) => "str"
    case VList(_) => "list"
    case VDict(_) => "dict"
  }

  /** `bool(v)`. */
  predicate Truthy(v: Value) {
    match v
    case VNone => false
    case VBool(b) => b
    case VInt(i) => i != 0
    case VFloat(f) => f != 0.0
    case VStr(s) => s != ""
    case VList(items) => items != []
    case VDict(entries) => entries != []
  }

  /** `v.get(key, default)`; only a dict has `get`. */
  function GetOr(v: Value, key: string, default: Value): (r: Result<Value, string>)
    ensures r.Success? <==> v.VDict?
    ensures v.VDict? && key !in Keys(v.entries) ==> r == Success(default)
  {
    match v
    case VDict(entries) => Success(Get(entries, key).GetOr(default))
    case _ => Failure("'" + TypeName(v) + "' object has no attribute 'get'")
  }

  /** `key in v` for a string key: dict keys, list items, substrings; other types raise. */
  function HasMember(v: Value, key: string): (r: Result<bool, string>)
    ensures r.Success? <==> (v.VList? || v.VStr? || v.VDict?)
    ensures v.VDict? ==> r == Success(key in Keys(v.entries))
  {
    match v
    case VDict(entries) => Success(key in Keys(entries))
    case VList(items) => Success(VStr(key) in items)
    case VStr(s) => Success(Contains(s, key))
    case _ => Failure("argument of type '" + TypeName(v) + "' is not iterable")
  }

  /** `v[key]` for a string key: only a dict that holds the key answers. */
  function Subscript(v: Value, key: string): (r: Result<Value, string>)
    ensures r.Success? <==> v.VDict? && key in Keys(v.entries)
    ensures r.Success? ==> Get(v.entries, key) == Some(r.value)
  {
    match v
    case VDict(entries) => if key in Keys(entries) then Success(Get(entries, key).value) else Failure(Quote(key))
    case VList(_) => Failure("list indices must be integers or slices, not str")
    case VStr(_) => Failure("string indices must be integers, not 'str'")
    case _ => Failure("'" + TypeName(v) + "' object is not subscriptable")
  }

  /** `list(v)` as a `for` loop sees it: list items, string characters, dict keys. */
  function Iterate(v: Value): (r: Result<seq<Value>, string>)
    ensures r.Success? <==> (v.VList? || v.VStr? || v.VDict?)
    ensures v.VList? ==> r == Success(v.items)
  {
    match v
    case VList(items) => Success(items)
    case VStr(s) => Success(seq(|s|, i requires 0 <= i < |s| => VStr([s[i]])))
    case VDict(entries) => Success(StrList(Keys(entries)).items)
    case _ => Failure("'" + TypeName(v) + "' object is not iterable")
  }

  /** `repr(v)`. */
  function Repr(v: Value): string {
    match v
    case VNone => "None"
    case VBool(b) => if b then "True" else "False"
    case VInt(i) => IntToString(i)
    case VFloat(f) => FloatRepr(f)
    case VStr(s) => Quote(s)
    case VList(items) =>
      "[" + Join(seq(|items|, i requires 0 <= i < |items| => Repr(items[i])), ", ") + "]"
    case VDict(entries) =>
      "{" + Join(seq(|entries|, i requires 0 <= i < |entries| =>
                    Quote(entries[i].0) + ": " + Repr(entries[i].1)), ", ") + "}"
  }

  /** `str(v)`, which is what an f-string placeholder shows. */
  function Str(v: Value): string {
    if v.VStr? then v.s else Repr(v)
  }

  /** `f"{v:.2f}"`: numbers (bool included) only. */
  function FormatFixed2(v: Value): (r: Result<string, string>)
    ensures r.Success? <==> (v.VBool? || v.VInt? || v.VFloat?)
  {
    match v
    case VBool(b) => Success(if b then "1.00" else "0.00")
    case VInt(i) => Success(Fixed2(i as real))
    case VFloat(f) => Success(Fixed2(f))
    case VStr(_) => Failure("Unknown format code 'f' for object of type 'str'")
    case _ => Failure("unsupported format string passed to " + TypeName(v) + ".__format__")
  }
}
