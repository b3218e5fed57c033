/** The Python values that Ansible and the PrivX API hand to the plugins, and the
    few built-in operations on them whose edge cases the plugins depend on. */
module Py {

  datatype Option<+T> = None | Some(value: T)

  datatype Result<+T, +E> = Ok(value: T) | Err(error: E)

  /** A JSON-like Python value. Datatype equality is Python's deep `==` on such values. */
  datatype Value =
    | Null
    | Bool(b: bool)
    | Int(i: int)
    | Str(s: string)
    | List(items: seq<Value>)
    | Dict(fields: map<string, Value>)

  /** A Python dict with string keys. */
  type Record = map<string, Value>

  /** `bool(v)`: None, False, 0, "", [] and {} are false. */
  predicate Truthy(v: Value) {
    match v
    case Null => false
    case Bool(b) => b
    case Int(i) => i != 0
    case Str(s) => s != ""
    case List(xs) => xs != []
    case Dict(f) => f != map[]
  }

  /** Lists and dicts cannot be dict keys or set members (Python raises TypeError). */
  predicate Hashable(v: Value) {
    !v.List? && !v.Dict?
  }

  /** `d.get(k, default)` */
  function Get(d: Record, k: string, default: Value): Value {
    if k in d then d[k] else default
  }

  predicate OccursAt(sub: string, s: string, i: int) {
    0 <= i <= |s| - |sub| && s[i..i + |sub|] == sub
  }

  /** `sub in s` on two strings. */
  predicate IsSubstring(sub: string, s: string) {
    exists i | 0 <= i <= |s| - |sub| :: OccursAt(sub, s, i)
  }

  /** `key in x` for a string `key`: a dict tests its keys, a string its substrings,
      a list its elements; anything else raises TypeError (None). */
  function Contains(x: Value, key: string): Option<bool> {
    match x
    case Dict(f) => Some(key in f)
    case Str(s) => Some(IsSubstring(key, s))
    case List(xs) => Some(Str(key) in xs)
    case _ => None
  }

  /** `a` can be obtained from `b` by deleting elements, keeping the order. */
  predicate IsSubsequence<T(==)>(a: seq<T>, b: seq<T>) {
    a == [] || (b != [] && ((a[0] == b[0] && IsSubsequence(a[1..], b[1..])) || IsSubsequence(a, b[1..])))
  }
}
