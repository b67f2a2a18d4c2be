/** The values a parsed property list is made of, and the two Python
    notions the tool applies to them: truthiness and JSON serialisability. */
module Plist {
  import opened Wrappers

  /** A property-list value as plistlib returns it: `str`, `int`, `float`,
      `bool`, `datetime`, `bytes`, `list` and `dict`. A date is an opaque
      instant; a real is kept only so that its truthiness can be taken. */
  datatype Value =
    | Str(s: string)
    | Integer(i: int)
    | Real(r: real)
    | Bool(b: bool)
    | Date(instant: int)
    | Data(bytes: seq<bv8>)
    | Array(items: seq<Value>)
    | Dict(entries: map<string, Value>)

  /** Python's `bool(v)`: the empty string, zero, `False`, and empty
      bytes, lists and dicts are false; a `datetime` is always true. */
  predicate Truthy(v: Value) {
    match v
    case Str(s) => s != ""
    case Integer(i) => i != 0
    case Real(r) => r != 0.0
    case Bool(b) => b
    case Date(_) => true
    case Data(bytes) => bytes != []
    case Array(items) => items != []
    case Dict(entries) => entries != map[]
  }

  /** Truthiness of a value that may be `None`, which is false. */
  predicate TruthyOpt(o: Option<Value>) {
    o.Some? && Truthy(o.value)
  }

  /** `dict.get(key)`: the value under `key`, or `None`. */
  function Get(m: map<string, Value>, key: string): (r: Option<Value>)
    ensures key in m <==> r.Some?
    ensures r.Some? ==> r.value == m[key]
  {
    if key in m then Some(m[key]) else None
  }

  /** `json.dumps` succeeds exactly on trees without `bytes` or
      `datetime` leaves (plist dictionary keys are always strings). */
  predicate JsonSafe(v: Value) {
    match v
    case Date(_) => false
    case Data(_) => false
    case Array(items) => forall i :: 0 <= i < |items| ==> JsonSafe(items[i])
    case Dict(entries) => forall k :: k in entries ==> JsonSafe(entries[k])
    case _ => true
  }

  /** One step down a value tree: a dictionary key or a list index. */
  datatype Step = Key(key: string) | Index(index: nat)

  /** `leaf` is found in `v` by following `path`. */
  predicate Reaches(v: Value, path: seq<Step>, leaf: Value)
    decreases path
  {
    if path == [] then v == leaf
    else match (v, path[0])
      case (Dict(entries), Key(k)) => k in entries && Reaches(entries[k], path[1..], leaf)
      case (Array(items), Index(i)) => i < |items| && Reaches(items[i], path[1..], leaf)
      case _ => false
  }

  /** A value with bytes or a date anywhere below it cannot be rendered
      as JSON, however deep the offending leaf sits. */
  lemma {:induction false} NestedUnsafeIsUnsafe(v: Value, path: seq<Step>, leaf: Value)
    requires leaf.Data? || leaf.Date?
    requires Reaches(v, path, leaf)
    ensures !JsonSafe(v)
    decreases path
  {
    if path != [] {
      match path[0]
      case Key(k) => NestedUnsafeIsUnsafe(v.entries[k], path[1..], leaf);
      case Index(i) => NestedUnsafeIsUnsafe(v.items[i], path[1..], leaf);
    }
  }
}
