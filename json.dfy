/**
 * Decoded JSON documents and the Python idioms applied to them: truthiness
 * (`if x:`), `d.get(key, default)` and `data.get(key)`.  Python dicts are
 * modelled as maps; their insertion order is not modelled.
 */
module Json {
  import opened Base

  datatype Value =
    | Null
    | Bool(b: bool)
    | Int(i: int)
    | Num(r: real)
    | Str(s: string)
    | Array(items: seq<Value>)
    | Object(fields: map<string, Value>)

  /** Python truthiness: None, False, 0, 0.0, "", [] and {} are false. */
  predicate Truthy(v: Value) {
    match v
    case Null => false
    case Bool(b) => b
    case Int(i) => i != 0
    case Num(r) => r != 0.0
    case Str(s) => s != ""
    case Array(xs) => xs != []
    case Object(m) => m != map[]
  }

  /**
   * Python's `v.get(key, default)`.  None stands for the AttributeError raised
   * when `v` is not a dict.
   */
  function Get(v: Value, key: string, default: Value): (r: Option<Value>)
    ensures r.Some? <==> v.Object?
    ensures v.Object? ==> r.value == (if key in v.fields then v.fields[key] else default)
  {
    match v
    case Object(m) => Some(if key in m then m[key] else default)
    case _ => None
  }

  /** Python's `data.get(key)` on a dict: the stored value, or None when absent. */
  function Lookup(m: map<string, Value>, key: string): Value {
    if key in m then m[key] else Null
  }

  /** An `Optional[str]` as a JSON value. */
  function OptionalText(o: Option<string>): Value {
    match o
    case Some(s) => Str(s)
    case None => Null
  }

  /** Truthiness of an `Optional[str]`: present and non-empty. */
  predicate NonEmpty(o: Option<string>) {
    o.Some? && o.value != ""
  }

  /**
   * A list comprehension over a JSON array with a conversion that can fail:
   * the converted elements in order, or None as soon as one fails.
   */
  function MapAll<T>(f: Value -> Option<T>, xs: seq<Value>): (r: Option<seq<T>>)
    ensures r.Some? <==> forall i :: 0 <= i < |xs| ==> f(xs[i]).Some?
    ensures r.Some? ==> |r.value| == |xs| && forall i :: 0 <= i < |xs| ==> f(xs[i]) == Some(r.value[i])
  {
    if xs == [] then Some([])
    else
      var head := f(xs[0]);
      var tail := MapAll(f, xs[1..]);
      if head.Some? && tail.Some? then Some([head.value] + tail.value) else None
  }
}
