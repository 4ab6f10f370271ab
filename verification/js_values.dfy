/**
 * JSON values as the kit editor's JavaScript sees them after `JSON.parse`,
 * with the two pieces of JavaScript semantics the editor leans on: truthiness
 * and property reads.
 */
module JsValues {
  import opened Wrappers
  import OrderedMap

  /** A JSON value. Objects keep their keys in enumeration order. */
  datatype Json =
    | Null
    | Bool(b: bool)
    | Num(n: real)
    | Str(s: string)
    | Arr(elems: seq<Json>)
    | Obj(fields: seq<(string, Json)>)

  /** JavaScript truthiness: null, false, 0 and "" are falsy; arrays and objects, even empty, are truthy. */
  predicate Truthy(v: Json)
  {
    match v
    case Null => false
    case Bool(b) => b
    case Num(n) => n != 0.0
    case Str(s) => s != ""
    case Arr(_) => true
    case Obj(_) => true
  }

  /** Truthiness of a property that may be absent; `undefined` is falsy. */
  predicate TruthyProp(p: Option<Json>)
  {
    p.Some? && Truthy(p.value)
  }

  /** `typeof v === 'object'`, which holds for null as well as for arrays and objects. */
  predicate IsObjectType(v: Json)
  {
    v.Null? || v.Arr? || v.Obj?
  }

  /**
   * The property read `v.key` on a value other than null. Every key the editor
   * reads is an own property of an object or nothing: arrays, strings, numbers
   * and booleans have none of them.
   */
  function Prop(v: Json, key: string): (r: Option<Json>)
    ensures r.Some? <==> v.Obj? && key in OrderedMap.Keys(v.fields)
  {
    if v.Obj? then OrderedMap.Lookup(v.fields, key) else None
  }

  /** The expression `a || b || d`: the first truthy operand, else the last one. */
  function FirstTruthy(a: Option<Json>, b: Option<Json>, d: Json): (r: Json)
    ensures TruthyProp(a) ==> r == a.value
    ensures !TruthyProp(a) && TruthyProp(b) ==> r == b.value
    ensures !TruthyProp(a) && !TruthyProp(b) ==> r == d
    ensures Truthy(r) || r == d
  {
    if TruthyProp(a) then a.value else if TruthyProp(b) then b.value else d
  }

  /** A value that is truthy or already the default: the form `x || d` leaves unchanged. */
  predicate CanonicalField(v: Json, d: Json)
  {
    Truthy(v) || v == d
  }

  /** Resolving a canonical value again, found under either alias, gives it back. */
  lemma FirstTruthyStable(v: Json, d: Json)
    requires CanonicalField(v, d)
    ensures FirstTruthy(None, Some(v), d) == v
    ensures FirstTruthy(Some(v), None, d) == v
  {
  }
}
