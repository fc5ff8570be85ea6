/**
  The JavaScript values the user hook inspects: JSON-shaped data as returned by the
  data service, together with the three operators the hook applies to it
  (truthiness, `typeof`, and the `in` operator).
*/
module JsValues {
  import opened Wrappers

  datatype Json =
    | Null
    | Bool(b: bool)
    | Num(n: real)
    | Str(s: string)
    | Arr(items: seq<Json>)
    | Obj(fields: map<string, Json>)

  /** The error the `in` operator raises on an operand that is not an object. */
  datatype JsError = TypeError

  /** JavaScript truthiness. JSON carries no NaN, so a number is falsy exactly when it is zero. */
  predicate Truthy(v: Json) {
    match v
    case Null => false
    case Bool(b) => b
    case Num(n) => n != 0.0
    case Str(s) => s != ""
    case Arr(_) => true
    case Obj(_) => true
  }

  /** The `typeof` operator; note that `typeof null` is "object". */
  function TypeOf(v: Json): string {
    match v
    case Null => "object"
    case Bool(_) => "boolean"
    case Num(_) => "number"
    case Str(_) => "string"
    case Arr(_) => "object"
    case Obj(_) => "object"
  }

  /** A non-null object: the only operands on which `in` does not raise. */
  predicate IsObject(v: Json) {
    v.Arr? || v.Obj?
  }

  /**
    `k in v`. It raises a TypeError unless `v` is an object. Arrays own only
    `length` and their index keys, none of which the hook ever asks about, so an
    array answers false here.
  */
  function KeyIn(k: string, v: Json): (r: Result<bool, JsError>)
    ensures r.Failure? <==> !IsObject(v)
    ensures r == Success(true) <==> v.Obj? && k in v.fields
  {
    match v
    case Obj(m) => Success(k in m)
    case Arr(_) => Success(false)
    case _ => Failure(TypeError)
  }

  /** Property access `v[k]` on a key known to be present. */
  function Member(v: Json, k: string): Json
    requires v.Obj? && k in v.fields
  {
    v.fields[k]
  }

  /** `v && typeof v === 'object'` holds exactly of non-null objects. */
  lemma TruthyObjectIsObject(v: Json)
    ensures (Truthy(v) && TypeOf(v) == "object") <==> IsObject(v)
  {
  }
}
