/**
 * JSON values as the proxy and the client handle them, with JavaScript's
 * truthiness, optional member access (`v?.key`) and the `a || b` choice.
 */
module Json {
  import opened Wrappers

  /** A JSON value; numbers are exact reals (NaN and infinities do not occur in JSON). */
  datatype Value =
    | Null
    | Bool(b: bool)
    | Num(n: real)
    | Str(s: string)
    | Arr(items: seq<Value>)
    | Obj(fields: map<string, Value>)

  /** JavaScript truthiness of a JSON value. */
  predicate Truthy(v: Value) {
    match v
    case Null => false
    case Bool(b) => b
    case Num(n) => n != 0.0
    case Str(s) => s != ""
    case Arr(_) => true
    case Obj(_) => true
  }

  /**
   * `v?.key` where `v` may be undefined (`None`): a value only when `v` is an
   * object that has the key; `undefined` otherwise (`?.` turns `null` into
   * `undefined`). This holds for the keys the code reads (`error`, `detail`,
   * `message`); it is not JavaScript's general property lookup, under which
   * arrays and strings have `length` and objects inherit `constructor`.
   */
  function Member(v: Option<Value>, key: string): (r: Option<Value>)
    ensures r.Some? <==> v.Some? && v.value.Obj? && key in v.value.fields
    ensures r.Some? ==> r.value == v.value.fields[key]
  {
    match v
    case Some(Obj(fields)) => if key in fields then Some(fields[key]) else None
    case _ => None
  }

  /** `a || b` where `a` may be undefined: `a` when it is present and truthy, else `b`. */
  function OrElse(a: Option<Value>, b: Value): (r: Value)
    ensures a.Some? && Truthy(a.value) ==> r == a.value
    ensures !(a.Some? && Truthy(a.value)) ==> r == b
  {
    if a.Some? && Truthy(a.value) then a.value else b
  }
}
