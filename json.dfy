/** JavaScript values as the server and the client exchange them, with the
    truthiness rules that the handlers' `!x` guards and `a || b` fall-backs use. */
module Json {

  datatype Option<+T> = None | Some(value: T)

  /** A JSON value. `undefined` is not a value here: an object field that is
      undefined is a key absent from the map, so it reads as `None`. */
  datatype Json =
    | Null
    | Bool(b: bool)
    | Num(n: real)
    | Str(s: string)
    | Arr(items: seq<Json>)
    | Obj(fields: map<string, Json>)

  /** A JavaScript object, such as a request body or a client form. */
  type Object = map<string, Json>

  /** JavaScript truthiness of a defined value (NaN is not modelled). */
  predicate Truthy(v: Json)
  {
    match v
    case Null => false
    case Bool(b) => b
    case Num(n) => n != 0.0
    case Str(s) => s != ""
    case Arr(_) => true
    case Obj(_) => true
  }

  /** Truthiness of a possibly undefined value: `undefined` is falsy. */
  predicate Present(v: Option<Json>)
  {
    v.Some? && Truthy(v.value)
  }

  /** `o.k`: the field, or undefined. */
  function Get(o: Object, k: string): (r: Option<Json>)
    ensures r.Some? <==> k in o
    ensures k in o ==> r.value == o[k]
  {
    if k in o then Some(o[k]) else None
  }

  /** `o.k` on a value that may not be an object: only an object has fields. */
  function Field(v: Option<Json>, k: string): (r: Option<Json>)
    ensures r.Some? ==> v.Some? && v.value.Obj? && k in v.value.fields
  {
    if v.Some? && v.value.Obj? then Get(v.value.fields, k) else None
  }

  /** `{ ...v }`: only an object contributes fields to a spread here. */
  function Spread(v: Option<Json>): (r: Object)
    ensures v.Some? && v.value.Obj? ==> r == v.value.fields
  {
    if v.Some? && v.value.Obj? then v.value.fields else map[]
  }

  /** `a || b` where `b` is a string default: truthy exactly when `a` is
      or the default is not empty. */
  function OrDefault(a: Option<Json>, b: string): (r: Json)
    ensures Present(a) ==> r == a.value
    ensures !Present(a) ==> r == Str(b)
    ensures Truthy(r) <==> Present(a) || b != ""
  {
    if Present(a) then a.value else Str(b)
  }

  /** `{ ...base, ...patch }`: the keys of `patch` win, every other key of
      `base` is kept. */
  function Merge(base: Object, patch: Object): (r: Object)
    ensures r.Keys == base.Keys + patch.Keys
    ensures forall k :: k in patch ==> r[k] == patch[k]
    ensures forall k :: k in base && k !in patch ==> r[k] == base[k]
  {
    base + patch
  }
}
