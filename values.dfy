/** JavaScript values as far as the map component inspects them, and the
    dataset records ("sets") it receives from its data sources. */
module Values {

  datatype Option<+T> = None | Some(value: T)

  datatype Result<+T, +E> = Ok(value: T) | Err(error: E)

  /** The exception a property read on `undefined` or `null` raises. */
  datatype Fault = TypeError

  /** A JavaScript value. Numbers are kept opaque (no arithmetic is done on
      coordinates), so a whole number stands for any finite number. */
  datatype Value =
    | Undefined
    | Null
    | Num(n: int)
    | Text(s: string)
    | Bool(b: bool)
    | Obj(fields: map<string, Value>)
    | Arr(items: seq<Value>)

  predicate Nullish(v: Value) {
    v.Undefined? || v.Null?
  }

  /** JavaScript truthiness: `!v` is true exactly when `v` is not truthy. */
  predicate Truthy(v: Value) {
    match v
    case Undefined => false
    case Null => false
    case Num(n) => n != 0
    case Text(s) => s != []
    case Bool(b) => b
    case Obj(_) => true
    case Arr(_) => true
  }

  /** `v.k`: reading a property of `undefined` or `null` throws; a missing
      property, or any property of a primitive, reads as `undefined`. */
  function Prop(v: Value, k: string): (r: Result<Value, Fault>)
    ensures r.Err? <==> Nullish(v)
    ensures v.Obj? && k !in v.fields ==> r == Ok(Undefined)
  {
    match v
    case Undefined => Err(TypeError)
    case Null => Err(TypeError)
    case Obj(f) => Ok(if k in f then f[k] else Undefined)
    case _ => Ok(Undefined)
  }

  /** `v[i]` for a non-negative index: an array element, `undefined` past the
      end, and a TypeError on `undefined` or `null`. */
  function At(v: Value, i: nat): (r: Result<Value, Fault>)
    ensures r.Err? <==> Nullish(v)
    ensures v.Arr? && i < |v.items| ==> r == Ok(v.items[i])
  {
    match v
    case Undefined => Err(TypeError)
    case Null => Err(TypeError)
    case Arr(items) => Ok(if i < |items| then items[i] else Undefined)
    case _ => Ok(Undefined)
  }

  /** JavaScript `a == b` on the values above. Objects and arrays are compared
      structurally, standing for identity; number/string coercion is not
      modelled. */
  predicate LooseEq(a: Value, b: Value) {
    if Nullish(a) || Nullish(b) then Nullish(a) && Nullish(b)
    else if a.Num? && b.Bool? then a.n == (if b.b then 1 else 0)
    else if a.Bool? && b.Num? then b.n == (if a.b then 1 else 0)
    else a == b
  }

  /** One dataset of a data source: `ds.swac_fromName`, `ds.id` and its
      other attributes. */
  datatype DataSet = DataSet(fromName: string, id: nat, attrs: map<string, Value>)

  /** `ds[k]` */
  function Attr(ds: DataSet, k: string): (v: Value)
    ensures k != "swac_fromName" && k != "id" && k !in ds.attrs ==> v == Undefined
  {
    if k == "swac_fromName" then Text(ds.fromName)
    else if k == "id" then Num(ds.id)
    else if k in ds.attrs then ds.attrs[k]
    else Undefined
  }

  /** A map position. */
  datatype Pos = Pos(lat: int, lng: int)

  /** `L.latLng(lat, lng)`: a position when both parts are numbers, and no
      position (the library's `null`/`undefined`) otherwise. */
  function LatLng(lat: Value, lng: Value): (r: Option<Pos>)
    ensures r.Some? <==> lat.Num? && lng.Num?
    ensures r.Some? ==> r.value.lat == lat.n && r.value.lng == lng.n
  {
    if lat.Num? && lng.Num? then Some(Pos(lat.n, lng.n)) else None
  }
}
