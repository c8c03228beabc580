/**
 * The loosely typed JSON values that Foundation's JSONSerialization hands to
 * the parsers (`AnyObject`, `JSONDictionary = [String: AnyObject]`), and the
 * `as?` casts the parsers apply to them.
 */
module Json {
  import opened Options

  /** A JSON number is kept as an exact rational; Double rounding is not modelled. */
  datatype Json =
    | JNull
    | JBool(b: bool)
    | JNumber(n: real)
    | JString(s: string)
    | JArray(items: seq<Json>)
    | JObject(fields: map<string, Json>)

  /** `[String: AnyObject]` */
  type JsonDictionary = map<string, Json>

  /** `dict[key]`: the value under `key`, or nothing when the key is absent. */
  function Lookup(d: JsonDictionary, key: string): (r: Option<Json>)
    ensures r.Some? <==> key in d
    ensures r.Some? ==> r.value == d[key]
  {
    if key in d then Some(d[key]) else None
  }

  predicate IsIntegral(n: real) {
    n.Floor as real == n
  }

  /** `x as? Int`: succeeds on a number with no fractional part. */
  function AsInt(j: Option<Json>): (r: Option<int>)
    ensures r.Some? <==> j.Some? && j.value.JNumber? && IsIntegral(j.value.n)
    ensures r.Some? ==> r.value as real == j.value.n
  {
    match j
    case Some(JNumber(n)) => if IsIntegral(n) then Some(n.Floor) else None
    case _ => None
  }

  /** `x as? Double`: succeeds on any number. */
  function AsDouble(j: Option<Json>): (r: Option<real>)
    ensures r.Some? <==> j.Some? && j.value.JNumber?
    ensures r.Some? ==> r.value == j.value.n
  {
    match j
    case Some(JNumber(n)) => Some(n)
    case _ => None
  }

  /** `x as? String` */
  function AsString(j: Option<Json>): (r: Option<string>)
    ensures r.Some? <==> j.Some? && j.value.JString?
    ensures r.Some? ==> r.value == j.value.s
  {
    match j
    case Some(JString(s)) => Some(s)
    case _ => None
  }

  /** `x as? [String: AnyObject]` */
  function AsDictionary(j: Option<Json>): (r: Option<JsonDictionary>)
    ensures r.Some? <==> j.Some? && j.value.JObject?
    ensures r.Some? ==> r.value == j.value.fields
  {
    match j
    case Some(JObject(d)) => Some(d)
    case _ => None
  }

  /**
   * The element-wise part of an array cast such as `x as? [Int]`: it succeeds
   * only when every element casts, and then keeps every element in order.
   */
  function CastAll<T>(items: seq<Json>, cast: Option<Json> -> Option<T>): (r: Option<seq<T>>)
    ensures r.Some? <==> forall i :: 0 <= i < |items| ==> cast(Some(items[i])).Some?
    ensures r.Some? ==> |r.value| == |items|
    ensures r.Some? ==> forall i :: 0 <= i < |items| ==> r.value[i] == cast(Some(items[i])).value
  {
    if |items| == 0 then Some([])
    else
      match (cast(Some(items[0])), CastAll(items[1..], cast))
      case (Some(x), Some(xs)) => Some([x] + xs)
      case _ => None
  }

  /** `x as? [T]` for an element cast `cast`: the value must be an array. */
  function AsArray<T>(j: Option<Json>, cast: Option<Json> -> Option<T>): (r: Option<seq<T>>)
    ensures r.Some? <==> j.Some? && j.value.JArray? && CastAll(j.value.items, cast).Some?
    ensures r.Some? ==> r == CastAll(j.value.items, cast)
  {
    match j
    case Some(JArray(items)) => CastAll(items, cast)
    case _ => None
  }
}
