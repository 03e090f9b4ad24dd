/**
 * Values produced by `JSON.parse`, and the few JavaScript operations the
 * parser applies to them: property reads, truthiness, `===` and `for ... of`.
 * A property that is not present reads as `undefined`, written `None` here.
 */
module Json {
  import opened Wrappers

  /** A parsed JSON value. Numbers are modelled as integers. */
  datatype Json =
    | Null
    | Bool(b: bool)
    | Num(n: int)
    | Str(s: string)
    | Arr(items: seq<Json>)
    | Obj(fields: map<string, Json>)

  /**
   * Reading property `k` of a non-null value: only an object has named own
   * properties; on numbers, strings, booleans and arrays the names used in
   * this model read as `undefined`. (Reading a property of `null` throws;
   * callers check for `Null` first.)
   */
  function Member(v: Json, k: string): (r: Option<Json>)
    ensures r.Some? <==> v.Obj? && k in v.fields
    ensures r.Some? ==> r.value == v.fields[k]
  {
    if v.Obj? && k in v.fields then Some(v.fields[k]) else None
  }

  /** JavaScript truthiness of a value that may be `undefined`. */
  predicate Truthy(v: Option<Json>) {
    match v
    case None => false
    case Some(Null) => false
    case Some(Bool(b)) => b
    case Some(Num(n)) => n != 0
    case Some(Str(s)) => s != ""
    case Some(Arr(_)) => true
    case Some(Obj(_)) => true
  }

  /**
   * `a === b` where `b` is a parsed value: primitives compare by value;
   * arrays and objects are distinct heap objects after parsing, so they are
   * never identical to anything; `undefined` equals no parsed value.
   */
  predicate StrictEquals(a: Option<Json>, b: Json) {
    match a
    case None => false
    case Some(Null) => b.Null?
    case Some(Bool(x)) => b.Bool? && b.b == x
    case Some(Num(x)) => b.Num? && b.n == x
    case Some(Str(x)) => b.Str? && b.s == x
    case Some(Arr(_)) => false
    case Some(Obj(_)) => false
  }

  /**
   * The elements `for (const x of v)` visits: the items of an array, the
   * characters of a string (each a one-character string), and `None` when
   * `v` is not iterable, in which case the loop throws a TypeError.
   */
  function Iterate(v: Json): (r: Option<seq<Json>>)
    ensures r.Some? <==> v.Arr? || v.Str?
    ensures v.Arr? ==> r == Some(v.items)
    ensures v.Str? ==> r.Some? && |r.value| == |v.s|
  {
    match v
    case Arr(items) => Some(items)
    case Str(s) => Some(seq(|s|, i requires 0 <= i < |s| => Str([s[i]])))
    case _ => None
  }
}
