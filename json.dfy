/** The decoded JSON values the services pass around as Python dicts and lists. */
module Json {
  import opened Wrappers

  datatype Value =
    | Null
    | Bool(b: bool)
    | Num(n: real)
    | Str(s: string)
    | List(items: seq<Value>)
    | Object(fields: map<string, Value>)

  /** `d.get(key, default)`. */
  function Get(d: map<string, Value>, key: string, default: Value): Value
  {
    if key in d then d[key] else default
  }

  /**
   * What a `for` loop walks over: the items of a list, the
   * characters of a string or one entry per key of an object; the keys
   * stand as `Null`, since all that matters of them is that none is an
   * object. None for the values that cannot be iterated, which raise.
   */
  function Iterated(v: Value): (r: Option<seq<Value>>)
    ensures r.Some? && !v.List? ==> forall i :: 0 <= i < |r.value| ==> !r.value[i].Object?
  {
    match v
    case List(items) => Some(items)
    case Str(s) => Some(seq(|s|, i requires 0 <= i < |s| => Str([s[i]])))
    case Object(fields) => Some(seq(|fields|, i => Null))
    case _ => None
  }
}
