/** The opaque transport representation that a convertible value is turned
    into before it is put in a store (Swift's `AnyObject`/`Any`), as a tagged
    union, together with the optional result of a failable conversion. */
module Transport {

  datatype Option<+T> = None | Some(value: T)

  /** A property-list-like payload: a primitive, or a dictionary keyed by strings. */
  datatype Value =
    | VBool(b: bool)
    | VInt(i: int)
    | VString(s: string)
    | VDict(entries: map<string, Value>)

  /** `object as? [String: Any]`: the entries when the payload is a dictionary. */
  function AsDictionary(v: Value): (r: Option<map<string, Value>>)
    ensures r.Some? <==> v.VDict?
    ensures r.Some? ==> VDict(r.value) == v
  {
    match v
    case VDict(entries) => Some(entries)
    case _ => None
  }

  /** `dict[k] as? Bool`: present only when the entry exists and is a Boolean. */
  function BoolEntry(d: map<string, Value>, k: string): (r: Option<bool>)
    ensures r.Some? <==> k in d && d[k].VBool?
    ensures r.Some? ==> d[k] == VBool(r.value)
  {
    if k in d && d[k].VBool? then Some(d[k].b) else None
  }

  /** `dict[k] as? Int`: present only when the entry exists and is an integer. */
  function IntEntry(d: map<string, Value>, k: string): (r: Option<int>)
    ensures r.Some? <==> k in d && d[k].VInt?
    ensures r.Some? ==> d[k] == VInt(r.value)
  {
    if k in d && d[k].VInt? then Some(d[k].i) else None
  }
}
