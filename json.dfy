/**
 * Documents of the case collection as loosely typed JSON values, and the
 * Python and JavaScript readings of them that the backend and the dashboard
 * rely on (truthiness, dict lookup, hashability).
 */
module Json {
  import opened Wrappers

  /** A JSON value. Numbers are integers; floating-point values are not modelled. */
  datatype Json =
    | JNull
    | JBool(b: bool)
    | JNum(n: int)
    | JStr(s: string)
    | JArr(items: seq<Json>)
    | JObj(fields: map<string, Json>)

  /** A top-level document of the collection (always an object). */
  type Doc = map<string, Json>

  /** The exceptions the endpoints can raise. */
  datatype Fault =
    | InputError(param: string)   // int() of a malformed filter value
    | TypeFault                   // TypeError / AttributeError on a value of the wrong shape
    | CodecError(unseen: Json)     // a label the fitted encoder has not seen
    | NoSamples                   // the classifier asked to predict zero rows
    | Overflow                    // OverflowError: an integer the store's 64-bit encoding cannot hold
    | RangeFault                  // RangeError: an array length beyond 2^32 - 1

  /** The integers BSON can hold: a signed 64-bit range. */
  predicate FitsInt64(n: int) {
    -0x8000_0000_0000_0000 <= n < 0x8000_0000_0000_0000
  }

  /** The store's encoder accepts the value: every integer in it, at any depth, fits 64 bits. */
  predicate Encodable(v: Json) {
    match v
    case JNum(n) => FitsInt64(n)
    case JArr(xs) => forall i :: 0 <= i < |xs| ==> Encodable(xs[i])
    case JObj(m) => forall k :: k in m ==> Encodable(m[k])
    case _ => true
  }

  /** Python truthiness: None, False, 0, "", [] and {} are false. */
  predicate PyTruthy(v: Json) {
    match v
    case JNull => false
    case JBool(b) => b
    case JNum(n) => n != 0
    case JStr(s) => s != ""
    case JArr(xs) => xs != []
    case JObj(m) => m != map[]
  }

  /** Lists and dicts are unhashable in Python: they cannot be dict keys. */
  predicate Hashable(v: Json) {
    !v.JArr? && !v.JObj?
  }

  /** `d.get(key)`: the value stored under key, or None. */
  function Get<V>(d: map<string, V>, key: string): (r: Option<V>)
    ensures r.Some? <==> key in d
    ensures r.Some? ==> r.value == d[key]
  {
    if key in d then Some(d[key]) else None
  }

  /** The value at the dotted path `vitima.<key>` when the victim is an embedded object. */
  function VictimField(d: Doc, key: string): Option<Json> {
    if "vitima" in d && d["vitima"].JObj? && key in d["vitima"].fields
    then Some(d["vitima"].fields[key])
    else None
  }

  /** `d.get("vitima", {})` is present and not a dict, so `.get` on it raises AttributeError. */
  predicate BadVictim(d: Doc) {
    "vitima" in d && !d["vitima"].JObj?
  }

  /**
   * `d.get("vitima", {}).get(key)`: a missing victim reads as {}, a victim that
   * is a dict is looked up, and any other victim value (None, a list, a string,
   * a number) has no `.get` and raises.
   */
  function VictimGet(d: Doc, key: string): (r: Result<Option<Json>, Fault>)
    ensures r.Err? <==> BadVictim(d)
    ensures r.Err? ==> r.error == TypeFault
    ensures r.Ok? && r.value.Some? ==> "vitima" in d && key in d["vitima"].fields
                                       && r.value.value == d["vitima"].fields[key]
    ensures r.Ok? ==> r.value == VictimField(d, key)
  {
    if "vitima" !in d then Ok(None)
    else match d["vitima"]
      case JObj(m) => Ok(Get(m, key))
      case _ => Err(TypeFault)
  }

}
