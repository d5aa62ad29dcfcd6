/** The few pieces of PHP semantics the bridge relies on, applied to values
    decoded with `json_decode($s, true)`, which turns both JSON objects and
    JSON arrays into PHP arrays. */
module PhpSemantics {
  import opened Wrappers
  import opened Json

  /** An array offset: a string key or an integer index. */
  datatype Key = Name(name: string) | Index(i: nat)

  /** The member at an offset, if the value is an array and has that key. A
      JSON object key that is a canonical decimal numeral becomes an integer
      key, so `Index(i)` also finds the object member named by `i` in decimal;
      a JSON array has only integer keys here. PHP itself also finds a list
      element by a numeric string key and reads a character of a string by
      an integer offset; neither is modelled, because every path the bridge
      reads takes, after any value that may be a list or a string, a
      non-numeric name. Other scalars have no offsets. */
  function Offset(v: Json, k: Key): Option<Json> {
    match v
    case JObj(m) =>
      var s := if k.Name? then k.name else Decimal(k.i);
      if s in m then Some(m[s]) else None
    case JArr(items) =>
      if k.Index? && k.i < |items| then Some(items[k.i]) else None
    case _ => None
  }

  /** `isset($v[k1][k2]...)` read together with the value it tests: Some of the
      value when every offset exists and the value reached is not null. It
      never raises. `$x ?? $d` is `d` exactly when this is None. */
  function Isset(v: Json, path: seq<Key>): (r: Option<Json>)
    ensures r.Some? ==> !r.value.JNull?
    decreases path
  {
    if path == [] then (if v.JNull? then None else Some(v))
    else
      match Offset(v, path[0])
      case None => None
      case Some(w) => Isset(w, path[1..])
  }

  /** The value at an offset path, null or not: offsets taken one after
      another, None as soon as one is missing. */
  function Lookup(v: Json, path: seq<Key>): Option<Json>
    decreases path
  {
    if path == [] then Some(v)
    else match Offset(v, path[0])
      case None => None
      case Some(w) => Lookup(w, path[1..])
  }

  /** `isset` finds exactly the values that exist at the path and are not
      null, and finds them unchanged. */
  lemma {:induction false} IssetIsNonNullLookup(v: Json, path: seq<Key>)
    ensures Isset(v, path).Some? <==> Lookup(v, path).Some? && !Lookup(v, path).value.JNull?
    ensures Isset(v, path).Some? ==> Isset(v, path) == Lookup(v, path)
    decreases path
  {
    if path != [] {
      match Offset(v, path[0])
      case None =>
      case Some(w) => IssetIsNonNullLookup(w, path[1..]);
    }
  }

  /** A plain read `$v['key']` with a non-numeric key: null (with a warning)
      when the key is missing or the value is not an array; None when PHP 8
      raises a TypeError, which it does for a string offset that is not an
      integer. */
  function ReadOffset(v: Json, key: string): Option<Json> {
    if v.JStr? then None
    else match Offset(v, Name(key))
      case None => Some(JNull)
      case Some(w) => Some(w)
  }

  /** `empty($s)` for a value that is a string or null (None): null, `""` and
      `"0"` are empty. */
  predicate EmptyString(s: Option<string>) {
    s.None? || s.value == "" || s.value == "0"
  }

  /** `$x ?? $default` for a value that is a string or null (None). */
  function OrDefault(x: Option<string>, default: string): (r: string)
    ensures x.Some? ==> r == x.value
    ensures x.None? ==> r == default
  {
    if x.Some? then x.value else default
  }
}
