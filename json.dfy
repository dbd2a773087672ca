/**
 Decoded JSON values as the gliff client sees them once an Etebase collection's
 or item's content has gone through json.loads, with the few Python operations
 the client applies to them: subscription by a string key, len, iteration and
 the `in` test.
 */
module JsonValue {

  datatype Option<+T> = None | Some(value: T)

  /** The outcome of a Python expression that may raise. Every handler in the
      client catches `Exception` as a whole (or lets it propagate), so the
      model keeps only the fact that something was raised. */
  datatype Result<+T> = Ok(value: T) | Raised {
    predicate IsFailure() {
      Raised?
    }

    function PropagateFailure<U>(): Result<U>
      requires Raised?
    {
      Raised
    }

    function Extract(): T
      requires Ok?
    {
      value
    }
  }

  /** A value produced by json.loads: None, a bool, a number (int or float;
      Python compares 0 == 0.0, so one numeric kind suffices), a str, a list
      or a dict with string keys. */
  datatype Json =
    | Null
    | Bool(b: bool)
    | Num(n: real)
    | Str(s: string)
    | Array(items: seq<Json>)
    | Object(fields: map<string, Json>)

  /** `value[key]`: defined on a dict that holds the key; a missing key is a
      KeyError and any other kind of value a TypeError. */
  function Get(value: Json, key: string): Option<Json> {
    if value.Object? && key in value.fields then Some(value.fields[key]) else None
  }

  /** `value[k0][k1]...`: successive subscriptions, the first failure wins. */
  function GetPath(value: Json, path: seq<string>): Option<Json>
    decreases |path|
  {
    if path == [] then Some(value)
    else
      match Get(value, path[0])
      case None => None
      case Some(inner) => GetPath(inner, path[1..])
  }

  /** `len(value)`: defined on str, list and dict; a TypeError otherwise. */
  function Len(value: Json): Option<nat> {
    match value
    case Str(s) => Some(|s|)
    case Array(xs) => Some(|xs|)
    case Object(m) => Some(|m|)
    case _ => None
  }

  /** `len(value[k0][k1]...)`, with None standing for any exception raised. */
  function LenAt(value: Json, path: seq<string>): Option<nat> {
    match GetPath(value, path)
    case None => None
    case Some(v) => Len(v)
  }

  /** `needle in haystack` for two str values: substring containment. */
  function IsSubstring(needle: string, haystack: string): bool
    decreases |haystack|
  {
    if |needle| > |haystack| then false
    else haystack[..|needle|] == needle || (|haystack| > 0 && IsSubstring(needle, haystack[1..]))
  }

  /** A list of str as a JSON list. */
  function Strings(ss: seq<string>): (r: Json)
    ensures r.Array? && |r.items| == |ss|
    ensures forall i | 0 <= i < |ss| :: r.items[i] == Str(ss[i])
  {
    Array(seq(|ss|, i requires 0 <= i < |ss| => Str(ss[i])))
  }

  /** A Dict[str, str] as a JSON dict. The value is guarded by `k in m` so
      that `m[k]` is only read for keys of `m`. */
  function StrMap(m: map<string, string>): (r: Json)
    ensures r.Object? && r.fields.Keys == m.Keys
    ensures forall k | k in m :: r.fields[k] == Str(m[k])
  {
    Object(map k | k in m :: if k in m then Str(m[k]) else Null)
  }

  /** A Dict[str, bool] as a JSON dict (the key test as in StrMap). */
  function BoolMap(m: map<string, bool>): (r: Json)
    ensures r.Object? && r.fields.Keys == m.Keys
    ensures forall k | k in m :: r.fields[k] == Bool(m[k])
  {
    Object(map k | k in m :: if k in m then Bool(m[k]) else Null)
  }
}
