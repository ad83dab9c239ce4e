/** Decoded JSON documents, as Python's `json` module hands them to the handler,
    and the two kinds of subscript the handler applies to them. */
module Json {
  import opened Wrappers

  /** A decoded JSON value. An object is a Python dict, so a key occurring twice
      keeps its later value and the order of keys does not matter. Numbers are
      kept as reals. */
  datatype Value =
    | Null
    | Bool(b: bool)
    | Number(n: real)
    | Str(s: string)
    | Array(items: seq<Value>)
    | Object(fields: map<string, Value>)

  /** Python truthiness of a decoded value, as tested by `if not x`. */
  predicate Truthy(v: Value) {
    match v
    case Null => false
    case Bool(b) => b
    case Number(n) => n != 0.0
    case Str(s) => |s| > 0
    case Array(items) => |items| > 0
    case Object(fields) => |fields| > 0
  }

  /** `v[key]` for a string key. Only a dict holding the key answers; a dict
      without it raises KeyError and every other value raises TypeError. */
  function Member(v: Value, key: string): Option<Value> {
    match v
    case Object(fields) => if key in fields then Some(fields[key]) else None
    case _ => None
  }

  /** `v[0]`. A non-empty list yields its first item and a non-empty string its
      first character (as a string); an empty list or string raises IndexError,
      a dict raises KeyError (decoded JSON keys are strings) and every other
      value raises TypeError. */
  function First(v: Value): Option<Value> {
    match v
    case Array(items) => if |items| > 0 then Some(items[0]) else None
    case Str(s) => if |s| > 0 then Some(Str(s[..1])) else None
    case _ => None
  }
}
