/**
 The values a configuration file decodes to, and the mapping type that every
 tier, the defaults and the unified configuration object share.
 */
module Values {

  /** A decoded configuration value: a YAML scalar, a list or a nested mapping. */
  datatype Value =
    | Null
    | Bool(b: bool)
    | Int(i: int)
    | Str(s: string)
    | List(items: seq<Value>)
    | Dict(entries: map<string, Value>)

  /** A configuration object: string keys to decoded values (a Python dict). */
  type Mapping = map<string, Value>

  datatype Option<+T> = None | Some(value: T)

  datatype Result<+T, +E> = Ok(value: T) | Err(error: E)

  /** `m.get(k)`: the value stored under `k`, if any. */
  function Lookup(m: Mapping, k: string): Option<Value>
  {
    if k in m then Some(m[k]) else None
  }
}
