/** JSON-like values: what configuration options and source maps hold. */
module Json {

  datatype Value =
    | Null
    | Bool(b: bool)
    | Num(n: int)
    | Str(s: string)
    | Arr(items: seq<Value>)
    | Obj(fields: map<string, Value>)

  /** An options object or a source map: keys to values. */
  type Fields = map<string, Value>
}
