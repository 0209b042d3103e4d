/** The values a JSON or YAML loader hands over, as far as configuration files use them. */
module Json {

  /** A decoded value: the scalars, and objects with string keys. */
  datatype Value =
    | Null
    | Bool(b: bool)
    | Int(i: int)
    | Float(r: real)
    | Str(s: string)
    | Object(fields: map<string, Value>)
}
