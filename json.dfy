/**
  The JavaScript values that flow through the client: the fields of an error, the
  second argument of `report` and the fields of the payload built from them.
 */
module Json {

  /** A JavaScript value as far as the client looks at it. Numbers are integers here. */
  datatype Value =
    | Undefined
    | Null
    | Bool(b: bool)
    | Num(n: int)
    | Str(s: string)
    | Arr(items: seq<Value>)
    | Obj(fields: map<string, Value>)

  /** JavaScript falsiness: `!v` holds exactly for these values (NaN is not modelled). */
  predicate Falsy(v: Value)
  {
    v == Undefined || v == Null || v == Bool(false) || v == Num(0) || v == Str("")
  }

  /** The empty object literal `{}`. */
  const EmptyObject: Value := Obj(map[])
}
