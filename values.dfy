/** Python values as the query builder receives them from its callers. */
module Values {

  /** A Python value built from dicts, lists and scalars (`None`, `bool`, `int`, `str`).
      A dict is the sequence of its items in insertion order; its keys are strings.
      Floats are not modelled. */
  datatype Value =
    | Null
    | Bool(b: bool)
    | Int(i: int)
    | Str(s: string)
    | List(items: seq<Value>)
    | Map(entries: seq<(string, Value)>)

  /** The Python exceptions that escape from the builder uncaught. */
  datatype PyError = AttributeError | TypeError

  datatype Option<T> = None | Some(value: T)

  datatype Result<T> = Ok(value: T) | Err(error: PyError)
}
