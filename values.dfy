/** Values exchanged between the registry, the plugins and the HTTP layer. */
module Values {

  /** Python's `None` or a present value. */
  datatype Option<T> = None | Some(value: T)
  {
    function GetOr(default: T): T
    {
      match this
      case Some(v) => v
      case None => default
    }
  }

  /** A value returned normally or an exception raised instead. */
  datatype Result<T, E> = Success(value: T) | Failure(error: E)

  /**
   * A Python value as it crosses the plugin and JSON boundaries: JSON's shapes
   * plus `Object` for any other Python object a plugin may return.
   * Floating-point numbers are not distinguished from other objects.
   */
  datatype Value =
    | Null
    | Boolean(b: bool)
    | Number(n: int)
    | Str(s: string)
    | List(items: seq<Value>)
    | Dict(fields: map<string, Value>)
    | Object(repr: string)
}
