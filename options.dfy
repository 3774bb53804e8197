/** Optional values: JavaScript's `undefined` / `null` versus a present value. */
module Options {

  datatype Option<T> = None | Some(value: T) {

    /** The value when present, otherwise `default` (JavaScript's `??`). */
    function GetOr(default: T): T
    {
      match this
      case Some(v) => v
      case None => default
    }
  }
}
