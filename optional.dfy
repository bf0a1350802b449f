/** The optional value used for JavaScript's `undefined`, `null` and missing keys. */
module Optional {

  datatype Option<T> = None | Some(value: T) {

    /** The value when present, otherwise `default` (JavaScript's `x || default` on strings). */
    function GetOr(default: T): T
    {
      if Some? then value else default
    }
  }
}
