/** The optional value used for JavaScript's `undefined`/absent fields. */
module Wrappers {
  datatype Option<+T> = None | Some(value: T) {
    function GetOr(default: T): T
    {
      if Some? then value else default
    }
  }
}
