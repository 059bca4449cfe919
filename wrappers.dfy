/** The optional-value wrapper used for every JavaScript key that may be absent. */
module Wrappers {

  datatype Option<+T> = None | Some(value: T) {

    /** The `??` operator: the value when present, otherwise `default`. */
    function GetOr(default: T): T {
      if Some? then value else default
    }
  }
}
