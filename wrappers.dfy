/** Option, the one failure-compatible wrapper the model needs. JavaScript's
    `undefined`/`null` for an absent value becomes `None`. */
module Wrappers {

  datatype Option<+T> = None | Some(value: T) {

    /** The carried value, or `default` when absent. */
    function GetOr(default: T): T {
      match this
      case Some(v) => v
      case None() => default
    }
  }
}
