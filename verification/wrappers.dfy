/** Failure-compatible optional values: `None` stands for JavaScript's
    `undefined`/`null`, a missing lookup, or (in the generators) a recursion
    that would not come back within the given fuel. */
module Wrappers {

  datatype Option<+T> = None | Some(value: T) {

    predicate IsFailure() {
      None?
    }

    function PropagateFailure<U>(): Option<U>
      requires None?
    {
      None
    }

    function Extract(): T
      requires Some?
    {
      value
    }

    /** JavaScript's `x || fallback` on a value that is either present or `undefined`. */
    function GetOr(default: T): T {
      match this
      case Some(v) => v
      case None => default
    }
  }
}
