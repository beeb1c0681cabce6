/** Small value wrappers shared by every module of the model. */
module Values {

  /** A JavaScript value that may be `undefined` (or `null`). */
  datatype Option<T> = None | Some(value: T) {

    /** The wrapped value, or `d` when there is none. */
    function GetOr(d: T): T {
      if Some? then value else d
    }

    predicate IsFailure() {
      None?
    }

    function PropagateFailure<U>(): Option<U>
      requires None?
    {
      None
    }

    function Extract(): T
      requires Some?
    {
      value
    }
  }
}
