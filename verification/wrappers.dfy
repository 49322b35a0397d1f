/** Option and Result wrappers shared by every module of the model. */
module Wrappers {

  datatype Option<T> = None | Some(value: T) {
    predicate IsSome() { Some? }

    function GetOr(default: T): (r: T)
      ensures Some? ==> r == value
      ensures None? ==> r == default
    {
      match this
      case Some(v) => v
      case None => default
    }

    /** JavaScript's `a || b` on an optional value, where only `None` is falsy. */
    function Or(other: Option<T>): (r: Option<T>)
      ensures Some? ==> r == this
      ensures None? ==> r == other
    {
      if Some? then this else other
    }
  }

  /** The outcome of a step that either yields a value or raises an error message. */
  datatype Result<T> = Ok(value: T) | Err(error: string)

}
