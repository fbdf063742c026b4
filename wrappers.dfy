/** Optional values: JavaScript's `undefined`/`null` and the result of `find`. */
module Wrappers {

  datatype Option<+T> = None | Some(value: T) {

    /** The value, or `default` when there is none (JavaScript's `x || default` on defined values). */
    function GetOr(default: T): T {
      match this
      case Some(v) => v
      case None => default
    }
  }

  /**
   * A handler's reply: a success status with a body, or an error status
   * with the error message the handler sends.
   */
  datatype Response<+T> = Reply(status: int, body: T) | Error(status: int, message: string) {
    predicate IsOk() { Reply? }
  }
}
