/** Failure-compatible result types shared by every module of the model. */
module Wrappers {

  datatype Option<+T> = None | Some(value: T) {
    function GetOr(default: T): T {
      match this
      case Some(v) => v
      case None => default
    }
  }

  /** A JavaScript `Error`: `message` is `None` when the thrown value has no message. */
  datatype Error = Error(message: Option<string>) {
    /** `error.message || ""` */
    function Text(): string {
      message.GetOr("")
    }
  }

  /** The outcome of a call that either returns a value or throws an `Error`. */
  datatype Result<+T> = Success(value: T) | Failure(error: Error)

  function Fail<T>(message: string): Result<T> {
    Failure(Error(Some(message)))
  }
}
