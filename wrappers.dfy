/** The Option and Result types shared by the other modules. */
module Wrappers {

  /** A value that may be missing; `None` stands for JavaScript's `undefined`. */
  datatype Option<+T> = None | Some(value: T)

  /** The outcome of a step that may stop the process: `Died` carries the message `die` prints. */
  datatype Result<+T> = Ok(value: T) | Died(message: string)
}
