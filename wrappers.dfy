/** Failure-carrying results shared by every module of the model. */
module Wrappers {

  datatype Option<+T> = None | Some(value: T)

  /** A Python call either returns a value or raises; `Err` carries the message. */
  datatype Result<+T> = Ok(value: T) | Err(error: string)

  /** The outcome of a step that produces no value. */
  datatype Status = Done | Failed(error: string)
}
