/** Shared result types for the Yt2Mid model. */
module Outcomes {

  datatype Option<T> = None | Some(value: T)

  /** The two Python exceptions the event compiler can raise while it walks the records. */
  datatype Failure =
    | IndexError   // the record cursor ran past the last record in the middle of a bar
    | ValueError   // `int()` refused the beat field of a four-field record

  /** Either the value computed, or the exception that aborted the computation. */
  datatype Result<T> = Ok(value: T) | Err(error: Failure)
}
