/** Values shared by every stage of the pipeline. */
module Common {

  datatype Option<T> = None | Some(value: T)

  /** The ways a comparison run can fail as a whole. */
  datatype Error =
    | UsageError        // fewer than two file paths on the command line
    | DecoderError      // the decoder raised something other than a truncation
    | NothingToCompare  // `max`/`min` over no series at all

  datatype Result<T> = Ok(value: T) | Err(error: Error)
}
