/** The wrapper's error taxonomy and the result type its fallible operations return. */
module Errors {

  /** One variant per case of the wrapper's `Error` enum. `IOError` carries the
      operating system's error in the source; only the file-backed dataset
      loader produces it, and the payload is not modelled. */
  datatype Error =
    | IOError
    | FailedToInitializeVM
    | FailedToInitializeDataset
    | ThreadError
    | OutSizeLessThanHashLen(required: nat)
    | DatasetAllocError
    | CacheAllocError

  /** `Result<T, Error>` of the wrapper: a value or one of the errors above. */
  datatype Result<+T> = Ok(value: T) | Err(error: Error)
}
