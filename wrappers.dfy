/** Optional values and fallible results, shared by the ledger and the sync service. */
module Wrappers {

  /** A value that may be missing, as `null`/`undefined` is in the source. */
  datatype Option<+T> = None | Some(value: T)

  /** The outcome of an operation that can fail; the failure carries a reason. */
  datatype Result<+T> = Success(value: T) | Failure(reason: string)
}
