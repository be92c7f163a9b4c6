/** Optional values and the result of a call to the remote chat API. */
module Wrappers {

  /** A value that may be absent: JavaScript's `null` / `undefined`. */
  datatype Option<+T> = None | Some(value: T)

  /** What an awaited request resolves to: the response payload, or a
      rejection (network error, non-2xx status). The error text only feeds
      a toast, so it is not carried. */
  datatype Response<+T> = Success(value: T) | Failure
}
