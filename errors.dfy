/** Failures of the cacher, and the values that carry them back to the caller. */
module Errors {

  /** The ResourceInitializationException raised by the pollution guard: it names how many
      entries of the cache directory are not cache artifacts. */
  datatype CacheError = PollutedCache(offendingFiles: nat)

  /** A check that either passes or fails with a CacheError. */
  datatype Outcome = Pass | Fail(error: CacheError)

  /** A value, or the CacheError thrown instead of returning it. */
  datatype Result<T> = Ok(value: T) | Err(error: CacheError)
}
