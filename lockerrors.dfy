/** The errors the lock hands back (locks/errors.go), plus the wrapped error kinds it passes through. */
module LockErrors {
  import opened KeyValue

  /** What `ctx.Err()` reports once the caller's context is done. */
  datatype ContextError = Canceled | DeadlineExceeded

  datatype LockError =
    | LockBlockingTimeOutErr        // blocking mode used up its waiting time
    | LockNotRetryErr               // blocking mode used up its retries
    | UnlockWithoutOwnershipErr     // the release script found the key absent or held by another token
    | DelayLockWithoutOwnershipErr  // the renewal script found the key absent or held by another token
    | ContextErr(ctxErr: ContextError)   // "lock failed ctx timeout, err: %w" wrapping ctx.Err()
    | StoreErr(storeError: StoreError)     // an error of the Redis client, returned unchanged
}
