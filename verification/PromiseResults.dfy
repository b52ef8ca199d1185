/** Results travel through chains as "fulfilled" or "rejected with a reason". */
module PromiseResults {
  datatype Result = Fulfilled | Rejected(reason: Reason)

  /** The framework's own rejections, and opaque reasons made by user code. */
  datatype Reason = ExecutorStopped | GateSuspendedTwice | Unspecified | User(code: int)
}
