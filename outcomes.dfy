/** Go's `(value, error)` returns and the errors the model distinguishes. */
module Outcomes {
  import opened GoBytes

  datatype Option<+T> = None | Some(value: T)

  /** An error value. Vendor SDK errors are opaque; `fmt.Errorf("<context>: %w", e)`
      is `Wrapped(context, e)`; `findChannelIDByName`'s own error is `ChannelNotFound`. */
  datatype Error =
    | SdkError(detail: GoString)
    | Wrapped(context: GoString, inner: Error)
    | ChannelNotFound(channel: GoString)

  /** The outcome of a vendor call: a value, or the error it returned. */
  datatype Result<+T> = Ok(value: T) | Err(error: Error)
}
