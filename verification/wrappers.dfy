/** Failure-compatible wrappers used throughout the model, and the kinds of
    exception the modelled Python code raises or lets escape. */
module Wrappers {

  datatype Option<+T> = None | Some(value: T)

  /** The outcome of a call that may raise: its value, or the exception. */
  datatype Result<+T, +E> = Success(value: T) | Failure(error: E) {

    predicate IsFailure() {
      Failure?
    }

    function PropagateFailure<U>(): Result<U, E>
      requires Failure?
    {
      Failure(error)
    }

    function Extract(): T
      requires Success?
    {
      value
    }
  }
}

module Errors {

  /** Exception kinds, named after what raises them in the modelled code. */
  datatype Error =
    | IndexError            // indexing an empty Python list (vectors[0], decrypt()[0])
    | UnsupportedOperation  // the ValueError raised for an unknown operation string
    | MalformedEncoding     // text that base64.b64decode / bytes.fromhex rejects
    | MalformedContext      // bytes that ts.context_from cannot parse
    | MalformedCiphertext   // bytes that ts.ckks_vector_from cannot parse
    | MissingSecretKey      // decrypt() on a context that holds no secret key
    | KeyMismatch           // decrypt() with another key pair's secret key: CKKS yields noise
    | HttpError(status: nat) // raise_for_status() on a non-success response
}
