/** Error values shared by the verifier, the one-shot waiter and the dial orchestrator.

    Go's `error` is an interface compared by identity; here an error is a value, and `nil`
    is `None` in an `Option<Error>`. */
module Errs {

  datatype Option<+T> = None | Some(value: T)

  /** The success-or-error result of a call into a foreign library. */
  datatype Result<+T> = Ok(value: T) | Fail(err: Error)

  datatype Error =
    /** `ErrCertExpired` of the verifier package. */
    | CertExpired
    /** `ErrNotMatchedFingerprint` of the verifier package. */
    | NotMatchedFingerprint
    /** `ErrNotResponse` of the gRPC dial package. */
    | NotResponse
    /** Any other error, identified by its message: one built with `errors.New`, or one
        returned by a foreign library (x509, the fingerprint library, the transport). */
    | Opaque(message: string)
    /** `errors.Wrap(cause, context)`: the cause with a context message in front. */
    | Wrapped(context: string, cause: Error)

  /** The error `Wait` returns when a verifier has no waiter attached. */
  const WaiterNil: Error := Opaque("error waiter in nil")

  /** The error the dial loop returns when the dial-result channel is closed without a result. */
  const NoResult: Error := Opaque("no result (should not happen)")

  /** Context message put in front of an x509 parse error. */
  const ParseContext: string := "failed to parse certificate from server"

  /** Context message put in front of an error of the fingerprint library. */
  const FingerprintContext: string := "failed to create a fingerprint for server cert"
}
