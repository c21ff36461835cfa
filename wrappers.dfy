/** Optional values, the checked exceptions the core can raise, and results carrying either. */
module Wrappers {

  datatype Option<+T> = None | Some(value: T)

  /** The exceptions of the core that the model distinguishes. */
  datatype Exception =
    | FileNotFound(path: string)   // FileInputStream on a path with no file
    | InvalidKeySpec               // the public-key bytes are not a valid encoded key
    | InvalidKey                   // initVerify rejected a decoded public key
    | SignatureFailure             // Signature.verify rejected the signature bytes as malformed

  /** A value, or the exception that was thrown instead; usable with `:-`. */
  datatype Result<+T> = Success(value: T) | Failure(error: Exception) {

    predicate IsFailure() {
      Failure?
    }

    function PropagateFailure<U>(): Result<U>
      requires Failure?
    {
      Failure(error)
    }

    function Extract(): T
      requires Success?
    {
      value
    }
  }
}
