/** Values shared by every part of the model: optional values, errors and the
    outcome of an operation that either succeeds or reports the first error. */
module Wrappers {

  datatype Option<+T> = None | Some(value: T)

  /** Why an operation stopped. */
  datatype Error =
    | Invalid(message: string)   // a validator rejected the configuration, with its fmt.Errorf text
    | RunFailed(run: nat)        // the process runner reported a failure for the run with this index
    | WriteFailed(path: string)  // the file writer could not write this path
    | Malformed(reason: string)  // a JSON decoder rejected its input, with the decoder's reason

  /** Go's `error` return: nil or the first error met. */
  datatype Outcome = Pass | Fail(error: Error)

  /** What `json.Unmarshal` made of a raw option string. Decoding itself is not
      part of this model: callers hand in its result. A syntax error is found
      before anything is stored; a value of the wrong type for a field is
      skipped, the fields that fit are stored, and the error comes after. */
  datatype Decoded<+T> =
    | Decoded(value: T)                     // no error; `value` is what was stored
    | Rejected(reason: string)              // a syntax error: nothing was stored
    | Mismatched(value: T, reason: string)  // a type mismatch: `value` is what was stored
  {
    /** What the decoding target holds afterwards, when it held `before`. */
    function Into(before: T): (v: T)
      ensures Rejected? ==> v == before
      ensures !Rejected? ==> v == value
    {
      if Rejected? then before else value
    }
  }
}
