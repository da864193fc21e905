/** Optional values, the exceptions the modelled Python code raises, and
    results that carry either a value or one of those exceptions. */
module Outcomes {

  import opened Octets

  datatype Option<+T> = None | Some(value: T)

  /** The Python exceptions that the modelled code raises or catches. */
  datatype Error =
    | KeyError(key: Bytes)             // absent key
    | NotImplementedError(message: string)
    | UnicodeDecodeError               // bytes that are not well-formed UTF-8
    | AttributeError(name: string)     // method missing on the value's type
    | TypeError(message: string)
    | ValueError(message: string)

  datatype Result<+T> = Ok(value: T) | Err(error: Error) {
    predicate IsFailure() { Err? }

    function PropagateFailure<U>(): Result<U>
      requires Err?
    {
      Err(error)
    }

    function Extract(): T
      requires Ok?
    {
      value
    }
  }
}
