/**
 * Values shared by every module of the model: optional values, results that
 * carry a Python exception instead of raising it, and the plain values that
 * travel through the worker-to-aggregator queue.
 */
module Types {

  datatype Option<+T> = None | Some(value: T)

  /** The outcome of an operation that may raise a Python exception. */
  datatype Result<+R> = Ok(value: R) | Err(error: Error)

  /** The Python exceptions the modelled code can raise. */
  datatype Error =
    | ValueError(message: string)
    | TypeError(message: string)
    | KeyError(key: string)
    | AttributeError(name: string)
    | IndexError
    | StopIteration

  /**
   * A value as it is pickled onto the result queue: text, an integer
   * (durations are modelled as integers), None, the serialized test triple
   * `(qualname, str(test), shortDescription())`, and the two-field test
   * tuple `(str(test), shortDescription())` of the older management command.
   */
  datatype Value =
    | Str(s: string)
    | Int(i: int)
    | NoneValue
    | Triple(qualname: string, name: string, description: Option<string>)
    | Pair(pairName: string, pairDescription: Option<string>)
}
