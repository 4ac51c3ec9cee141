/** Option and Result datatypes, and the Python exceptions that the modelled code raises or lets escape. */
module Wrappers {

  datatype Option<+T> = None | Some(value: T)

  /** The exception classes that can escape from the modelled code. */
  datatype Error =
    | KeyError             // a missing dictionary key
    | TypeError            // an operation applied to a value of the wrong type (or an unhashable key)
    | AttributeError       // a method looked up on a value that lacks it (`None.build_absolute_uri`, `str.items`)
    | NotImplementedError  // raised explicitly by the overlay loop
    | ValueError           // a `dict.update` item that is not a key/value pair
    | YAMLError            // a YAML error other than a scanner error, which the docstring loader lets escape

  /** A computation that returns a value or raises one of the exceptions above. */
  datatype Result<+T> = Ok(value: T) | Err(error: Error) {
    predicate IsFailure() { Err? }

    function PropagateFailure<U>(): Result<U>
      requires Err?
    {
      Err(error)
    }

    function Extract(): T
      requires Ok?
    {
      value
    }
  }
}
