/** Results and errors shared by the whole model.  Python exceptions raised by
    the NineML library become `Err` values carrying the exception's kind. */
module Wrappers {

  datatype Option<T> = None | Some(value: T)

  /** The exception classes raised by the modelled code. */
  datatype Error =
    | RuntimeError          // NineMLRuntimeError
    | UsageError            // NineMLUsageError
    | NameError             // NineMLNameError
    | ImmutableError        // NineMLImmutableError
    | NotImplemented        // NotImplementedError
    | DimensionError        // NineMLDimensionError
    | InvalidElementType    // NineMLInvalidElementTypeException
    | NotBound              // NineMLNotBoundException
    | TargetMissing         // NineMLTargetMissingException
    | TypeError             // TypeError
    | ValueError            // ValueError
    | KeyError              // KeyError
    | AttributeError        // AttributeError
    | IndexError            // IndexError
    | XmlError              // NineMLXMLError
    | SerializationError    // NineMLSerializationError
    | MissingSerialization  // NineMLMissingSerializationError
    | UnexpectedMultiple    // NineMLUnexpectedMultipleSerializationError
    | AssertionFailed       // a failed `assert` statement
    | PlainException        // a bare `Exception`
    | UndefinedName         // NameError: a name that is defined nowhere

  datatype Result<T> = Ok(value: T) | Err(error: Error)
  {
    predicate IsFailure() { Err? }

    function PropagateFailure<U>(): Result<U>
      requires Err?
    {
      Err(error)
    }

    function Extract(): T
      requires Ok?
    {
      value
    }
  }
}
