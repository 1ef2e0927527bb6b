/** Option and Result values, and the exceptions the modelled Python code can raise. */
module Results {

  datatype Option<+T> = None | Some(value: T)

  /** The Python exceptions that the modelled operations raise. */
  datatype PyError =
    | KeyError(key: string)        // missing mapping key
    | TypeError                    // subscripting None, or an argument asyncio.wait refuses
    | ValueError                   // int() of a non-decimal string
    | OverflowError                // len() result beyond sys.maxsize
    | AttributeError(name: string) // attribute missing on the instance
    | AssertionError               // a failed `assert` inside a library call

  datatype Result<+T> = Ok(value: T) | Err(error: PyError)

  /** The result of a call that returns None in Python or raises. */
  datatype Outcome = Done | Raised(error: PyError)
}
