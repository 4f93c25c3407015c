/** Option and Result types, and the Python exceptions the configuration code can raise. */
module Wrappers {

  datatype Option<+T> = None | Some(value: T) {
    function GetOr(default: T): T {
      match this
      case Some(v) => v
      case None => default
    }
  }

  /** The exceptions raised by the code being modelled. */
  datatype Error =
    | KeyError(key: string)   // a missing dictionary key
    | TypeError               // an operand of the wrong type (`+`, `str.replace`, `{**r}`, iteration)
    | AttributeError          // `.items()` on something that is not a dictionary
    | IndexError              // `partials[0]` on an empty list
    | NotFound(path: string)  // a file that cannot be opened or copied
    | ParseError(path: string) // a file that is not a well-formed YAML document

  datatype Result<+T> = Ok(value: T) | Err(error: Error)
}
