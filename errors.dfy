/** Error values of the descriptor registry. Every failure of the core is
    returned to the caller as one of these kinds, never raised. */
module Errors {

  datatype Option<+T> = None | Some(value: T)

  /** The six failure conditions the core reports. */
  datatype ErrorKind =
    | UnknownTypeClass            // TypeClassCheck: class index past the enumeration
    | NotInTypeClass              // TypeClassCheck: descriptor absent from the class
    | UnsupportedNumpyConversion  // NumpyDtype: descriptor has no interchange code
    | UnsupportedNumpyDecode      // FromNumpyDtype: code not in the reverse table
    | NameNotFound                // FindByName: no registered descriptor has the name
    | NoConstructor               // FromInt: no int constructor for the descriptor

  datatype Result<+T> = Ok(value: T) | Err(error: ErrorKind)
}
