/** The Python exceptions the modelled code raises, propagates or catches. */
module Errors {

  datatype PyError =
    | BadStatus(status: int)  // the ValueError Myt raises for a response whose status is not 200
    | DecodeError             // json.JSONDecodeError, a subclass of ValueError
    | FormatError             // the ValueError of a format spec such as `:03d` applied to a str
    | ConversionError         // the ValueError of `int()` on a str that is not a number
    | KeyError(key: string)
    | TypeError
    | AttributeError          // a method such as `split` called on a value that is not a str
    | OSError                 // `open` on a path that is a directory
    | ZeroDivisionError

  /** The errors an `except ValueError:` clause catches. */
  predicate IsValueError(e: PyError)
  {
    e.BadStatus? || e.DecodeError? || e.FormatError? || e.ConversionError?
  }
}
