/** Small failure-carrying datatypes shared by every module of the model. */
module Wrappers {

  /** Python's `None` (an absent value, not an error). */
  datatype Option<+T> = None | Some(value: T)

  /** The Python exceptions that the modelled code can raise. */
  datatype PyError =
    | ValueError         // list.index of a missing item, range() with step 0, ewm span < 1
    | IndexError         // indexing an empty array or series
    | AttributeError     // unknown indicator name
    | ZeroDivisionError  // division by zero

  /** Either a value or the exception raised instead. */
  datatype Result<+T> = Ok(value: T) | Err(error: PyError)

  /** Python's `min` of two integers. */
  function Min(a: int, b: int): int {
    if a < b then a else b
  }
}
