/** Optional values and the outcome of a Python call that may raise. */
module Wrappers {

  /** Python's `None` or a value. */
  datatype Option<+T> = None | Some(value: T)

  /** The exceptions the modelled code can raise on its own (not transport errors). */
  datatype PyError = KeyError | IndexError | AttributeError | ValueError

  /** A call that either returns a value or raises. */
  datatype Ret<+T> = Returned(value: T) | Raised(error: PyError)

  /** A call that returns nothing useful, or raises. */
  datatype Outcome = Done | Threw(error: PyError)
}
