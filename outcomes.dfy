/** Outcomes of the dataset operations: a value, or the Python exception the
    original code raises at that point. */
module Outcomes {

  datatype Option<+T> = None | Some(value: T)

  /** The exceptions the modelled code can raise. */
  datatype PyError =
    | AssertionError      // a failed `assert`
    | ZeroDivisionError   // `%` by zero
    | ValueError          // `int()` of a malformed string, an impossible numpy reshape or broadcast
    | KeyError            // a missing dictionary key
    | IndexError          // an out-of-range list or tensor index
    | RuntimeError        // an impossible torch reshape, `torch.cat` of no tensors
    | NameError           // a loop variable read after a loop that never ran (Python's UnboundLocalError, a subclass of NameError)

  datatype Result<+T> = Ok(value: T) | Err(error: PyError)
}
