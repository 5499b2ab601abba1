/** Option, Result and the Python exceptions that escape the shop's code. */
module Outcomes {

  datatype Option<+T> = None | Some(value: T)

  datatype Result<+T, +E> = Ok(value: T) | Err(error: E)

  /** The exceptions the source lets propagate: a missing list element
      (`parts[i]`, `lines[0]`), a number that does not parse, and an action
      line that is not one of the three tuple shapes. */
  datatype Raised = IndexError | ValueError | SyntaxError
}
