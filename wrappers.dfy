/** Failure-carrying results shared by the lexer and the parser. */
module Wrappers {

  datatype Option<+T> = None | Some(value: T)

  /** Either a value or the error that stopped the computation. */
  datatype Result<+T, +E> = Ok(value: T) | Err(error: E)

  /** A value read from the input, with the cursor position just after it. */
  datatype Parsed<+T> = Parsed(node: T, next: nat)

  /** A method's result and final cursor position are those a specification function
      computes: the same value and position on success, the same error on failure. */
  ghost predicate Agrees<T, E>(spec: Result<Parsed<T>, E>, r: Result<T, E>, pos: nat)
  {
    match spec
    case Ok(p) => r == Ok(p.node) && pos == p.next
    case Err(e) => r == Err(e)
  }
}
