/** Outcomes of the operations of main.c.

    The C code signals a shape mismatch by `assert` (the process aborts) and
    performs no check at all in a few places where it indexes a buffer. The
    model separates the two:
    - `Result` is the outcome of an operation that checks its inputs and fails
      fast with a descriptive `Error`;
    - `Access` is the outcome of code that reads or writes a buffer without a
      check: `OutOfBounds` marks the first access outside the buffer, which in
      C is undefined behaviour rather than a reported error.
 */
module Outcomes {

  datatype Error =
    | ShapeMismatch(expected: nat, actual: nat)
    | IndexOutOfRange(index: int, size: nat)

  /** A checked outcome; usable with `:-`. */
  datatype Result<+T> = Ok(value: T) | Err(error: Error) {

    predicate IsFailure() {
      Err?
    }

    function PropagateFailure<U>(): Result<U>
      requires Err?
    {
      Err(error)
    }

    function Extract(): T
      requires Ok?
    {
      value
    }
  }

  /** An unchecked outcome: either every buffer access stayed in bounds, or
      the first one that did not was at `index` of the buffer the C code
      names `buffer`. */
  datatype Access<+T> = Defined(value: T) | OutOfBounds(buffer: string, index: int)
}
