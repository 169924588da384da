/** Small result types shared by the machine model.

    The source is Rust: a `todo!()`, a failed debug overflow check or an
    out-of-range slice aborts the program with a panic. The model keeps
    those aborts visible as a `Panicked` outcome instead of ruling them out
    with preconditions. */
module Wrappers {

  datatype Option<+T> = None | Some(value: T)

  /** Why a Rust operation would panic. */
  datatype Panic =
    | Unimplemented(opcode: int)   // a `todo!()` arm of the dispatcher
    | ArithmeticOverflow           // a debug-build overflow check on `+`
    | IndexOutOfBounds             // a slice range past the end of a `Vec`

  /** The result of an operation that either returns normally or panics. */
  datatype Outcome<+T> = Ok(value: T) | Panicked(reason: Panic)
}
