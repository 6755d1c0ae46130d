/** Value types shared by every peripheral model: Rust's Option and Result,
    the futures crate's Poll, and the outcome of a call that may panic. */
module Types {

  newtype byte = x: int | 0 <= x < 256

  /** A DMA buffer's contents, as bytes. */
  type Buffer = seq<byte>

  datatype Option<+T> = None | Some(value: T)

  datatype Result<+T, +E> = Ok(value: T) | Err(error: E)

  /** `core::task::Poll`: a future either finished with a value or must be polled again. */
  datatype Poll<+T> = Ready(value: T) | Pending

  /** A call either returns normally or panics with a message.  On the target
      a panic aborts the program, so nothing runs after a `Panicked` outcome. */
  datatype Outcome<+T> = Returned(value: T) | Panicked(message: string)

  /** An opaque handle on a suspended task (a `core::task::Waker`). */
  type WakerId = nat
}
