/** Value wrappers shared by every adapter: Rust's `Option` and `Result`,
    the outcome of a call that may panic, and a shared borrow. */
module Wrappers {

  /** Rust's `Option<T>`. */
  datatype Option<+T> = None | Some(value: T)

  /** Rust's `Result<T, E>`. */
  datatype Result<+T, +E> = Ok(value: T) | Err(error: E)

  /** What a call does when it is allowed to panic: it either returns a value
      or aborts. Used only where the code as written panics on an input
      that its own contract says it accepts. */
  datatype Outcome<+T> = Returns(value: T) | Panics

  /** A shared borrow `&T`, modelled by the value it points to. */
  datatype Ref<+T> = Ref(deref: T)
}
