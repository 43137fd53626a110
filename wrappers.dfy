/** Failure-carrying results. A Rust `panic!` (or an arithmetic overflow check, an
    out-of-range index) in the emulator becomes a `Failure` in this model. */
module Wrappers {

  datatype Option<+T> = None | Some(value: T)

  datatype Result<+T> = Success(value: T) | Failure(message: string)
}
