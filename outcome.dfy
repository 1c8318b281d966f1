/** Failure-carrying results shared by every module.

    The original is a Rust crate: an operation either returns a value, returns
    an `Err(String)` that its caller logs, or panics (an out-of-bounds index,
    an `unwrap` of `None`, an explicit `panic!`). The three outcomes are kept
    apart here, because a panic ends the thread while an error is recoverable. */
module Outcome {

  datatype Option<T> = None | Some(value: T)

  datatype Result<T> =
    | Ok(value: T)
    | Err(msg: string)
    | Panic(reason: string)
}
