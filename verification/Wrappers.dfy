/** What the rest of the project shares. */
module Wrappers {
  datatype Option<+T> = None | Some(value: T)

  /** `Panicked` stands for a Rust panic: the call does not return to its caller. */
  datatype Outcome<+T> = Returned(value: T) | Panicked

  /** A `u32` wraps around here. */
  const WRAP: nat := 0x1_0000_0000

  type Positive = n: nat | n >= 1 witness 1

  function Max(a: nat, b: nat): nat { if a < b then b else a }
}
