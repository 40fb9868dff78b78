/** Failure-compatible result types and the bounded integers of the original. */
module Wrappers {

  datatype Option<+T> = None | Some(value: T)

  /** `Result<T, E>`; usable with `:-`. */
  datatype Result<+T, +E> = Ok(value: T) | Err(error: E) {
    predicate IsFailure() {
      Err?
    }

    function PropagateFailure<U>(): Result<U, E>
      requires Err?
    {
      Err(error)
    }

    function Extract(): T
      requires Ok?
    {
      value
    }
  }

  function Or<T>(o: Option<T>, default: T): T {
    if o.Some? then o.value else default
  }

  function OkOr<T, E>(r: Result<T, E>, default: T): T {
    if r.Ok? then r.value else default
  }

  /** `ensure!(condition, error)`. */
  function Ensure<E>(condition: bool, error: E): Result<(), E> {
    if condition then Ok(()) else Err(error)
  }

  const U16_MAX: nat := 0xffff
  const U32_MAX: nat := 0xffff_ffff
  const U64_MAX: nat := 0xffff_ffff_ffff_ffff

  type u32 = n: nat | n <= U32_MAX
  type u64 = n: nat | n <= U64_MAX
}
