/** Result types and small arithmetic shared by every module. */
module Prelude {

  datatype Option<+T> = None | Some(value: T)

  /** What a dispatchable returns. A failed dispatchable is rolled back, so an `Err` carries no state. */
  datatype Outcome<+T, +E> = Ok(value: T) | Err(error: E) {
    predicate IsFailure() {
      Err?
    }

    function PropagateFailure<U>(): Outcome<U, E>
      requires Err?
    {
      Err(error)
    }

    function Extract(): T
      requires Ok?
    {
      value
    }
  }

  /** The `ensure!` macro: fail with `error` unless `condition` holds. */
  function Need<E>(condition: bool, error: E): Outcome<(), E> {
    if condition then Ok(()) else Err(error)
  }

  function Min(a: nat, b: nat): nat {
    if a <= b then a else b
  }

  function Max(a: nat, b: nat): nat {
    if a <= b then b else a
  }

  /** `saturating_sub` on an unsigned integer. */
  function SatSub(a: nat, b: nat): nat {
    if a >= b then a - b else 0
  }

  /** `saturating_add` on a `u32`. */
  function SatAdd32(a: nat, b: nat): nat {
    Min(a + b, 0xFFFF_FFFF)
  }
}
