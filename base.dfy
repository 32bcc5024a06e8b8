/** Shared vocabulary: failure-compatible results, optional values and the
    64-bit unsigned integers the node reports its figures in. */
module Base {

  /** 2^64: one past the largest value of Rust's `u64`. */
  const U64_LIMIT: int := 0x1_0000_0000_0000_0000

  /** Rust's `u64`: the values a node reply or a parsed height can take. */
  type u64 = x: int | 0 <= x < U64_LIMIT

  datatype Option<+T> = None | Some(value: T)

  /** The outcome of an operation that the source ends with `unwrap()`:
      `Err` stands for the point where the source panics. */
  datatype Result<+T, +E> = Ok(value: T) | Err(error: E) {

    predicate IsFailure() {
      Err?
    }

    function PropagateFailure<U>(): Result<U, E>
      requires Err?
    {
      Err(error)
    }

    function Extract(): T
      requires Ok?
    {
      value
    }

    /** The same outcome with its error translated by `f`. */
    function MapError<E2>(f: E -> E2): Result<T, E2>
    {
      match this
      case Ok(v) => Ok(v)
      case Err(e) => Err(f(e))
    }
  }
}
