// Shared value types: Rust's Option, io::Result and io::Error.
module Common {

  datatype Option<+T> = None | Some(value: T) {
    /** Rust's `unwrap_or`. */
    function UnwrapOr(default: T): T {
      match this
      case Some(v) => v
      case None => default
    }
  }

  /** An `std::io::Error`, reduced to the text its `Display` prints. */
  datatype IoError = IoError(message: string)

  /** Rust's `Result<T, E>`, usable with `:-` as Rust uses `?`. */
  datatype Result<+T, +E> = Ok(value: T) | Err(error: E) {
    predicate IsFailure() {
      Err?
    }

    function PropagateFailure<U>(): Result<U, E>
      requires Err?
    {
      Err(error)
    }

    function Extract(): T
      requires Ok?
    {
      value
    }
  }

  /** The set of elements of a sequence (`HashSet::from_iter`). */
  function Elements<T>(s: seq<T>): set<T> {
    set x | x in s
  }
}
