/** How the model writes down what Python expresses with `None`, with a
    raised exception and with `exit(1)`. */
module Results {

  /** An argument or lookup that may have no value, like Python's `None`. */
  datatype Option<T> = None | Some(value: T) {

    /** The value held, falling back to `fallback` when there is none, as a
        Python default argument does. */
    function ValueOr(fallback: T): T {
      if Some? then value else fallback
    }
  }

  /** How a Python call ended: it returned a value or raised an exception. */
  datatype Result<R, E> = Returned(value: R) | Raised(error: E)

  /** How a script's check ended: it let the script go on, or it called
      `exit(1)` for the given reason. */
  datatype Outcome<E> = Continue | Exit(reason: E)
}
