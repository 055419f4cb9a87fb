/** Failures the Provisioner reports to its caller, and the Result type that carries them. */
module Outcomes {

  /** Why an operation stopped. */
  datatype Error =
    | MissingKey(section: string, key: string)    // a mandatory configuration key is absent
    | WrongType(section: string, key: string)     // the key is present with a value of another kind
    | NoMatch(directory: string)                  // a pattern search under `directory` found nothing

  /** Success with a value, or the first error met; usable with `:-`. */
  datatype Result<+T> = Ok(value: T) | Err(error: Error) {
    predicate IsFailure() {
      Err?
    }

    function PropagateFailure<U>(): Result<U>
      requires Err?
    {
      Err(error)
    }

    function Extract(): T
      requires Ok?
    {
      value
    }
  }
}
