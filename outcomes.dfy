// Result types shared by the whole model.
//
// Go code in this repository reports contract violations by panicking, and the
// mapper recurses without bound on self-referential configurations. Both are
// modelled as explicit outcomes so that every operation stays total.

module Outcomes {

  datatype Option<T> = None | Some(value: T)

  /** The result of an operation that may panic, or that may recurse deeper
    * than the fuel handed to it allows (the Go code would not terminate or would
    * exhaust its stack there). */
  datatype Outcome<T> = Returns(value: T) | Panics(message: string) | Diverges
  {
    predicate IsFailure() {
      !Returns?
    }

    function PropagateFailure<U>(): Outcome<U>
      requires IsFailure()
    {
      if Panics? then Panics(message) else Diverges
    }

    function Extract(): T
      requires Returns?
    {
      value
    }
  }
}
