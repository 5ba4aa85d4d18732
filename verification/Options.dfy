/** A value or nothing; nothing is how the model writes a thrown error whose message does not matter. */
module Options {
  datatype Option<+T> = None | Some(value: T) {
    predicate IsFailure() { None? }

    function PropagateFailure<U>(): Option<U>
      requires None?
    {
      None
    }

    function Extract(): T
      requires Some?
    {
      value
    }
  }

  /** `if (!condition) throw`. */
  function Require(condition: bool): Option<()> {
    if condition then Some(()) else None
  }
}
