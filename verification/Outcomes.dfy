/** Values and errors shared by every model: an absent field, and the result of a
    mutation that either commits or throws (a throw rolls the whole mutation back). */
module Outcomes {

  /** JavaScript's largest safe integer; `Number.isSafeInteger` bounds every timestamp by it. */
  const MAX_SAFE_INTEGER: int := 9007199254740991

  datatype Option<+T> = None | Some(value: T)

  datatype Result<+T, +E> = Ok(value: T) | Err(error: E) {
    predicate IsFailure() {
      Err?
    }

    function PropagateFailure<U>(): Result<U, E>
      requires Err?
    {
      Err(error)
    }

    function Extract(): T
      requires Ok?
    {
      value
    }
  }

  predicate SafeTimestamp(t: int) {
    0 <= t <= MAX_SAFE_INTEGER
  }
}
