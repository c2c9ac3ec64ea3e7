/** Failure-carrying results shared by the lexer and the parser.
    Every `panic!`, `expect` and `unwrap` of the front end becomes a `Err`/`Fail`
    carrying the message the program would have panicked with. */
module Results {

  /** The result of an operation that either yields a value or aborts. */
  datatype Result<+T> = Ok(value: T) | Err(msg: string) {
    predicate IsFailure() {
      Err?
    }

    function PropagateFailure<U>(): Result<U>
      requires Err?
    {
      Err(msg)
    }

    function Extract(): T
      requires Ok?
    {
      value
    }
  }

  /** The result of a parsing function over a token sequence: the value and the
      cursor position after it, or the message of the failure. */
  datatype PResult<+T> = Done(value: T, next: nat) | Fail(msg: string)

  /** A method result `r` with cursor `cur` afterwards agrees with the
      specification result `s`: same value and same cursor, or same failure. */
  predicate Agrees<T(==)>(r: Result<T>, cur: nat, s: PResult<T>) {
    match s
    case Done(v, p) => r == Ok(v) && cur == p
    case Fail(m) => r == Err(m)
  }
}
