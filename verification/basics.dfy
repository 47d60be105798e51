/**
 * Small shared types: optional values, the exceptions the modelled code can
 * raise, and the outcome of a statement sequence that may throw.
 */
module Basics {

  datatype Option<T> = None | Some(value: T)

  /** The JavaScript exception classes the modelled code can raise. */
  datatype Fault =
    | TypeError                    // property read on undefined/null, spread of undefined, call of a non-function
    | ReferenceError(name: string) // use of an identifier that is not in scope
    | InvalidCharacterError        // DOM: createElement or classList.add with an invalid name or token
    | SyntaxError                  // DOM: classList.add with an empty token
    | PlainError                   // `throw new Error(...)`

  /** Completion of a sequence of statements: normal, or an exception. */
  datatype Outcome = Pass | Fail(fault: Fault) {
    predicate IsFailure() { Fail? }
    function PropagateFailure(): Outcome { this }
  }

  /** Completion of an expression: a value, or an exception. */
  datatype Result<T> = Ok(value: T) | Err(fault: Fault) {
    predicate IsFailure() { Err? }
    function PropagateFailure<U>(): Result<U> requires Err? { Err(fault) }
    function Extract(): T requires Ok? { value }
  }

  /** The outcome of evaluating `res` for its effect only. */
  function Completion<T>(res: Result<T>): Outcome
  {
    if res.Ok? then Pass else Fail(res.fault)
  }

  function Last<T>(s: seq<T>): T
    requires |s| > 0
  {
    s[|s| - 1]
  }
}
