/** Return values that stand for "a value or a raised exception" and "a value or None". */
module Outcomes {

  datatype Option<+T> = None | Some(value: T) {
    predicate IsFailure() { None? }

    function PropagateFailure<U>(): Option<U>
      requires None?
    {
      None
    }

    function Extract(): T
      requires Some?
    {
      value
    }
  }

  /** The exceptions the services raise, one constructor per kind of refusal. */
  datatype Error =
    | WorkflowClosed
    | IllegalTransition
    | Unauthorised
    | Conflict
    | RuleViolated
    | Invalid
    | NotFound
    | NotPayable
    | KeyReused

  /** A value, or the error that was raised instead. */
  datatype Result<+T> = Ok(value: T) | Err(error: Error) {
    predicate IsFailure() { Err? }

    function PropagateFailure<U>(): Result<U>
      requires Err?
    {
      Err(error)
    }

    function Extract(): T
      requires Ok?
    {
      value
    }
  }

  /** `var _ :- Need(condition, error)` leaves the enclosing body with that error unless the condition holds. */
  function Need(condition: bool, error: Error): Result<()> {
    if condition then Ok(()) else Err(error)
  }

  /** `var _ :- Check(condition)` leaves it with None. */
  function Check(condition: bool): Option<()> {
    if condition then Some(()) else None
  }

  /** The last position whose element satisfies `hit`. */
  function IndexWhere<T>(xs: seq<T>, hit: T -> bool): (found: Option<nat>)
    ensures found.Some? ==> found.value < |xs| && hit(xs[found.value])
    ensures found.None? ==> forall i :: 0 <= i < |xs| ==> !hit(xs[i])
  {
    if xs == [] then None
    else if hit(xs[|xs| - 1]) then Some(|xs| - 1)
    else IndexWhere(xs[..|xs| - 1], hit)
  }

  /** What a transaction leaves behind: the new value when it succeeds, the old one when it raises. */
  function Committed<T>(before: T, attempt: Result<T>): T {
    if attempt.Ok? then attempt.value else before
  }

  /** A method over mutable state succeeded exactly when `attempt` does, and then left exactly its value. */
  predicate Realises<T(==)>(r: Result<()>, attempt: Result<T>, after: T) {
    if attempt.Ok? then r.Ok? && after == attempt.value else r == Err(attempt.error)
  }
}
