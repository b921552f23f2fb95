/** What a request builder produces, and the two kinds of guard outcome it
    consumes. A guard failure is a thrown `BadRequestError`; in the model it
    propagates with `:-` straight to the builder's result, so the builders
    report the first failing argument in the source's evaluation order. */
module Requests {
  import opened Json

  /** `{ method, payload }`: a REST method name and its JSON body. */
  datatype Request = Request(restMethod: string, payload: Obj)

  /** A thrown error. `BadRequest` is `BadRequestError(message)`; `TypeError`
      is the runtime error of calling a method on `undefined`. */
  datatype Failure = BadRequest(message: string) | TypeError

  /** A builder's answer for one tool name: the request, `null` ("not one of
      my tools"), or the error thrown while validating the arguments. */
  datatype Built = Claimed(request: Request) | NotMine | Rejected(failure: Failure)

  /** Outcome of an optional-argument guard: a value, `undefined` (the
      argument was `undefined` or `null`), or a `BadRequestError`. */
  datatype Guarded<T> = Value(value: T) | Absent | Bad(message: string) {
    predicate IsFailure() {
      Bad?
    }

    function PropagateFailure(): Built
      requires Bad?
    {
      Rejected(BadRequest(message))
    }

    function Extract(): Option<T>
      requires !Bad?
    {
      if Value? then Some(value) else None
    }
  }

  /** Outcome of a mandatory guard: a value or a `BadRequestError`. */
  datatype Checked<T> = Pass(value: T) | Fail(message: string) {
    predicate IsFailure() {
      Fail?
    }

    function PropagateFailure(): Built
      requires Fail?
    {
      Rejected(BadRequest(message))
    }

    function Extract(): T
      requires Pass?
    {
      value
    }
  }

  /** Outcome of a step that can throw any `Failure`, such as a lookup that
      may dereference `undefined`. */
  datatype Outcome<T> = Done(value: T) | Thrown(failure: Failure) {
    predicate IsFailure() {
      Thrown?
    }

    function PropagateFailure(): Built
      requires Thrown?
    {
      Rejected(failure)
    }

    function Extract(): T
      requires Done?
    {
      value
    }
  }

  /** Result of a dispatcher: the request, or the error it throws. */
  datatype Dispatched = Ok(request: Request) | Err(failure: Failure)

  /** `Object.keys(fields).length === 0` for an optional object. */
  predicate EmptyOrMissing(fields: Option<Obj>) {
    fields.None? || |fields.value| == 0
  }

  /** The message thrown by the builders' update branches of src/mcp/tools. */
  const AtLeastOneField := "Parameter \"fields\" must include at least one field"
}
