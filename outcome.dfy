/** The typed error channel of the endpoint: a disjoint success/error value
    with the `map`, `chain` and `tryCatch` combinators the handler's pipe is
    built from (fp-ts TaskEither, run here as plain sequential evaluation). */
module Outcome {

  datatype Option<+T> = None | Some(value: T)

  /** The `{ message, status }` object every failing step produces. */
  datatype ApiError = ApiError(message: string, status: int)

  /** Either a success value or the error of the first step that failed. */
  datatype Result<+T> = Ok(value: T) | Err(error: ApiError)

  /** `TE.map`: transforms a success, passes an error through untouched. */
  function Map<T, U>(x: Result<T>, f: T -> U): (r: Result<U>)
    ensures r.Ok? <==> x.Ok?
    ensures x.Ok? ==> r == Ok(f(x.value))
    ensures x.Err? ==> r == Err(x.error)
  {
    match x
    case Ok(v) => Ok(f(v))
    case Err(e) => Err(e)
  }

  /** `TE.chain`: runs the next fallible step on a success only; on an error
      the step is skipped and the error is passed on unchanged. */
  function Chain<T, U>(x: Result<T>, f: T -> Result<U>): (r: Result<U>)
    ensures x.Ok? ==> r == f(x.value)
    ensures x.Err? ==> r == Err(x.error)
  {
    match x
    case Ok(v) => f(v)
    case Err(e) => Err(e)
  }

  /** `TE.tryCatch(thunk, () => error)` with a handler that ignores the
      rejection reason: `attempt` is what the thunk resolved to (`None` when
      it threw or its promise rejected), and every failure, whatever its
      cause, becomes the same fixed `error`. */
  function TryCatch<T>(attempt: Option<T>, error: ApiError): (r: Result<T>)
    ensures r.Err? <==> attempt.None?
    ensures r.Err? ==> r.error == error
    ensures r.Ok? ==> r.value == attempt.value
  {
    match attempt
    case Some(v) => Ok(v)
    case None => Err(error)
  }

  /** Mapping the identity changes nothing. */
  lemma MapIdentity<T>(x: Result<T>)
    ensures Map(x, (v: T) => v) == x
  {
  }

  /** Two maps in a row are one map of the composition. */
  lemma MapFusion<T, U, V>(x: Result<T>, f: T -> U, g: U -> V)
    ensures Map(Map(x, f), g) == Map(x, (v: T) => g(f(v)))
  {
  }

  /** A successful start feeds its value to the first step. */
  lemma ChainLeftIdentity<T, U>(v: T, f: T -> Result<U>)
    ensures Chain(Ok(v), f) == f(v)
  {
  }

  /** Chaining the trivial step changes nothing. */
  lemma ChainRightIdentity<T>(x: Result<T>)
    ensures Chain(x, (v: T) => Ok(v)) == x
  {
  }

  /** Chains nest either way: the pipe needs no parentheses. */
  lemma ChainAssociative<T, U, V>(x: Result<T>, f: T -> Result<U>, g: U -> Result<V>)
    ensures Chain(Chain(x, f), g) == Chain(x, (v: T) => Chain(f(v), g))
  {
  }
}
