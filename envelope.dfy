/** The envelope the handler hands to the transport: `TE.fold` of the
    pipeline's outcome into one `(status, body)` pair, and the `catch` that
    answers 500 for anything thrown outside the typed pipeline. */
module Envelope {
  import opened Outcome
  import opened JsValues
  import opened Workers

  const OkStatus := 200
  const InternalError := 500

  /** `{ workerSummaries }`, the error object itself, or a caught exception. */
  datatype Body = WorkerSummaries(workerSummaries: seq<Summary>) | ErrorBody(error: ApiError) | Thrown(reason: JsValue)

  datatype Response = Response(status: int, body: Body)

  /** The fold: 200 with the summaries, or the error's own status with the
      error as the body. */
  function Fold(outcome: Result<seq<Summary>>): (r: Response)
    ensures r.body.WorkerSummaries? <==> outcome.Ok?
    ensures r.body.ErrorBody? <==> outcome.Err?
    ensures outcome.Ok? ==> r.status == OkStatus && r.body.workerSummaries == outcome.value
    ensures outcome.Err? ==> r.status == outcome.error.status && r.body.error == outcome.error
  {
    match outcome
    case Ok(summaries) => Response(OkStatus, WorkerSummaries(summaries))
    case Err(e) => Response(e.status, ErrorBody(e))
  }

  /** The outer `catch (err)`: status 500 with whatever was thrown as body. */
  function Unexpected(reason: JsValue): (r: Response)
    ensures r.status == InternalError && r.body.Thrown? && r.body.reason == reason
  {
    Response(InternalError, Thrown(reason))
  }

  /** Reads an envelope back as the outcome it reports, if it is one the fold
      can produce. */
  function Reported(r: Response): Option<Result<seq<Summary>>>
  {
    match r.body
    case WorkerSummaries(summaries) => if r.status == OkStatus then Some(Ok(summaries)) else None
    case ErrorBody(e) => if r.status == e.status then Some(Err(e)) else None
    case Thrown(_) => None
  }

  /** The fold loses nothing: success and error stay apart, and the error
      that reached it is the one in the envelope. */
  lemma FoldIsLossless(outcome: Result<seq<Summary>>)
    ensures Reported(Fold(outcome)) == Some(outcome)
  {
  }

  /** The catch-all envelope is never one the typed pipeline produces. */
  lemma UnexpectedIsNotAnOutcome(reason: JsValue, outcome: Result<seq<Summary>>)
    ensures Reported(Unexpected(reason)) == None
    ensures Unexpected(reason) != Fold(outcome)
  {
  }
}
