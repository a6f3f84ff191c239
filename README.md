# populateCounselors — a Dafny model of the endpoint's typed pipeline

`functions/populateCounselors.ts` is a serverless handler. It takes a request body
`{ workspaceSID, helpline }`, fetches the TaskRouter workspace, lists its workers,
decodes each worker's JSON `attributes`, keeps the workers on the requested helpline, and
answers `{ workerSummaries: [{ fullName, sid }, ...] }`. Each step can fail with its own
`{ message, status }` error. The first failure skips every later step and is sent back as
the response, with its own status.

The model is pure, as the handler's body is: a `pipe` of `TE.chain` / `TE.map` / `TE.fold`
with no mutable state.

- `Outcome` (outcome.dfy): the disjoint `Result` type and the combinators `Map`
  (`TE.map`), `Chain` (`TE.chain`) and `TryCatch` (`TE.tryCatch` with a fixed error).
- `JsValues` (jsvalues.dfy): the JavaScript values the handler reads. A property read gives
  `undefined`, a string, or some other value that is only copied or compared.
- `Request` (request.dfy): the io-ts codec `reqbody` and `decodeWith`, which turns its
  errors into one 400 message.
- `Workers` (workers.dfy): `extractAttributes`, the all-or-nothing batch decode, and
  `filterIfHelpline`, the truthiness-driven filter plus the `{ fullName, sid }` projection.
- `Envelope` (envelope.dfy): the fold into `(status, body)`, and the outer `catch` that
  answers 500.
- `Handler` (handler.dfy): the pipe itself, over a `Services` record of abstract
  functions. Those are PathReporter's wording of one validation error, the workspace fetch,
  the worker listing and the JSON parse of one blob. A fallible service returns `None` where
  the real call throws or its promise rejects. This assumes that `TE.tryCatch` turns a
  synchronous throw of its thunk into a typed error, just as it does a rejection. That
  covers a throw from `context.getTwilioClient()` or `workspaces(sid)` in `getWorkspace`,
  and from `workspace.workers()` in `getWorkers`.
- `Scenarios` (scenarios.dfy): worked cases proved for a stub service.

"A later step is not invoked" cannot be observed in a pure model. It is stated as
independence instead: once a step fails, the answer is a fixed value that does not mention
the later services, and a service changed anywhere except at the one argument the pipe
passes it gives the same answer.

Three facts about the request codec shape what the handler accepts:

- The codec declares `helpline: t.string`, which makes the field mandatory. A body without
  `helpline` is rejected with 400 (`Request.MissingHelplineRejected`,
  `Scenarios.MissingHelpline`). So the `undefined` branch of `filterIfHelpline` is reached
  only through an empty-string helpline.
- An empty `workspaceSID` is accepted and passed to the workspace fetch
  (`Request.EmptyStringsAccepted`, `Scenarios.EmptyFieldsReachTheService`).
- The 400 message is PathReporter's text: one line per failing field, joined with newlines
  (`Request.RejectionMessage`).

## Model

| member | source | states |
|---|---|---|
| `Outcome.Map` | functions/populateCounselors.ts:117-121 | a success `v` becomes `Ok(f(v))`; an error passes through unchanged |
| `Outcome.Chain` | functions/populateCounselors.ts:116-120 | on a success `v` the result is exactly what the step gives for `v`; on an error the step is skipped and the same error comes out |
| `Outcome.TryCatch` | functions/populateCounselors.ts:53-63 | fails exactly when the attempt failed, always with the one fixed error whatever the cause; otherwise yields the attempt's value |
| `Outcome.MapIdentity` | functions/populateCounselors.ts:117-121 | mapping the identity is a no-op |
| `Outcome.MapFusion` | functions/populateCounselors.ts:117-121 | two maps equal one map of the composition |
| `Outcome.ChainLeftIdentity` | functions/populateCounselors.ts:115-116 | starting the pipe from `right(event)` feeds `event` to the first step |
| `Outcome.ChainRightIdentity` | functions/populateCounselors.ts:116-120 | chaining the trivial step is a no-op |
| `Outcome.ChainAssociative` | functions/populateCounselors.ts:116-120 | nested chains are equal either way, so the pipe's grouping does not matter |
| `JsValues.Get` | functions/populateCounselors.ts:102-105 | the JavaScript property read `o[key]` on which the codec and `event.helpline` rely: the stored value when the key is present, `undefined` when it is not |
| `JsValues.IsStringField` | functions/populateCounselors.ts:103-104 | the `t.string` test: the property is present and holds a string, possibly empty |
| `Request.FieldErrors` | functions/populateCounselors.ts:102-105 | what `t.type` collects for one property: nothing when it is a string, otherwise one error naming the property and the value found |
| `Request.JoinLines` | functions/populateCounselors.ts:45 | `join('\n')`: empty for no lines; otherwise starts with the first line, a newline follows it when there are more, and the length is the total line length plus one per separator |
| `Request.Report` | functions/populateCounselors.ts:45 | `failure(errors).join('\n')`: empty for no errors, exactly the one line for a single error, and always starts with the first error's line |
| `Request.ValidateReqBody` | functions/populateCounselors.ts:102-105 | valid iff both `workspaceSID` and `helpline` are strings, with those strings as the value; otherwise a non-empty error list naming only failing fields, with the value found, exactly one error per failing field, `workspaceSID` first |
| `Request.DecodeRequest` | functions/populateCounselors.ts:42-48 | succeeds iff both fields are strings and then carries them; every failure has status 400 |
| `Request.RejectionMessage` | functions/populateCounselors.ts:44-46 | a rejected body's message is PathReporter's line for `workspaceSID` when only it fails, the line for `helpline` when only that fails, and the two lines joined by a newline, `workspaceSID` first, when both fail |
| `Request.ExtraFieldsIgnored` | functions/populateCounselors.ts:102-105 | adding or changing any other property leaves the decode result, message included, unchanged |
| `Request.EmptyStringsAccepted` | functions/populateCounselors.ts:102-105 | empty strings for both fields decode successfully |
| `Request.MissingHelplineRejected` | functions/populateCounselors.ts:102-105 | a body without `helpline` is rejected with 400 |
| `Workers.Decoded` | functions/populateCounselors.ts:79-83 | the record built per worker: the worker's own `sid` with the parsed `full_name` and `helpline` |
| `Workers.ExtractAttributes` | functions/populateCounselors.ts:74-89 | succeeds iff every worker's blob parses; then one record per worker, same order, same `sid`, the parsed `full_name` and `helpline`; otherwise exactly the fixed 502 parse error and no list |
| `Workers.IsTruthy` | functions/populateCounselors.ts:98 | the test `helpline ?` on the `string`-or-`undefined` value: `Some(h)` with `h != ""` is truthy; `undefined` and `""` are not |
| `Workers.OnHelpline` | functions/populateCounselors.ts:98 | `w.helpline === h`: the worker's helpline is the string `h`; a non-string helpline never matches |
| `Workers.Keeps` | functions/populateCounselors.ts:98 | which workers the branch keeps: every worker when the helpline is falsy, otherwise exactly those on that helpline |
| `Workers.Summarize` | functions/populateCounselors.ts:99 | the projection `({ fullName, sid }) => ({ fullName, sid })`: the worker's `fullName` and `sid`, with `helpline` dropped |
| `Workers.FilterIfHelpline` | functions/populateCounselors.ts:91-100 | never longer than the input; with `undefined` or `""` the i-th summary is the i-th worker's `{ fullName, sid }` |
| `Workers.FilterByHelpline` | functions/populateCounselors.ts:98 | `filter(w => w.helpline === h)`: never longer than the input; every kept worker comes from the input and has helpline the string `h`; when every worker matches, nothing is dropped |
| `Workers.FilterPositions` | functions/populateCounselors.ts:98 | `filter(w => w.helpline === h)` holds the workers at a strictly increasing list of positions, which are exactly the positions whose helpline is the string `h` |
| `Workers.SelectsExactly` | functions/populateCounselors.ts:98-99 | the output holds the summaries of exactly the workers the filter keeps (all of them when the helpline is falsy, else those whose helpline equals it), in input order |
| `Workers.OnlyMatchingSurvive` | functions/populateCounselors.ts:98-99 | with a truthy helpline, every output summary is the projection of an input worker on that helpline |
| `Workers.NoMatchIsEmpty` | functions/populateCounselors.ts:98 | a helpline no worker has gives an empty list |
| `Envelope.Fold` | functions/populateCounselors.ts:122-125 | a success becomes 200 with `{ workerSummaries }`; an error becomes its own status with the error object as the body; the two bodies never mix |
| `Envelope.Unexpected` | functions/populateCounselors.ts:129-131 | the outer catch answers 500 with the thrown value as the body |
| `Envelope.FoldIsLossless` | functions/populateCounselors.ts:122-125 | the outcome can be read back from the envelope, so the error reaches the response unchanged |
| `Envelope.UnexpectedIsNotAnOutcome` | functions/populateCounselors.ts:122-131 | the 500 envelope is never one the fold produces |
| `Handler.GetWorkspace` | functions/populateCounselors.ts:52-63 | succeeds iff the fetch does, with the fetched handle; any failure is the fixed "workspace not found" 502 |
| `Handler.GetWorkers` | functions/populateCounselors.ts:65-72 | succeeds iff the listing does, with the listed workers; any failure is the fixed "couldn't retrieve workers" 502 |
| `Handler.EventHelpline` | functions/populateCounselors.ts:121 | `event.helpline` as the `string`-or-`undefined` argument of `filterIfHelpline`: `Some(h)` for a string `h`, `None` otherwise |
| `Handler.RunEndpoint` | functions/populateCounselors.ts:114-121 | every error the pipeline yields has status 400 or 502 |
| `Handler.Handle` | functions/populateCounselors.ts:114-126 | 200 exactly when the body holds summaries; otherwise the body is an error whose own status is the response status, and that status is 400 or 502 |
| `Handler.HandleMatchesExpected` | functions/populateCounselors.ts:114-126 | the pipe equals a direct case analysis: the first failing step decides the answer, and on success the answer is the filtered projection of all decoded workers under the request's helpline |
| `Handler.InvalidRequestRejected` | functions/populateCounselors.ts:114-116 | a body that does not decode gets 400 with the validation message, whatever the routing service does |
| `Handler.WorkspaceFailureReported` | functions/populateCounselors.ts:114-126 | a failed fetch gets 502 "workspace not found", whatever the listing and parser do |
| `Handler.WorkersFailureReported` | functions/populateCounselors.ts:114-126 | a failed listing gets 502 "couldn't retrieve workers", whatever the parser does |
| `Handler.ParseFailureReported` | functions/populateCounselors.ts:114-126 | one blob that does not parse gets 502 "couldn't parse JSON response" and no summaries |
| `Handler.SuccessReported` | functions/populateCounselors.ts:114-126 | when every step succeeds, the answer is 200 with the helpline-filtered summaries of the listed workers |
| `Handler.NoCallsForInvalidRequest` | functions/populateCounselors.ts:114-118 | for a body that does not decode, replacing the fetch, listing and parser changes nothing |
| `Handler.FetchOnlyRequestedWorkspace` | functions/populateCounselors.ts:117-118 | the fetch matters only at the request's `workspaceSID` |
| `Handler.ListOnlyFetchedWorkspace` | functions/populateCounselors.ts:118-119 | the listing matters only at the handle a successful fetch returned, and not at all when the fetch failed |
| `Handler.ParseOnlyListedBlobs` | functions/populateCounselors.ts:119-120 | the parser matters only at the blobs of the listed workers |
| `Scenarios.FilteredListing` | functions/populateCounselors.ts:114-126 | three listed workers, two on "Crisis": 200 with those two, as `{ fullName, sid }`, in order |
| `Scenarios.EmptyFieldsReachTheService` | functions/populateCounselors.ts:114-126 | empty `workspaceSID` and helpline: the workspace is fetched and the answer is 200 with all three workers as `{ fullName, sid }`, in listing order |
| `Scenarios.MissingHelpline` | functions/populateCounselors.ts:114-126 | no helpline: 400 whose message is PathReporter's line for `helpline` |

## Left out

- The Twilio REST calls (`workspaces(sid).fetch()`, `workers().list()`) are foreign network calls. They are the abstract `fetchWorkspace` and `listWorkers` of `Handler.Services`, and the model does not distinguish why they fail.
- `JSON.parse` and the reads of `attributes.full_name` / `attributes.helpline` are a foreign parser. They are the abstract `parseAttributes`, where `None` stands for any throw. The unchecked `as string` casts are kept: both fields are arbitrary JavaScript values.
- The wording of io-ts PathReporter messages is library code. It is the abstract `describe`; only the newline join is modelled.
- io-ts also rejects a body that is not an object. The request is modelled as an object, which is what the runtime delivers.
- `getStandardResponse` (CORS headers) and `send` (`setStatusCode`, `setBody`, `callback`) are transport plumbing that mutates a foreign response object. The model produces only the `(status, body)` value they would write.
- `TokenValidator`, which authenticates ahead of the handler, is external.
- The `Task`/`async` evaluation is modelled as plain sequential evaluation.
- Handler.EventHelpline: `filterIfHelpline` receives the raw `event.helpline`. A non-string value there is read as `undefined`. This only matters when decoding failed, and then the filter never runs.
- Envelope.Unexpected: every modelled step is total, so nothing from the typed pipeline reaches the outer `catch`, which is modelled only as a separate envelope. This rests on `TE.tryCatch` catching synchronous throws of its thunk. If it only caught promise rejections, a synchronous throw from `context.getTwilioClient()`, `workspaces(sid)` or `workspace.workers()` would skip the 502 answer and reach the `catch` at line 130 as a 500. The model does not capture that path.
