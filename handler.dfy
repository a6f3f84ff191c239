/** The endpoint's handler: the pipe
      right(event) → decode → workspaceSID → getWorkspace → getWorkers
        → extractAttributes → filterIfHelpline(event.helpline) → fold
    with the routing service and the JSON parser as parameters. */
module Handler {
  import opened Outcome
  import opened JsValues
  import opened Request
  import opened Workers
  import opened Envelope

  const WorkspaceNotFound := ApiError("Error: workspace not found with the WorkspaceSID provided", BadGateway)
  const WorkersNotRetrieved := ApiError("Error: couldn't retrieve workers for the WorkspaceSID provided", BadGateway)

  /** What the handler calls but does not define: PathReporter's wording of
      one validation error, the workspace fetch, the worker listing of a
      workspace handle `W`, and the parse of one attributes blob. The three
      fallible ones give `None` when the call throws or its promise rejects;
      this rests on `TE.tryCatch` catching a synchronous throw of its thunk
      (from `getTwilioClient()` or `workspaces(sid)`) as well as a rejection. */
  datatype Services<!W> = Services(
    describe: ValidationError -> string,
    fetchWorkspace: string -> Option<W>,
    listWorkers: W -> Option<seq<RawWorker>>,
    parseAttributes: string -> Option<Attributes>)

  /** `getWorkspace(context)(sid)`: any failure of the fetch is 502 with one
      fixed message. */
  function GetWorkspace<W>(fetch: string -> Option<W>, sid: string): (r: Result<W>)
    ensures r.Ok? <==> fetch(sid).Some?
    ensures r.Ok? ==> r.value == fetch(sid).value
    ensures r.Err? ==> r.error == WorkspaceNotFound && r.error.status == 502
  {
    TryCatch(fetch(sid), WorkspaceNotFound)
  }

  /** `getWorkers(workspace)`: any failure of the listing is 502 with one
      fixed message. */
  function GetWorkers<W>(list: W -> Option<seq<RawWorker>>, workspace: W): (r: Result<seq<RawWorker>>)
    ensures r.Ok? <==> list(workspace).Some?
    ensures r.Ok? ==> r.value == list(workspace).value
    ensures r.Err? ==> r.error == WorkersNotRetrieved && r.error.status == 502
  {
    TryCatch(list(workspace), WorkersNotRetrieved)
  }

  /** `event.helpline` as the `string | undefined` argument of
      `filterIfHelpline`. */
  function EventHelpline(event: JsObject): Option<string>
  {
    match Get(event, HelplineKey)
    case JsString(h) => Some(h)
    case _ => None
  }

  /** `runEndpoint` before the fold: the typed pipeline. */
  function RunEndpoint<W>(event: JsObject, services: Services<W>): (r: Result<seq<Summary>>)
    ensures r.Err? ==> r.error.status == BadRequest || r.error.status == BadGateway
  {
    var decoded := Chain(Ok(event), (e: JsObject) => DecodeRequest(e, services.describe));
    var sid := Map(decoded, (b: ReqBody) => b.workspaceSID);
    var workspace := Chain(sid, (id: string) => GetWorkspace(services.fetchWorkspace, id));
    var workers := Chain(workspace, (w: W) => GetWorkers(services.listWorkers, w));
    var records := Chain(workers, (ws: seq<RawWorker>) => ExtractAttributes(services.parseAttributes, ws));
    Map(records, (rs: seq<WorkerRecord>) => FilterIfHelpline(EventHelpline(event), rs))
  }

  /** The handler's answer: the fold of the pipeline. Status fidelity: the
      status is 200 exactly when the body holds the summaries, and otherwise
      it is the status the failing step put in the error it returned. */
  function Handle<W>(event: JsObject, services: Services<W>): (r: Response)
    ensures r.status == OkStatus <==> r.body.WorkerSummaries?
    ensures r.body.WorkerSummaries? || r.body.ErrorBody?
    ensures r.body.ErrorBody? ==> r.status == r.body.error.status && (r.status == BadRequest || r.status == BadGateway)
  {
    Fold(RunEndpoint(event, services))
  }

  /** Every worker's blob parses. */
  predicate AllParse(parse: string -> Option<Attributes>, raw: seq<RawWorker>)
  {
    forall i :: 0 <= i < |raw| ==> parse(raw[i].attributes).Some?
  }

  /** The decoded workers, position by position, when every blob parses. */
  function DecodedAll(parse: string -> Option<Attributes>, raw: seq<RawWorker>): seq<WorkerRecord>
    requires AllParse(parse, raw)
  {
    seq(|raw|, i requires 0 <= i < |raw| && parse(raw[i].attributes).Some? => Decoded(raw[i], parse(raw[i].attributes).value))
  }

  /** An independent statement of what the handler answers, written as a
      plain case analysis over the steps in order: the first step that fails
      decides the answer, and the later services do not appear in it. */
  ghost function Expected<W>(event: JsObject, services: Services<W>): Response
  {
    if !(IsStringField(event, WorkspaceSidKey) && IsStringField(event, HelplineKey)) then
      Response(BadRequest, ErrorBody(DecodeRequest(event, services.describe).error))
    else
      match services.fetchWorkspace(event[WorkspaceSidKey].s)
      case None => Response(BadGateway, ErrorBody(WorkspaceNotFound))
      case Some(w) =>
        match services.listWorkers(w)
        case None => Response(BadGateway, ErrorBody(WorkersNotRetrieved))
        case Some(raw) =>
          if !AllParse(services.parseAttributes, raw) then Response(BadGateway, ErrorBody(ParseError))
          else Response(OkStatus, WorkerSummaries(
            FilterIfHelpline(Some(event[HelplineKey].s), DecodedAll(services.parseAttributes, raw))))
  }

  /** The pipe computes exactly the case analysis. */
  lemma HandleMatchesExpected<W>(event: JsObject, services: Services<W>)
    ensures Handle(event, services) == Expected(event, services)
  {
    if IsStringField(event, WorkspaceSidKey) && IsStringField(event, HelplineKey) {
      var sid := event[WorkspaceSidKey].s;
      assert EventHelpline(event) == Some(event[HelplineKey].s);
      match services.fetchWorkspace(sid)
      case None =>
      case Some(w) =>
        match services.listWorkers(w)
        case None =>
        case Some(raw) =>
          var parsed := ExtractAttributes(services.parseAttributes, raw);
          if AllParse(services.parseAttributes, raw) {
            assert parsed.value == DecodedAll(services.parseAttributes, raw);
          }
    } else {
      assert ValidateReqBody(event) == Invalid(FieldErrors(event, WorkspaceSidKey) + FieldErrors(event, HelplineKey));
    }
  }

  /** A body that does not decode is answered 400 with the validation
      message, before and without any call to the routing service. */
  lemma InvalidRequestRejected<W>(event: JsObject, services: Services<W>)
    requires !IsStringField(event, WorkspaceSidKey) || !IsStringField(event, HelplineKey)
    ensures Handle(event, services) == Response(BadRequest, ErrorBody(DecodeRequest(event, services.describe).error))
  {
    HandleMatchesExpected(event, services);
  }

  /** A failed workspace fetch is answered 502 with its fixed message, and
      nothing is listed or parsed. */
  lemma WorkspaceFailureReported<W>(event: JsObject, services: Services<W>)
    requires IsStringField(event, WorkspaceSidKey) && IsStringField(event, HelplineKey)
    requires services.fetchWorkspace(event[WorkspaceSidKey].s).None?
    ensures Handle(event, services) == Response(BadGateway, ErrorBody(WorkspaceNotFound))
  {
    HandleMatchesExpected(event, services);
  }

  /** A failed listing is answered 502 with its fixed message, and nothing is
      parsed. */
  lemma WorkersFailureReported<W>(event: JsObject, services: Services<W>, workspace: W)
    requires IsStringField(event, WorkspaceSidKey) && IsStringField(event, HelplineKey)
    requires services.fetchWorkspace(event[WorkspaceSidKey].s) == Some(workspace)
    requires services.listWorkers(workspace).None?
    ensures Handle(event, services) == Response(BadGateway, ErrorBody(WorkersNotRetrieved))
  {
    HandleMatchesExpected(event, services);
  }

  /** All or nothing: one blob that does not parse makes the answer 502 with
      the parse error, and no summaries at all. */
  lemma ParseFailureReported<W>(event: JsObject, services: Services<W>, workspace: W, raw: seq<RawWorker>, bad: nat)
    requires IsStringField(event, WorkspaceSidKey) && IsStringField(event, HelplineKey)
    requires services.fetchWorkspace(event[WorkspaceSidKey].s) == Some(workspace)
    requires services.listWorkers(workspace) == Some(raw)
    requires bad < |raw| && services.parseAttributes(raw[bad].attributes).None?
    ensures Handle(event, services) == Response(BadGateway, ErrorBody(ParseError))
  {
    HandleMatchesExpected(event, services);
  }

  /** When every step succeeds the answer is 200 with the summaries of the
      listed workers, filtered by the request's helpline. */
  lemma SuccessReported<W>(event: JsObject, services: Services<W>, workspace: W, raw: seq<RawWorker>)
    requires IsStringField(event, WorkspaceSidKey) && IsStringField(event, HelplineKey)
    requires services.fetchWorkspace(event[WorkspaceSidKey].s) == Some(workspace)
    requires services.listWorkers(workspace) == Some(raw)
    requires AllParse(services.parseAttributes, raw)
    ensures Handle(event, services) == Response(OkStatus, WorkerSummaries(
      FilterIfHelpline(Some(event[HelplineKey].s), DecodedAll(services.parseAttributes, raw))))
  {
    HandleMatchesExpected(event, services);
  }

  /** Short-circuit at the first step: for a body that does not decode, the
      routing service and the parser make no difference to the answer. */
  lemma NoCallsForInvalidRequest<W>(event: JsObject, services: Services<W>, other: Services<W>)
    requires !IsStringField(event, WorkspaceSidKey) || !IsStringField(event, HelplineKey)
    requires other.describe == services.describe
    ensures Handle(event, other) == Handle(event, services)
  {
    InvalidRequestRejected(event, services);
    InvalidRequestRejected(event, other);
  }

  /** The workspace is fetched only with the request's `workspaceSID`: a
      fetch that agrees there gives the same answer. */
  lemma FetchOnlyRequestedWorkspace<W>(event: JsObject, services: Services<W>, fetch: string -> Option<W>)
    requires IsStringField(event, WorkspaceSidKey)
    requires fetch(event[WorkspaceSidKey].s) == services.fetchWorkspace(event[WorkspaceSidKey].s)
    ensures Handle(event, services.(fetchWorkspace := fetch)) == Handle(event, services)
  {
    HandleMatchesExpected(event, services);
    HandleMatchesExpected(event, services.(fetchWorkspace := fetch));
  }

  /** Sequential dependency: workers are listed only for the workspace a
      successful fetch returned; a listing that agrees on that one handle
      (or any listing at all, when the fetch failed) gives the same answer. */
  lemma ListOnlyFetchedWorkspace<W>(event: JsObject, services: Services<W>, list: W -> Option<seq<RawWorker>>)
    requires IsStringField(event, WorkspaceSidKey)
    requires services.fetchWorkspace(event[WorkspaceSidKey].s).Some? ==>
      list(services.fetchWorkspace(event[WorkspaceSidKey].s).value)
        == services.listWorkers(services.fetchWorkspace(event[WorkspaceSidKey].s).value)
    ensures Handle(event, services.(listWorkers := list)) == Handle(event, services)
  {
    HandleMatchesExpected(event, services);
    HandleMatchesExpected(event, services.(listWorkers := list));
  }

  /** Only the blobs of the listed workers are parsed: a parser that agrees
      on those gives the same answer. */
  lemma ParseOnlyListedBlobs<W>(event: JsObject, services: Services<W>, workspace: W, raw: seq<RawWorker>,
                                 parse: string -> Option<Attributes>)
    requires IsStringField(event, WorkspaceSidKey)
    requires services.fetchWorkspace(event[WorkspaceSidKey].s) == Some(workspace)
    requires services.listWorkers(workspace) == Some(raw)
    requires forall i :: 0 <= i < |raw| ==> parse(raw[i].attributes) == services.parseAttributes(raw[i].attributes)
    ensures Handle(event, services.(parseAttributes := parse)) == Handle(event, services)
  {
    var other := services.(parseAttributes := parse);
    HandleMatchesExpected(event, services);
    HandleMatchesExpected(event, other);
    if AllParse(services.parseAttributes, raw) {
      assert DecodedAll(parse, raw) == DecodedAll(services.parseAttributes, raw);
    }
  }
}
