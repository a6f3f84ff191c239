/** Worked cases of the handler, proved for a stub service. */
module Scenarios {
  import opened Outcome
  import opened JsValues
  import opened Request
  import opened Workers
  import opened Envelope
  import opened Handler

  const Listed := [RawWorker("WK1", "ann"), RawWorker("WK2", "bob"), RawWorker("WK3", "cid")]

  /** A stub service: every workspace exists and lists `Listed`; blob `b`
      parses to full name `b`, and every worker but WK3 is on "Crisis". */
  function Stub(): Services<string>
  {
    Services(
      (e: ValidationError) => e.key,
      (sid: string) => Some(sid),
      (w: string) => Some(Listed),
      (blob: string) => Some(Attributes(JsString(blob), JsString(if blob == "cid" then "Legal" else "Crisis"))))
  }

  const Ann := WorkerRecord("WK1", JsString("ann"), JsString("Crisis"))
  const Bob := WorkerRecord("WK2", JsString("bob"), JsString("Crisis"))
  const Cid := WorkerRecord("WK3", JsString("cid"), JsString("Legal"))

  /** The stub's three blobs all parse, to these three records. */
  lemma StubDecodes()
    ensures AllParse(Stub().parseAttributes, Listed)
    ensures DecodedAll(Stub().parseAttributes, Listed) == [Ann, Bob, Cid]
  {
    assert AllParse(Stub().parseAttributes, Listed);
  }

  /** "Crisis" keeps the first two records. */
  lemma CrisisKeepsTwo()
    ensures FilterIfHelpline(Some("Crisis"), [Ann, Bob, Cid]) == [Summarize(Ann), Summarize(Bob)]
  {
    assert FilterByHelpline([Cid], "Crisis") == [];
    assert FilterByHelpline([Bob, Cid], "Crisis") == [Bob];
    assert FilterByHelpline([Ann, Bob, Cid], "Crisis") == [Ann, Bob];
  }

  /** Two of three workers are on the requested helpline: 200 with their
      `{ fullName, sid }` only, in listing order. */
  lemma FilteredListing()
    ensures Handle(map[WorkspaceSidKey := JsString("WSabc"), HelplineKey := JsString("Crisis")], Stub())
      == Response(OkStatus, WorkerSummaries([Summary(JsString("ann"), "WK1"), Summary(JsString("bob"), "WK2")]))
  {
    var event := map[WorkspaceSidKey := JsString("WSabc"), HelplineKey := JsString("Crisis")];
    StubDecodes();
    CrisisKeepsTwo();
    SuccessReported(event, Stub(), "WSabc", Listed);
  }

  /** An empty `workspaceSID` and an empty helpline decode: the workspace is
      fetched and, the filter being falsy, every worker is listed. */
  lemma EmptyFieldsReachTheService()
    ensures Handle(map[WorkspaceSidKey := JsString(""), HelplineKey := JsString("")], Stub())
      == Response(OkStatus, WorkerSummaries(
           [Summary(JsString("ann"), "WK1"), Summary(JsString("bob"), "WK2"), Summary(JsString("cid"), "WK3")]))
  {
    var event := map[WorkspaceSidKey := JsString(""), HelplineKey := JsString("")];
    StubDecodes();
    SuccessReported(event, Stub(), "", Listed);
    assert FilterIfHelpline(Some(""), [Ann, Bob, Cid]) == [Summarize(Ann), Summarize(Bob), Summarize(Cid)];
  }

  /** Without a helpline the body is rejected with 400 and the message lists
      the one failing field. */
  lemma MissingHelpline()
    ensures Handle(map[WorkspaceSidKey := JsString("")], Stub())
      == Response(BadRequest, ErrorBody(ApiError(HelplineKey, BadRequest)))
  {
    var event := map[WorkspaceSidKey := JsString("")];
    InvalidRequestRejected(event, Stub());
    RejectionMessage(event, Stub().describe);
  }
}
