/** Validation of the request body against the io-ts codec
    `t.type({ workspaceSID: t.string, helpline: t.string })` and the
    `decodeWith` adapter that turns its failures into a 400 error. */
module Request {
  import opened Outcome
  import opened JsValues

  const WorkspaceSidKey := "workspaceSID"
  const HelplineKey := "helpline"
  const BadRequest := 400

  /** The decoded body: both fields are strings (possibly empty). */
  datatype ReqBody = ReqBody(workspaceSID: string, helpline: string)

  /** One io-ts validation error: the property that failed and the value found. */
  datatype ValidationError = ValidationError(key: string, actual: JsValue)

  /** The outcome of `decoder.decode`: an io-ts `Either<Errors, A>`. */
  datatype Validation<+A> = Valid(value: A) | Invalid(errors: seq<ValidationError>)

  /** The error `t.string` reports for property `key`, if it is not a string. */
  function FieldErrors(event: JsObject, key: string): seq<ValidationError>
  {
    if IsStringField(event, key) then [] else [ValidationError(key, Get(event, key))]
  }

  /** How many of the codec's two properties are not strings. */
  function FailingFields(event: JsObject): nat
  {
    (if IsStringField(event, WorkspaceSidKey) then 0 else 1) + (if IsStringField(event, HelplineKey) then 0 else 1)
  }

  /** `reqbody.decode(event)`: every property of the codec is checked, in
      declaration order, and all failures are collected; properties the codec
      does not mention are ignored. */
  function ValidateReqBody(event: JsObject): (r: Validation<ReqBody>)
    ensures r.Valid? <==> IsStringField(event, WorkspaceSidKey) && IsStringField(event, HelplineKey)
    ensures r.Valid? ==> r.value == ReqBody(event[WorkspaceSidKey].s, event[HelplineKey].s)
    ensures r.Invalid? ==> |r.errors| > 0
    ensures r.Invalid? ==> |r.errors| == FailingFields(event)
    ensures r.Invalid? ==> forall e :: e in r.errors ==>
      (e.key == WorkspaceSidKey || e.key == HelplineKey) && !IsStringField(event, e.key) && e.actual == Get(event, e.key)
    ensures r.Invalid? ==> (!IsStringField(event, WorkspaceSidKey) ==> r.errors[0].key == WorkspaceSidKey)
    ensures r.Invalid? ==> (!IsStringField(event, HelplineKey) ==> r.errors[|r.errors| - 1].key == HelplineKey)
  {
    var errors := FieldErrors(event, WorkspaceSidKey) + FieldErrors(event, HelplineKey);
    if errors == [] then Valid(ReqBody(event[WorkspaceSidKey].s, event[HelplineKey].s))
    else Invalid(errors)
  }

  /** The total length of `lines`. */
  function TotalLength(lines: seq<string>): nat
  {
    if lines == [] then 0 else |lines[0]| + TotalLength(lines[1..])
  }

  /** `lines.join('\n')`: the lines in order, each but the last followed by
      one newline. */
  function JoinLines(lines: seq<string>): (r: string)
    ensures lines == [] ==> r == ""
    ensures |lines| > 0 ==> |r| == TotalLength(lines) + |lines| - 1
    ensures |lines| > 0 ==> lines[0] <= r
    ensures |lines| > 1 ==> r[|lines[0]|] == '\n'
    decreases |lines|
  {
    if |lines| == 0 then ""
    else if |lines| == 1 then lines[0]
    else lines[0] + "\n" + JoinLines(lines[1..])
  }

  /** `failure(errors).join('\n')`: PathReporter describes each error on its
      own line; how it words one error is the parameter `describe`. */
  function Report(describe: ValidationError -> string, errors: seq<ValidationError>): (r: string)
    ensures errors == [] ==> r == ""
    ensures |errors| == 1 ==> r == describe(errors[0])
    ensures |errors| > 0 ==> describe(errors[0]) <= r
  {
    JoinLines(seq(|errors|, i requires 0 <= i < |errors| => describe(errors[i])))
  }

  /** `decodeWith(reqbody)(event)`: the validation, with its errors reported
      as one message under status 400. */
  function DecodeRequest(event: JsObject, describe: ValidationError -> string): (r: Result<ReqBody>)
    ensures r.Ok? <==> IsStringField(event, WorkspaceSidKey) && IsStringField(event, HelplineKey)
    ensures r.Ok? ==> r.value.workspaceSID == event[WorkspaceSidKey].s && r.value.helpline == event[HelplineKey].s
    ensures r.Err? ==> r.error.status == BadRequest
  {
    match ValidateReqBody(event)
    case Valid(b) => Ok(b)
    case Invalid(errors) => Err(ApiError(Report(describe, errors), BadRequest))
  }

  /** The message of a rejected request has one line per failing field:
      PathReporter's line for `workspaceSID`, for `helpline`, or both, in
      that order and separated by a newline. */
  lemma RejectionMessage(event: JsObject, describe: ValidationError -> string)
    requires !IsStringField(event, WorkspaceSidKey) || !IsStringField(event, HelplineKey)
    ensures DecodeRequest(event, describe).Err?
    ensures
      var sidLine := describe(ValidationError(WorkspaceSidKey, Get(event, WorkspaceSidKey)));
      var helplineLine := describe(ValidationError(HelplineKey, Get(event, HelplineKey)));
      DecodeRequest(event, describe).error.message ==
        if !IsStringField(event, WorkspaceSidKey) && !IsStringField(event, HelplineKey) then sidLine + "\n" + helplineLine
        else if !IsStringField(event, WorkspaceSidKey) then sidLine
        else helplineLine
  {
    var a := ValidationError(WorkspaceSidKey, Get(event, WorkspaceSidKey));
    var b := ValidationError(HelplineKey, Get(event, HelplineKey));
    var errors := FieldErrors(event, WorkspaceSidKey) + FieldErrors(event, HelplineKey);
    var lines := seq(|errors|, i requires 0 <= i < |errors| => describe(errors[i]));
    assert Report(describe, errors) == JoinLines(lines);
    if !IsStringField(event, WorkspaceSidKey) && !IsStringField(event, HelplineKey) {
      assert errors == [a, b];
      assert lines == [describe(a), describe(b)];
      assert JoinLines(lines[1..]) == describe(b);
    } else if !IsStringField(event, WorkspaceSidKey) {
      assert errors == [a];
      assert lines == [describe(a)];
    } else {
      assert errors == [b];
      assert lines == [describe(b)];
    }
  }

  /** Properties other than the two the codec names never change the result,
      not even the message of a rejection. */
  lemma ExtraFieldsIgnored(event: JsObject, describe: ValidationError -> string, key: string, v: JsValue)
    requires key != WorkspaceSidKey && key != HelplineKey
    ensures DecodeRequest(event[key := v], describe) == DecodeRequest(event, describe)
  {
    assert FieldErrors(event[key := v], WorkspaceSidKey) == FieldErrors(event, WorkspaceSidKey);
    assert FieldErrors(event[key := v], HelplineKey) == FieldErrors(event, HelplineKey);
  }

  /** The codec does not reject an empty `workspaceSID` (nor an empty helpline). */
  lemma EmptyStringsAccepted(event: JsObject, describe: ValidationError -> string)
    requires Get(event, WorkspaceSidKey) == JsString("") && Get(event, HelplineKey) == JsString("")
    ensures DecodeRequest(event, describe) == Ok(ReqBody("", ""))
  {
  }

  /** A body without `helpline` is rejected with 400: the codec makes the
      field mandatory. */
  lemma MissingHelplineRejected(event: JsObject, describe: ValidationError -> string)
    requires HelplineKey !in event
    ensures DecodeRequest(event, describe).Err?
    ensures DecodeRequest(event, describe).error.status == BadRequest
  {
  }
}
