/** The worker-specific steps: decoding every worker's attributes in one
    batch (`extractAttributes`) and the helpline filter with the projection
    to `{ fullName, sid }` (`filterIfHelpline`). */
module Workers {
  import opened Outcome
  import opened JsValues

  const BadGateway := 502
  const ParseError := ApiError("Error: couldn't parse JSON response", BadGateway)

  /** A worker as the routing service lists it; `attributes` is a JSON blob. */
  datatype RawWorker = RawWorker(sid: string, attributes: string)

  /** `attributes.full_name` and `attributes.helpline` of a parsed blob; the
      source casts both to `string` without checking them. */
  datatype Attributes = Attributes(fullName: JsValue, helpline: JsValue)

  /** A worker after its attributes were decoded. */
  datatype WorkerRecord = WorkerRecord(sid: string, fullName: JsValue, helpline: JsValue)

  /** The public shape: the helpline never leaves the endpoint. */
  datatype Summary = Summary(fullName: JsValue, sid: string)

  function Decoded(w: RawWorker, a: Attributes): WorkerRecord
  {
    WorkerRecord(w.sid, a.fullName, a.helpline)
  }

  /** `extractAttributes`: maps `parse` over the workers, first to last; the
      first blob that does not parse (`parse` gives `None`, i.e. `JSON.parse`
      or the property reads threw) fails the whole batch with one fixed error
      and no partial list. */
  function ExtractAttributes(parse: string -> Option<Attributes>, workers: seq<RawWorker>): (r: Result<seq<WorkerRecord>>)
    ensures r.Ok? <==> forall i :: 0 <= i < |workers| ==> parse(workers[i].attributes).Some?
    ensures r.Err? ==> r.error == ParseError
    ensures r.Ok? ==> |r.value| == |workers|
    ensures r.Ok? ==> forall i :: 0 <= i < |workers| ==>
      parse(workers[i].attributes).Some? && r.value[i] == Decoded(workers[i], parse(workers[i].attributes).value)
    decreases |workers|
  {
    if workers == [] then Ok([])
    else
      match parse(workers[0].attributes)
      case None => Err(ParseError)
      case Some(a) =>
        Map(ExtractAttributes(parse, workers[1..]), (rest: seq<WorkerRecord>) => [Decoded(workers[0], a)] + rest)
  }

  /** JavaScript truthiness of the `string | undefined` filter argument. */
  predicate IsTruthy(helpline: Option<string>)
  {
    helpline.Some? && helpline.value != ""
  }

  /** `w.helpline === h`: strict equality with a string, so a helpline that
      is not a string never matches. */
  predicate OnHelpline(w: WorkerRecord, h: string)
  {
    w.helpline == JsString(h)
  }

  /** Whether `filterIfHelpline(helpline)` keeps worker `w`: every worker when
      the filter is falsy, otherwise those whose helpline is that very string
      (`===`, so a non-string helpline never matches). */
  predicate Keeps(helpline: Option<string>, w: WorkerRecord)
  {
    !IsTruthy(helpline) || OnHelpline(w, helpline.value)
  }

  /** `workers.filter(w => w.helpline === helpline)`. */
  function FilterByHelpline(workers: seq<WorkerRecord>, helpline: string): (r: seq<WorkerRecord>)
    ensures |r| <= |workers|
    ensures forall w :: w in r ==> w in workers && OnHelpline(w, helpline)
    ensures (forall i :: 0 <= i < |workers| ==> OnHelpline(workers[i], helpline)) ==> r == workers
    decreases |workers|
  {
    if workers == [] then []
    else
      var head := if OnHelpline(workers[0], helpline) then [workers[0]] else [];
      head + FilterByHelpline(workers[1..], helpline)
  }

  function Summarize(w: WorkerRecord): Summary
  {
    Summary(w.fullName, w.sid)
  }

  /** `filterIfHelpline(helpline)(workers)`: filter when `helpline` is truthy,
      then project each kept worker to `{ fullName, sid }`. */
  function FilterIfHelpline(helpline: Option<string>, workers: seq<WorkerRecord>): (r: seq<Summary>)
    ensures |r| <= |workers|
    ensures !IsTruthy(helpline) ==> |r| == |workers| && forall i :: 0 <= i < |workers| ==> r[i] == Summarize(workers[i])
  {
    var kept := if IsTruthy(helpline) then FilterByHelpline(workers, helpline.value) else workers;
    seq(|kept|, i requires 0 <= i < |kept| => Summarize(kept[i]))
  }

  /** Every position moved one place to the right. */
  function Shift(positions: seq<nat>): (r: seq<nat>)
    ensures |r| == |positions|
    ensures forall k :: 0 <= k < |r| ==> r[k] == positions[k] + 1
  {
    seq(|positions|, k requires 0 <= k < |positions| => positions[k] + 1)
  }

  /** `idx` is strictly increasing. */
  ghost predicate Increasing(idx: seq<nat>)
  {
    forall k, l :: 0 <= k < l < |idx| ==> idx[k] < idx[l]
  }

  /** `r` is the list of `workers` at the positions `idx`. */
  ghost predicate PicksAt(r: seq<WorkerRecord>, workers: seq<WorkerRecord>, idx: seq<nat>)
  {
    && |idx| == |r|
    && forall k :: 0 <= k < |idx| ==> idx[k] < |workers| && r[k] == workers[idx[k]]
  }

  /** `idx` holds exactly the positions of the workers whose helpline is `helpline`. */
  ghost predicate MatchPositions(workers: seq<WorkerRecord>, helpline: string, idx: seq<nat>)
  {
    forall i :: 0 <= i < |workers| ==> (i in idx <==> OnHelpline(workers[i], helpline))
  }

  lemma ConsIncreasing(head: seq<nat>, tail: seq<nat>)
    requires head == [] || head == [0]
    requires Increasing(tail)
    ensures Increasing(head + Shift(tail))
  {
  }

  lemma ConsPicks(w: WorkerRecord, workers: seq<WorkerRecord>, rest: seq<WorkerRecord>, tail: seq<nat>, keep: bool)
    requires PicksAt(rest, workers, tail)
    ensures PicksAt((if keep then [w] else []) + rest, [w] + workers, (if keep then [0] else []) + Shift(tail))
  {
  }

  lemma ConsMatches(workers: seq<WorkerRecord>, helpline: string, tail: seq<nat>)
    requires workers != []
    requires MatchPositions(workers[1..], helpline, tail)
    ensures MatchPositions(workers, helpline,
      (if OnHelpline(workers[0], helpline) then [0] else []) + Shift(tail))
  {
  }

  /** The filter keeps exactly the workers whose helpline is `helpline`, in
      their order: `idx` lists the kept positions, strictly increasing. */
  lemma {:induction false} FilterPositions(workers: seq<WorkerRecord>, helpline: string) returns (idx: seq<nat>)
    ensures PicksAt(FilterByHelpline(workers, helpline), workers, idx)
    ensures Increasing(idx)
    ensures MatchPositions(workers, helpline, idx)
    decreases |workers|
  {
    if workers == [] {
      idx := [];
    } else {
      var tail := FilterPositions(workers[1..], helpline);
      var keep := OnHelpline(workers[0], helpline);
      idx := (if keep then [0] else []) + Shift(tail);
      assert workers == [workers[0]] + workers[1..];
      ConsPicks(workers[0], workers[1..], FilterByHelpline(workers[1..], helpline), tail, keep);
      ConsIncreasing(if keep then [0] else [], tail);
      ConsMatches(workers, helpline, tail);
    }
  }

  /** Filter correctness: the result holds the summaries of exactly the
      workers the filter keeps, in their original order. With a truthy
      helpline `h` those are the workers whose helpline is `h`; with
      `undefined` or `""` they are all the workers. */
  lemma SelectsExactly(helpline: Option<string>, workers: seq<WorkerRecord>) returns (idx: seq<nat>)
    ensures |idx| == |FilterIfHelpline(helpline, workers)|
    ensures forall k :: 0 <= k < |idx| ==>
      idx[k] < |workers| && FilterIfHelpline(helpline, workers)[k] == Summarize(workers[idx[k]])
    ensures forall k, l :: 0 <= k < l < |idx| ==> idx[k] < idx[l]
    ensures forall i :: 0 <= i < |workers| ==> (i in idx <==> Keeps(helpline, workers[i]))
  {
    if IsTruthy(helpline) {
      idx := FilterPositions(workers, helpline.value);
    } else {
      idx := seq(|workers|, i requires 0 <= i < |workers| => i);
      forall i | 0 <= i < |workers| ensures i in idx {
        assert idx[i] == i;
      }
    }
  }

  /** No summary comes from a worker the filter drops, and every summary
      comes from some input worker whose helpline matched. */
  lemma OnlyMatchingSurvive(h: string, workers: seq<WorkerRecord>, s: Summary)
    requires h != ""
    requires s in FilterIfHelpline(Some(h), workers)
    ensures exists i :: 0 <= i < |workers| && OnHelpline(workers[i], h) && Summarize(workers[i]) == s
  {
    var idx := SelectsExactly(Some(h), workers);
    var r := FilterIfHelpline(Some(h), workers);
    var k :| 0 <= k < |r| && r[k] == s;
    assert idx[k] in idx;
  }

  /** A truthy helpline no worker has yields an empty list, not an error. */
  lemma {:induction false} NoMatchIsEmpty(h: string, workers: seq<WorkerRecord>)
    requires forall i :: 0 <= i < |workers| ==> !OnHelpline(workers[i], h)
    ensures FilterByHelpline(workers, h) == []
    ensures h != "" ==> FilterIfHelpline(Some(h), workers) == []
    decreases |workers|
  {
    if workers != [] {
      assert forall i :: 0 <= i < |workers[1..]| ==> workers[1..][i] == workers[i + 1];
      NoMatchIsEmpty(h, workers[1..]);
    }
  }
}
