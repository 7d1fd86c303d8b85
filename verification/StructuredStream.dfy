/** The acceptor for one strict JSON model stream (agent/model_planner.py,
    collect_structured_response) and the language it accepts. */
module StructuredStream {
  import opened Outcomes

  datatype UsageFields = UsageFields(
    inputTokens: nat, outputTokens: nat, cachedInputTokens: nat, reasoningTokens: nat,
    cost: Option<real>, currency: Option<string>)

  /** A validated usage snapshot: cost and currency come together. */
  type ModelUsage = u: UsageFields |
    && u.cachedInputTokens <= u.inputTokens && u.reasoningTokens <= u.outputTokens
    && (u.cost.Some? ==> u.cost.value >= 0.0) && (u.cost.Some? <==> u.currency.Some?)
    witness UsageFields(0, 0, 0, 0, None, None)

  datatype FinishReason = Stop | OtherFinish

  /** A JSON value that is an object, or one that is not. */
  datatype Output = JsonObject(text: string) | OtherJson

  datatype EventKind =
    | Started
    | TextDelta(text: string)
    | ReasoningSummary(summary: string)
    | StructuredOutput(data: Output)
    | UsageReport(snapshot: ModelUsage)
    | Completed(finish: FinishReason, final: Option<ModelUsage>)
    | ErrorReport(code: string)
    | CancelReport

  datatype ModelEvent = ModelEvent(requestId: Id, sequence: nat, kind: EventKind)

  datatype Response = Response(output: Output, usage: ModelUsage)

  datatype Collected =
    | Accepted(response: Response)
    | ProtocolError(usage: Option<ModelUsage>)
    | ProviderFailure(code: string, usage: Option<ModelUsage>)
    | InvalidOutput(charged: ModelUsage)

  /** The snapshots may follow each other within one request. */
  predicate Progresses(previous: ModelUsage, current: ModelUsage) {
    && previous.inputTokens <= current.inputTokens && previous.outputTokens <= current.outputTokens
    && previous.cachedInputTokens <= current.cachedInputTokens && previous.reasoningTokens <= current.reasoningTokens
    && previous.currency == current.currency
    && (previous.cost.Some? && current.cost.Some? ==> previous.cost.value <= current.cost.value)
  }

  predicate UsageFollows(previous: Option<ModelUsage>, current: ModelUsage) {
    previous.Some? ==> Progresses(previous.value, current)
  }

  // ---------------------------------------------------------------- the language

  /** The structured outputs of a stream, in order. */
  function Outputs(events: seq<ModelEvent>): seq<Output> {
    if events == [] then []
    else
      var last := events[|events| - 1].kind;
      Outputs(events[..|events| - 1]) + if last.StructuredOutput? then [last.data] else []
  }

  /** The usage snapshots of a stream, in order. */
  function Usages(events: seq<ModelEvent>): seq<ModelUsage> {
    if events == [] then []
    else
      var last := events[|events| - 1].kind;
      Usages(events[..|events| - 1])
      + if last.UsageReport? then [last.snapshot]
        else if last.Completed? && last.final.Some? then [last.final.value]
        else []
  }

  predicate Numbered(requestId: Id, events: seq<ModelEvent>) {
    forall i :: 0 <= i < |events| ==> events[i].requestId == requestId && events[i].sequence == i + 1
  }

  predicate Shaped(events: seq<ModelEvent>) {
    forall i :: 0 <= i < |events| ==>
      && (events[i].kind.Started? <==> i == 0)
      && !events[i].kind.TextDelta? && !events[i].kind.ErrorReport? && !events[i].kind.CancelReport?
      && (events[i].kind.ReasoningSummary? ==> events[i].kind.summary != "")
      && (events[i].kind.Completed? ==> i == |events| - 1 && events[i].kind.finish == Stop)
  }

  ghost predicate Monotone(usages: seq<ModelUsage>) {
    forall i :: 0 <= i < |usages| - 1 ==> Progresses(usages[i], usages[i + 1])
  }

  /** A complete stream of one request: numbered from one, opened by the only
      STARTED event, closed by COMPLETED with reason stop, carrying exactly one
      structured output, an object, and a monotone list of usage snapshots. */
  ghost predicate WellFormed(requestId: Id, events: seq<ModelEvent>) {
    && Numbered(requestId, events)
    && Shaped(events)
    && |events| > 0 && events[|events| - 1].kind.Completed?
    && |Outputs(events)| == 1 && Outputs(events)[0].JsonObject?
    && Usages(events) != [] && Monotone(Usages(events))
  }

  lemma {:induction false} SummariesArePrefixes(events: seq<ModelEvent>, i: nat)
    requires i <= |events|
    ensures Outputs(events[..i]) <= Outputs(events) && Usages(events[..i]) <= Usages(events)
  {
    if i < |events| {
      var shorter := events[..|events| - 1];
      assert shorter[..i] == events[..i];
      SummariesArePrefixes(shorter, i);
    } else {
      assert events[..i] == events;
    }
  }

  lemma {:induction false} OutputOccurs(events: seq<ModelEvent>, i: nat)
    requires i < |events| && events[i].kind.StructuredOutput?
    ensures events[i].kind.data in Outputs(events)
  {
    SummariesArePrefixes(events, i + 1);
    assert events[..i + 1][..i] == events[..i];
    assert Outputs(events[..i + 1])[|Outputs(events[..i])|] == events[i].kind.data;
  }

  // ---------------------------------------------------------------- the acceptor

  function LastUsage(usages: seq<ModelUsage>): Option<ModelUsage> {
    if usages == [] then None else Some(usages[|usages| - 1])
  }

  /** What the acceptor knows after reading a prefix without an error. */
  ghost predicate Read(requestId: Id, seen: seq<ModelEvent>, output: Option<Output>, usage: Option<ModelUsage>) {
    && Numbered(requestId, seen) && Shaped(seen)
    && Outputs(seen) == (if output.Some? then [output.value] else []) && (output.Some? ==> output.value.JsonObject?)
    && usage == LastUsage(Usages(seen)) && Monotone(Usages(seen))
  }

  /** The event is one that ends the reading with an error. */
  predicate Offends(requestId: Id, position: nat, closed: bool, output: Option<Output>, usage: Option<ModelUsage>, e: ModelEvent) {
    || closed || e.requestId != requestId || e.sequence != position + 1
    || (position == 0) != e.kind.Started?
    || match e.kind
       case Started => false
       case TextDelta(_) => true
       case ReasoningSummary(text) => text == ""
       case StructuredOutput(data) => output.Some? || !data.JsonObject?
       case UsageReport(u) => !UsageFollows(usage, u)
       case Completed(finish, final) => finish != Stop || (final.Some? && !UsageFollows(usage, final.value))
       case ErrorReport(_) => true
       case CancelReport => true
  }

  lemma ReadOn(requestId: Id, events: seq<ModelEvent>, i: nat, output: Option<Output>, usage: Option<ModelUsage>)
    requires i < |events| && Read(requestId, events[..i], output, usage)
    requires !Offends(requestId, i, i > 0 && events[i - 1].kind.Completed?, output, usage, events[i])
    ensures
      Read(requestId, events[..i + 1], OutputAfter(output, events[i].kind), UsageAfter(usage, events[i].kind))
  {
    var seen, longer := events[..i], events[..i + 1];
    assert longer[..i] == seen;
    assert Numbered(requestId, longer);
    assert Shaped(longer) by {
      forall j | 0 <= j < |longer|
        ensures (longer[j].kind.Completed? ==> j == |longer| - 1 && longer[j].kind.finish == Stop)
      {
        if j < i { assert longer[j] == seen[j]; }
      }
    }
    UsageOn(seen, longer, usage);
  }

  lemma UsageOn(seen: seq<ModelEvent>, longer: seq<ModelEvent>, usage: Option<ModelUsage>)
    requires |longer| == |seen| + 1 && longer[..|seen|] == seen
    requires usage == LastUsage(Usages(seen)) && Monotone(Usages(seen))
    requires
      var k := longer[|seen|].kind;
      && (k.UsageReport? ==> UsageFollows(usage, k.snapshot))
      && (k.Completed? && k.final.Some? ==> UsageFollows(usage, k.final.value))
    ensures Monotone(Usages(longer))
  {
    var before, after := Usages(seen), Usages(longer);
    forall i | 0 <= i < |after| - 1 ensures Progresses(after[i], after[i + 1]) {
      if i + 1 < |before| { assert Progresses(before[i], before[i + 1]); }
    }
  }

  /** An offending event makes the whole stream ill-formed. */
  lemma OffenceIsFatal(requestId: Id, events: seq<ModelEvent>, i: nat, output: Option<Output>, usage: Option<ModelUsage>)
    requires i < |events| && Read(requestId, events[..i], output, usage)
    requires Offends(requestId, i, i > 0 && events[i - 1].kind.Completed?, output, usage, events[i])
    ensures !WellFormed(requestId, events)
  {
    if WellFormed(requestId, events) {
      var e := events[i];
      SummariesArePrefixes(events, i + 1);
      assert events[..i + 1][..i] == events[..i];
      assert e.requestId == requestId && e.sequence == i + 1;
      if i > 0 { assert !events[i - 1].kind.Completed?; }
      match e.kind
      case StructuredOutput(data) =>
        OutputOccurs(events, i);
      case UsageReport(u) => UsageFits(events, i, usage, u);
      case Completed(finish, final) =>
        if final.Some? { UsageFits(events, i, usage, final.value); }
      case _ =>
    }
  }

  lemma UsageFits(events: seq<ModelEvent>, i: nat, usage: Option<ModelUsage>, u: ModelUsage)
    requires i < |events| && usage == LastUsage(Usages(events[..i]))
    requires Usages(events[..i + 1]) == Usages(events[..i]) + [u]
    requires Monotone(Usages(events))
    ensures UsageFollows(usage, u)
  {
    SummariesArePrefixes(events, i + 1);
    var n := |Usages(events[..i])|;
    if n > 0 {
      assert Usages(events)[n] == u && Usages(events)[n - 1] == Usages(events[..i])[n - 1];
      assert Progresses(Usages(events)[n - 1], Usages(events)[n]);
    }
  }

  function OutputAfter(output: Option<Output>, k: EventKind): Option<Output> {
    if k.StructuredOutput? then Some(k.data) else output
  }

  function UsageAfter(usage: Option<ModelUsage>, k: EventKind): Option<ModelUsage> {
    if k.UsageReport? then Some(k.snapshot) else if k.Completed? && k.final.Some? then k.final else usage
  }

  /** One turn of the reading loop: takes the event in, or says how it fails. */
  method ReadEvent(requestId: Id, position: nat, closed: bool, output: Option<Output>, usage: Option<ModelUsage>, e: ModelEvent)
    returns (failure: Option<Collected>, output': Option<Output>, usage': Option<ModelUsage>)
    ensures failure.Some? <==> Offends(requestId, position, closed, output, usage, e)
    ensures failure.Some? ==> !failure.value.Accepted?
    ensures failure.Some? && failure.value.InvalidOutput? ==>
              UsageAfter(usage, e.kind) == Some(failure.value.charged)
    ensures failure.Some? && failure.value.ProviderFailure? ==>
              e.kind == ErrorReport(failure.value.code) || e.kind.CancelReport?
    ensures failure.None? ==> output' == OutputAfter(output, e.kind) && usage' == UsageAfter(usage, e.kind)
  {
    failure, output', usage' := None, output, usage;
    if closed { return Some(ProtocolError(usage)), output, usage; }
    if e.requestId != requestId { return Some(ProtocolError(usage)), output, usage; }
    if e.sequence != position + 1 { return Some(ProtocolError(usage)), output, usage; }
    if position == 0 && !e.kind.Started? { return Some(ProtocolError(usage)), output, usage; }
    match e.kind {
      case Started =>
        if position > 0 { failure := Some(ProtocolError(usage)); }
      case StructuredOutput(data) =>
        if output.Some? || !data.JsonObject? {
          failure := Some(ProtocolError(usage));
        } else {
          output' := Some(data);
        }
      case UsageReport(u) =>
        if !UsageFollows(usage, u) {
          failure := Some(ProtocolError(usage));
        } else {
          usage' := Some(u);
        }
      case ReasoningSummary(text) =>
        if text == "" { failure := Some(ProtocolError(usage)); }
      case Completed(finish, final) =>
        if final.Some? {
          if !UsageFollows(usage, final.value) { return Some(ProtocolError(usage)), output, usage; }
          usage' := final;
        }
        if finish != Stop {
          failure := if usage'.None? then Some(ProtocolError(None)) else Some(InvalidOutput(usage'.value));
        }
      case ErrorReport(code) => failure := Some(ProviderFailure(code, usage));
      case CancelReport => failure := Some(ProviderFailure("provider_cancelled", usage));
      case TextDelta(_) => failure := Some(ProtocolError(usage));
    }
  }

  /** Reads a stream to its end or to the first event that breaks the protocol.
      It accepts exactly the well-formed streams, and returns their one output
      and their last usage snapshot. */
  method CollectStructuredResponse(requestId: Id, events: seq<ModelEvent>) returns (r: Collected)
    ensures r.Accepted? <==> WellFormed(requestId, events)
    ensures r.Accepted? ==> r.response.output == Outputs(events)[0]
    ensures r.Accepted? ==> r.response.usage == Usages(events)[|Usages(events)| - 1]
    ensures r.InvalidOutput? ==> r.charged in Usages(events)
    ensures r.ProviderFailure? ==> exists e :: e in events && (e.kind == ErrorReport(r.code) || e.kind.CancelReport?)
  {
    var output: Option<Output>, usage: Option<ModelUsage> := None, None;
    var completed := false;
    for i := 0 to |events|
      invariant Read(requestId, events[..i], output, usage)
      invariant completed <==> i > 0 && events[i - 1].kind.Completed?
    {
      var e := events[i];
      var failure, output', usage' := ReadEvent(requestId, i, completed, output, usage, e);
      if failure.Some? {
        OffenceIsFatal(requestId, events, i, output, usage);
        ChargedOccurs(events, i, usage);
        assert e in events;
        return failure.value;
      }
      ReadOn(requestId, events, i, output, usage);
      output, usage, completed := output', usage', e.kind.Completed?;
    }
    assert events[..|events|] == events;
    if !completed || usage.None? { return ProtocolError(usage); }
    if output.None? { return InvalidOutput(usage.value); }
    r := Accepted(Response(output.value, usage.value));
  }

  lemma ChargedOccurs(events: seq<ModelEvent>, i: nat, usage: Option<ModelUsage>)
    requires i < |events| && usage == LastUsage(Usages(events[..i]))
    ensures
      var charged := UsageAfter(usage, events[i].kind);
      charged.Some? ==> charged.value in Usages(events)
  {
    SummariesArePrefixes(events, i + 1);
    assert events[..i + 1][..i] == events[..i];
    LastUsageAfter(events[..i], events[..i + 1]);
    var after := Usages(events[..i + 1]);
    if after != [] { assert Usages(events)[|after| - 1] == after[|after| - 1]; }
  }

  lemma LastUsageAfter(seen: seq<ModelEvent>, longer: seq<ModelEvent>)
    requires |longer| == |seen| + 1 && longer[..|seen|] == seen
    ensures LastUsage(Usages(longer)) == UsageAfter(LastUsage(Usages(seen)), longer[|seen|].kind)
  {
  }

  // ---------------------------------------------------------------- what a returned usage means

  lemma {:induction false} ProgressReaches(usages: seq<ModelUsage>, i: nat, j: nat)
    requires Monotone(usages) && i <= j < |usages|
    ensures Progresses(usages[i], usages[j])
    decreases j
  {
    if i < j {
      ProgressReaches(usages, i, j - 1);
      assert Progresses(usages[j - 1], usages[j]);
    }
  }

  /** The usage returned for a stream bounds every snapshot in it: each token
      count, and the cost too, because snapshots of one currency either all
      carry a cost or none does. */
  lemma {:induction false} ReturnedUsageBoundsAll(requestId: Id, events: seq<ModelEvent>, i: nat)
    requires WellFormed(requestId, events) && i < |Usages(events)|
    ensures
      var u, last := Usages(events)[i], Usages(events)[|Usages(events)| - 1];
      && u.inputTokens <= last.inputTokens && u.outputTokens <= last.outputTokens
      && u.cachedInputTokens <= last.cachedInputTokens && u.reasoningTokens <= last.reasoningTokens
      && (u.cost.Some? <==> last.cost.Some?)
      && (u.cost.Some? ==> u.cost.value <= last.cost.value)
  {
    ProgressReaches(Usages(events), i, |Usages(events)| - 1);
  }
}
