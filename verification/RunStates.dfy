/** The immutable state of one agent run and the operations that advance it
    (agent/state.py): the phase table, the pending-work record, the write
    obligation, and the ledger of accepted tool calls and their results. */
module RunStates {
  import opened Outcomes

  datatype Phase =
    | Created | LoadingContext | SelectingMemory | Planning | ValidatingCalls | CheckingPolicy
    | AwaitingApproval | ExecutingTools | RecordingResults | Responding | Persisting | Cancelling
    | Completed | Cancelled | Failed | Interrupted
  {
    predicate Terminal() {
      this in {Completed, Cancelled, Failed, Interrupted}
    }
  }

  /** The transition table of a run. */
  function Allowed(p: Phase): set<Phase> {
    match p
    case Created => {LoadingContext, Cancelling, Failed}
    case LoadingContext => {SelectingMemory, Cancelling, Failed, Interrupted}
    case SelectingMemory => {Planning, Cancelling, Failed, Interrupted}
    case Planning => {ValidatingCalls, Responding, Cancelling, Failed, Interrupted}
    case ValidatingCalls => {CheckingPolicy, RecordingResults, Cancelling, Failed, Interrupted}
    case CheckingPolicy => {AwaitingApproval, ExecutingTools, RecordingResults, Cancelling, Failed, Interrupted}
    case AwaitingApproval => {ExecutingTools, RecordingResults, Cancelling, Failed, Interrupted}
    case ExecutingTools => {AwaitingApproval, RecordingResults, Cancelling, Failed, Interrupted}
    case RecordingResults => {AwaitingApproval, ExecutingTools, Planning, Cancelling, Failed, Interrupted}
    case Responding => {Persisting, Cancelling, Failed, Interrupted}
    case Persisting => {Completed, Interrupted, Failed}
    case Cancelling => {Cancelled, Interrupted}
    case Completed => {}
    case Cancelled => {}
    case Failed => {}
    case Interrupted => {}
  }

  datatype ResultSensitivity = UnknownSensitivity | Public | Workspace | Private | Secret
  datatype SideEffectClass = NoEffect | Read | Network | Write | Execute | Destructive | UnknownEffect
  datatype ToolResultStatus =
    | Succeeded | FailedResult | Denied | CancelledResult | TimedOut | Conflicted | Partial | UnknownOutcome

  datatype ToolCall = ToolCall(id: Id, sensitivity: ResultSensitivity, arguments: string)
  datatype ToolDefinition = ToolDefinition(sensitivity: ResultSensitivity, sideEffect: SideEffectClass)
  {
    predicate Effectful() {
      sideEffect in {Write, Destructive, UnknownEffect}
    }
  }
  datatype ToolResult = ToolResult(callId: Id, status: ToolResultStatus, summary: string)

  datatype WriteOutcome = WriteOutcome(callId: Id, status: ToolResultStatus, summary: string)

  datatype WriteObligation = WriteObligation(required: bool, reasons: seq<string>, outcomes: seq<WriteOutcome>)
  {
    predicate Satisfied() {
      !required || exists o :: o in outcomes && o.status == Succeeded
    }

    function Require(reason: string): WriteObligation {
      if reason in reasons then this else this.(required := true, reasons := reasons + [reason])
    }

    function Observe(definition: ToolDefinition, result: ToolResult): WriteObligation {
      if !definition.Effectful() || exists o :: o in outcomes && o.callId == result.callId then this
      else this.(outcomes := outcomes + [WriteOutcome(result.callId, result.status, result.summary)])
    }
  }

  datatype PendingWork = PendingWork(callIds: set<Id>, calls: seq<ToolCall>, approvals: set<Id>, children: set<Id>)
  datatype ControlMessage = ControlMessage(id: Id, content: string)

  datatype RunState = RunState(
    phase: Phase,
    revision: nat,
    modelRounds: nat,
    toolCalls: nat,
    pending: PendingWork,
    obligation: WriteObligation,
    results: seq<ToolResult>,
    text: string,
    controls: seq<ControlMessage>,
    bindings: map<Id, ResultSensitivity>)

  function Transition(s: RunState, target: Phase): Result<RunState> {
    if target in Allowed(s.phase) then Ok(s.(phase := target, revision := s.revision + 1)) else Err
  }

  function RequireWriteOutcome(s: RunState, reason: string): RunState {
    s.(obligation := s.obligation.Require(reason), revision := s.revision + 1)
  }

  function ApplyControl(s: RunState, message: ControlMessage): RunState {
    if exists m :: m in s.controls && m.id == message.id then s
    else s.(controls := s.controls + [message], revision := s.revision + 1)
  }

  // ---------------------------------------------------------------- ids

  function CallIds(calls: seq<ToolCall>): seq<Id> {
    seq(|calls|, i requires 0 <= i < |calls| => calls[i].id)
  }

  function ResultIds(results: seq<ToolResult>): seq<Id> {
    seq(|results|, i requires 0 <= i < |results| => results[i].callId)
  }

  function Called(calls: seq<ToolCall>): set<Id> {
    set c | c in calls :: c.id
  }

  function Answered(results: seq<ToolResult>): set<Id> {
    set r | r in results :: r.callId
  }

  predicate DistinctCalls(calls: seq<ToolCall>) {
    forall i, j :: 0 <= i < j < |calls| ==> calls[i].id != calls[j].id
  }

  predicate DistinctResults(results: seq<ToolResult>) {
    forall i, j :: 0 <= i < j < |results| ==> results[i].callId != results[j].callId
  }

  /** The first call carrying an ID. */
  function FindCall(calls: seq<ToolCall>, id: Id): (r: Option<ToolCall>)
    ensures r.Some? ==> r.value.id == id && r.value in calls
    ensures r.None? ==> id !in Called(calls)
  {
    if calls == [] then None
    else
      var earlier := FindCall(calls[..|calls| - 1], id);
      if earlier.Some? then earlier
      else if calls[|calls| - 1].id == id then Some(calls[|calls| - 1]) else None
  }

  function FindResult(results: seq<ToolResult>, id: Id): (r: Option<ToolResult>)
    ensures r.Some? ==> r.value.callId == id && r.value in results
    ensures r.None? ==> id !in Answered(results)
  {
    if results == [] then None
    else
      var earlier := FindResult(results[..|results| - 1], id);
      if earlier.Some? then earlier
      else if results[|results| - 1].callId == id then Some(results[|results| - 1]) else None
  }

  function DropCall(calls: seq<ToolCall>, id: Id): seq<ToolCall> {
    if calls == [] then []
    else DropCall(calls[..|calls| - 1], id) + if calls[|calls| - 1].id == id then [] else [calls[|calls| - 1]]
  }

  lemma {:induction false} DropCallMembers(calls: seq<ToolCall>, id: Id)
    ensures forall c :: c in DropCall(calls, id) <==> c in calls && c.id != id
  {
    if calls != [] {
      DropCallMembers(calls[..|calls| - 1], id);
      assert calls == calls[..|calls| - 1] + [calls[|calls| - 1]];
    }
  }

  lemma {:induction false} DropCallDistinct(calls: seq<ToolCall>, id: Id)
    requires DistinctCalls(calls)
    ensures DistinctCalls(DropCall(calls, id))
    ensures Called(DropCall(calls, id)) == Called(calls) - {id}
  {
    DropCallMembers(calls, id);
    if calls != [] {
      DropCallDistinct(calls[..|calls| - 1], id);
      DropCallMembers(calls[..|calls| - 1], id);
    }
  }

  function SwapCall(calls: seq<ToolCall>, replacement: ToolCall): seq<ToolCall> {
    seq(|calls|, i requires 0 <= i < |calls| => if calls[i].id == replacement.id then replacement else calls[i])
  }

  // ---------------------------------------------------------------- the tool-call ledger

  /** Binds every call of a batch to its result sensitivity, refusing unknown
      sensitivities and IDs that were completed or bound before. */
  function BindCalls(completed: set<Id>, bindings: map<Id, ResultSensitivity>, calls: seq<ToolCall>)
    : Result<map<Id, ResultSensitivity>>
  {
    if calls == [] then Ok(bindings)
    else
      match BindCalls(completed, bindings, calls[..|calls| - 1])
      case Err => Err
      case Ok(bound) =>
        var c := calls[|calls| - 1];
        if c.sensitivity == UnknownSensitivity || c.id in completed || c.id in bound then Err
        else Ok(bound[c.id := c.sensitivity])
  }

  function AcceptToolCalls(s: RunState, calls: seq<ToolCall>): Result<RunState> {
    if calls == [] || s.pending.callIds != {} || s.pending.calls != [] || !DistinctCalls(calls) then Err
    else
      match BindCalls(Answered(s.results), s.bindings, calls)
      case Err => Err
      case Ok(bindings) =>
        Ok(s.(pending := s.pending.(callIds := Called(calls), calls := calls),
              toolCalls := s.toolCalls + |calls|,
              bindings := bindings,
              revision := s.revision + 1))
  }

  function RecordToolResult(s: RunState, definition: ToolDefinition, result: ToolResult): Result<RunState> {
    var id := result.callId;
    var bound := if id in s.bindings then s.bindings[id] else UnknownSensitivity;
    match FindResult(s.results, id)
    case Some(stored) =>
      if stored != result || bound == UnknownSensitivity || definition.sensitivity != bound then Err else Ok(s)
    case None =>
      var call := FindCall(s.pending.calls, id);
      if call.None? || bound == UnknownSensitivity
         || call.value.sensitivity != bound || definition.sensitivity != bound then Err
      else
        Ok(s.(pending := s.pending.(callIds := s.pending.callIds - {id}, calls := DropCall(s.pending.calls, id)),
              obligation := s.obligation.Observe(definition, result),
              results := s.results + [result],
              revision := s.revision + 1))
  }

  /** A Hook's schema-valid mutation of one pending call: the observer refuses
      it unless exactly one pending call has the ID and equals the original. */
  function ReplaceCall(s: RunState, original: ToolCall, replacement: ToolCall): Result<RunState> {
    var matching := set i | 0 <= i < |s.pending.calls| && s.pending.calls[i].id == original.id;
    if original.id != replacement.id || |matching| != 1 || FindCall(s.pending.calls, original.id) != Some(original)
    then Err
    else
      Ok(s.(pending := s.pending.(calls := SwapCall(s.pending.calls, replacement)), revision := s.revision + 1))
  }

  function ResultsOutside(results: seq<ToolResult>, batch: set<Id>): seq<ToolResult> {
    if results == [] then []
    else
      var last := results[|results| - 1];
      ResultsOutside(results[..|results| - 1], batch) + if last.callId in batch then [] else [last]
  }

  function ResultsInOrder(results: seq<ToolResult>, ids: seq<Id>): (r: Result<seq<ToolResult>>)
    ensures r.Ok? ==> ResultIds(r.value) == ids
    ensures r.Ok? ==> forall x :: x in r.value ==> x in results
    ensures r.Err? ==> exists id :: id in ids && id !in Answered(results)
  {
    if ids == [] then Ok([])
    else
      match ResultsInOrder(results, ids[..|ids| - 1])
      case Err => Err
      case Ok(earlier) =>
        match FindResult(results, ids[|ids| - 1])
        case None => Err
        case Some(x) => Ok(earlier + [x])
  }

  /** Puts a batch's results, which arrived in any order, back into the order
      in which the batch was accepted. */
  function RestoreOrder(s: RunState, accepted: seq<Id>): Result<RunState> {
    match ResultsInOrder(s.results, accepted)
    case Err => Err
    case Ok(batch) => Ok(s.(results := ResultsOutside(s.results, set id | id in accepted) + batch))
  }

  /** Conservation: every bound ID is exactly one of pending or answered once,
      and the tool-call counter counts the bound IDs. */
  ghost predicate Conserved(s: RunState) {
    && DistinctResults(s.results)
    && DistinctCalls(s.pending.calls)
    && s.pending.callIds == Called(s.pending.calls)
    && s.pending.callIds !! Answered(s.results)
    && s.bindings.Keys == s.pending.callIds + Answered(s.results)
    && s.toolCalls == |s.bindings|
  }

  lemma {:induction false} BindKeys(completed: set<Id>, bindings: map<Id, ResultSensitivity>, calls: seq<ToolCall>)
    requires BindCalls(completed, bindings, calls).Ok?
    ensures BindCalls(completed, bindings, calls).value.Keys == bindings.Keys + Called(calls)
  {
    if calls != [] {
      var earlier := calls[..|calls| - 1];
      BindKeys(completed, bindings, earlier);
      assert calls == earlier + [calls[|calls| - 1]];
      assert Called(calls) == Called(earlier) + {calls[|calls| - 1].id};
    }
  }

  lemma {:induction false} BindCount(completed: set<Id>, bindings: map<Id, ResultSensitivity>, calls: seq<ToolCall>)
    requires BindCalls(completed, bindings, calls).Ok?
    ensures |BindCalls(completed, bindings, calls).value| == |bindings| + |calls|
  {
    if calls != [] {
      var earlier := calls[..|calls| - 1];
      BindCount(completed, bindings, earlier);
    }
  }

  lemma {:induction false} BindFresh(completed: set<Id>, bindings: map<Id, ResultSensitivity>, calls: seq<ToolCall>)
    requires BindCalls(completed, bindings, calls).Ok?
    ensures forall c :: c in calls ==> c.id !in completed && c.id !in bindings
  {
    if calls != [] {
      var earlier := calls[..|calls| - 1];
      BindFresh(completed, bindings, earlier);
      BindKeys(completed, bindings, earlier);
      assert calls == earlier + [calls[|calls| - 1]];
    }
  }

  lemma {:induction false} AcceptConserves(s: RunState, calls: seq<ToolCall>)
    requires Conserved(s) && AcceptToolCalls(s, calls).Ok?
    ensures Conserved(AcceptToolCalls(s, calls).value)
    ensures Called(calls) !! Answered(s.results)
  {
    BindKeys(Answered(s.results), s.bindings, calls);
    BindCount(Answered(s.results), s.bindings, calls);
    BindFresh(Answered(s.results), s.bindings, calls);
    AcceptedLedger(s, AcceptToolCalls(s, calls).value, calls);
  }

  /** The ledger of a state that has just bound these calls. */
  lemma AcceptedLedger(s: RunState, s': RunState, calls: seq<ToolCall>)
    requires Conserved(s) && s.pending.callIds == {} && DistinctCalls(calls) && Called(calls) !! Answered(s.results)
    requires s'.results == s.results && s'.pending.calls == calls && s'.pending.callIds == Called(calls)
    requires s'.bindings.Keys == s.bindings.Keys + Called(calls) && |s'.bindings| == |s.bindings| + |calls|
    requires s'.toolCalls == s.toolCalls + |calls|
    ensures Conserved(s')
  {
  }

  lemma AnsweredAppend(results: seq<ToolResult>, result: ToolResult)
    ensures Answered(results + [result]) == Answered(results) + {result.callId}
  {
  }

  lemma DistinctAppend(results: seq<ToolResult>, result: ToolResult)
    requires DistinctResults(results) && result.callId !in Answered(results)
    ensures DistinctResults(results + [result])
  {
  }

  lemma {:induction false} RecordConserves(s: RunState, definition: ToolDefinition, result: ToolResult)
    requires Conserved(s) && RecordToolResult(s, definition, result).Ok?
    ensures
      var s' := RecordToolResult(s, definition, result).value;
      && Conserved(s')
      && s.results <= s'.results
      && Answered(s'.results) + s'.pending.callIds == Answered(s.results) + s.pending.callIds
  {
    var id := result.callId;
    if FindResult(s.results, id).None? {
      var s' := RecordToolResult(s, definition, result).value;
      assert id in s.pending.callIds;
      AnsweredAppend(s.results, result);
      DistinctAppend(s.results, result);
      DropCallDistinct(s.pending.calls, id);
      MoveId(s.pending.callIds, Answered(s.results), id);
    }
  }

  lemma MoveId(pending: set<Id>, answered: set<Id>, id: Id)
    requires id in pending && pending !! answered
    ensures (pending - {id}) !! (answered + {id})
    ensures (pending - {id}) + (answered + {id}) == pending + answered
    ensures (answered + {id}) + (pending - {id}) == answered + pending
  {
  }

  lemma {:induction false} ReplaceConserves(s: RunState, original: ToolCall, replacement: ToolCall)
    requires Conserved(s) && ReplaceCall(s, original, replacement).Ok?
    ensures Conserved(ReplaceCall(s, original, replacement).value)
  {
    var before, after := s.pending.calls, SwapCall(s.pending.calls, replacement);
    forall i | 0 <= i < |before| ensures after[i].id == before[i].id && after[i] in after && before[i] in before {}
    assert Called(after) == Called(before) by {
      forall id | id in Called(before) ensures id in Called(after) {
        var i :| 0 <= i < |before| && before[i].id == id;
        assert after[i] in after;
      }
      forall id | id in Called(after) ensures id in Called(before) {
        var i :| 0 <= i < |after| && after[i].id == id;
        assert before[i] in before;
      }
    }
  }

  lemma {:induction false} OutsideMembers(results: seq<ToolResult>, batch: set<Id>)
    ensures forall x :: x in ResultsOutside(results, batch) <==> x in results && x.callId !in batch
  {
    if results != [] {
      OutsideMembers(results[..|results| - 1], batch);
      assert results == results[..|results| - 1] + [results[|results| - 1]];
    }
  }

  lemma {:induction false} OutsideDistinct(results: seq<ToolResult>, batch: set<Id>)
    requires DistinctResults(results)
    ensures DistinctResults(ResultsOutside(results, batch))
  {
    if results != [] {
      OutsideDistinct(results[..|results| - 1], batch);
      OutsideMembers(results[..|results| - 1], batch);
    }
  }

  lemma {:induction false} InOrderMembers(results: seq<ToolResult>, ids: seq<Id>)
    requires DistinctResults(results) && ResultsInOrder(results, ids).Ok?
    ensures forall x :: x in ResultsInOrder(results, ids).value <==> x in results && x.callId in ids
  {
    var ordered := ResultsInOrder(results, ids).value;
    forall x | x in results && x.callId in ids ensures x in ordered {
      var i :| 0 <= i < |ids| && ids[i] == x.callId;
      assert ResultIds(ordered)[i] == ordered[i].callId;
      assert ordered[i] in results;
    }
    forall x | x in ordered ensures x.callId in ids {
      var i :| 0 <= i < |ordered| && ordered[i] == x;
      assert ResultIds(ordered)[i] == ordered[i].callId;
    }
  }

  predicate DistinctIds(ids: seq<Id>) {
    forall i, j :: 0 <= i < j < |ids| ==> ids[i] != ids[j]
  }

  /** Restoring the order neither drops, repeats nor alters a result. */
  lemma {:induction false} RestoreKeepsResults(s: RunState, accepted: seq<Id>)
    requires DistinctResults(s.results) && DistinctIds(accepted) && RestoreOrder(s, accepted).Ok?
    ensures
      var results := RestoreOrder(s, accepted).value.results;
      && DistinctResults(results)
      && forall x :: x in results <==> x in s.results
  {
    var batch := ResultsInOrder(s.results, accepted).value;
    var ids := set id | id in accepted;
    OutsideMembers(s.results, ids);
    OutsideDistinct(s.results, ids);
    InOrderMembers(s.results, accepted);
    forall i | 0 <= i < |batch| ensures batch[i].callId == accepted[i] && batch[i].callId in ids {
      assert ResultIds(batch)[i] == batch[i].callId;
    }
  }

  lemma {:induction false} RestoreConserves(s: RunState, accepted: seq<Id>)
    requires Conserved(s) && DistinctIds(accepted) && RestoreOrder(s, accepted).Ok?
    ensures Conserved(RestoreOrder(s, accepted).value)
  {
    RestoreKeepsResults(s, accepted);
    assert Answered(RestoreOrder(s, accepted).value.results) == Answered(s.results);
  }

  // ---------------------------------------------------------------- histories

  datatype LedgerStep =
    | Accept(calls: seq<ToolCall>)
    | Replace(original: ToolCall, replacement: ToolCall)
    | Record(definition: ToolDefinition, result: ToolResult)
    | Restore(accepted: seq<Id>)

  /** One ledger operation. An operation that raises leaves the immutable state
      it was called on as the current one. */
  function ApplyLedger(s: RunState, step: LedgerStep): RunState {
    var r :=
      match step
      case Accept(calls) => AcceptToolCalls(s, calls)
      case Replace(original, replacement) => ReplaceCall(s, original, replacement)
      case Record(definition, result) => RecordToolResult(s, definition, result)
      case Restore(accepted) => if DistinctIds(accepted) then RestoreOrder(s, accepted) else Err;
    match r
    case Ok(s') => s'
    case Err => s
  }

  function RunLedger(s: RunState, steps: seq<LedgerStep>): RunState {
    if steps == [] then s else ApplyLedger(RunLedger(s, steps[..|steps| - 1]), steps[|steps| - 1])
  }

  lemma {:induction false} ApplyConserves(s: RunState, step: LedgerStep)
    requires Conserved(s)
    ensures Conserved(ApplyLedger(s, step))
  {
    match step
    case Accept(calls) =>
      if AcceptToolCalls(s, calls).Ok? { AcceptConserves(s, calls); }
    case Replace(original, replacement) =>
      if ReplaceCall(s, original, replacement).Ok? { ReplaceConserves(s, original, replacement); }
    case Record(definition, result) =>
      if RecordToolResult(s, definition, result).Ok? { RecordConserves(s, definition, result); }
    case Restore(accepted) =>
      if DistinctIds(accepted) && RestoreOrder(s, accepted).Ok? { RestoreConserves(s, accepted); }
  }

  /** Conservation over every history of accepts, Hook replacements, results
      and order restorations, including the ones that are refused. */
  lemma {:induction false} LedgerConserved(s: RunState, steps: seq<LedgerStep>)
    requires Conserved(s)
    ensures Conserved(RunLedger(s, steps))
  {
    if steps != [] {
      LedgerConserved(s, steps[..|steps| - 1]);
      ApplyConserves(RunLedger(s, steps[..|steps| - 1]), steps[|steps| - 1]);
    }
  }

  /** Inside a batch accepted on top of `base`: the results so far extend
      `base`, and together with the pending calls they cover the batch. */
  ghost predicate InBatch(base: seq<ToolResult>, accepted: seq<Id>, s: RunState) {
    && Conserved(s)
    && DistinctIds(accepted)
    && base <= s.results
    && Answered(base) !! (set id | id in accepted)
    && Answered(s.results) + s.pending.callIds == Answered(base) + set id | id in accepted
  }

  lemma {:induction false} CallIdsAreCalled(calls: seq<ToolCall>)
    ensures Called(calls) == set id | id in CallIds(calls)
  {
    forall id | id in Called(calls) ensures id in CallIds(calls) {
      var i :| 0 <= i < |calls| && calls[i].id == id;
      assert CallIds(calls)[i] == id;
    }
    forall id | id in CallIds(calls) ensures id in Called(calls) {
      var i :| 0 <= i < |calls| && CallIds(calls)[i] == id;
      assert calls[i] in calls;
    }
  }

  lemma {:induction false} AcceptOpensBatch(s: RunState, calls: seq<ToolCall>)
    requires Conserved(s) && AcceptToolCalls(s, calls).Ok?
    ensures InBatch(s.results, CallIds(calls), AcceptToolCalls(s, calls).value)
  {
    AcceptConserves(s, calls);
    CallIdsAreCalled(calls);
  }

  /** The fields that conservation speaks of. */
  predicate SameLedger(a: RunState, b: RunState) {
    && a.results == b.results && a.bindings == b.bindings && a.toolCalls == b.toolCalls
    && a.pending.calls == b.pending.calls && a.pending.callIds == b.pending.callIds
  }

  lemma SameLedgerInBatch(base: seq<ToolResult>, accepted: seq<Id>, a: RunState, b: RunState)
    requires InBatch(base, accepted, a) && SameLedger(a, b)
    ensures InBatch(base, accepted, b)
  {
  }

  lemma {:induction false} RecordInBatch(
    base: seq<ToolResult>, accepted: seq<Id>, s: RunState, definition: ToolDefinition, result: ToolResult)
    requires InBatch(base, accepted, s) && RecordToolResult(s, definition, result).Ok?
    ensures InBatch(base, accepted, RecordToolResult(s, definition, result).value)
  {
    RecordConserves(s, definition, result);
  }

  lemma {:induction false} ReplaceInBatch(
    base: seq<ToolResult>, accepted: seq<Id>, s: RunState, original: ToolCall, replacement: ToolCall)
    requires InBatch(base, accepted, s) && ReplaceCall(s, original, replacement).Ok?
    ensures InBatch(base, accepted, ReplaceCall(s, original, replacement).value)
  {
    ReplaceConserves(s, original, replacement);
  }

  lemma {:induction false} BatchStep(base: seq<ToolResult>, accepted: seq<Id>, s: RunState, step: LedgerStep)
    requires InBatch(base, accepted, s)
    requires step.Replace? || step.Record?
    ensures InBatch(base, accepted, ApplyLedger(s, step))
  {
    match step
    case Replace(original, replacement) =>
      if ReplaceCall(s, original, replacement).Ok? { ReplaceInBatch(base, accepted, s, original, replacement); }
    case Record(definition, result) =>
      if RecordToolResult(s, definition, result).Ok? { RecordInBatch(base, accepted, s, definition, result); }
  }

  lemma {:induction false} BatchKept(base: seq<ToolResult>, accepted: seq<Id>, s: RunState, steps: seq<LedgerStep>)
    requires InBatch(base, accepted, s)
    requires forall step :: step in steps ==> step.Replace? || step.Record?
    ensures InBatch(base, accepted, RunLedger(s, steps))
  {
    if steps != [] {
      BatchKept(base, accepted, s, steps[..|steps| - 1]);
      BatchStep(base, accepted, RunLedger(s, steps[..|steps| - 1]), steps[|steps| - 1]);
    }
  }

  lemma {:induction false} OutsideOfPrefix(base: seq<ToolResult>, results: seq<ToolResult>, batch: set<Id>)
    requires base <= results
    requires Answered(base) !! batch
    requires forall i :: |base| <= i < |results| ==> results[i].callId in batch
    ensures ResultsOutside(results, batch) == base
  {
    if |results| > |base| {
      OutsideOfPrefix(base, results[..|results| - 1], batch);
    } else {
      assert results == base;
      OutsideOfNothing(base, batch);
    }
  }

  lemma {:induction false} OutsideOfNothing(base: seq<ToolResult>, batch: set<Id>)
    requires Answered(base) !! batch
    ensures ResultsOutside(base, batch) == base
  {
    if base != [] {
      var earlier := base[..|base| - 1];
      assert base == earlier + [base[|base| - 1]];
      assert base[|base| - 1].callId in Answered(base);
      assert Answered(earlier) <= Answered(base);
      OutsideOfNothing(earlier, batch);
    }
  }

  /** Once a batch has no pending call left, restoring the order succeeds and
      the results read: everything before the batch, then the batch in
      acceptance order, whatever order the results arrived in. */
  lemma {:induction false} RestoreBatch(base: seq<ToolResult>, accepted: seq<Id>, s: RunState)
    requires InBatch(base, accepted, s) && s.pending.callIds == {}
    ensures RestoreOrder(s, accepted).Ok?
    ensures ResultIds(RestoreOrder(s, accepted).value.results) == ResultIds(base) + accepted
    ensures base <= RestoreOrder(s, accepted).value.results
    ensures Conserved(RestoreOrder(s, accepted).value)
  {
    var ids := set id | id in accepted;
    forall i | |base| <= i < |s.results| ensures s.results[i].callId in ids {
      LaterResult(base, ids, s.results, i);
    }
    OutsideOfPrefix(base, s.results, ids);
    assert RestoreOrder(s, accepted).Ok? by {
      forall id | id in accepted ensures id in Answered(s.results) {
        assert id in ids;
        assert id in Answered(base) + ids;
      }
    }
    RestoreConserves(s, accepted);
    var batch := ResultsInOrder(s.results, accepted).value;
    IdsAppend(base, batch);
  }

  lemma IdsAppend(base: seq<ToolResult>, batch: seq<ToolResult>)
    ensures ResultIds(base + batch) == ResultIds(base) + ResultIds(batch)
  {
  }

  /** A result after the base of a batch answers a call of the batch. */
  lemma {:induction false} LaterResult(base: seq<ToolResult>, ids: set<Id>, results: seq<ToolResult>, i: nat)
    requires DistinctResults(results) && base <= results && |base| <= i < |results|
    requires Answered(results) <= Answered(base) + ids
    ensures results[i].callId in ids
  {
    assert results[i].callId in Answered(results);
    forall j | 0 <= j < |base| ensures base[j].callId != results[i].callId {
      assert results[j] == base[j];
    }
  }

  /** The whole batch: accepted calls, then any Hook replacements and results
      in any order, then the restored order. */
  lemma {:induction false} BatchOrder(s: RunState, calls: seq<ToolCall>, steps: seq<LedgerStep>)
    requires Conserved(s) && AcceptToolCalls(s, calls).Ok?
    requires forall step :: step in steps ==> step.Replace? || step.Record?
    requires RunLedger(AcceptToolCalls(s, calls).value, steps).pending.callIds == {}
    ensures
      var finished := RunLedger(AcceptToolCalls(s, calls).value, steps);
      var restored := RestoreOrder(finished, CallIds(calls));
      && restored.Ok?
      && ResultIds(restored.value.results) == ResultIds(s.results) + CallIds(calls)
      && forall x :: x in restored.value.results <==> x in finished.results
  {
    var accepted := AcceptToolCalls(s, calls).value;
    AcceptOpensBatch(s, calls);
    BatchKept(s.results, CallIds(calls), accepted, steps);
    var finished := RunLedger(accepted, steps);
    RestoreBatch(s.results, CallIds(calls), finished);
    RestoreKeepsResults(finished, CallIds(calls));
  }
}
