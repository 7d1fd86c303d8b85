/** The mutable observer through which a tool kernel reports on a running
    batch (agent/loop.py, _LoopToolLifecycleObserver), and the recorder that
    both it and the loop commit to. */
module ToolObserver {
  import opened Outcomes
  import opened RunStates
  import opened RunLog

  /** A recorder whose commits never fail. It notes the phase that the loop's
      own state has at each commit, as long as the loop is in its try block. */
  class Recorder {
    var log: seq<Commit>
    ghost var own: Option<Phase>
    ghost var owns: seq<Phase>

    constructor ()
      ensures log == []
    {
      log, own, owns := [], None, [];
    }

    ghost predicate Trails()
      reads this
    {
      Trail(owns, log) && (own.Some? ==> |owns| == |log|)
    }

    method Commit(state: RunState, event: Event, terminal: bool := false)
      modifies this
      ensures log == old(log) + [RunLog.Commit(state, event, terminal)]
      ensures own == old(own) && owns == old(owns) + if own.Some? then [own.value] else []
      ensures old(Trails()) && Fits(own, RunLog.Commit(state, event, terminal)) ==> Trails()
    {
      log := log + [RunLog.Commit(state, event, terminal)];
      if own.Some? { owns := owns + [own.value]; }
      if old(Trails()) && Fits(own, RunLog.Commit(state, event, terminal)) {
        forall i: nat ensures TrailAt(owns, log, i) {
          assert TrailAt(old(owns), old(log), i);
        }
      }
    }
  }

  /** The trail may go on with this commit. */
  predicate Fits(own: Option<Phase>, c: Commit) {
    match own
    case None => OfHandler(c)
    case Some(phase) => StandsAt(phase, c)
  }

  /** Moves the state to a phase and commits the move; raises when the
      transition table forbids it. */
  method CommitPhase(s: RunState, target: Phase, recorder: Recorder) returns (r: Result<RunState>)
    modifies recorder
    ensures r == Transition(s, target)
    ensures recorder.log == old(recorder.log) + PhaseCommits(s, target)
    ensures recorder.own == old(recorder.own)
    ensures old(recorder.Trails()) && MayMove(recorder.own, target) ==> recorder.Trails()
  {
    r := Transition(s, target);
    if r.Ok? {
      recorder.Commit(r.value, PhaseChanged(s.phase, target));
    }
  }

  predicate MayMove(own: Option<Phase>, target: Phase) {
    match own
    case None => target == Cancelling
    case Some(phase) => StandsBehind(phase, target)
  }

  function PhaseCommits(s: RunState, target: Phase): seq<Commit> {
    match Transition(s, target)
    case Err => []
    case Ok(moved) => [RunLog.Commit(moved, PhaseChanged(s.phase, target), false)]
  }

  datatype Callback =
    | CallReplaced(original: ToolCall, replacement: ToolCall)
    | ApprovalAsked(approval: Id, callId: Id)
    | ApprovalSettled(approval: Id)
    | ExecutionStarted(call: ToolCall)
    | ResultAvailable(call: ToolCall, definition: ToolDefinition, result: ToolResult)

  /** What a callback leaves behind: the observer's state and started calls,
      what it committed, and whether it raised. */
  datatype Observed = Observed(state: RunState, started: set<Id>, commits: seq<Commit>, raised: bool)

  /** The move that a callback makes before its own work: from one of `from`
      to `target`, nothing when already there, and an error anywhere else. */
  function MoveFirst(s: RunState, from: set<Phase>, target: Phase): Result<(RunState, seq<Commit>)> {
    if s.phase in from then
      match Transition(s, target)
      case Err => Err
      case Ok(moved) => Ok((moved, PhaseCommits(s, target)))
    else if s.phase == target then Ok((s, []))
    else Err
  }

  function WithApprovals(s: RunState, approvals: set<Id>): RunState {
    s.(pending := s.pending.(approvals := approvals), revision := s.revision + 1)
  }

  function PendingMatches(s: RunState, id: Id): nat {
    |set i | 0 <= i < |s.pending.calls| && s.pending.calls[i].id == id|
  }

  function ObserveReplaced(s: RunState, started: set<Id>, original: ToolCall, replacement: ToolCall): Observed {
    match ReplaceCall(s, original, replacement)
    case Err => Observed(s, started, [], true)
    case Ok(s') => Observed(s', started, [], false)
  }

  function ObserveAsked(s: RunState, started: set<Id>, approval: Id, callId: Id): Observed {
    match MoveFirst(s, {CheckingPolicy, ExecutingTools, RecordingResults}, AwaitingApproval)
    case Err => Observed(s, started, [], true)
    case Ok((moved, commits)) =>
      var s' := WithApprovals(moved, moved.pending.approvals + {approval});
      // The descriptor of an approval without its one pending call raises
      // after the state was updated and before anything is committed.
      if PendingMatches(s', callId) != 1 then Observed(s', started, commits, true)
      else Observed(s', started, commits + [RunLog.Commit(s', ApprovalRequired(approval), false)], false)
  }

  function ObserveSettled(s: RunState, started: set<Id>, approval: Id): Observed {
    if approval !in s.pending.approvals then Observed(s, started, [], true)
    else
      var s' := WithApprovals(s, s.pending.approvals - {approval});
      Observed(s', started, [RunLog.Commit(s', ApprovalResolved(approval), false)], false)
  }

  function ObserveStarted(s: RunState, started: set<Id>, call: ToolCall): Observed {
    if call.id in started then Observed(s, started, [], false)
    else if FindCall(s.pending.calls, call.id) != Some(call) || s.pending.approvals != {} then
      Observed(s, started, [], true)
    else
      match MoveFirst(s, {CheckingPolicy, AwaitingApproval, RecordingResults}, ExecutingTools)
      case Err => Observed(s, started, [], true)
      case Ok((moved, commits)) =>
        Observed(moved, started + {call.id}, commits + [RunLog.Commit(moved, ToolStarted(call.id), false)], false)
  }

  function ObserveResult(
    s: RunState, started: set<Id>, call: ToolCall, definition: ToolDefinition, result: ToolResult): Observed
  {
    if call.id != result.callId || call.id !in s.pending.callIds then Observed(s, started, [], true)
    else
      match MoveFirst(s, {CheckingPolicy, AwaitingApproval, ExecutingTools}, RecordingResults)
      case Err => Observed(s, started, [], true)
      case Ok((moved, commits)) =>
        match RecordToolResult(moved, definition, result)
        case Err => Observed(moved, started, commits, true)
        case Ok(s') =>
          Observed(s', started, commits + [RunLog.Commit(s', ToolRecorded(definition, result), false)], false)
  }

  function Observe(s: RunState, started: set<Id>, cb: Callback): Observed {
    match cb
    case CallReplaced(original, replacement) => ObserveReplaced(s, started, original, replacement)
    case ApprovalAsked(approval, callId) => ObserveAsked(s, started, approval, callId)
    case ApprovalSettled(approval) => ObserveSettled(s, started, approval)
    case ExecutionStarted(call) => ObserveStarted(s, started, call)
    case ResultAvailable(call, definition, result) => ObserveResult(s, started, call, definition, result)
  }

  /** The phases in which a run can stop with its batch open. */
  predicate ResumePhase(p: Phase) {
    p == ValidatingCalls || BatchPhase(p)
  }

  /** The loop's own state while a batch runs: at the policy check, or in the
      phase that a recovered run was stopped in. */
  predicate Awaits(own: Option<Phase>) {
    own.Some? && ResumePhase(own.value)
  }

  class LoopObserver {
    var state: RunState
    var started: set<Id>
    const recorder: Recorder

    constructor (state: RunState, recorder: Recorder)
      ensures this.state == state && started == {} && this.recorder == recorder
    {
      this.state, started, this.recorder := state, {}, recorder;
    }

    twostate predicate Did(cb: Callback, raised: bool)
      reads this, recorder
    {
      var o := Observe(old(state), old(started), cb);
      && state == o.state && started == o.started && raised == o.raised
      && recorder.log == old(recorder.log) + o.commits
    }

    /** The callback leaves the trail of the loop's own phases whole. */
    twostate predicate Kept()
      reads this, recorder
    {
      && recorder.own == old(recorder.own)
      && (old(recorder.Trails()) && BatchPhase(old(state.phase)) && Awaits(recorder.own) ==> recorder.Trails())
    }

    method MoveTo(from: set<Phase>, target: Phase) returns (raised: bool)
      modifies this`state, recorder
      ensures
        match MoveFirst(old(state), from, target)
        case Err => raised && state == old(state) && recorder.log == old(recorder.log)
        case Ok((moved, commits)) => !raised && state == moved && recorder.log == old(recorder.log) + commits
      ensures recorder.own == old(recorder.own)
      ensures old(recorder.Trails()) && BatchPhase(target) && Awaits(recorder.own) ==> recorder.Trails()
    {
      if state.phase in from {
        var r := CommitPhase(state, target, recorder);
        if r.Err? { return true; }
        state := r.value;
      } else if state.phase != target {
        return true;
      }
      return false;
    }

    /** Commits an event of the batch in the observer's state. */
    method Note(event: Event)
      modifies recorder
      ensures recorder.log == old(recorder.log) + [RunLog.Commit(state, event, false)] && Kept()
    {
      recorder.Commit(state, event);
    }

    method OnCallReplaced(original: ToolCall, replacement: ToolCall) returns (raised: bool)
      modifies this`state
      ensures Did(CallReplaced(original, replacement), raised)
    {
      var r := ReplaceCall(state, original, replacement);
      if r.Err? { return true; }
      state := r.value;
      return false;
    }

    method OnRequired(approval: Id, callId: Id) returns (raised: bool)
      modifies this`state, recorder
      ensures Did(ApprovalAsked(approval, callId), raised) && Kept()
    {
      raised := MoveTo({CheckingPolicy, ExecutingTools, RecordingResults}, AwaitingApproval);
      if raised { return; }
      state := WithApprovals(state, state.pending.approvals + {approval});
      if PendingMatches(state, callId) != 1 { return true; }
      Note(ApprovalRequired(approval));
    }

    method OnResolved(approval: Id) returns (raised: bool)
      modifies this`state, recorder
      ensures Did(ApprovalSettled(approval), raised) && Kept()
    {
      if approval !in state.pending.approvals { return true; }
      state := WithApprovals(state, state.pending.approvals - {approval});
      Note(ApprovalResolved(approval));
      return false;
    }

    method OnExecutionStarted(call: ToolCall) returns (raised: bool)
      modifies this, recorder
      ensures Did(ExecutionStarted(call), raised) && Kept()
    {
      if call.id in started { return false; }
      if FindCall(state.pending.calls, call.id) != Some(call) { return true; }
      if state.pending.approvals != {} { return true; }
      raised := MoveTo({CheckingPolicy, AwaitingApproval, RecordingResults}, ExecutingTools);
      if raised { return; }
      started := started + {call.id};
      Note(ToolStarted(call.id));
    }

    method OnResultAvailable(call: ToolCall, definition: ToolDefinition, result: ToolResult) returns (raised: bool)
      modifies this`state, recorder
      ensures Did(ResultAvailable(call, definition, result), raised) && Kept()
    {
      if call.id != result.callId || call.id !in state.pending.callIds { return true; }
      raised := MoveTo({CheckingPolicy, AwaitingApproval, ExecutingTools}, RecordingResults);
      if raised { return; }
      var r := RecordToolResult(state, definition, result);
      if r.Err? { return true; }
      state := r.value;
      Note(ToolRecorded(definition, result));
    }

    method Notify(cb: Callback) returns (raised: bool)
      modifies this, recorder
      ensures Did(cb, raised) && Kept()
    {
      match cb
      case CallReplaced(original, replacement) => raised := OnCallReplaced(original, replacement);
      case ApprovalAsked(approval, callId) => raised := OnRequired(approval, callId);
      case ApprovalSettled(approval) => raised := OnResolved(approval);
      case ExecutionStarted(call) => raised := OnExecutionStarted(call);
      case ResultAvailable(call, definition, result) => raised := OnResultAvailable(call, definition, result);
    }
  }

  // ---------------------------------------------------------------- what every callback keeps

  predicate BatchPhase(p: Phase) {
    p in {CheckingPolicy, AwaitingApproval, ExecutingTools, RecordingResults}
  }

  /** The fields that no callback touches. */
  predicate SameRun(a: RunState, b: RunState) {
    && a.modelRounds == b.modelRounds && a.toolCalls == b.toolCalls && a.text == b.text && a.controls == b.controls
    && a.pending.children == b.pending.children
  }

  /** A batch under way: `entry` is the state the observer started with,
      `base` the results before the batch, `accepted` its IDs in order. */
  ghost predicate BatchUnderWay(
    start: Phase, earlier: WriteObligation, entry: RunState, base: seq<ToolResult>, accepted: seq<Id>,
    log: seq<Commit>, s: RunState)
  {
    && Path(start, log) && Running(log) && LastPhase(start, log) == s.phase && BatchPhase(s.phase)
    && InBatch(base, accepted, s)
    && Evidence(earlier, log, s)
    && SameRun(entry, s)
  }

  /** The commits of a callback extend the path and leave the delta text, the
      accepted IDs and the demands of the log alone. */
  ghost predicate BatchCommits(entry: RunState, commits: seq<Commit>) {
    forall c :: c in commits ==>
      && !c.terminal && SameRun(entry, c.state)
      && !c.event.CallsAccepted? && !c.event.AssistantDelta? && !c.event.WriteOutcomeRequired?
  }

  /** At most two commits that lead from one phase to another. */
  ghost predicate Chain(from: Phase, commits: seq<Commit>, to: Phase) {
    && |commits| <= 2
    && (|commits| == 0 ==> from == to)
    && (|commits| == 1 ==> Follows(from, commits[0]) && commits[0].state.phase == to)
    && (|commits| == 2 ==> Follows(from, commits[0]) && Follows(commits[0].state.phase, commits[1])
                           && commits[1].state.phase == to)
  }

  lemma MoveFirstChain(s: RunState, from: set<Phase>, target: Phase)
    requires MoveFirst(s, from, target).Ok? && BatchPhase(target)
    ensures
      var (moved, commits) := MoveFirst(s, from, target).value;
      && moved == s.(phase := moved.phase, revision := moved.revision) && moved.phase == target
      && |commits| <= 1 && Chain(s.phase, commits, target) && BatchCommits(s, commits)
      && forall c :: c in commits ==> c.event.PhaseChanged?
  {
  }

  lemma ChainStay(from: Phase, commits: seq<Commit>, to: Phase, c: Commit)
    requires |commits| <= 1 && Chain(from, commits, to) && !to.Terminal()
    requires c.state.phase == to && !c.terminal && !c.event.PhaseChanged?
    ensures Chain(from, commits + [c], to)
  {
  }

  /** What a callback does to the phase, the log and the untouched fields. */
  ghost predicate Orderly(s: RunState, o: Observed) {
    && BatchPhase(o.state.phase) && SameRun(s, o.state)
    && Chain(s.phase, o.commits, o.state.phase) && BatchCommits(s, o.commits)
  }

  lemma AskedIsOrderly(s: RunState, started: set<Id>, approval: Id, callId: Id)
    requires BatchPhase(s.phase)
    ensures Orderly(s, ObserveAsked(s, started, approval, callId))
  {
    var from := {CheckingPolicy, ExecutingTools, RecordingResults};
    var o := ObserveAsked(s, started, approval, callId);
    var m := MoveFirst(s, from, AwaitingApproval);
    if m.Ok? {
      MoveFirstChain(s, from, AwaitingApproval);
      if !o.raised { ChainStay(s.phase, m.value.1, AwaitingApproval, o.commits[|o.commits| - 1]); }
    }
  }

  lemma StartedIsOrderly(s: RunState, started: set<Id>, call: ToolCall)
    requires BatchPhase(s.phase)
    ensures Orderly(s, ObserveStarted(s, started, call))
  {
    var from := {CheckingPolicy, AwaitingApproval, RecordingResults};
    var o := ObserveStarted(s, started, call);
    var m := MoveFirst(s, from, ExecutingTools);
    if m.Ok? {
      MoveFirstChain(s, from, ExecutingTools);
      if o.commits != [] { ChainStay(s.phase, m.value.1, ExecutingTools, o.commits[|o.commits| - 1]); }
    }
  }

  lemma ResultIsOrderly(s: RunState, started: set<Id>, call: ToolCall, definition: ToolDefinition, result: ToolResult)
    requires BatchPhase(s.phase)
    ensures Orderly(s, ObserveResult(s, started, call, definition, result))
  {
    var from := {CheckingPolicy, AwaitingApproval, ExecutingTools};
    var o := ObserveResult(s, started, call, definition, result);
    var m := MoveFirst(s, from, RecordingResults);
    if m.Ok? {
      MoveFirstChain(s, from, RecordingResults);
      if !o.raised { ChainStay(s.phase, m.value.1, RecordingResults, o.commits[|o.commits| - 1]); }
    }
  }

  lemma {:induction false} ObserveIsOrderly(s: RunState, started: set<Id>, cb: Callback)
    requires BatchPhase(s.phase)
    ensures Orderly(s, Observe(s, started, cb))
  {
    match cb
    case CallReplaced(_, _) =>
    case ApprovalAsked(approval, callId) => AskedIsOrderly(s, started, approval, callId);
    case ApprovalSettled(_) =>
    case ExecutionStarted(call) => StartedIsOrderly(s, started, call);
    case ResultAvailable(call, definition, result) => ResultIsOrderly(s, started, call, definition, result);
  }

  function Recording(s: RunState): RunState {
    match MoveFirst(s, {CheckingPolicy, AwaitingApproval, ExecutingTools}, RecordingResults)
    case Err => s
    case Ok((moved, _)) => moved
  }

  lemma RecordingSameLedger(s: RunState)
    ensures SameLedger(s, Recording(s))
  {
  }

  lemma ResultState(s: RunState, started: set<Id>, call: ToolCall, definition: ToolDefinition, result: ToolResult)
    ensures
      var s' := ObserveResult(s, started, call, definition, result).state;
      var recorded := RecordToolResult(Recording(s), definition, result);
      s' == s || s' == Recording(s) || (recorded.Ok? && s' == recorded.value)
  {
  }

  lemma ResultKeepsLedger(
    base: seq<ToolResult>, accepted: seq<Id>, s: RunState, started: set<Id>,
    call: ToolCall, definition: ToolDefinition, result: ToolResult)
    requires InBatch(base, accepted, s)
    ensures InBatch(base, accepted, ObserveResult(s, started, call, definition, result).state)
  {
    ResultState(s, started, call, definition, result);
    RecordingSameLedger(s);
    SameLedgerInBatch(base, accepted, s, Recording(s));
    if RecordToolResult(Recording(s), definition, result).Ok? {
      RecordInBatch(base, accepted, Recording(s), definition, result);
    }
  }

  lemma OthersKeepLedger(s: RunState, started: set<Id>, cb: Callback)
    requires cb.ApprovalAsked? || cb.ApprovalSettled? || cb.ExecutionStarted?
    ensures SameLedger(s, Observe(s, started, cb).state)
  {
  }

  lemma {:induction false} ObserveLedger(
    base: seq<ToolResult>, accepted: seq<Id>, s: RunState, started: set<Id>, cb: Callback)
    requires InBatch(base, accepted, s)
    ensures InBatch(base, accepted, Observe(s, started, cb).state)
  {
    match cb
    case CallReplaced(original, replacement) => BatchStep(base, accepted, s, Replace(original, replacement));
    case ResultAvailable(call, definition, result) =>
      ResultKeepsLedger(base, accepted, s, started, call, definition, result);
    case _ =>
      OthersKeepLedger(s, started, cb);
      SameLedgerInBatch(base, accepted, s, Observe(s, started, cb).state);
  }

  lemma PathExtendOne(start: Phase, log: seq<Commit>, c: Commit)
    requires Path(start, log) && Running(log) && Follows(LastPhase(start, log), c) && !c.terminal
    ensures Path(start, log + [c]) && Running(log + [c]) && LastPhase(start, log + [c]) == c.state.phase
  {
    PathAppend(start, log, c);
  }

  lemma PathExtendTwo(start: Phase, log: seq<Commit>, c: Commit, d: Commit)
    requires Path(start, log) && Running(log) && Follows(LastPhase(start, log), c) && !c.terminal
    requires Follows(c.state.phase, d) && !d.terminal
    ensures Path(start, log + [c, d]) && Running(log + [c, d]) && LastPhase(start, log + [c, d]) == d.state.phase
  {
    PathExtendOne(start, log, c);
    PathExtendOne(start, log + [c], d);
    assert log + [c, d] == (log + [c]) + [d];
  }

  lemma PathExtend(start: Phase, log: seq<Commit>, commits: seq<Commit>, last: Phase)
    requires Path(start, log) && Running(log) && Chain(LastPhase(start, log), commits, last)
    requires forall c :: c in commits ==> !c.terminal
    ensures Path(start, log + commits) && Running(log + commits) && LastPhase(start, log + commits) == last
  {
    if |commits| == 0 {
      assert log + commits == log;
    } else if |commits| == 1 {
      assert commits == [commits[0]];
      PathExtendOne(start, log, commits[0]);
    } else {
      assert commits == [commits[0], commits[1]];
      PathExtendTwo(start, log, commits[0], commits[1]);
    }
  }

  lemma RecordedExtend(log: seq<Commit>, commits: seq<Commit>)
    ensures forall w :: Recorded(log, w) ==> Recorded(log + commits, w)
    ensures (forall c :: c in commits ==> !c.event.WriteOutcomeRequired?) && Demanded(log + commits) ==> Demanded(log)
  {
    forall w | Recorded(log, w) ensures Recorded(log + commits, w) {
      var c :| c in log && c.event.ToolRecorded? && c.event.definition.Effectful()
               && c.event.result.callId == w.callId && c.event.result.status == w.status;
      assert c in log + commits;
    }
    if Demanded(log + commits) {
      var c :| c in log + commits && c.event.WriteOutcomeRequired?;
      assert c in log || c in commits;
    }
  }

  /** A callback changes the write obligation only by committing a tool result. */
  lemma {:induction false} ObserveObligation(s: RunState, started: set<Id>, cb: Callback)
    ensures
      var o := Observe(s, started, cb);
      o.state.obligation == s.obligation
      || (cb.ResultAvailable? && o.commits != []
          && o.commits[|o.commits| - 1].event == ToolRecorded(cb.definition, cb.result)
          && o.state.obligation == s.obligation.Observe(cb.definition, cb.result))
  {
  }

  lemma {:induction false} EvidenceExtend(
    earlier: WriteObligation, log: seq<Commit>, s: RunState, started: set<Id>, cb: Callback)
    requires Evidence(earlier, log, s) && BatchPhase(s.phase)
    ensures Evidence(earlier, log + Observe(s, started, cb).commits, Observe(s, started, cb).state)
  {
    var o := Observe(s, started, cb);
    ObserveIsOrderly(s, started, cb);
    RecordedExtend(log, o.commits);
    ObserveObligation(s, started, cb);
    if o.state.obligation != s.obligation {
      var c := o.commits[|o.commits| - 1];
      assert c in log + o.commits;
      assert Recorded(log + o.commits, WriteOutcome(cb.result.callId, cb.result.status, cb.result.summary));
    }
  }

  /** Every callback, raising or not, keeps the batch invariant. */
  lemma {:induction false} ObserveKeepsBatch(
    start: Phase, earlier: WriteObligation, entry: RunState, base: seq<ToolResult>, accepted: seq<Id>,
    log: seq<Commit>, s: RunState, started: set<Id>, cb: Callback)
    requires BatchUnderWay(start, earlier, entry, base, accepted, log, s)
    ensures
      var o := Observe(s, started, cb);
      && BatchUnderWay(start, earlier, entry, base, accepted, log + o.commits, o.state)
      && BatchCommits(entry, o.commits)
  {
    var o := Observe(s, started, cb);
    ObserveIsOrderly(s, started, cb);
    ObserveLedger(base, accepted, s, started, cb);
    EvidenceExtend(earlier, log, s, started, cb);
    PathExtend(start, log, o.commits, o.state.phase);
  }
}
