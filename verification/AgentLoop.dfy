/** The agent loop (agent/loop.py, run_agent_loop) under an arbitrary world:
    every planner, tool kernel, steering inbox and cancellation point. The
    loop's own `state` and the observer's `state` are two variables, so a
    failure inside a batch or a response resumes from the loop's older value. */
module AgentLoop {
  import opened Outcomes
  import opened RunStates
  import opened RunLog
  import opened ToolObserver
  import opened Budgets
  import opened Termination

  datatype CancelCode = Deadline | Shutdown | StartFailed | ParentCancelled | UserCancelled

  /** What an await can raise: a cancellation of the run, a cancellation of the
      task, the loop failure of another run, or any other error with the model
      attempts it was audited with. */
  datatype Exn =
    | OperationCancelled(code: CancelCode)
    | NativeCancelled
    | OtherLoopFailure
    | Failure(attempts: seq<Id>)

  datatype StepFields = StepFields(
    calls: seq<ToolCall>, requiresWrite: bool, response: Option<string>, attempts: seq<Id>)

  predicate Blank(text: string) {
    forall c :: c in text ==> c in " \t\r\n"
  }

  /** A step that passed PlanningStep validation. */
  type PlanningStep = s: StepFields |
    && DistinctCalls(s.calls)
    && (s.calls != [] ==> s.response.None?)
    && (s.calls == [] ==> s.response.Some? && !Blank(s.response.value))
    witness StepFields([ToolCall(Id("call"), Public, "")], false, None, [])

  /** A planner's answer together with the model rounds it charged itself. */
  datatype Planned = PlanReturns(step: PlanningStep, rounds: nat) | PlanRaises(exn: Exn, rounds: nat)

  datatype BatchEnd = BatchReturns(ids: seq<Id>) | BatchRaises(exn: Exn)

  /** One tool batch: the observer callbacks in the order the kernel makes them
      (it may ignore one that raises), and how the kernel ends. */
  datatype Batch = Batch(callbacks: seq<Callback>, end: BatchEnd)

  /** Everything outside the loop, indexed by the number of awaits before it. */
  datatype World = World(
    interrupt: nat -> Option<Exn>,
    drain: nat -> seq<ControlMessage>,
    plan: nat -> Planned,
    batch: nat -> Batch,
    elsewhere: nat -> (BudgetDelta, BudgetDelta))

  function Charges(p: Planned): seq<Id> {
    match p
    case PlanReturns(step, _) => step.attempts
    case PlanRaises(exn, _) => Audited(exn)
  }

  /** The planner reports at most one attempt more than it charged for; the
      first attempt is charged by the loop. */
  ghost predicate HonestPlanner(world: World) {
    && (forall n :: |Charges(world.plan(n))| <= 1 + world.plan(n).rounds)
    && (forall n :: world.interrupt(n).Some? ==> Audited(world.interrupt(n).value) == [])
  }

  /** No collaborator raises the loop failure of another run. */
  ghost predicate Solitary(world: World) {
    forall n :: SolitaryAt(world, n)
  }

  predicate SolitaryAt(world: World, n: nat) {
    && world.interrupt(n) != Some(OtherLoopFailure)
    && (world.plan(n).PlanRaises? ==> !world.plan(n).exn.OtherLoopFailure?)
    && (world.batch(n).end.BatchRaises? ==> !world.batch(n).end.exn.OtherLoopFailure?)
  }

  lemma SolitaryEverywhere(world: World, n: nat)
    ensures Solitary(world) ==> SolitaryAt(world, n)
  {
  }

  /** A world whose planner raises the loop failure of another run, and in
      which nothing else happens: no await raises, and no other holder's move
      of the ledger fits the limits. */
  ghost predicate PlannerBreaks(world: World, limits: BudgetDelta) {
    forall n :: PlannerBreaksAt(world, limits, n)
  }

  predicate PlannerBreaksAt(world: World, limits: BudgetDelta, n: nat) {
    var (used, reserved) := world.elsewhere(n);
    world.interrupt(n).None? && world.plan(n) == PlanRaises(OtherLoopFailure, 0) && !Add(used, reserved).Fits(limits)
  }

  lemma PlannerBreaksEverywhere(world: World, limits: BudgetDelta, n: nat)
    ensures PlannerBreaks(world, limits) ==> PlannerBreaksAt(world, limits, n)
  {
  }

  /** The model attempts that an exception carries. */
  function Audited(e: Exn): seq<Id> {
    match e
    case Failure(attempts) => attempts
    case _ => []
  }

  // ---------------------------------------------------------------- the invariants of a run

  /** The fixed facts of a run: its first phase, the write obligation it
      inherited, and the IDs of the results that precede its log. */
  datatype Origin = Origin(start: Phase, earlier: WriteObligation, order: seq<Id>)

  /** No batch is open: the log is a running path to the state's phase, the
      ledger is conserved, and the results stand in acceptance order. */
  ghost predicate AtRest(o: Origin, log: seq<Commit>, s: RunState) {
    && Path(o.start, log) && Running(log) && LastPhase(o.start, log) == s.phase
    && Conserved(s) && s.pending.callIds == {}
    && ResultIds(s.results) == o.order + AcceptedIds(log)
    && Evidence(o.earlier, log, s) && Silent(log)
  }

  /** A batch is open. */
  ghost predicate InFlight(o: Origin, base: seq<ToolResult>, accepted: seq<Id>, log: seq<Commit>, s: RunState) {
    && Path(o.start, log) && Running(log) && LastPhase(o.start, log) == s.phase
    && InBatch(base, accepted, s)
    && ResultIds(base) + accepted == o.order + AcceptedIds(log)
    && Evidence(o.earlier, log, s) && Silent(log)
  }

  /** No committed state counts more rounds or calls than the budget used. */
  ghost predicate Counted(log: seq<Commit>, s: RunState, used: BudgetDelta) {
    && CountedState(s, used)
    && forall c :: c in log ==> CountedState(c.state, used)
  }

  predicate CountedState(s: RunState, used: BudgetDelta) {
    s.modelRounds <= used.modelRounds && s.toolCalls <= used.toolCalls
  }

  /** What a completed run guarantees. */
  ghost predicate Finished(o: Origin, log: seq<Commit>, s: RunState) {
    && s.pending.callIds == {} && s.pending.approvals == {} && s.pending.children == {}
    && WrittenIfDemanded(o, log)
    && Contiguous(log) && DeltaText(log) == s.text && s.text != ""
    && ResultIds(s.results) == o.order + AcceptedIds(log)
  }

  /** What every run guarantees, however it ends. */
  ghost predicate Lawful(o: Origin, log: seq<Commit>) {
    && Path(o.start, log)
    && (Running(log) || Ended(log))
    && (Ended(log) && LastPhase(o.start, log) == Completed ==> Finished(o, log, log[|log| - 1].state))
  }

  /** The run is over and `result` is the state of its terminal event. */
  ghost predicate Closed(o: Origin, log: seq<Commit>, result: RunState) {
    Lawful(o, log) && Ended(log) && log[|log| - 1].state == result
  }

  // ---------------------------------------------------------------- single commits

  lemma Grow(used: BudgetDelta, more: BudgetDelta, log: seq<Commit>, s: RunState)
    requires Counted(log, s, used)
    requires used.modelRounds <= more.modelRounds && used.toolCalls <= more.toolCalls
    ensures Counted(log, s, more)
  {
  }

  lemma CountCommit(log: seq<Commit>, s: RunState, used: BudgetDelta, c: Commit)
    requires Counted(log, s, used) && CountedState(c.state, used)
    ensures Counted(log + [c], c.state, used) && Counted(log + [c], s, used)
  {
  }

  lemma CountSame(log: seq<Commit>, s: RunState, s': RunState, used: BudgetDelta)
    requires Counted(log, s, used) && s'.modelRounds == s.modelRounds && s'.toolCalls == s.toolCalls
    ensures Counted(log, s', used)
  {
  }

  lemma SilentAppend(log: seq<Commit>, c: Commit)
    requires Silent(log) && !c.event.AssistantDelta?
    ensures Silent(log + [c])
  {
  }

  /** A commit that leaves the tool-call ledger and the obligation alone. */
  lemma RestCommit(o: Origin, log: seq<Commit>, s: RunState, s': RunState, c: Commit)
    requires AtRest(o, log, s)
    requires SameLedger(s, s') && s'.obligation == s.obligation && c.state == s' && !c.terminal
    requires Follows(s.phase, c)
    requires !c.event.CallsAccepted? && !c.event.AssistantDelta? && !c.event.WriteOutcomeRequired?
    ensures AtRest(o, log + [c], s')
  {
    PathExtendOne(o.start, log, c);
    AcceptedAppend(log, c);
    EvidenceAppend(o.earlier, log, s, c);
    SilentAppend(log, c);
  }

  lemma DemandCommit(o: Origin, log: seq<Commit>, s: RunState, reason: string)
    requires AtRest(o, log, s) && !s.phase.Terminal()
    ensures
      var s' := RequireWriteOutcome(s, reason);
      AtRest(o, log + [RunLog.Commit(s', WriteOutcomeRequired, false)], s')
  {
    var s' := RequireWriteOutcome(s, reason);
    var c := RunLog.Commit(s', WriteOutcomeRequired, false);
    PathExtendOne(o.start, log, c);
    AcceptedAppend(log, c);
    RecordedExtend(log, [c]);
    SilentAppend(log, c);
    assert Evidence(o.earlier, log + [c], s') by {
      assert s'.obligation.outcomes == s.obligation.outcomes;
      if reason in s.obligation.reasons { assert s.obligation.reasons != []; }
    }
  }

  lemma AcceptKeeps(s: RunState, calls: seq<ToolCall>)
    requires AcceptToolCalls(s, calls).Ok?
    ensures
      var s' := AcceptToolCalls(s, calls).value;
      && s'.phase == s.phase && s'.obligation == s.obligation && s'.results == s.results
      && s'.modelRounds == s.modelRounds && s'.toolCalls == s.toolCalls + |calls|
  {
  }

  lemma OpenBatchCommit(o: Origin, log: seq<Commit>, s: RunState, s': RunState, accepted: seq<Id>)
    requires AtRest(o, log, s) && !s.phase.Terminal()
    requires InBatch(s.results, accepted, s') && s'.phase == s.phase && s'.obligation == s.obligation
    ensures InFlight(o, s.results, accepted, log + [RunLog.Commit(s', CallsAccepted(accepted), false)], s')
  {
    var c := RunLog.Commit(s', CallsAccepted(accepted), false);
    PathExtendOne(o.start, log, c);
    AcceptedAppend(log, c);
    SilentAppend(log, c);
    EvidenceAppend(o.earlier, log, s, c);
    AcceptedAfter(o.order, AcceptedIds(log), accepted);
  }

  lemma AcceptedAfter(order: seq<Id>, before: seq<Id>, accepted: seq<Id>)
    ensures (order + before) + accepted == order + (before + accepted)
  {
  }

  lemma ControlKeeps(s: RunState, message: ControlMessage)
    ensures
      var s' := ApplyControl(s, message);
      && SameLedger(s, s') && s'.obligation == s.obligation && s'.phase == s.phase
      && s'.modelRounds == s.modelRounds
  {
  }

  lemma InFlightCommit(o: Origin, base: seq<ToolResult>, accepted: seq<Id>, log: seq<Commit>, s: RunState, s': RunState, c: Commit)
    requires InFlight(o, base, accepted, log, s)
    requires SameLedger(s, s') && s'.obligation == s.obligation && c.state == s' && !c.terminal
    requires Follows(s.phase, c)
    requires !c.event.CallsAccepted? && !c.event.AssistantDelta? && !c.event.WriteOutcomeRequired?
    ensures InFlight(o, base, accepted, log + [c], s')
  {
    PathExtendOne(o.start, log, c);
    AcceptedAppend(log, c);
    EvidenceAppend(o.earlier, log, s, c);
    SilentAppend(log, c);
    SameLedgerInBatch(base, accepted, s, s');
  }

  lemma {:induction false} AcceptedExtend(entry: RunState, log: seq<Commit>, commits: seq<Commit>)
    requires BatchCommits(entry, commits) && |commits| <= 2
    ensures AcceptedIds(log + commits) == AcceptedIds(log)
    ensures Silent(log) ==> Silent(log + commits)
  {
    if |commits| == 0 {
      assert log + commits == log;
    } else if |commits| == 1 {
      assert commits == [commits[0]];
      AcceptedAppend(log, commits[0]);
    } else {
      AcceptedAppend(log, commits[0]);
      AcceptedAppend(log + [commits[0]], commits[1]);
      assert log + commits == (log + [commits[0]]) + [commits[1]];
    }
  }

  lemma {:induction false} InFlightCallback(
    o: Origin, base: seq<ToolResult>, accepted: seq<Id>, entry: RunState, log: seq<Commit>,
    s: RunState, started: set<Id>, cb: Callback)
    requires InFlight(o, base, accepted, log, s) && BatchPhase(s.phase) && SameRun(entry, s)
    ensures
      var seen := Observe(s, started, cb);
      && InFlight(o, base, accepted, log + seen.commits, seen.state)
      && BatchPhase(seen.state.phase) && SameRun(entry, seen.state) && BatchCommits(entry, seen.commits)
  {
    var seen := Observe(s, started, cb);
    ObserveKeepsBatch(o.start, o.earlier, entry, base, accepted, log, s, started, cb);
    ObserveIsOrderly(s, started, cb);
    AcceptedExtend(entry, log, seen.commits);
  }

  lemma CountCallback(entry: RunState, log: seq<Commit>, s: RunState, used: BudgetDelta, commits: seq<Commit>)
    requires Counted(log, entry, used) && BatchCommits(entry, commits)
    ensures Counted(log + commits, entry, used)
  {
  }

  lemma CloseBatch(o: Origin, base: seq<ToolResult>, accepted: seq<Id>, log: seq<Commit>, s: RunState)
    requires InFlight(o, base, accepted, log, s) && s.pending.callIds == {}
    ensures RestoreOrder(s, accepted).Ok?
    ensures AtRest(o, log, RestoreOrder(s, accepted).value)
  {
    RestoreBatch(base, accepted, s);
  }

  /** Why a batch does not lead back to planning, if it does not. */
  function BatchFailure(after: RunState, end: BatchEnd, ids: seq<Id>): (r: Option<Exn>)
    ensures r.None? <==> end == BatchReturns(ids) && after.phase == RecordingResults && after.pending.callIds == {}
  {
    match end
    case BatchRaises(exn) => Some(exn)
    case BatchReturns(actual) =>
      if actual != ids || after.phase != RecordingResults || after.pending.callIds != {} then Some(Failure([]))
      else None
  }

  lemma RestIsBehind(o: Origin, log: seq<Commit>, s: RunState)
    requires AtRest(o, log, s)
    ensures Behind(o.start, log, s.phase)
  {
  }

  /** The observer has moved the log through batch phases while the loop still
      stands at the policy check. */
  lemma BatchIsBehind(o: Origin, base: seq<ToolResult>, accepted: seq<Id>, log: seq<Commit>, s: RunState, local: Phase)
    requires InFlight(o, base, accepted, log, s) && BatchPhase(s.phase) && (BatchPhase(local) || ResumePhase(local))
    ensures Behind(o.start, log, local) && Stoppable(local)
  {
    BatchesStop(s.phase);
    BatchesStop(local);
  }

  lemma BatchesStop(p: Phase)
    requires BatchPhase(p) || ResumePhase(p)
    ensures Stoppable(p)
  {
  }

  lemma PhasesStop(p: Phase)
    requires ResumePhase(p) || p in {Created, LoadingContext, SelectingMemory, Planning}
    ensures CanStop(p)
  {
  }

  lemma BatchesClose(p: Phase)
    requires BatchPhase(p) && p != RecordingResults
    ensures RecordingResults in Allowed(p)
  {
  }

  // ---------------------------------------------------------------- responding and stopping

  ghost predicate WrittenIfDemanded(o: Origin, log: seq<Commit>) {
    o.earlier.required || Demanded(log) ==> Written(o.earlier, log)
  }

  /** The response is being streamed: `said` is the text committed so far. */
  ghost predicate Speaking(o: Origin, log: seq<Commit>, s: RunState, said: string) {
    && Path(o.start, log) && Running(log) && LastPhase(o.start, log) == s.phase
    && Contiguous(log) && DeltaText(log) == said
    && ResultIds(s.results) == o.order + AcceptedIds(log)
    && WrittenIfDemanded(o, log)
  }

  lemma StartSpeaking(o: Origin, log: seq<Commit>, s: RunState)
    requires AtRest(o, log, s) && s.obligation.Satisfied()
    ensures Speaking(o, log, s, "")
  {
    SilentText(log);
    if o.earlier.required || Demanded(log) { SatisfiedMeansWritten(o.earlier, log, s); }
  }

  lemma WrittenAppend(o: Origin, log: seq<Commit>, c: Commit)
    requires WrittenIfDemanded(o, log) && !c.event.WriteOutcomeRequired?
    ensures WrittenIfDemanded(o, log + [c])
  {
    if Demanded(log + [c]) {
      var d :| d in log + [c] && d.event.WriteOutcomeRequired?;
      assert d in log;
    }
    if WriteSucceeded(log) {
      var w :| w in log && w.event.ToolRecorded? && w.event.definition.Effectful() && w.event.result.status == Succeeded;
      assert w in log + [c];
    }
  }

  lemma SpeakCommit(o: Origin, log: seq<Commit>, s: RunState, said: string, s': RunState, c: Commit)
    requires Speaking(o, log, s, said) && Follows(s.phase, c) && !c.terminal
    requires c.state == s' && s'.results == s.results
    requires !c.event.CallsAccepted? && !c.event.WriteOutcomeRequired?
    requires c.event.AssistantDelta? ==> c.event.offset == |said|
    ensures Speaking(o, log + [c], s', said + if c.event.AssistantDelta? then c.event.delta else "")
  {
    PathExtendOne(o.start, log, c);
    ContiguousAppend(log, c);
    AcceptedAppend(log, c);
    WrittenAppend(o, log, c);
  }

  lemma DeltaCommit(o: Origin, log: seq<Commit>, s: RunState, response: string, offset: nat, next: nat, c: Commit)
    requires offset < next <= |response| && Speaking(o, log, s, response[..offset]) && s.phase == Responding
    requires c == RunLog.Commit(s, AssistantDelta(offset, response[offset..next]), false)
    ensures Speaking(o, log + [c], s, response[..next])
  {
    SpeakCommit(o, log, s, response[..offset], s, c);
    assert response[..offset] + response[offset..next] == response[..next];
  }

  lemma CompleteCommit(o: Origin, log: seq<Commit>, s: RunState, c: Commit)
    requires Speaking(o, log, s, s.text) && s.phase == Persisting && s.text != ""
    requires s.pending.callIds == {} && s.pending.approvals == {} && s.pending.children == {}
    requires Transition(s, Completed).Ok? && c == RunLog.Commit(Transition(s, Completed).value, TurnCompleted(s.text), true)
    ensures Lawful(o, log + [c]) && Ended(log + [c]) && LastPhase(o.start, log + [c]) == Completed
  {
    PathAppend(o.start, log, c);
    RunningAppend(log, c);
    ContiguousAppend(log, c);
    AcceptedAppend(log, c);
    WrittenAppend(o, log, c);
  }

  /** A terminal commit other than completion. */
  lemma StopCommit(o: Origin, log: seq<Commit>, c: Commit)
    requires Path(o.start, log) && Running(log)
    requires c.terminal && c.state.phase in {Cancelled, Failed, Interrupted} && Follows(LastPhase(o.start, log), c)
    ensures Lawful(o, log + [c]) && Ended(log + [c]) && LastPhase(o.start, log + [c]) != Completed
  {
    PathAppend(o.start, log, c);
    RunningAppend(log, c);
  }

  /** What a stop commits: the terminal event, behind a move to the cancelling
      phase where the table demands one. */
  function StopCommits(s: RunState, target: Phase): seq<Commit>
    requires target in {Cancelled, Interrupted} && (target in Allowed(s.phase) || Cancelling in Allowed(s.phase))
  {
    if target in Allowed(s.phase) then [StopEvent(Transition(s, target).value)]
    else
      var moved := Transition(s, Cancelling).value;
      [RunLog.Commit(moved, PhaseChanged(s.phase, Cancelling), false), StopEvent(Transition(moved, target).value)]
  }

  function StopEvent(stopped: RunState): Commit {
    RunLog.Commit(stopped, if stopped.phase == Cancelled then TurnCancelled else TurnInterrupted(SafeCheckpoint(stopped)), true)
  }

  /** A task cancellation delivered inside a commit, after it landed. The loop
      keeps its own state and its handler commits the interruption. The log is
      then still a path with exactly one terminal event, unless the commit was
      itself the terminal one. */
  lemma {:induction false} CancelledInsideCommit(start: Phase, log: seq<Commit>, s: RunState)
    requires Path(start, log) && (Running(log) || Ended(log)) && log != []
    requires StandsAt(s.phase, log[|log| - 1])
    ensures Path(start, log + StopCommits(s, Interrupted)) && Ended(log + StopCommits(s, Interrupted)) <==>
              !log[|log| - 1].terminal
  {
    var commits := StopCommits(s, Interrupted);
    if log[|log| - 1].terminal {
      AfterTheEnd(start, log, commits);
    } else {
      RunningIsNotEnded(log);
      StopExtends(start, log, s);
    }
  }

  /** The terminal event of a run that fails in state `s`. */
  function FailCommit(s: RunState): Commit
    requires Failed in Allowed(s.phase)
  {
    RunLog.Commit(Transition(s, Failed).value, TurnFailed, true)
  }

  lemma StandingCanFail(own: Phase, c: Commit)
    requires StandsAt(own, c)
    ensures Failed in Allowed(own)
  {
  }

  lemma LandedCanFail(own: Phase, last: Phase)
    requires StandsBehind(own, last) && !last.Terminal()
    ensures Failed in Allowed(last)
  {
  }

  /** The same for an error raised by a commit that has landed, or behind it. */
  lemma {:induction false} FailedInsideCommit(start: Phase, log: seq<Commit>, s: RunState)
    requires Path(start, log) && (Running(log) || Ended(log)) && log != []
    requires StandsAt(s.phase, log[|log| - 1])
    ensures Failed in Allowed(s.phase)
    ensures Path(start, log + [FailCommit(s)]) && Ended(log + [FailCommit(s)]) <==> !log[|log| - 1].terminal
  {
    StandingCanFail(s.phase, log[|log| - 1]);
    if log[|log| - 1].terminal {
      AfterTheEnd(start, log, [FailCommit(s)]);
    } else {
      RunningIsNotEnded(log);
      LastIsNotTerminal(start, log);
      LandedCanFail(s.phase, LastPhase(start, log));
      PathAppend(start, log, FailCommit(s));
      RunningAppend(log, FailCommit(s));
    }
  }

  lemma LastIsNotTerminal(start: Phase, log: seq<Commit>)
    requires Path(start, log) && log != [] && !log[|log| - 1].terminal
    ensures !LastPhase(start, log).Terminal()
  {
    assert Follows(LastPhase(start, log[..|log| - 1]), log[|log| - 1]);
  }

  /** Whichever commit of a run's try block is struck, by a cancellation or by
      an error, and wherever the loop's own state stands then: what the handler
      commits from that state ends the log lawfully exactly if the commit was
      not terminal. */
  lemma StruckAtAnyCommit(start: Phase, log: seq<Commit>, owns: seq<Phase>, k: nat, s: RunState)
    requires Path(start, log) && (Running(log) || Ended(log)) && Trail(owns, log)
    requires k < |owns| && s.phase == owns[k]
    ensures StandsAt(s.phase, log[k]) && Failed in Allowed(s.phase)
    ensures
      var landed := log[..k + 1];
      && (Path(start, landed + StopCommits(s, Interrupted)) && Ended(landed + StopCommits(s, Interrupted))
          <==> !log[k].terminal)
      && (Path(start, landed + [FailCommit(s)]) && Ended(landed + [FailCommit(s)]) <==> !log[k].terminal)
  {
    assert TrailAt(owns, log, k);
    PrefixIsLawful(start, log, k + 1);
    CancelledInsideCommit(start, log[..k + 1], s);
    FailedInsideCommit(start, log[..k + 1], s);
  }

  /** The commits by which a planning state completes with its text. */
  function CompletingCommits(s: RunState): seq<Commit>
    requires s.phase == Planning
  {
    var responding := Transition(s, Responding).value;
    var persisting := Transition(responding, Persisting).value;
    var completed := Transition(persisting, Completed).value;
    [RunLog.Commit(responding, PhaseChanged(Planning, Responding), false),
     RunLog.Commit(persisting, PhaseChanged(Responding, Persisting), false),
     RunLog.Commit(completed, TurnCompleted(s.text), true)]
  }

  /** Struck inside the commit of `turn.completed`, the loop still stands at
      planning and commits a second terminal event. */
  lemma SecondEventAfterCompletion(s: RunState)
    requires s.phase == Planning
    ensures
      var log := CompletingCommits(s);
      && Path(Planning, log) && Ended(log) && Trail([Planning, Planning, Planning], log)
      && TwoTerminalEvents(log + StopCommits(s, Interrupted))
      && !Path(Planning, log + StopCommits(s, Interrupted))
  {
    var log := CompletingCommits(s);
    CompletingIsPath(s);
    AfterTheEnd(Planning, log, StopCommits(s, Interrupted));
    SecondTerminal(log, StopCommits(s, Interrupted));
  }

  /** The same inside the commit of `turn.failed` when the budget has no round left. */
  lemma SecondEventAfterExhaustion(s: RunState)
    requires s.phase == Planning
    ensures
      var log := [FailCommit(s)];
      && Path(Planning, log) && Ended(log) && Trail([Planning], log)
      && TwoTerminalEvents(log + StopCommits(s, Interrupted))
      && !Path(Planning, log + StopCommits(s, Interrupted))
  {
    var log := [FailCommit(s)];
    AfterTheEnd(Planning, log, StopCommits(s, Interrupted));
    SecondTerminal(log, StopCommits(s, Interrupted));
  }

  ghost predicate TwoTerminalEvents(log: seq<Commit>) {
    exists i, j :: 0 <= i < j < |log| && log[i].terminal && log[j].terminal
  }

  lemma SecondTerminal(log: seq<Commit>, more: seq<Commit>)
    requires log != [] && more != [] && log[|log| - 1].terminal && more[|more| - 1].terminal
    ensures TwoTerminalEvents(log + more)
  {
    var all := log + more;
    assert all[|log| - 1] == log[|log| - 1] && all[|all| - 1] == more[|more| - 1];
  }

  lemma CompletingIsPath(s: RunState)
    requires s.phase == Planning
    ensures Path(Planning, CompletingCommits(s)) && Ended(CompletingCommits(s))
    ensures Trail([Planning, Planning, Planning], CompletingCommits(s))
  {
    var log := CompletingCommits(s);
    var first := [log[0]];
    PathAppend(Planning, [], log[0]);
    PathAppend(Planning, first, log[1]);
    PathAppend(Planning, first + [log[1]], log[2]);
    assert log == (first + [log[1]]) + [log[2]];
  }

  lemma AfterTheEnd(start: Phase, log: seq<Commit>, commits: seq<Commit>)
    requires Path(start, log) && log != [] && log[|log| - 1].terminal && commits != []
    ensures !Path(start, log + commits)
  {
    var all, n := log + commits, |log| - 1;
    assert all[..|log|] == log && all[|log|] == commits[0];
    assert Follows(LastPhase(start, log[..n]), log[n]);
    assert !Follows(LastPhase(start, all[..|log|]), all[|log|]);
  }

  lemma StopExtends(start: Phase, log: seq<Commit>, s: RunState)
    requires Path(start, log) && Running(log) && StandsBehind(s.phase, LastPhase(start, log))
    requires !LastPhase(start, log).Terminal() && (Interrupted in Allowed(s.phase) || Cancelling in Allowed(s.phase))
    ensures Path(start, log + StopCommits(s, Interrupted)) && Ended(log + StopCommits(s, Interrupted))
  {
    var commits := StopCommits(s, Interrupted);
    LandedCanStop(s.phase, LastPhase(start, log));
    if Interrupted in Allowed(s.phase) {
      OneStop(start, log, commits[0]);
    } else {
      TwoStops(start, log, commits[0], commits[1]);
      assert commits == [commits[0], commits[1]];
    }
  }

  lemma LandedCanStop(own: Phase, last: Phase)
    requires StandsBehind(own, last) && !last.Terminal()
    ensures (if Interrupted in Allowed(own) then Interrupted else Cancelling) in Allowed(last)
  {
  }

  lemma OneStop(start: Phase, log: seq<Commit>, c: Commit)
    requires Path(start, log) && Running(log) && Follows(LastPhase(start, log), c) && c.terminal
    ensures Path(start, log + [c]) && Ended(log + [c])
  {
    PathAppend(start, log, c);
    RunningAppend(log, c);
  }

  lemma TwoStops(start: Phase, log: seq<Commit>, c: Commit, d: Commit)
    requires Path(start, log) && Running(log) && Follows(LastPhase(start, log), c) && !c.terminal
    requires Follows(c.state.phase, d) && d.terminal
    ensures Path(start, log + [c, d]) && Ended(log + [c, d])
  {
    PathExtendOne(start, log, c);
    OneStop(start, log + [c], d);
    assert log + [c, d] == (log + [c]) + [d];
  }

  lemma CancellingLeadsOn(s: RunState, moved: RunState, target: Phase)
    requires target in {Cancelled, Interrupted} && target !in Allowed(s.phase) && Cancelling in Allowed(s.phase)
    requires Ok(moved) == Transition(s, Cancelling)
    ensures target in Allowed(moved.phase)
    ensures moved.modelRounds == s.modelRounds && moved.toolCalls == s.toolCalls
    ensures StopCommits(s, target) ==
      [RunLog.Commit(moved, PhaseChanged(s.phase, Cancelling), false), StopEvent(Transition(moved, target).value)]
  {
  }

  lemma TwoAppends(log: seq<Commit>, c: Commit, d: Commit)
    ensures (log + [c]) + [d] == log + [c, d]
  {
  }

  lemma BehindAllows(start: Phase, log: seq<Commit>, phase: Phase, target: Phase)
    requires Behind(start, log, phase) && target in {Cancelled, Interrupted} && target in Allowed(phase)
    ensures target in Allowed(LastPhase(start, log))
  {
  }

  lemma RunningIsNotEnded(log: seq<Commit>)
    ensures Running(log) ==> !Ended(log)
  {
  }

  /** The exact accepted batch that a recovered run resumes. */
  datatype RecoveredBatch = RecoveredBatch(accepted: seq<Id>, replay: seq<ToolCall>)

  /** From a phase like this every stop request ends in a terminal event. */
  predicate CanStop(p: Phase) {
    p == Created || Stoppable(p)
  }

  // ---------------------------------------------------------------- the run

  datatype Outcome =
    | Rejected                                // a ValueError before the run starts
    | Returned(state: RunState)
    | RaisedLoopFailure(state: RunState)
    | RaisedOtherLoopFailure                  // another run's failure, passed on

  datatype RoundEnd = Again | Done(result: RunState) | Raised(exn: Exn)

  const CHUNK: nat := 256
  const ONE_ROUND: BudgetDelta := ZERO.(modelRounds := 1)

  class AgentRun {
    const world: World
    const recorder: Recorder
    const ledger: BudgetLedger
    const depth: nat
    var awaits: nat

    constructor (world: World, recorder: Recorder, ledger: BudgetLedger, depth: nat)
      ensures this.world == world && this.recorder == recorder && this.ledger == ledger && this.depth == depth
    {
      this.world, this.recorder, this.ledger, this.depth, awaits := world, recorder, ledger, depth, 0;
    }

    predicate WithinBudget()
      reads ledger
    {
      Add(ledger.used, ledger.reserved).Fits(ledger.limits)
    }

    twostate predicate Spent()
      reads ledger
    {
      && WithinBudget()
      && old(ledger.used).modelRounds <= ledger.used.modelRounds
      && old(ledger.used).toolCalls <= ledger.used.toolCalls
    }

    predicate HasRoom(delta: BudgetDelta)
      reads ledger
    {
      Add(Add(ledger.used, ledger.reserved), delta).Fits(ledger.limits)
    }

    /** The world's planner breaks the run in its first round, which the budget allows. */
    ghost predicate Breaks()
      reads ledger
    {
      PlannerBreaks(world, ledger.limits) && HasRoom(ONE_ROUND)
    }

    /** Nothing is raised and the ledger stays, in a world that only its planner breaks. */
    twostate predicate Quiet(raised: Option<Exn>)
      reads ledger
    {
      PlannerBreaks(world, ledger.limits) ==>
        raised.None? && ledger.used == old(ledger.used) && ledger.reserved == old(ledger.reserved)
    }

    /** The loop's own state is noted to be in this phase. */
    ghost predicate At(p: Phase)
      reads recorder
    {
      recorder.Trails() && recorder.own == Some(p)
    }

    /** A commit in this phase keeps the trail of own phases whole. */
    ghost predicate Stands(p: Phase)
      reads recorder
    {
      recorder.Trails() && recorder.own.Some? && StandsBehind(recorder.own.value, p)
    }

    /** A handler is at work, or a commit in this phase keeps the trail whole. */
    ghost predicate StandsOrHandles(p: Phase)
      reads recorder
    {
      recorder.Trails() && (recorder.own.Some? ==> StandsBehind(recorder.own.value, p))
    }

    /** A batch runs while the loop's own state stays where it is. */
    ghost predicate Waits()
      reads recorder
    {
      recorder.Trails() && Awaits(recorder.own)
    }

    twostate predicate Kept()
      reads recorder
    {
      recorder.Trails() && recorder.own == old(recorder.own)
    }

    /** Another run's loop failure is raised only by a world that holds one. */
    ghost predicate Sourced(raised: Option<Exn>) {
      raised == Some(OtherLoopFailure) ==> !Solitary(world)
    }

    ghost predicate EndSourced(end: RoundEnd) {
      end == Raised(OtherLoopFailure) ==> !Solitary(world)
    }

    /** One await: other holders of the shared ledger may move it in any legal
        way, and the await may raise anything. */
    method Await() returns (raised: Option<Exn>)
      requires WithinBudget()
      modifies this`awaits, ledger
      ensures Spent()
      ensures raised == world.interrupt(old(awaits))
      ensures Sourced(raised) && Quiet(raised)
    {
      var (used, reserved) := world.elsewhere(awaits);
      if ledger.used.Fits(used) && Add(used, reserved).Fits(ledger.limits) {
        ledger.used, ledger.reserved := used, reserved;
      }
      raised := world.interrupt(awaits);
      SolitaryEverywhere(world, awaits);
      PlannerBreaksEverywhere(world, ledger.limits, awaits);
      awaits := awaits + 1;
    }

    method Charge(delta: BudgetDelta) returns (ok: bool)
      requires WithinBudget()
      modifies ledger
      ensures Spent()
      ensures ok ==> ledger.used == Add(old(ledger.used), delta)
      ensures ok <==> old(HasRoom(delta))
    {
      ok := ledger.Consume(delta);
    }

    // -------------------------------------------------------------- steps without a phase change

    method ApplyRunControls(s0: RunState, ghost o: Origin, ghost counted: bool)
      returns (s: RunState, changed: bool, raised: Option<Exn>)
      requires WithinBudget() && AtRest(o, recorder.log, s0) && !s0.phase.Terminal()
      requires counted ==> Counted(recorder.log, s0, ledger.used)
      requires Stands(s0.phase)
      modifies this`awaits, ledger, recorder
      ensures Spent() && AtRest(o, recorder.log, s) && s.phase == s0.phase
      ensures counted ==> Counted(recorder.log, s, ledger.used)
      ensures Kept() && Sourced(raised) && Quiet(raised)
    {
      s, changed := s0, false;
      var messages := world.drain(awaits);
      raised := Await();
      if counted { Grow(old(ledger.used), ledger.used, recorder.log, s); }
      if raised.Some? { return; }
      for i := 0 to |messages|
        modifies recorder
        invariant AtRest(o, recorder.log, s) && s.phase == s0.phase && Kept()
        invariant counted ==> Counted(recorder.log, s, ledger.used)
      {
        var updated := ApplyControl(s, messages[i]);
        ControlKeeps(s, messages[i]);
        if updated != s {
          CommitAtRest(s, updated, TurnSteered(messages[i].id), o, counted);
          s, changed := updated, true;
        }
      }
    }

    /** A commit in the current phase that leaves ledger and obligation alone. */
    method CommitAtRest(s: RunState, next: RunState, event: Event, ghost o: Origin, ghost counted: bool)
      requires AtRest(o, recorder.log, s) && !s.phase.Terminal() && next.phase == s.phase
      requires SameLedger(s, next) && next.obligation == s.obligation
      requires event.TurnSteered? || event.ModelAttempt? || event.ContinuationRequired?
      requires counted ==> Counted(recorder.log, s, ledger.used) && CountedState(next, ledger.used)
      requires StandsOrHandles(s.phase) && (recorder.own.None? ==> event.ModelAttempt?)
      modifies recorder
      ensures recorder.log == old(recorder.log) + [RunLog.Commit(next, event, false)]
      ensures AtRest(o, recorder.log, next)
      ensures counted ==> Counted(recorder.log, next, ledger.used)
      ensures Kept()
    {
      ghost var c := RunLog.Commit(next, event, false);
      RestCommit(o, recorder.log, s, next, c);
      if counted { CountCommit(recorder.log, s, ledger.used, c); }
      recorder.Commit(next, event);
    }

    method RecordPlanningAttempts(s0: RunState, attempts: seq<Id>, ghost o: Origin, ghost counted: bool)
      returns (s: RunState)
      requires AtRest(o, recorder.log, s0) && !s0.phase.Terminal()
      requires counted ==> Counted(recorder.log, s0, ledger.used)
                           && s0.modelRounds + |attempts| <= ledger.used.modelRounds
      requires StandsOrHandles(s0.phase)
      modifies recorder
      ensures AtRest(o, recorder.log, s) && s.phase == s0.phase
      ensures counted ==> Counted(recorder.log, s, ledger.used)
      ensures s.modelRounds == s0.modelRounds + |attempts|
      ensures Kept()
    {
      s := s0;
      for i := 0 to |attempts|
        invariant AtRest(o, recorder.log, s) && s.phase == s0.phase && Kept()
        invariant s.modelRounds == s0.modelRounds + i
        invariant counted ==> Counted(recorder.log, s, ledger.used)
      {
        var next := s.(modelRounds := s.modelRounds + 1, revision := s.revision + 1);
        CommitAtRest(s, next, ModelAttempt(attempts[i]), o, counted);
        s := next;
      }
    }

    /** A phase move between batches. */
    method MoveAtRest(s0: RunState, target: Phase, ghost o: Origin, ghost counted: bool) returns (s: RunState)
      requires AtRest(o, recorder.log, s0) && target in Allowed(s0.phase) && !target.Terminal()
      requires counted ==> Counted(recorder.log, s0, ledger.used)
      requires Stands(target)
      modifies recorder
      ensures AtRest(o, recorder.log, s) && Ok(s) == Transition(s0, target)
      ensures counted ==> Counted(recorder.log, s, ledger.used)
      ensures Kept()
    {
      ghost var log := recorder.log;
      var r := CommitPhase(s0, target, recorder);
      s := r.value;
      ghost var c := RunLog.Commit(s, PhaseChanged(s0.phase, target), false);
      RestCommit(o, log, s0, s, c);
      if counted { CountCommit(log, s0, ledger.used, c); }
    }

    /** A phase move that the loop makes itself: its own state moves along. */
    method MoveOwn(s0: RunState, target: Phase, ghost o: Origin, ghost counted: bool) returns (s: RunState)
      requires AtRest(o, recorder.log, s0) && target in Allowed(s0.phase) && !target.Terminal()
      requires counted ==> Counted(recorder.log, s0, ledger.used)
      requires At(s0.phase) && StandsBehind(s0.phase, target)
      modifies recorder
      ensures AtRest(o, recorder.log, s) && Ok(s) == Transition(s0, target) && At(target)
      ensures counted ==> Counted(recorder.log, s, ledger.used)
    {
      s := MoveAtRest(s0, target, o, counted);
      recorder.own := Some(s.phase);
    }

    // -------------------------------------------------------------- a tool batch

    /** Runs one batch through a fresh observer. Returns the observer's state,
        or the exception that the kernel raised; in that case the loop keeps
        its own state and the log may be ahead of it. */
    method ExecuteBatch(s: RunState, ghost o: Origin, ghost base: seq<ToolResult>, ghost accepted: seq<Id>, ghost counted: bool)
      returns (after: RunState, end: BatchEnd)
      requires WithinBudget() && InFlight(o, base, accepted, recorder.log, s) && BatchPhase(s.phase)
      requires counted ==> Counted(recorder.log, s, ledger.used)
      requires Waits()
      modifies this`awaits, ledger, recorder
      ensures Spent() && InFlight(o, base, accepted, recorder.log, after) && BatchPhase(after.phase)
      ensures SameRun(s, after)
      ensures counted ==> Counted(recorder.log, s, ledger.used)
      ensures Kept() && (end.BatchRaises? ==> Sourced(Some(end.exn)))
    {
      var batch := world.batch(awaits);
      SolitaryEverywhere(world, awaits);
      after := RunCallbacks(s, batch.callbacks, o, base, accepted, counted);
      end := AwaitKernel(s, batch.end, o, counted);
    }

    /** A kernel may be interrupted before it ends in its own way. */
    method AwaitKernel(s: RunState, own: BatchEnd, ghost o: Origin, ghost counted: bool) returns (end: BatchEnd)
      requires WithinBudget() && (own.BatchRaises? ==> Sourced(Some(own.exn)))
      requires counted ==> Counted(recorder.log, s, ledger.used)
      modifies this`awaits, ledger
      ensures Spent() && (end.BatchRaises? ==> Sourced(Some(end.exn)))
      ensures counted ==> Counted(recorder.log, s, ledger.used)
    {
      var raised := Pause(s, o, counted);
      end := if raised.Some? then BatchRaises(raised.value) else own;
    }

    method RunCallbacks(
      s: RunState, callbacks: seq<Callback>, ghost o: Origin, ghost base: seq<ToolResult>, ghost accepted: seq<Id>,
      ghost counted: bool)
      returns (after: RunState)
      requires InFlight(o, base, accepted, recorder.log, s) && BatchPhase(s.phase)
      requires counted ==> Counted(recorder.log, s, ledger.used)
      requires Waits()
      modifies recorder
      ensures InFlight(o, base, accepted, recorder.log, after) && BatchPhase(after.phase)
      ensures SameRun(s, after)
      ensures counted ==> Counted(recorder.log, s, ledger.used)
      ensures Kept()
    {
      var observer := new LoopObserver(s, recorder);
      for i := 0 to |callbacks|
        modifies observer, recorder
        invariant InFlight(o, base, accepted, recorder.log, observer.state) && BatchPhase(observer.state.phase)
        invariant SameRun(s, observer.state) && Kept()
        invariant counted ==> Counted(recorder.log, s, ledger.used)
      {
        ghost var cb := callbacks[i];
        ghost var seen := Observe(observer.state, observer.started, cb);
        InFlightCallback(o, base, accepted, s, recorder.log, observer.state, observer.started, cb);
        if counted { CountCallback(s, recorder.log, observer.state, ledger.used, seen.commits); }
        var _ := observer.Notify(callbacks[i]);
      }
      after := observer.state;
    }

    /** The part of a round in which a batch is open: policy check, execution,
        and the return to planning with the results in acceptance order. */
    method RunOpenBatch(s0: RunState, ids: seq<Id>, ghost o: Origin, ghost base: seq<ToolResult>, ghost counted: bool)
      returns (s: RunState, end: RoundEnd)
      requires WithinBudget() && InFlight(o, base, ids, recorder.log, s0) && s0.phase == ValidatingCalls
      requires counted ==> Counted(recorder.log, s0, ledger.used)
      requires At(s0.phase)
      modifies this`awaits, ledger, recorder
      ensures Spent() && !end.Done?
      ensures end.Again? ==> AtRest(o, recorder.log, s) && s.phase == Planning
      ensures end.Raised? ==> Behind(o.start, recorder.log, s.phase) && Stoppable(s.phase)
      ensures counted ==> Counted(recorder.log, s, ledger.used)
      ensures At(s.phase) && EndSourced(end)
    {
      s := MoveInFlight(s0, CheckingPolicy, o, base, ids, counted);
      recorder.own := Some(s.phase);
      s, end := FinishBatch(s, ids, o, base, counted);
    }

    method MoveInFlight(
      s0: RunState, target: Phase, ghost o: Origin, ghost base: seq<ToolResult>, ghost ids: seq<Id>, ghost counted: bool)
      returns (s: RunState)
      requires InFlight(o, base, ids, recorder.log, s0) && target in Allowed(s0.phase) && !target.Terminal()
      requires counted ==> Counted(recorder.log, s0, ledger.used)
      requires Stands(target)
      modifies recorder
      ensures InFlight(o, base, ids, recorder.log, s) && Ok(s) == Transition(s0, target)
      ensures counted ==> Counted(recorder.log, s, ledger.used)
      ensures Kept()
    {
      ghost var log := recorder.log;
      var r := CommitPhase(s0, target, recorder);
      s := r.value;
      ghost var c := RunLog.Commit(s, PhaseChanged(s0.phase, target), false);
      InFlightCommit(o, base, ids, log, s0, s, c);
      if counted { CountCommit(log, s0, ledger.used, c); }
    }

    method FinishBatch(s0: RunState, ids: seq<Id>, ghost o: Origin, ghost base: seq<ToolResult>, ghost counted: bool)
      returns (s: RunState, end: RoundEnd)
      requires WithinBudget() && InFlight(o, base, ids, recorder.log, s0) && s0.phase == CheckingPolicy
      requires counted ==> Counted(recorder.log, s0, ledger.used)
      requires At(s0.phase)
      modifies this`awaits, ledger, recorder
      ensures Spent() && !end.Done?
      ensures end.Again? ==> AtRest(o, recorder.log, s) && s.phase == Planning
      ensures end.Raised? ==> Behind(o.start, recorder.log, s.phase) && Stoppable(s.phase)
      ensures counted ==> Counted(recorder.log, s, ledger.used)
      ensures At(s.phase) && EndSourced(end)
    {
      var after, batchEnd := ExecuteBatch(s0, o, base, ids, counted);
      if counted { CountSame(recorder.log, s0, after, ledger.used); }
      s, end := SettleBatch(s0, after, batchEnd, ids, o, base, counted);
    }

    /** What the loop makes of an executed batch; a batch that failed before its
        results were complete leaves it at its own older state. */
    method SettleBatch(
      s0: RunState, after: RunState, batchEnd: BatchEnd, ids: seq<Id>, ghost o: Origin, ghost base: seq<ToolResult>,
      ghost counted: bool)
      returns (s: RunState, end: RoundEnd)
      requires InFlight(o, base, ids, recorder.log, after) && BatchPhase(after.phase) && s0.phase == CheckingPolicy
      requires counted ==> Counted(recorder.log, s0, ledger.used) && Counted(recorder.log, after, ledger.used)
      requires At(s0.phase) && (batchEnd.BatchRaises? ==> Sourced(Some(batchEnd.exn)))
      modifies recorder
      ensures !end.Done?
      ensures end.Again? ==> AtRest(o, recorder.log, s) && s.phase == Planning
      ensures end.Raised? ==> Behind(o.start, recorder.log, s.phase) && Stoppable(s.phase)
      ensures counted ==> Counted(recorder.log, s, ledger.used)
      ensures At(s.phase) && EndSourced(end)
    {
      var failure := BatchFailure(after, batchEnd, ids);
      if failure.Some? {
        s := if batchEnd.BatchReturns? && batchEnd.ids == ids then after else s0;
        recorder.own := Some(s.phase);
        BatchIsBehind(o, base, ids, recorder.log, after, s.phase);
        return s, Raised(failure.value);
      }
      recorder.own := Some(after.phase);
      s := RestoreAndPlan(after, ids, o, base, counted);
      recorder.own := Some(s.phase);
      end := Again;
    }

    method RestoreAndPlan(s0: RunState, ids: seq<Id>, ghost o: Origin, ghost base: seq<ToolResult>, ghost counted: bool)
      returns (s: RunState)
      requires InFlight(o, base, ids, recorder.log, s0) && s0.phase == RecordingResults && s0.pending.callIds == {}
      requires counted ==> Counted(recorder.log, s0, ledger.used)
      requires Stands(Planning)
      modifies recorder
      ensures AtRest(o, recorder.log, s) && s.phase == Planning
      ensures counted ==> Counted(recorder.log, s, ledger.used)
      ensures Kept()
    {
      CloseBatch(o, base, ids, recorder.log, s0);
      var restored := RestoreOrder(s0, ids);
      s := restored.value;
      if counted { CountSame(recorder.log, s0, s, ledger.used); }
      s := MoveAtRest(s, Planning, o, counted);
    }

    /** Everything that follows a planned batch of calls, up to the next
        planning phase. On an exception `s` is the loop's own state at that point. */
    method RunCalls(s0: RunState, calls: seq<ToolCall>, ghost o: Origin, ghost counted: bool)
      returns (s: RunState, end: RoundEnd)
      requires WithinBudget() && AtRest(o, recorder.log, s0) && s0.phase == Planning
      requires counted ==> Counted(recorder.log, s0, ledger.used)
      requires At(s0.phase)
      modifies this`awaits, ledger, recorder
      ensures Spent() && !end.Done?
      ensures end.Again? ==> AtRest(o, recorder.log, s) && s.phase == Planning
      ensures end.Raised? ==> Behind(o.start, recorder.log, s.phase) && Stoppable(s.phase)
      ensures counted ==> Counted(recorder.log, s, ledger.used)
      ensures At(s.phase) && EndSourced(end)
    {
      var ready;
      s, ready := OpenBatch(s0, calls, o, counted);
      if !ready { return s, Raised(Failure([])); }
      s, end := RunOpenBatch(s, CallIds(calls), o, s0.results, counted);
    }

    /** Pays for a batch of calls and accepts it. */
    method OpenBatch(s0: RunState, calls: seq<ToolCall>, ghost o: Origin, ghost counted: bool)
      returns (s: RunState, ready: bool)
      requires WithinBudget() && AtRest(o, recorder.log, s0) && s0.phase == Planning
      requires counted ==> Counted(recorder.log, s0, ledger.used)
      requires At(s0.phase)
      modifies ledger, recorder
      ensures Spent()
      ensures ready ==> InFlight(o, s0.results, CallIds(calls), recorder.log, s) && s.phase == ValidatingCalls
      ensures !ready ==> Behind(o.start, recorder.log, s.phase) && Stoppable(s.phase)
      ensures counted ==> Counted(recorder.log, s, ledger.used)
      ensures At(s.phase)
    {
      s := s0;
      var paid := Pay(ZERO.(toolCalls := |calls|), s0, counted);
      RestIsBehind(o, recorder.log, s);
      if !paid { return s, false; }
      s := MoveOwn(s0, ValidatingCalls, o, counted);
      s, ready := AcceptBatch(s, calls, o, counted);
    }

    method Pay(delta: BudgetDelta, s: RunState, ghost counted: bool) returns (paid: bool)
      requires WithinBudget()
      requires counted ==> Counted(recorder.log, s, ledger.used)
      modifies ledger
      ensures Spent()
      ensures paid ==> ledger.used == Add(old(ledger.used), delta)
      ensures counted ==> Counted(recorder.log, s, ledger.used)
    {
      paid := Charge(delta);
      if counted { Grow(old(ledger.used), ledger.used, recorder.log, s); }
    }

    method AcceptBatch(s0: RunState, calls: seq<ToolCall>, ghost o: Origin, ghost counted: bool)
      returns (s: RunState, ready: bool)
      requires AtRest(o, recorder.log, s0) && s0.phase == ValidatingCalls
      requires counted ==> Counted(recorder.log, s0, ledger.used) && s0.toolCalls + |calls| <= ledger.used.toolCalls
      requires At(s0.phase)
      modifies recorder
      ensures ready ==> InFlight(o, s0.results, CallIds(calls), recorder.log, s) && s.phase == ValidatingCalls
      ensures !ready ==> Behind(o.start, recorder.log, s.phase) && Stoppable(s.phase)
      ensures counted ==> Counted(recorder.log, s, ledger.used)
      ensures At(s.phase)
    {
      s := s0;
      RestIsBehind(o, recorder.log, s);
      var accepted := TryAccept(s, calls, o);
      if accepted.Err? { return s, false; }
      s := CommitAccepted(s0, accepted.value, calls, o, s0.results, counted);
      ready := true;
    }

    method TryAccept(s: RunState, calls: seq<ToolCall>, ghost o: Origin) returns (r: Result<RunState>)
      requires AtRest(o, recorder.log, s)
      ensures r.Ok? ==> InBatch(s.results, CallIds(calls), r.value)
      ensures r.Ok? ==> r.value.phase == s.phase && r.value.obligation == s.obligation
      ensures r.Ok? ==> r.value.modelRounds == s.modelRounds && r.value.toolCalls == s.toolCalls + |calls|
    {
      r := AcceptToolCalls(s, calls);
      if r.Ok? {
        AcceptKeeps(s, calls);
        AcceptOpensBatch(s, calls);
      }
    }

    method CommitAccepted(
      s0: RunState, accepted: RunState, calls: seq<ToolCall>, ghost o: Origin, ghost base: seq<ToolResult>,
      ghost counted: bool)
      returns (s: RunState)
      requires AtRest(o, recorder.log, s0) && s0.phase == ValidatingCalls && base == s0.results
      requires InBatch(base, CallIds(calls), accepted)
      requires accepted.phase == s0.phase && accepted.obligation == s0.obligation
      requires counted ==> Counted(recorder.log, s0, ledger.used) && CountedState(accepted, ledger.used)
      requires Stands(s0.phase)
      modifies recorder
      ensures s == accepted && s.phase == ValidatingCalls && InFlight(o, base, CallIds(calls), recorder.log, s)
      ensures recorder.log == old(recorder.log) + [RunLog.Commit(s, CallsAccepted(CallIds(calls)), false)]
      ensures counted ==> Counted(recorder.log, s, ledger.used)
      ensures Kept()
    {
      s := accepted;
      OpenBatchCommit(o, recorder.log, s0, s, CallIds(calls));
      if counted {
        CountCommit(recorder.log, s0, ledger.used, RunLog.Commit(s, CallsAccepted(CallIds(calls)), false));
      }
      recorder.Commit(s, CallsAccepted(CallIds(calls)));
    }

    // -------------------------------------------------------------- responding

    method CompleteWithResponse(s0: RunState, response: string, ghost o: Origin, ghost counted: bool)
      returns (end: RoundEnd)
      requires WithinBudget() && AtRest(o, recorder.log, s0) && s0.phase == Planning && MayRespond(s0)
      requires counted ==> Counted(recorder.log, s0, ledger.used)
      requires At(Planning)
      modifies this`awaits, ledger, recorder
      ensures Spent() && !end.Again?
      ensures end.Raised? ==> Behind(o.start, recorder.log, Planning)
      ensures end.Done? ==> Closed(o, recorder.log, end.result)
      ensures counted ==> Counted(recorder.log, s0, ledger.used)
      ensures Kept() && EndSourced(end)
    {
      RestIsBehind(o, recorder.log, s0);
      var raised := Await();
      if counted { Grow(old(ledger.used), ledger.used, recorder.log, s0); }
      if raised.Some? { return Raised(raised.value); }
      if Blank(response) { return Raised(Failure([])); }
      var s := MoveAtRest(s0, Responding, o, counted);
      StartSpeaking(o, recorder.log, s);
      var spoken := Stream(s, response, o, counted);
      if spoken.Some? { return Raised(spoken.value); }
      end := Conclude(s, response, o, counted);
    }

    /** Commits the response in chunks; each checkpoint may stop the stream. */
    method Stream(s: RunState, response: string, ghost o: Origin, ghost counted: bool) returns (raised: Option<Exn>)
      requires WithinBudget() && Speaking(o, recorder.log, s, "") && s.phase == Responding
      requires counted ==> Counted(recorder.log, s, ledger.used)
      requires At(Planning)
      modifies this`awaits, ledger, recorder
      ensures Spent() && Behind(o.start, recorder.log, Planning)
      ensures raised.None? ==> Speaking(o, recorder.log, s, response)
      ensures counted ==> Counted(recorder.log, s, ledger.used)
      ensures Kept() && Sourced(raised)
    {
      var offset := 0;
      raised := None;
      while offset < |response|
        invariant Spent() && 0 <= offset <= |response| && Kept()
        invariant Speaking(o, recorder.log, s, response[..offset])
        invariant counted ==> Counted(recorder.log, s, ledger.used)
        invariant raised.None?
      {
        ghost var before := ledger.used;
        raised := Await();
        if counted { Grow(before, ledger.used, recorder.log, s); }
        if raised.Some? { return; }
        offset := CommitDelta(s, response, offset, o, counted);
      }
      assert response[..offset] == response;
    }

    method CommitDelta(s: RunState, response: string, offset: nat, ghost o: Origin, ghost counted: bool) returns (next: nat)
      requires offset < |response| && Speaking(o, recorder.log, s, response[..offset]) && s.phase == Responding
      requires counted ==> Counted(recorder.log, s, ledger.used)
      requires At(Planning)
      modifies recorder
      ensures offset < next <= |response| && next <= offset + CHUNK
      ensures Speaking(o, recorder.log, s, response[..next])
      ensures counted ==> Counted(recorder.log, s, ledger.used)
      ensures Kept()
    {
      next := if offset + CHUNK < |response| then offset + CHUNK else |response|;
      var delta := response[offset..next];
      ghost var c := RunLog.Commit(s, AssistantDelta(offset, delta), false);
      DeltaCommit(o, recorder.log, s, response, offset, next, c);
      if counted { CountCommit(recorder.log, s, ledger.used, c); }
      recorder.Commit(s, AssistantDelta(offset, delta));
    }

    method Conclude(s0: RunState, response: string, ghost o: Origin, ghost counted: bool) returns (end: RoundEnd)
      requires WithinBudget() && Speaking(o, recorder.log, s0, response) && s0.phase == Responding
      requires s0.pending.callIds == {} && s0.pending.approvals == {} && s0.pending.children == {} && response != ""
      requires counted ==> Counted(recorder.log, s0, ledger.used)
      requires At(Planning)
      modifies this`awaits, ledger, recorder
      ensures Spent() && !end.Again?
      ensures end.Raised? ==> Behind(o.start, recorder.log, Planning)
      ensures end.Done? ==> Closed(o, recorder.log, end.result)
      ensures counted ==> Counted(recorder.log, s0, ledger.used)
      ensures Kept() && EndSourced(end)
    {
      var s := s0.(text := response, revision := s0.revision + 1);
      CommitSpeaking(s0, s, AssistantCompleted(response), o, response, counted);
      var raised := Pause(s, o, counted);
      if raised.Some? { return Raised(raised.value); }
      var completed := Persist(s, o, counted);
      if counted { CountSame(recorder.log, s, s0, ledger.used); }
      end := Done(completed);
    }

    /** The persisting phase and the terminal commit of a run that completes. */
    method Persist(s: RunState, ghost o: Origin, ghost counted: bool) returns (completed: RunState)
      requires Speaking(o, recorder.log, s, s.text) && s.phase == Responding && s.text != ""
      requires s.pending.callIds == {} && s.pending.approvals == {} && s.pending.children == {}
      requires counted ==> Counted(recorder.log, s, ledger.used)
      requires At(Planning)
      modifies recorder
      ensures Closed(o, recorder.log, completed)
      ensures counted ==> Counted(recorder.log, s, ledger.used)
      ensures Kept()
    {
      var persisting := Transition(s, Persisting).value;
      CommitSpeaking(s, persisting, PhaseChanged(s.phase, Persisting), o, s.text, counted);
      completed := Complete(persisting, o, counted);
      if counted { CountSame(recorder.log, persisting, s, ledger.used); }
    }

    method Complete(s: RunState, ghost o: Origin, ghost counted: bool) returns (completed: RunState)
      requires Speaking(o, recorder.log, s, s.text) && s.phase == Persisting && s.text != ""
      requires s.pending.callIds == {} && s.pending.approvals == {} && s.pending.children == {}
      requires counted ==> Counted(recorder.log, s, ledger.used)
      requires At(Planning)
      modifies recorder
      ensures Closed(o, recorder.log, completed)
      ensures counted ==> Counted(recorder.log, s, ledger.used)
      ensures Kept()
    {
      completed := Transition(s, Completed).value;
      ghost var c := RunLog.Commit(completed, TurnCompleted(completed.text), true);
      CompleteCommit(o, recorder.log, s, c);
      if counted { CountCommit(recorder.log, s, ledger.used, c); }
      recorder.Commit(completed, TurnCompleted(completed.text), true);
    }

    method CommitSpeaking(s: RunState, next: RunState, event: Event, ghost o: Origin, ghost said: string, ghost counted: bool)
      requires Speaking(o, recorder.log, s, said) && next.results == s.results
      requires next.modelRounds == s.modelRounds && next.toolCalls == s.toolCalls
      requires (event.AssistantCompleted? || event.PhaseChanged?) && next.phase in {Responding, Persisting}
      requires Follows(s.phase, RunLog.Commit(next, event, false))
      requires counted ==> Counted(recorder.log, s, ledger.used)
      requires At(Planning)
      modifies recorder
      ensures Speaking(o, recorder.log, next, said)
      ensures counted ==> Counted(recorder.log, s, ledger.used) && Counted(recorder.log, next, ledger.used)
      ensures Kept()
    {
      ghost var c := RunLog.Commit(next, event, false);
      SpeakCommit(o, recorder.log, s, said, next, c);
      assert said + "" == said;
      if counted { CountCommit(recorder.log, s, ledger.used, c); }
      recorder.Commit(next, event);
    }

    // -------------------------------------------------------------- stopping

    /** The terminal commit that all three handlers end with. */
    method CommitStop(s: RunState, event: Event, ghost o: Origin, ghost counted: bool)
      requires Path(o.start, recorder.log) && Running(recorder.log)
      requires s.phase in {Cancelled, Failed, Interrupted} && Announces(event, s.phase)
      requires s.phase in Allowed(LastPhase(o.start, recorder.log))
      requires counted ==> Counted(recorder.log, s, ledger.used)
      requires StandsOrHandles(s.phase)
      modifies recorder
      ensures Closed(o, recorder.log, s) && recorder.log == old(recorder.log) + [RunLog.Commit(s, event, true)]
      ensures counted ==> Counted(recorder.log, s, ledger.used)
      ensures Kept()
    {
      ghost var c := RunLog.Commit(s, event, true);
      StopCommit(o, recorder.log, c);
      if counted { CountCommit(recorder.log, s, ledger.used, c); }
      recorder.Commit(s, event, true);
    }

    method FailRun(s: RunState, ghost o: Origin, ghost counted: bool) returns (r: Outcome)
      requires Behind(o.start, recorder.log, s.phase)
      requires counted ==> Counted(recorder.log, s, ledger.used)
      requires StandsOrHandles(Failed)
      modifies recorder
      ensures r.Returned? || r == RaisedLoopFailure(s)
      ensures r.Returned? <==> Failed in Allowed(s.phase)
      ensures r.Returned? ==> Closed(o, recorder.log, r.state) && r.state.phase == Failed
      ensures !r.Returned? ==> recorder.log == old(recorder.log)
      ensures counted ==> Counted(recorder.log, s, ledger.used)
      ensures Kept()
    {
      if Failed !in Allowed(s.phase) { return RaisedLoopFailure(s); }
      var failed := Transition(s, Failed).value;
      if counted { CountSame(recorder.log, s, failed, ledger.used); }
      CommitStop(failed, TurnFailed, o, counted);
      if counted { CountSame(recorder.log, failed, s, ledger.used); }
      r := Returned(failed);
    }

    /** Moves to `target` directly or through the cancelling phase. */
    method StopAt(s: RunState, target: Phase, ghost o: Origin, ghost counted: bool) returns (r: Outcome)
      requires Behind(o.start, recorder.log, s.phase) && target in {Cancelled, Interrupted}
      requires counted ==> Counted(recorder.log, s, ledger.used)
      requires recorder.Trails() && recorder.own.None?
      modifies recorder
      ensures r.Returned? || r == RaisedLoopFailure(s)
      ensures r.Returned? <==> target in Allowed(s.phase) || Cancelling in Allowed(s.phase)
      ensures r.Returned? ==> Closed(o, recorder.log, r.state) && r.state.phase == target
      ensures r.Returned? ==> recorder.log == old(recorder.log) + StopCommits(s, target)
      ensures !r.Returned? ==> recorder.log == old(recorder.log)
      ensures counted ==> Counted(recorder.log, s, ledger.used)
      ensures Kept()
    {
      if target in Allowed(s.phase) {
        BehindAllows(o.start, recorder.log, s.phase, target);
        r := Stop(s, s, target, o, counted);
      } else if Cancelling in Allowed(s.phase) {
        r := StopThroughCancelling(s, target, o, counted);
      } else {
        r := RaisedLoopFailure(s);
      }
    }

    method StopThroughCancelling(s: RunState, target: Phase, ghost o: Origin, ghost counted: bool) returns (r: Outcome)
      requires Behind(o.start, recorder.log, s.phase) && target in {Cancelled, Interrupted}
      requires target !in Allowed(s.phase) && Cancelling in Allowed(s.phase)
      requires counted ==> Counted(recorder.log, s, ledger.used)
      requires recorder.Trails() && recorder.own.None?
      modifies recorder
      ensures r.Returned? && Closed(o, recorder.log, r.state) && r.state.phase == target
      ensures recorder.log == old(recorder.log) + StopCommits(s, target)
      ensures counted ==> Counted(recorder.log, s, ledger.used)
      ensures Kept()
    {
      var moved := EnterCancelling(s, o, counted);
      CancellingLeadsOn(s, moved, target);
      r := Stop(moved, s, target, o, counted);
      TwoAppends(old(recorder.log), StopCommits(s, target)[0], StopCommits(s, target)[1]);
    }

    method EnterCancelling(s: RunState, ghost o: Origin, ghost counted: bool) returns (moved: RunState)
      requires Behind(o.start, recorder.log, s.phase) && Cancelling in Allowed(s.phase)
      requires counted ==> Counted(recorder.log, s, ledger.used)
      requires recorder.Trails() && recorder.own.None?
      modifies recorder
      ensures Ok(moved) == Transition(s, Cancelling)
      ensures recorder.log == old(recorder.log) + [RunLog.Commit(moved, PhaseChanged(s.phase, Cancelling), false)]
      ensures Path(o.start, recorder.log) && Running(recorder.log) && LastPhase(o.start, recorder.log) == Cancelling
      ensures counted ==> Counted(recorder.log, s, ledger.used)
      ensures Kept()
    {
      var r := CommitPhase(s, Cancelling, recorder);
      moved := r.value;
      ghost var c := RunLog.Commit(moved, PhaseChanged(s.phase, Cancelling), false);
      PathExtendOne(o.start, old(recorder.log), c);
      if counted { CountCommit(old(recorder.log), s, ledger.used, c); }
    }

    /** Commits the stop of a run; `own` is the state it was asked for in. */
    method Stop(s: RunState, own: RunState, target: Phase, ghost o: Origin, ghost counted: bool) returns (r: Outcome)
      requires Path(o.start, recorder.log) && Running(recorder.log) && target in {Cancelled, Interrupted}
      requires target in Allowed(s.phase) && target in Allowed(LastPhase(o.start, recorder.log))
      requires s.modelRounds == own.modelRounds && s.toolCalls == own.toolCalls
      requires counted ==> Counted(recorder.log, own, ledger.used)
      requires recorder.Trails() && recorder.own.None?
      modifies recorder
      ensures r.Returned? && Closed(o, recorder.log, r.state) && r.state.phase == target
      ensures recorder.log == old(recorder.log) + [StopEvent(Transition(s, target).value)]
      ensures counted ==> Counted(recorder.log, own, ledger.used)
      ensures Kept()
    {
      var stopped := Transition(s, target).value;
      if counted { CountSame(recorder.log, own, stopped, ledger.used); }
      CommitStop(stopped, if target == Cancelled then TurnCancelled else TurnInterrupted(SafeCheckpoint(stopped)), o, counted);
      if counted { CountSame(recorder.log, stopped, own, ledger.used); }
      r := Returned(stopped);
    }

    method CancelRun(s: RunState, code: CancelCode, ghost o: Origin, ghost counted: bool) returns (r: Outcome)
      requires Behind(o.start, recorder.log, s.phase)
      requires counted ==> Counted(recorder.log, s, ledger.used)
      requires recorder.Trails() && recorder.own.None?
      modifies recorder
      ensures r.Returned? || r == RaisedLoopFailure(s)
      ensures CanStop(s.phase) ==> r.Returned?
      ensures r.Returned? ==> Closed(o, recorder.log, r.state) && r.state.phase == StopPhase(code, depth)
      ensures !r.Returned? ==> recorder.log == old(recorder.log)
      ensures counted ==> Counted(recorder.log, s, ledger.used)
      ensures Kept()
    {
      if code == Deadline {
        r := FailRun(s, o, counted);
      } else {
        var interrupt := code == Shutdown || code == StartFailed || (code == ParentCancelled && depth == 0);
        r := StopAt(s, if interrupt then Interrupted else Cancelled, o, counted);
      }
    }

    // -------------------------------------------------------------- one round

    /** Calls the planner, which charges the rounds of its own retries. */
    method CallPlanner(s: RunState, ghost o: Origin, ghost counted: bool) returns (step: Option<PlanningStep>, raised: Option<Exn>)
      requires WithinBudget() && AtRest(o, recorder.log, s)
      requires counted ==> HonestPlanner(world) && Counted(recorder.log, s, ledger.used)
                           && s.modelRounds + 1 <= ledger.used.modelRounds
      modifies this`awaits, ledger
      ensures Spent() && (step.Some? <==> raised.None?)
      ensures counted ==> Counted(recorder.log, s, ledger.used)
      ensures counted && step.Some? ==> s.modelRounds + |step.value.attempts| <= ledger.used.modelRounds
      ensures counted && raised.Some? ==> s.modelRounds + |Audited(raised.value)| <= ledger.used.modelRounds
      ensures Sourced(raised)
      ensures PlannerBreaks(world, ledger.limits) ==> raised == Some(OtherLoopFailure)
    {
      var planned := world.plan(awaits);
      SolitaryEverywhere(world, awaits);
      PlannerBreaksEverywhere(world, ledger.limits, awaits);
      var affordable := Charge(ZERO.(modelRounds := planned.rounds));
      ghost var charged := ledger.used;
      if counted { assert |Charges(planned)| <= 1 + planned.rounds; }
      raised := Await();
      if counted { Grow(old(ledger.used), ledger.used, recorder.log, s); }
      step := None;
      if raised.Some? { return; }
      if !affordable { return None, Some(Failure([])); }
      if planned.PlanRaises? { return None, Some(planned.exn); }
      step := Some(planned.step);
    }

    /** Everything from a charged round to the planner's accepted answer. */
    method PlanRound(s: RunState, ghost o: Origin, ghost counted: bool) returns (step: Option<PlanningStep>, raised: Option<Exn>)
      requires WithinBudget() && AtRest(o, recorder.log, s)
      requires counted ==> HonestPlanner(world) && Counted(recorder.log, s, ledger.used)
                           && s.modelRounds + 1 <= ledger.used.modelRounds
      modifies this`awaits, ledger
      ensures Spent() && (step.Some? <==> raised.None?)
      ensures counted ==> Counted(recorder.log, s, ledger.used)
      ensures counted && step.Some? ==> s.modelRounds + |step.value.attempts| <= ledger.used.modelRounds
      ensures counted && raised.Some? ==> s.modelRounds + |Audited(raised.value)| <= ledger.used.modelRounds
      ensures Sourced(raised)
      ensures PlannerBreaks(world, ledger.limits) ==> raised == Some(OtherLoopFailure)
    {
      step := None;
      ghost var used := ledger.used;
      raised := Await();                       // BeforeModel Hook
      if counted { Grow(used, ledger.used, recorder.log, s); }
      if raised.Some? { return; }
      step, raised := CallPlanner(s, o, counted);
      if raised.Some? { return; }
      used := ledger.used;
      raised := Await();                       // AfterModel Hook
      if counted { Grow(used, ledger.used, recorder.log, s); }
      if raised.Some? { step := None; }
    }

    /** Acts on a planned step: records its attempts, discards it when steering
        arrived meanwhile, and otherwise responds or runs its calls. */
    method Act(s0: RunState, step: PlanningStep, ghost o: Origin, ghost counted: bool) returns (s: RunState, end: RoundEnd)
      requires WithinBudget() && AtRest(o, recorder.log, s0) && s0.phase == Planning
      requires counted ==> Counted(recorder.log, s0, ledger.used)
                           && s0.modelRounds + |step.attempts| <= ledger.used.modelRounds
      requires At(s0.phase)
      modifies this`awaits, ledger, recorder
      ensures Spent()
      ensures end.Again? ==> AtRest(o, recorder.log, s) && s.phase == Planning
      ensures end.Done? ==> Closed(o, recorder.log, end.result)
      ensures end.Raised? ==> Behind(o.start, recorder.log, s.phase) && Stoppable(s.phase)
      ensures counted ==> Counted(recorder.log, s, ledger.used)
      ensures At(s.phase) && EndSourced(end)
    {
      s := s0;
      RestIsBehind(o, recorder.log, s);
      if step.attempts == [] { return s, Raised(Failure([])); }
      s := RecordPlanningAttempts(s, step.attempts, o, counted);
      var steered, raised;
      s, steered, raised := ApplyRunControls(s, o, counted);
      RestIsBehind(o, recorder.log, s);
      if raised.Some? { return s, Raised(raised.value); }
      if steered { return s, Again; }
      s, end := Decide(s, step, o, counted);
    }

    method Decide(s0: RunState, step: PlanningStep, ghost o: Origin, ghost counted: bool) returns (s: RunState, end: RoundEnd)
      requires WithinBudget() && AtRest(o, recorder.log, s0) && s0.phase == Planning
      requires counted ==> Counted(recorder.log, s0, ledger.used)
      requires At(s0.phase)
      modifies this`awaits, ledger, recorder
      ensures Spent()
      ensures end.Again? ==> AtRest(o, recorder.log, s) && s.phase == Planning
      ensures end.Done? ==> Closed(o, recorder.log, end.result)
      ensures end.Raised? ==> Behind(o.start, recorder.log, s.phase) && Stoppable(s.phase)
      ensures counted ==> Counted(recorder.log, s, ledger.used)
      ensures At(s.phase) && EndSourced(end)
    {
      s := s0;
      if step.requiresWrite { s := DemandWrite(s, o, counted); }
      if step.calls != [] {
        s, end := RunCalls(s, step.calls, o, counted);
        return;
      }
      var ready, blockers := EvaluateResponseReadiness(s);
      if ready {
        end := CompleteWithResponse(s, step.response.value, o, counted);
        return;
      }
      CommitAtRest(s, s, ContinuationRequired(blockers), o, counted);
      end := Again;
    }

    method DemandWrite(s0: RunState, ghost o: Origin, ghost counted: bool) returns (s: RunState)
      requires AtRest(o, recorder.log, s0) && s0.phase == Planning
      requires counted ==> Counted(recorder.log, s0, ledger.used)
      requires At(s0.phase)
      modifies recorder
      ensures AtRest(o, recorder.log, s) && s == RequireWriteOutcome(s0, "planner.requires_write_outcome")
      ensures recorder.log == old(recorder.log) + [RunLog.Commit(s, WriteOutcomeRequired, false)]
      ensures counted ==> Counted(recorder.log, s, ledger.used)
      ensures Kept()
    {
      s := RequireWriteOutcome(s0, "planner.requires_write_outcome");
      DemandCommit(o, recorder.log, s0, "planner.requires_write_outcome");
      if counted { CountCommit(recorder.log, s0, ledger.used, RunLog.Commit(s, WriteOutcomeRequired, false)); }
      recorder.Commit(s, WriteOutcomeRequired);
    }

    /** One turn of the loop. `inFlight` says that an exception struck while the
        planner was at work, so that its audited attempts are still to record. */
    method Round(s0: RunState, ghost o: Origin, ghost counted: bool) returns (s: RunState, end: RoundEnd, inFlight: bool)
      requires WithinBudget() && AtRest(o, recorder.log, s0) && s0.phase == Planning
      requires counted ==> HonestPlanner(world) && Counted(recorder.log, s0, ledger.used)
      requires At(s0.phase)
      modifies this`awaits, ledger, recorder
      ensures Spent()
      ensures end.Again? ==> AtRest(o, recorder.log, s) && s.phase == Planning
      ensures end.Again? ==> old(ledger.used).modelRounds < ledger.used.modelRounds
      ensures end.Done? ==> Closed(o, recorder.log, end.result)
      ensures end.Raised? ==> Behind(o.start, recorder.log, s.phase) && Stoppable(s.phase)
      ensures end.Raised? && inFlight ==> AtRest(o, recorder.log, s) && s.phase == Planning
      ensures counted ==> Counted(recorder.log, s, ledger.used)
      ensures counted && end.Raised? && inFlight ==> s.modelRounds + |Audited(end.exn)| <= ledger.used.modelRounds
      ensures At(s.phase) && EndSourced(end)
      ensures old(Breaks()) ==> end == Raised(OtherLoopFailure)
    {
      s, inFlight := s0, false;
      var ready;
      s, ready := OpenRound(s0, o, counted);
      RestIsBehind(o, recorder.log, s);
      if ready.Some? { return s, Raised(ready.value), false; }
      ghost var used := ledger.used;
      var charged := Charge(ONE_ROUND);
      if counted { Grow(used, ledger.used, recorder.log, s); }
      if !charged {
        var stopped := FailRun(s, o, counted);
        return s, Done(stopped.state), false;
      }
      var step, raised := PlanRound(s, o, counted);
      RestIsBehind(o, recorder.log, s);
      if raised.Some? { return s, Raised(raised.value), true; }
      s, end := Act(s, step.value, o, counted);
    }

    /** The checkpoint, the steering inbox and the wall-clock test. */
    method OpenRound(s0: RunState, ghost o: Origin, ghost counted: bool) returns (s: RunState, raised: Option<Exn>)
      requires WithinBudget() && AtRest(o, recorder.log, s0) && s0.phase == Planning
      requires counted ==> Counted(recorder.log, s0, ledger.used)
      requires At(s0.phase)
      modifies this`awaits, ledger, recorder
      ensures Spent() && AtRest(o, recorder.log, s) && s.phase == Planning
      ensures counted ==> Counted(recorder.log, s, ledger.used)
      ensures Kept() && Sourced(raised) && Quiet(raised)
    {
      s := s0;
      ghost var used := ledger.used;
      raised := Await();
      if counted { Grow(used, ledger.used, recorder.log, s); }
      if raised.Some? { return; }
      var steered;
      s, steered, raised := ApplyRunControls(s, o, counted);
      if raised.Some? { return; }
      used := ledger.used;
      raised := Await();
      if counted { Grow(used, ledger.used, recorder.log, s); }
    }

    /** The loop proper. Every turn charges one model round, so the rounds left
        in the budget bound the number of turns for every planner. */
    method Rounds(s0: RunState, ghost o: Origin, ghost counted: bool) returns (s: RunState, end: RoundEnd, inFlight: bool)
      requires WithinBudget() && AtRest(o, recorder.log, s0) && s0.phase == Planning
      requires counted ==> HonestPlanner(world) && Counted(recorder.log, s0, ledger.used)
      requires At(s0.phase)
      modifies this`awaits, ledger, recorder
      ensures Spent() && !end.Again?
      ensures end.Done? ==> Closed(o, recorder.log, end.result)
      ensures end.Raised? ==> Behind(o.start, recorder.log, s.phase) && Stoppable(s.phase)
      ensures end.Raised? && inFlight ==> AtRest(o, recorder.log, s) && s.phase == Planning
      ensures counted ==> Counted(recorder.log, s, ledger.used)
      ensures counted && end.Raised? && inFlight ==> s.modelRounds + |Audited(end.exn)| <= ledger.used.modelRounds
      ensures At(s.phase) && EndSourced(end)
      ensures old(Breaks()) ==> end == Raised(OtherLoopFailure)
    {
      s := s0;
      while true
        invariant Spent() && AtRest(o, recorder.log, s) && s.phase == Planning && At(s.phase)
        invariant old(Breaks()) ==> Breaks()
        invariant counted ==> HonestPlanner(world) && Counted(recorder.log, s, ledger.used)
        decreases ledger.limits.modelRounds - ledger.used.modelRounds
      {
        s, end, inFlight := Round(s, o, counted);
        if !end.Again? { return; }
      }
    }

    // -------------------------------------------------------------- starting

    /** A fresh run up to its first planning phase. */
    method Prepare(s0: RunState, ghost o: Origin, ghost counted: bool) returns (s: RunState, raised: Option<Exn>)
      requires WithinBudget() && AtRest(o, recorder.log, s0) && s0.phase == Created
      requires counted ==> Counted(recorder.log, s0, ledger.used)
      requires At(s0.phase)
      modifies this`awaits, ledger, recorder
      ensures Spent() && CanStop(s.phase) && Behind(o.start, recorder.log, s.phase)
      ensures raised.None? ==> AtRest(o, recorder.log, s) && s.phase == Planning
      ensures counted ==> Counted(recorder.log, s, ledger.used)
      ensures At(s.phase) && Sourced(raised) && Quiet(raised)
    {
      s := s0;
      RestIsBehind(o, recorder.log, s);
      PhasesStop(s.phase);
      raised := Pauses(s, 2, o, counted);            // checkpoint, TurnStart Hook
      if raised.Some? { return; }
      s, raised := LoadAndPlan(s, o, counted);
      PhasesStop(s.phase);
      RestIsBehind(o, recorder.log, s);
    }

    method LoadAndPlan(s0: RunState, ghost o: Origin, ghost counted: bool) returns (s: RunState, raised: Option<Exn>)
      requires WithinBudget() && AtRest(o, recorder.log, s0) && s0.phase == Created
      requires counted ==> Counted(recorder.log, s0, ledger.used)
      requires At(s0.phase)
      modifies this`awaits, ledger, recorder
      ensures Spent() && AtRest(o, recorder.log, s)
      ensures s.phase in if raised.None? then {Planning} else {LoadingContext, SelectingMemory}
      ensures counted ==> Counted(recorder.log, s, ledger.used)
      ensures At(s.phase) && Sourced(raised) && Quiet(raised)
    {
      s, raised := Enter(s0, LoadingContext, o, counted);
      if raised.Some? { return; }
      s, raised := SelectAndPlan(s, o, counted);
    }

    method SelectAndPlan(s0: RunState, ghost o: Origin, ghost counted: bool) returns (s: RunState, raised: Option<Exn>)
      requires WithinBudget() && AtRest(o, recorder.log, s0) && s0.phase == LoadingContext
      requires counted ==> Counted(recorder.log, s0, ledger.used)
      requires At(s0.phase)
      modifies this`awaits, ledger, recorder
      ensures Spent() && AtRest(o, recorder.log, s) && s.phase == if raised.None? then Planning else SelectingMemory
      ensures counted ==> Counted(recorder.log, s, ledger.used)
      ensures At(s.phase) && Sourced(raised) && Quiet(raised)
    {
      s, raised := Enter(s0, SelectingMemory, o, counted);
      if raised.Some? { return; }
      s := MoveOwn(s, Planning, o, counted);
    }

    /** Enters a preparation phase and runs its preparation. */
    method Enter(s0: RunState, target: Phase, ghost o: Origin, ghost counted: bool) returns (s: RunState, raised: Option<Exn>)
      requires WithinBudget() && AtRest(o, recorder.log, s0) && target in Allowed(s0.phase) && !target.Terminal()
      requires counted ==> Counted(recorder.log, s0, ledger.used)
      requires At(s0.phase) && StandsBehind(s0.phase, target)
      modifies this`awaits, ledger, recorder
      ensures Spent() && AtRest(o, recorder.log, s) && s.phase == target
      ensures counted ==> Counted(recorder.log, s, ledger.used)
      ensures At(s.phase) && Sourced(raised) && Quiet(raised)
    {
      s := MoveOwn(s0, target, o, counted);
      raised := Pause(s, o, counted);
    }

    method Pause(s: RunState, ghost o: Origin, ghost counted: bool) returns (raised: Option<Exn>)
      requires WithinBudget()
      requires counted ==> Counted(recorder.log, s, ledger.used)
      modifies this`awaits, ledger
      ensures Spent()
      ensures counted ==> Counted(recorder.log, s, ledger.used)
      ensures Sourced(raised) && Quiet(raised)
    {
      raised := Await();
      if counted { Grow(old(ledger.used), ledger.used, recorder.log, s); }
    }

    method Pauses(s: RunState, count: nat, ghost o: Origin, ghost counted: bool) returns (raised: Option<Exn>)
      requires WithinBudget()
      requires counted ==> Counted(recorder.log, s, ledger.used)
      modifies this`awaits, ledger
      ensures Spent()
      ensures counted ==> Counted(recorder.log, s, ledger.used)
      ensures Sourced(raised) && Quiet(raised)
    {
      raised := None;
      for i := 0 to count
        invariant Spent() && raised.None? && Quiet(raised)
        invariant counted ==> Counted(recorder.log, s, ledger.used)
      {
        raised := Pause(s, o, counted);
        if raised.Some? { return; }
      }
    }

    /** A recovered run up to its first planning phase: finishes the batch that
        was open when the run stopped. The loop's own state stays the recovered
        one until the batch is finished. */
    method ResumeBatch(initial: RunState, recovered: RecoveredBatch, ghost o: Origin, ghost base: seq<ToolResult>, ghost counted: bool)
      returns (s: RunState, raised: Option<Exn>)
      requires WithinBudget() && InFlight(o, base, recovered.accepted, recorder.log, initial)
      requires counted ==> Counted(recorder.log, initial, ledger.used)
      requires At(initial.phase)
      modifies this`awaits, ledger, recorder
      ensures Spent()
      ensures raised.None? ==> AtRest(o, recorder.log, s) && s.phase == Planning && ResumePhase(initial.phase)
      ensures raised.Some? ==> s == initial && Behind(o.start, recorder.log, s.phase)
      ensures counted ==> Counted(recorder.log, s, ledger.used)
      ensures At(s.phase) && Sourced(raised)
    {
      s := initial;
      if !ResumePhase(s.phase) || s.pending.children != {} || s.pending.calls != recovered.replay
         || s.pending.callIds != Called(recovered.replay) {
        return s, Some(Failure([]));
      }
      var running, failure := CheckAndReplay(s, recovered, o, base, counted);
      if counted { CountSame(recorder.log, running, initial, ledger.used); }
      s, raised := SettleReplay(initial, running, failure, recovered, o, base, counted);
    }

    method SettleReplay(
      initial: RunState, running: RunState, failure: Option<Exn>, recovered: RecoveredBatch, ghost o: Origin,
      ghost base: seq<ToolResult>, ghost counted: bool)
      returns (s: RunState, raised: Option<Exn>)
      requires InFlight(o, base, recovered.accepted, recorder.log, running) && BatchPhase(running.phase)
      requires failure.None? ==> running.pending.callIds == {} && running.pending.approvals == {}
      requires ResumePhase(initial.phase)
      requires counted ==> Counted(recorder.log, initial, ledger.used) && Counted(recorder.log, running, ledger.used)
      requires At(initial.phase) && Sourced(failure)
      modifies recorder
      ensures raised.None? ==> AtRest(o, recorder.log, s) && s.phase == Planning
      ensures raised.Some? ==> s == initial && Behind(o.start, recorder.log, s.phase)
      ensures counted ==> Counted(recorder.log, s, ledger.used)
      ensures At(s.phase) && Sourced(raised)
    {
      if failure.Some? {
        BatchIsBehind(o, base, recovered.accepted, recorder.log, running, initial.phase);
        return initial, failure;
      }
      s := CloseReplay(running, recovered, o, base, counted);
      recorder.own := Some(s.phase);
      raised := None;
    }

    /** Passes the policy check that the run had not reached, then replays. */
    method CheckAndReplay(s: RunState, recovered: RecoveredBatch, ghost o: Origin, ghost base: seq<ToolResult>, ghost counted: bool)
      returns (running: RunState, failure: Option<Exn>)
      requires WithinBudget() && InFlight(o, base, recovered.accepted, recorder.log, s) && ResumePhase(s.phase)
      requires counted ==> Counted(recorder.log, s, ledger.used)
      requires Waits()
      modifies this`awaits, ledger, recorder
      ensures Spent() && InFlight(o, base, recovered.accepted, recorder.log, running) && BatchPhase(running.phase)
      ensures running.modelRounds == s.modelRounds && running.toolCalls == s.toolCalls
      ensures failure.None? ==> running.pending.callIds == {} && running.pending.approvals == {}
      ensures counted ==> Counted(recorder.log, running, ledger.used)
      ensures Kept() && Sourced(failure)
    {
      running := s;
      if s.phase == ValidatingCalls {
        running := MoveInFlight(s, CheckingPolicy, o, base, recovered.accepted, counted);
      }
      running, failure := Replay(running, recovered, o, base, counted);
    }

    method CloseReplay(s0: RunState, recovered: RecoveredBatch, ghost o: Origin, ghost base: seq<ToolResult>, ghost counted: bool)
      returns (s: RunState)
      requires InFlight(o, base, recovered.accepted, recorder.log, s0) && BatchPhase(s0.phase)
      requires s0.pending.callIds == {} && s0.pending.approvals == {}
      requires counted ==> Counted(recorder.log, s0, ledger.used)
      requires Waits()
      modifies recorder
      ensures AtRest(o, recorder.log, s) && s.phase == Planning
      ensures counted ==> Counted(recorder.log, s, ledger.used)
      ensures Kept()
    {
      s := s0;
      if s.phase != RecordingResults {
        BatchesClose(s.phase);
        s := MoveInFlight(s, RecordingResults, o, base, recovered.accepted, counted);
      }
      s := RestoreAndPlan(s, recovered.accepted, o, base, counted);
    }

    method Replay(s: RunState, recovered: RecoveredBatch, ghost o: Origin, ghost base: seq<ToolResult>, ghost counted: bool)
      returns (after: RunState, failure: Option<Exn>)
      requires WithinBudget() && InFlight(o, base, recovered.accepted, recorder.log, s) && BatchPhase(s.phase)
      requires counted ==> Counted(recorder.log, s, ledger.used)
      requires Waits()
      modifies this`awaits, ledger, recorder
      ensures Spent() && InFlight(o, base, recovered.accepted, recorder.log, after) && BatchPhase(after.phase)
      ensures SameRun(s, after)
      ensures failure.None? ==> after.pending.callIds == {} && after.pending.approvals == {}
      ensures counted ==> Counted(recorder.log, after, ledger.used)
      ensures Kept() && Sourced(failure)
    {
      after := s;
      if recovered.replay != [] {
        var end;
        after, end := ExecuteBatch(s, o, base, recovered.accepted, counted);
        if counted { CountSame(recorder.log, s, after, ledger.used); }
        if end.BatchRaises? { return after, Some(end.exn); }
        if end.ids != CallIds(recovered.replay) { return after, Some(Failure([])); }
      }
      failure := if after.pending.callIds != {} || after.pending.approvals != {} then Some(Failure([])) else None;
    }

    /** The handlers of the loop's try statement, in their order. */
    method Handle(s0: RunState, exn: Exn, inFlight: bool, ghost o: Origin, ghost counted: bool) returns (r: Outcome)
      requires Behind(o.start, recorder.log, s0.phase)
      requires inFlight ==> AtRest(o, recorder.log, s0) && s0.phase == Planning
      requires counted ==> Counted(recorder.log, s0, ledger.used)
      requires counted && inFlight ==> s0.modelRounds + |Audited(exn)| <= ledger.used.modelRounds
      requires At(s0.phase)
      modifies recorder
      ensures Lawful(o, recorder.log)
      ensures CanStop(s0.phase) ==> (Ended(recorder.log) <==> !exn.OtherLoopFailure?)
      ensures !r.Rejected? && (exn.OtherLoopFailure? <==> r == RaisedOtherLoopFailure)
      ensures r.Returned? ==> Closed(o, recorder.log, r.state)
      ensures CanStop(s0.phase) && exn.OperationCancelled? ==> r.Returned? && r.state.phase == StopPhase(exn.code, depth)
      ensures CanStop(s0.phase) && exn.NativeCancelled? ==> r.Returned? && r.state.phase == Interrupted
      ensures CanStop(s0.phase) && exn.Failure? ==> r.RaisedLoopFailure? && r.state.phase == Failed
      ensures counted ==> forall c :: c in recorder.log ==> CountedState(c.state, ledger.used)
      ensures recorder.Trails()
    {
      RunningIsNotEnded(recorder.log);
      recorder.own := None;
      match exn
      case OperationCancelled(code) => r := CancelRun(s0, code, o, counted);
      case NativeCancelled => r := StopAt(s0, Interrupted, o, counted);
      case OtherLoopFailure => r := RaisedOtherLoopFailure;
      case Failure(attempts) =>
        var s := s0;
        if inFlight && attempts != [] {
          s := RecordPlanningAttempts(s, attempts, o, counted);
          RestIsBehind(o, recorder.log, s);
        }
        var failed := FailRun(s, o, counted);
        RunningIsNotEnded(recorder.log);
        r := if failed.Returned? then RaisedLoopFailure(failed.state) else failed;
    }

    predicate MatchesLedger(c: BudgetCheckpoint)
      reads ledger
    {
      && ledger.limits == c.limits && ledger.startedAt == c.startedAt
      && ledger.used == c.used && ledger.reserved == c.reserved
      && (if c.capturedAt < ledger.startedAt then 0 else c.capturedAt - ledger.startedAt) == c.elapsed
    }

    /** The whole run. `base` are the results that precede the recovered batch,
        or all results of a fresh run's initial state; `hooks` and `hookContext`
        say whether Hooks and their context are configured. */
    method Run(
      initial: RunState, recovered: Option<RecoveredBatch>, checkpoint: Option<BudgetCheckpoint>, hooks: bool,
      hookContext: bool, ghost base: seq<ToolResult>, ghost counted: bool)
      returns (r: Outcome)
      requires recorder.log == [] && WithinBudget()
      requires Conserved(initial) && (initial.obligation.reasons != [] ==> initial.obligation.required)
      requires recovered.None? ==> initial.pending.callIds == {} && base == initial.results
      requires recovered.Some? ==> InBatch(base, recovered.value.accepted, initial)
      requires counted ==> HonestPlanner(world) && CountedState(initial, ledger.used)
      modifies this`awaits, ledger, recorder
      // A run is rejected before its first event, or it is lawful.
      ensures r.Rejected? <==> (hooks && !hookContext) || (recovered.None? && initial.phase != Created)
                               || (recovered.Some? && (checkpoint.None? || !old(MatchesLedger(checkpoint.value))))
      ensures r.Rejected? ==> recorder.log == []
      ensures Lawful(OriginOf(initial, recovered, base), recorder.log)
      // Exactly one terminal event, last, unless another run's failure passed through,
      // which takes a world that holds one.
      ensures !r.Rejected? && (recovered.None? || ResumePhase(initial.phase)) ==>
                (Ended(recorder.log) <==> !r.RaisedOtherLoopFailure?)
      ensures !r.Rejected? && (recovered.None? || ResumePhase(initial.phase)) && Solitary(world) ==> Ended(recorder.log)
      ensures r.Returned? ==> Closed(OriginOf(initial, recovered, base), recorder.log, r.state)
      // Rounds and calls never exceed what the budget used, nor that its limits.
      ensures WithinBudget()
      ensures counted ==> forall c :: c in recorder.log ==> CountedState(c.state, ledger.used)
      ensures !r.Rejected? ==> Trail(recorder.owns, recorder.log)
      ensures r.RaisedOtherLoopFailure? ==> !Solitary(world)
      ensures recovered.None? && !r.Rejected? && old(Breaks()) ==> r.RaisedOtherLoopFailure?
    {
      if hooks && !hookContext { return Rejected; }
      if recovered.None? && initial.phase != Created { return Rejected; }
      if recovered.Some? && (checkpoint.None? || !MatchesLedger(checkpoint.value)) { return Rejected; }
      r := Drive(initial, recovered, OriginOf(initial, recovered, base), base, counted);
    }

    /** The loop's try statement and its handlers. */
    method Drive(
      initial: RunState, recovered: Option<RecoveredBatch>, ghost o: Origin, ghost base: seq<ToolResult>,
      ghost counted: bool)
      returns (r: Outcome)
      requires recorder.log == [] && WithinBudget()
      requires Conserved(initial) && (initial.obligation.reasons != [] ==> initial.obligation.required)
      requires recovered.None? ==> initial.phase == Created && initial.pending.callIds == {} && base == initial.results
      requires recovered.Some? ==> InBatch(base, recovered.value.accepted, initial)
      requires o == OriginOf(initial, recovered, base)
      requires counted ==> HonestPlanner(world) && CountedState(initial, ledger.used)
      modifies this`awaits, ledger, recorder
      ensures !r.Rejected? && Lawful(o, recorder.log) && WithinBudget()
      ensures recovered.None? || ResumePhase(initial.phase) ==> (Ended(recorder.log) <==> !r.RaisedOtherLoopFailure?)
      ensures r.Returned? ==> Closed(o, recorder.log, r.state)
      ensures counted ==> forall c :: c in recorder.log ==> CountedState(c.state, ledger.used)
      ensures Trail(recorder.owns, recorder.log)
      ensures r.RaisedOtherLoopFailure? ==> !Solitary(world)
      ensures recovered.None? && old(Breaks()) ==> r.RaisedOtherLoopFailure?
    {
      recorder.own, recorder.owns := Some(initial.phase), [];
      var s, raised := Begin(initial, recovered, o, base, counted);
      var exn, inFlight;
      if raised.Some? {
        exn, inFlight := raised.value, false;
      } else {
        var end;
        s, end, inFlight := Rounds(s, o, counted);
        if end.Done? { return Returned(end.result); }
        exn := end.exn;
      }
      r := Handle(s, exn, inFlight, o, counted);
    }

    method Begin(
      initial: RunState, recovered: Option<RecoveredBatch>, ghost o: Origin, ghost base: seq<ToolResult>,
      ghost counted: bool)
      returns (s: RunState, raised: Option<Exn>)
      requires recorder.log == [] && WithinBudget()
      requires Conserved(initial) && (initial.obligation.reasons != [] ==> initial.obligation.required)
      requires recovered.None? ==> initial.phase == Created && initial.pending.callIds == {} && base == initial.results
      requires recovered.Some? ==> InBatch(base, recovered.value.accepted, initial)
      requires o == OriginOf(initial, recovered, base)
      requires counted ==> HonestPlanner(world) && CountedState(initial, ledger.used)
      requires At(initial.phase)
      modifies this`awaits, ledger, recorder
      ensures Spent() && Behind(o.start, recorder.log, s.phase)
      ensures raised.None? ==> AtRest(o, recorder.log, s) && s.phase == Planning
      ensures recovered.None? || ResumePhase(initial.phase) ==> CanStop(s.phase)
      ensures counted ==> Counted(recorder.log, s, ledger.used)
      ensures At(s.phase) && Sourced(raised)
      ensures recovered.None? ==> Quiet(raised)
    {
      if recovered.None? {
        FreshAtRest(initial, base);
        s, raised := Prepare(initial, o, counted);
      } else {
        RecoveredInFlight(initial, recovered.value, base);
        s, raised := PrepareRecovered(initial, recovered.value, o, base, counted);
        if raised.None? { RestIsBehind(o, recorder.log, s); }
        if ResumePhase(initial.phase) { PhasesStop(s.phase); }
      }
    }

    method PrepareRecovered(
      initial: RunState, recovered: RecoveredBatch, ghost o: Origin, ghost base: seq<ToolResult>, ghost counted: bool)
      returns (s: RunState, raised: Option<Exn>)
      requires WithinBudget() && InFlight(o, base, recovered.accepted, recorder.log, initial)
      requires counted ==> Counted(recorder.log, initial, ledger.used)
      requires At(initial.phase)
      modifies this`awaits, ledger, recorder
      ensures Spent()
      ensures raised.None? ==> AtRest(o, recorder.log, s) && s.phase == Planning && ResumePhase(initial.phase)
      ensures raised.Some? ==> s == initial && Behind(o.start, recorder.log, s.phase)
      ensures counted ==> Counted(recorder.log, s, ledger.used)
      ensures At(s.phase) && Sourced(raised)
    {
      s := initial;
      raised := Pauses(s, 4, o, counted);            // checkpoint, TurnStart Hook, two preparations
      if raised.Some? { return; }
      s, raised := ResumeBatch(initial, recovered, o, base, counted);
    }
  }

  /** A run that ends without a terminal event: its planner passes on the loop
      failure of another run in the first round. */
  method PlannerPassesFailureOn(initial: RunState, limits: BudgetDelta) returns (recorder: Recorder, r: Outcome)
    requires initial.phase == Created && Conserved(initial) && initial.pending.callIds == {}
    requires initial.obligation.reasons != [] ==> initial.obligation.required
    requires limits.modelRounds >= 1
    ensures r == RaisedOtherLoopFailure && Running(recorder.log)
  {
    var run := BrokenRun(limits, BrokenByPlanner(limits));
    recorder := run.recorder;
    r := run.Run(initial, None, None, false, false, initial.results, false);
    LawfulUnended(OriginOf(initial, None, initial.results), recorder.log);
  }

  lemma LawfulUnended(o: Origin, log: seq<Commit>)
    requires Lawful(o, log) && !Ended(log)
    ensures Running(log)
  {
  }

  lemma FreshLedgerHasRoom(limits: BudgetDelta)
    requires limits.modelRounds >= 1
    ensures Add(ZERO, ZERO).Fits(limits) && Add(Add(ZERO, ZERO), ONE_ROUND).Fits(limits)
  {
  }

  lemma FreshRunBreaks(run: AgentRun)
    requires run.ledger.limits.modelRounds >= 1 && PlannerBreaks(run.world, run.ledger.limits)
    requires run.ledger.used == ZERO && run.ledger.reserved == ZERO
    ensures run.WithinBudget() && run.Breaks()
  {
    FreshLedgerHasRoom(run.ledger.limits);
  }

  method BrokenRun(limits: BudgetDelta, world: World) returns (run: AgentRun)
    requires limits.modelRounds >= 1 && PlannerBreaks(world, limits)
    ensures fresh(run) && fresh(run.recorder) && fresh(run.ledger)
    ensures run.recorder.log == [] && run.WithinBudget() && run.Breaks()
  {
    var recorder := new Recorder();
    var ledger := new BudgetLedger(limits, 0);
    run := new AgentRun(world, recorder, ledger, 0);
    FreshRunBreaks(run);
  }

  function BrokenByPlanner(limits: BudgetDelta): (world: World)
    ensures PlannerBreaks(world, limits)
  {
    var beyond: BudgetDelta := limits.(modelRounds := limits.modelRounds + 1);
    World(_ => None, _ => [], _ => PlanRaises(OtherLoopFailure, 0), _ => Batch([], BatchReturns([])), _ => (beyond, ZERO))
  }

  /** The terminal phase of a run stopped by a cancellation code: a deadline
      fails it, a shutdown interrupts it, and so does a parent's cancellation
      of a root run; anything else cancels it. */
  function StopPhase(code: CancelCode, depth: nat): Phase {
    match code
    case Deadline => Failed
    case Shutdown => Interrupted
    case StartFailed => Interrupted
    case ParentCancelled => if depth == 0 then Interrupted else Cancelled
    case UserCancelled => Cancelled
  }

  predicate SafeCheckpoint(s: RunState) {
    s.pending.callIds == {} && s.pending.approvals == {} && s.pending.children == {}
  }

  ghost function OriginOf(initial: RunState, recovered: Option<RecoveredBatch>, base: seq<ToolResult>): Origin {
    var order := match recovered
      case None => ResultIds(initial.results)
      case Some(batch) => ResultIds(base) + batch.accepted;
    Origin(initial.phase, initial.obligation, order)
  }

  lemma FreshAtRest(initial: RunState, base: seq<ToolResult>)
    requires Conserved(initial) && initial.pending.callIds == {} && base == initial.results
    requires initial.obligation.reasons != [] ==> initial.obligation.required
    ensures AtRest(OriginOf(initial, None, base), [], initial)
  {
  }

  lemma RecoveredInFlight(initial: RunState, recovered: RecoveredBatch, base: seq<ToolResult>)
    requires InBatch(base, recovered.accepted, initial)
    requires initial.obligation.reasons != [] ==> initial.obligation.required
    ensures InFlight(OriginOf(initial, Some(recovered), base), base, recovered.accepted, [], initial)
  {
  }
}
