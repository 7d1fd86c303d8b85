/** The events that one agent run commits, and the properties of whole logs:
    the committed phases form a path in the transition table, a terminal event
    is the last one, deltas are contiguous, and every write outcome that a
    state remembers is backed by a committed tool result. */
module RunLog {
  import opened Outcomes
  import opened RunStates

  datatype Blocker = ToolCallsPending | ApprovalsPending | ChildRunsPending | WriteOutcomeMissing

  datatype Event =
    | PhaseChanged(previous: Phase, phase: Phase)
    | TurnSteered(message: Id)
    | ModelAttempt(request: Id)
    | WriteOutcomeRequired
    | CallsAccepted(ids: seq<Id>)
    | ApprovalRequired(approval: Id)
    | ApprovalResolved(approval: Id)
    | ToolStarted(call: Id)
    | ToolRecorded(definition: ToolDefinition, result: ToolResult)
    | ContinuationRequired(blockers: seq<Blocker>)
    | AssistantDelta(offset: nat, delta: string)
    | AssistantCompleted(content: string)
    | TurnCompleted(content: string)
    | TurnFailed
    | TurnCancelled
    | TurnInterrupted(safeCheckpoint: bool)

  datatype Commit = Commit(state: RunState, event: Event, terminal: bool)

  /** The terminal event that announces a terminal phase. */
  predicate Announces(e: Event, p: Phase) {
    match p
    case Completed => e.TurnCompleted?
    case Cancelled => e.TurnCancelled?
    case Failed => e.TurnFailed?
    case Interrupted => e.TurnInterrupted?
    case _ => false
  }

  /** One commit after a commit in phase `before`: it stays in that phase, or
      it announces a move that the transition table allows. */
  predicate Follows(before: Phase, c: Commit) {
    if c.terminal then c.state.phase in Allowed(before) && Announces(c.event, c.state.phase)
    else if c.event.PhaseChanged? then
      c.state.phase in Allowed(before) && c.event.phase == c.state.phase && !c.state.phase.Terminal()
    else c.state.phase == before && !before.Terminal()
  }

  function LastPhase(start: Phase, log: seq<Commit>): Phase {
    if log == [] then start else log[|log| - 1].state.phase
  }

  ghost predicate Path(start: Phase, log: seq<Commit>) {
    forall i :: 0 <= i < |log| ==> Follows(LastPhase(start, log[..i]), log[i])
  }

  ghost predicate Running(log: seq<Commit>) {
    forall c :: c in log ==> !c.terminal
  }

  /** Exactly one terminal event, and it comes last. */
  ghost predicate Ended(log: seq<Commit>) {
    |log| > 0 && log[|log| - 1].terminal && Running(log[..|log| - 1])
  }

  lemma PathAppend(start: Phase, log: seq<Commit>, c: Commit)
    requires Path(start, log) && Follows(LastPhase(start, log), c)
    ensures Path(start, log + [c])
  {
    var longer := log + [c];
    forall i | 0 <= i < |longer| ensures Follows(LastPhase(start, longer[..i]), longer[i]) {
      assert longer[..i] == log[..i];
      if i == |log| { assert log[..i] == log; }
    }
  }

  lemma RunningAppend(log: seq<Commit>, c: Commit)
    requires Running(log)
    ensures !c.terminal ==> Running(log + [c])
    ensures c.terminal ==> Ended(log + [c])
  {
    assert (log + [c])[..|log|] == log;
  }

  /** A run that is cut short in a handler leaves a prefix of its log. */
  lemma PrefixIsLawful(start: Phase, log: seq<Commit>, k: nat)
    requires Path(start, log) && (Running(log) || Ended(log)) && k <= |log|
    ensures Path(start, log[..k])
    ensures if k == |log| && Ended(log) then Ended(log[..k]) else Running(log[..k])
  {
    var prefix := log[..k];
    forall i | 0 <= i < k ensures Follows(LastPhase(start, prefix[..i]), prefix[i]) {
      assert prefix[..i] == log[..i];
    }
    if k == |log| {
      assert prefix == log;
    } else {
      forall c | c in prefix ensures !c.terminal {
        var i :| 0 <= i < k && prefix[i] == c;
        assert log[i] in log && log[i] in log[..|log| - 1];
      }
    }
  }

  // ---------------------------------------------------------------- where the loop's state may lag behind the log

  /** From these phases a run may be cancelled, failed or interrupted at once. */
  predicate Stoppable(p: Phase) {
    Cancelling in Allowed(p) && Failed in Allowed(p) && Interrupted in Allowed(p)
  }

  /** The loop's own state may be older than the last commit: its helpers and
      the tool observer commit phases that the loop has not seen when they
      raise. Both phases are then stoppable ones. */
  ghost predicate Behind(start: Phase, log: seq<Commit>, phase: Phase) {
    && Path(start, log)
    && Running(log)
    && (LastPhase(start, log) == phase || (Stoppable(LastPhase(start, log)) && Stoppable(phase)))
  }

  // ---------------------------------------------------------------- the loop's own state at each commit

  /** Where the loop's own state may stand when a commit of the try block has
      just landed: it may be one move or a whole batch behind. */
  predicate StandsBehind(own: Phase, last: Phase) {
    if own == Created then last == Created || last == LoadingContext
    else own != Cancelling && Interrupted in Allowed(own) && last != Created && last != Cancelling
  }

  /** The same for one commit; a terminal one may be in any phase. */
  predicate StandsAt(own: Phase, c: Commit) {
    if c.terminal then StandsBehind(own, own) else StandsBehind(own, c.state.phase)
  }

  /** A commit that a handler of the try statement makes. */
  predicate OfHandler(c: Commit) {
    || c.event.ModelAttempt?
    || (c.event.PhaseChanged? && c.state.phase == Cancelling)
    || (c.terminal && !c.event.TurnCompleted?)
  }

  /** The loop's own phase at every commit of the try block; whatever follows
      was committed by a handler. */
  ghost predicate Trail(owns: seq<Phase>, log: seq<Commit>) {
    |owns| <= |log| && forall i: nat :: TrailAt(owns, log, i)
  }

  predicate TrailAt(owns: seq<Phase>, log: seq<Commit>, i: nat) {
    i < |log| ==> if i < |owns| then StandsAt(owns[i], log[i]) else OfHandler(log[i])
  }

  // ---------------------------------------------------------------- what a log says

  /** The tool-call IDs of every accepted batch, in acceptance order. */
  function AcceptedIds(log: seq<Commit>): seq<Id> {
    if log == [] then []
    else
      var last := log[|log| - 1];
      AcceptedIds(log[..|log| - 1]) + if last.event.CallsAccepted? then last.event.ids else []
  }

  /** The assistant text streamed so far. */
  function DeltaText(log: seq<Commit>): string {
    if log == [] then ""
    else
      var last := log[|log| - 1];
      DeltaText(log[..|log| - 1]) + if last.event.AssistantDelta? then last.event.delta else ""
  }

  /** Every delta starts where the text before it ends. */
  ghost predicate Contiguous(log: seq<Commit>) {
    forall i :: 0 <= i < |log| && log[i].event.AssistantDelta? ==> log[i].event.offset == |DeltaText(log[..i])|
  }

  ghost predicate Silent(log: seq<Commit>) {
    forall c :: c in log ==> !c.event.AssistantDelta?
  }

  lemma {:induction false} SilentText(log: seq<Commit>)
    requires Silent(log)
    ensures DeltaText(log) == "" && Contiguous(log)
  {
    if log != [] {
      assert log[|log| - 1] in log;
      SilentText(log[..|log| - 1]);
    }
  }

  lemma AcceptedAppend(log: seq<Commit>, c: Commit)
    ensures AcceptedIds(log + [c]) == AcceptedIds(log) + if c.event.CallsAccepted? then c.event.ids else []
  {
    assert (log + [c])[..|log|] == log;
  }

  lemma ContiguousAppend(log: seq<Commit>, c: Commit)
    requires Contiguous(log)
    requires c.event.AssistantDelta? ==> c.event.offset == |DeltaText(log)|
    ensures Contiguous(log + [c])
    ensures DeltaText(log + [c]) == DeltaText(log) + if c.event.AssistantDelta? then c.event.delta else ""
  {
    var longer := log + [c];
    assert longer[..|log|] == log;
    forall i | 0 <= i < |longer| && longer[i].event.AssistantDelta?
      ensures longer[i].event.offset == |DeltaText(longer[..i])|
    {
      if i < |log| { assert longer[..i] == log[..i]; }
    }
  }

  /** A committed result of an effectful tool that has this outcome. */
  ghost predicate Recorded(log: seq<Commit>, o: WriteOutcome) {
    exists c :: c in log && c.event.ToolRecorded? && c.event.definition.Effectful()
                && c.event.result.callId == o.callId && c.event.result.status == o.status
  }

  ghost predicate Demanded(log: seq<Commit>) {
    exists c :: c in log && c.event.WriteOutcomeRequired?
  }

  /** The state's write obligation agrees with the log; `earlier` is the
      obligation that the run inherited from before the log began. */
  ghost predicate Evidence(earlier: WriteObligation, log: seq<Commit>, s: RunState) {
    && (forall o :: o in s.obligation.outcomes ==> o in earlier.outcomes || Recorded(log, o))
    && (s.obligation.reasons != [] ==> s.obligation.required)
    && (earlier.required || Demanded(log) ==> s.obligation.required)
  }

  /** A tool that can write, destroy, or has an unknown effect succeeded. */
  ghost predicate WriteSucceeded(log: seq<Commit>) {
    exists c :: c in log && c.event.ToolRecorded? && c.event.definition.Effectful() && c.event.result.status == Succeeded
  }

  lemma EvidenceAppend(earlier: WriteObligation, log: seq<Commit>, s: RunState, c: Commit)
    requires Evidence(earlier, log, s) && !c.event.WriteOutcomeRequired?
    ensures Evidence(earlier, log + [c], s)
  {
    forall o | o in s.obligation.outcomes && Recorded(log, o) ensures Recorded(log + [c], o) {
      var d :| d in log && d.event.ToolRecorded? && d.event.definition.Effectful()
               && d.event.result.callId == o.callId && d.event.result.status == o.status;
      assert d in log + [c];
    }
    if Demanded(log + [c]) {
      var d :| d in log + [c] && d.event.WriteOutcomeRequired?;
      assert d in log;
    }
  }

  /** A write succeeded, in this run or among the outcomes it inherited. */
  ghost predicate Written(earlier: WriteObligation, log: seq<Commit>) {
    WriteSucceeded(log) || exists o :: o in earlier.outcomes && o.status == Succeeded
  }

  lemma SatisfiedMeansWritten(earlier: WriteObligation, log: seq<Commit>, s: RunState)
    requires Evidence(earlier, log, s) && s.obligation.Satisfied() && (earlier.required || Demanded(log))
    ensures Written(earlier, log)
    ensures earlier.outcomes == [] ==> WriteSucceeded(log)
  {
    var o :| o in s.obligation.outcomes && o.status == Succeeded;
    if o !in earlier.outcomes { assert Recorded(log, o); }
  }
}
