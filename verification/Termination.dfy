/** The deterministic test that decides whether a run may respond (agent/termination.py). */
module Termination {
  import opened RunStates
  import opened RunLog

  ghost predicate MayRespond(s: RunState) {
    && s.pending.callIds == {} && s.pending.approvals == {} && s.pending.children == {}
    && s.obligation.Satisfied()
  }

  predicate Blocked(s: RunState, b: Blocker) {
    match b
    case ToolCallsPending => s.pending.callIds != {}
    case ApprovalsPending => s.pending.approvals != {}
    case ChildRunsPending => s.pending.children != {}
    case WriteOutcomeMissing => !s.obligation.Satisfied()
  }

  /** Lists every reason that keeps the run from responding, once each. */
  method EvaluateResponseReadiness(s: RunState) returns (canRespond: bool, blockers: seq<Blocker>)
    ensures canRespond <==> MayRespond(s)
    ensures canRespond <==> blockers == []
    ensures forall b :: b in blockers <==> Blocked(s, b)
    ensures forall i, j :: 0 <= i < j < |blockers| ==> blockers[i] != blockers[j]
  {
    blockers := [];
    if s.pending.callIds != {} { blockers := blockers + [ToolCallsPending]; }
    if s.pending.approvals != {} { blockers := blockers + [ApprovalsPending]; }
    if s.pending.children != {} { blockers := blockers + [ChildRunsPending]; }
    if !s.obligation.Satisfied() { blockers := blockers + [WriteOutcomeMissing]; }
    canRespond := blockers == [];
    if canRespond {
      assert !Blocked(s, ToolCallsPending) && !Blocked(s, ApprovalsPending);
    }
  }
}
