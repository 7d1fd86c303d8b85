/** The model-backed planner as the agent loop sees it: what the loop's
    accounting assumes of a planner is what planning guarantees. */
module PlannerInLoop {
  import opened Outcomes
  import AgentLoop
  import ModelPlanner

  function RequestIds(attempts: seq<ModelPlanner.PlanningAttempt>): seq<Id> {
    seq(|attempts|, i requires 0 <= i < |attempts| => attempts[i].requestId)
  }

  /** The answer reports the attempts of this plan, and the rounds it charged. */
  predicate Shows(p: AgentLoop.Planned, r: ModelPlanner.Plan, rounds: nat) {
    p.rounds == rounds
    && match r
       case Planned(attempts) => p.PlanReturns? && p.step.attempts == RequestIds(attempts)
       case Raised(error) => p.PlanRaises? && AgentLoop.Audited(p.exn) == RequestIds(error.Attempts())
  }

  ghost predicate FromPlanner(p: AgentLoop.Planned) {
    exists g, r, requests :: ModelPlanner.Finished(g, r, requests, p.rounds) && Shows(p, r, p.rounds)
  }

  /** A plan that finished as MakePlan ensures is honest about its attempts. */
  lemma PlanIsHonest(
    p: AgentLoop.Planned, g: ModelPlanner.Gateway, r: ModelPlanner.Plan, requests: seq<ModelPlanner.Request>)
    requires ModelPlanner.Finished(g, r, requests, p.rounds) && Shows(p, r, p.rounds)
    ensures |AgentLoop.Charges(p)| <= 1 + p.rounds
  {
  }

  /** So a world whose plans come from the planner, and whose other awaits raise
      no audited failures, meets the loop's assumption. */
  lemma {:induction false} PlannersAreHonest(world: AgentLoop.World)
    requires forall n :: FromPlanner(world.plan(n))
    requires forall n :: world.interrupt(n).Some? ==> AgentLoop.Audited(world.interrupt(n).value) == []
    ensures AgentLoop.HonestPlanner(world)
  {
    forall n ensures |AgentLoop.Charges(world.plan(n))| <= 1 + world.plan(n).rounds {
      assert FromPlanner(world.plan(n));
      var g, r, requests :| ModelPlanner.Finished(g, r, requests, world.plan(n).rounds)
                            && Shows(world.plan(n), r, world.plan(n).rounds);
      PlanIsHonest(world.plan(n), g, r, requests);
    }
  }
}
