/** The model-backed planner (agent/model_planner.py, ModelPlanner.plan): one
    request, at most one overflow retry, at most one schema repair, and the
    audit trail that PlanningStep validation demands (agent/planner.py). */
module ModelPlanner {
  import opened Outcomes
  import opened Budgets

  datatype AttemptOutcome = Succeeded | Invalid | Failed

  datatype PlanningAttempt = PlanningAttempt(
    requestId: Id, repairIndex: nat, outcome: AttemptOutcome, errorCode: Option<string>, retryOf: Option<Id>)

  datatype Projection = Normal | OverflowReferences

  /** A request: its serial number fixes its ID; `repair` says that it quotes an
      invalid output, `retryOf` the request whose overflow it answers. */
  datatype Request = Request(serial: nat, repair: bool, retryOf: Option<Id>, projection: Projection)

  datatype Usage = Usage(inputTokens: nat, outputTokens: nat, cost: real)

  /** What the gateway, the stream acceptor and the schema make of a request. */
  datatype Reply =
    | StepReply(usage: Usage)
    | InvalidReply(usage: Usage, fixable: bool)
    | ProviderReply(code: string, reported: Option<Usage>)
    | ProtocolReply(reported: Option<Usage>)
    | OtherReply

  /** The models, clocks and context inputs, indexed by the requests before. */
  datatype Gateway = Gateway(
    ids: nat -> Id,
    reply: nat -> Reply,
    window: nat -> Option<Projection>,
    projected: nat -> bool)

  /** Exceptions of a planning attempt; `Escaped` stands for those that are no
      planner errors and carry no attempts: an exhausted budget while charging
      usage, a context that needs compaction, a cancellation. */
  datatype PlannerError =
    | InvalidOutput(attempts: seq<PlanningAttempt>, repairable: bool)
    | ProviderFailure(code: string, attempts: seq<PlanningAttempt>)
    | StreamProtocol(attempts: seq<PlanningAttempt>)
    | RepairUnavailable(attempts: seq<PlanningAttempt>)
    | RepairFailed(attempts: seq<PlanningAttempt>)
    | Escaped
  {
    function Attempts(): seq<PlanningAttempt> {
      if Escaped? then [] else attempts
    }

    function WithAttempts(replaced: seq<PlanningAttempt>): PlannerError {
      if Escaped? then this else this.(attempts := replaced)
    }
  }

  datatype Plan = Planned(attempts: seq<PlanningAttempt>) | Raised(error: PlannerError)

  const OVERFLOW: string := "context_overflow"

  const ROUND: BudgetDelta := ZERO.(modelRounds := 1)

  /** Negative costs never reach a usage record. */
  function UsageDelta(usage: Usage): BudgetDelta {
    var cost := if usage.cost >= 0.0 then usage.cost else 0.0;
    ZERO.(inputTokens := usage.inputTokens, outputTokens := usage.outputTokens, cost := cost)
  }

  // ---------------------------------------------------------------- PlanningStep validation

  predicate Contiguous(attempts: seq<PlanningAttempt>, start: nat) {
    forall i :: 0 <= i < |attempts| ==> attempts[i].repairIndex == start + i
  }

  predicate DistinctRequests(attempts: seq<PlanningAttempt>) {
    forall i, j :: 0 <= i < j < |attempts| ==> attempts[i].requestId != attempts[j].requestId
  }

  /** A non-empty audit trail that PlanningStep accepts. */
  predicate ValidTrail(attempts: seq<PlanningAttempt>) {
    && attempts != [] && DistinctRequests(attempts) && Contiguous(attempts, 0)
    && attempts[|attempts| - 1].outcome == Succeeded
  }

  // ---------------------------------------------------------------- the shape of a planning run

  ghost predicate InjectiveIds(g: Gateway) {
    forall i, j {:trigger g.ids(i), g.ids(j)} :: g.ids(i) == g.ids(j) ==> i == j
  }

  /** The attempts are the audit records of exactly these requests. */
  ghost predicate Audits(g: Gateway, attempts: seq<PlanningAttempt>, requests: seq<Request>, start: nat) {
    && |attempts| == |requests|
    && Contiguous(attempts, start)
    && forall i :: 0 <= i < |attempts| ==>
         attempts[i].requestId == g.ids(requests[i].serial) && attempts[i].retryOf == requests[i].retryOf
  }

  predicate Increasing(requests: seq<Request>) {
    forall i, j :: 0 <= i < j < |requests| ==> requests[i].serial < requests[j].serial
  }

  predicate Overflowed(attempts: seq<PlanningAttempt>) {
    exists a :: a in attempts && a.errorCode == Some(OVERFLOW)
  }

  /** At most one of the requests satisfies each role. */
  predicate OneRetryOneRepair(requests: seq<Request>) {
    && (forall i, j :: 0 <= i < j < |requests| ==> !(requests[i].retryOf.Some? && requests[j].retryOf.Some?))
    && (forall i, j :: 0 <= i < j < |requests| ==> !(IsRepair(requests[i]) && IsRepair(requests[j])))
  }

  predicate IsRepair(r: Request) {
    r.repair && r.retryOf.None?
  }

  class Planner {
    const gateway: Gateway
    const ledger: BudgetLedger
    var issued: nat               // request IDs drawn so far
    var sent: seq<Request>        // requests that reached the gateway

    constructor (gateway: Gateway, ledger: BudgetLedger)
      ensures this.gateway == gateway && this.ledger == ledger && sent == [] && Valid()
    {
      this.gateway, this.ledger, issued, sent := gateway, ledger, 0, [];
    }

    predicate Valid()
      reads this
    {
      Increasing(sent) && forall r :: r in sent ==> r.serial < issued
    }

    /** Raises when the window built for the request is not ready for a model. */
    method CreateRequest(repair: bool, projection: Option<Projection>, retryOf: Option<Id>) returns (r: Option<Request>)
      requires Valid()
      modifies this`issued
      ensures Valid() && old(issued) <= issued
      ensures r.Some? ==> r.value.serial == old(issued) < issued
      ensures r.Some? ==> r.value.repair == repair && r.value.retryOf == retryOf
      ensures r.Some? && projection.Some? ==> r.value.projection == projection.value
      ensures r.None? ==> gateway.window(issued).None? || !gateway.projected(issued)
    {
      var window := if projection.Some? then (if gateway.projected(issued) then projection else None)
                    else gateway.window(issued);
      if window.None? { return None; }
      r := Some(Request(issued, repair, retryOf, window.value));
      issued := issued + 1;
    }

    method ChargeUsage(usage: Usage) returns (ok: bool)
      modifies ledger
      ensures ledger.used.modelRounds == old(ledger.used.modelRounds)
      ensures !ok ==> ledger.Book().Consume(UsageDelta(usage)).Err?
    {
      ok := ledger.Consume(UsageDelta(usage));
    }

    method ExecuteAttempt(request: Request, index: nat) returns (r: Plan)
      requires Valid() && (sent == [] || sent[|sent| - 1].serial < request.serial) && request.serial < issued
      modifies this`sent, ledger
      ensures Valid() && sent == old(sent) + [request]
      ensures ledger.used.modelRounds == old(ledger.used.modelRounds)
      ensures Attempted(gateway, r, request, index)
      ensures Explained(gateway, r, sent, issued, ledger.Book())
    {
      SentIncreasing(sent, request);
      var reply := gateway.reply(|sent|);
      sent := sent + [request];
      var id := gateway.ids(request.serial);
      var failed := PlanningAttempt(id, index, Failed, None, request.retryOf);
      match reply {
        case StepReply(usage) =>
          var ok := ChargeUsage(usage);
          if !ok { return Raised(Escaped); }
          r := Planned([failed.(outcome := Succeeded)]);
        case InvalidReply(usage, repairable) =>
          var ok := ChargeUsage(usage);
          if !ok { return Raised(Escaped); }
          r := Raised(InvalidOutput([failed.(outcome := Invalid, errorCode := Some("invalid_agent_step"))], repairable));
        case ProviderReply(code, reported) =>
          if reported.Some? {
            var ok := ChargeUsage(reported.value);
            if !ok { return Raised(Escaped); }
          }
          r := Raised(ProviderFailure(code, [failed.(errorCode := Some(code))]));
        case ProtocolReply(reported) =>
          if reported.Some? {
            var ok := ChargeUsage(reported.value);
            if !ok { return Raised(Escaped); }
          }
          r := Raised(StreamProtocol([failed.(errorCode := Some("model_stream_protocol"))]));
        case OtherReply =>
          r := Raised(Escaped);
      }
    }

    method ChargeRound() returns (ok: bool)
      modifies ledger
      ensures ledger.used.modelRounds == old(ledger.used.modelRounds) + if ok then 1 else 0
      ensures !ok ==> ledger.Book().Consume(ROUND).Err?
    {
      ok := ledger.Consume(ROUND);
    }

    /** One request and, when it overflows the context and may be retried, one
        more with a reference projection. */
    method ExecuteWithOverflowRetry(repair: bool, start: nat, allowRetry: bool) returns (r: Plan)
      requires Valid()
      modifies this, ledger
      ensures Valid() && old(sent) <= sent
      ensures OneRequestOneRetry(sent[|old(sent)|..], repair, allowRetry)
      ensures old(ledger.used.modelRounds) <= ledger.used.modelRounds
      ensures Executed(gateway, r, sent[|old(sent)|..], start, ledger.used.modelRounds - old(ledger.used.modelRounds))
      ensures Explained(gateway, r, sent, issued, ledger.Book())
      ensures allowRetry ==> OverflowSettled(r, sent, |old(sent)|, ledger.Book())
    {
      ghost var base := sent;
      var request;
      request, r := SendFirst(repair, start);
      if request.None? {
        assert sent[|base|..] == [];
        return;
      }
      LastOne(base, request.value);
      AttemptExecutes(gateway, r, request.value, start);
      if r.Raised? && r.error.ProviderFailure? && r.error.code == OVERFLOW
         && request.value.projection == Normal && allowRetry {
        r := RetryOverflow(request.value, r.error, start, base);
      } else if allowRetry {
        AttemptSettles(r, base, request.value, ledger.Book());
      }
    }

    method SendFirst(repair: bool, start: nat) returns (request: Option<Request>, r: Plan)
      requires Valid()
      modifies this, ledger
      ensures Valid() && ledger.used.modelRounds == old(ledger.used.modelRounds)
      ensures Explained(gateway, r, sent, issued, ledger.Book())
      ensures request.None? ==> r == Raised(Escaped) && sent == old(sent)
      ensures request.Some? ==> sent == old(sent) + [request.value] && Attempted(gateway, r, request.value, start)
      ensures request.Some? ==> request.value.repair == repair && request.value.retryOf.None?
    {
      request := CreateRequest(repair, None, None);
      if request.None? { return None, Raised(Escaped); }
      r := ExecuteAttempt(request.value, start);
    }

    method RetryOverflow(request: Request, overflow: PlannerError, start: nat, ghost base: seq<Request>) returns (r: Plan)
      requires Valid() && sent == base + [request] && request.retryOf.None?
      requires Explained(gateway, Raised(overflow), sent, issued, ledger.Book())
      requires overflow.ProviderFailure? && overflow.code == OVERFLOW
      requires Attempted(gateway, Raised(overflow), request, start)
      modifies this, ledger
      ensures Valid() && base <= sent
      ensures OneRequestOneRetry(sent[|base|..], request.repair, true)
      ensures old(ledger.used.modelRounds) <= ledger.used.modelRounds
      ensures Executed(gateway, r, sent[|base|..], start, ledger.used.modelRounds - old(ledger.used.modelRounds))
      ensures Explained(gateway, r, sent, issued, ledger.Book())
      ensures OverflowSettled(r, sent, |base|, ledger.Book())
    {
      r := Raised(overflow);
      AttemptExecutes(gateway, r, request, start);
      assert sent[|base|..] == [request];
      var affordable := ChargeRound();
      if !affordable { return; }
      var retry := CreateRequest(request.repair, Some(OverflowReferences), Some(gateway.ids(request.serial)));
      if retry.None? { return Raised(Escaped); }
      r := ExecuteAttempt(retry.value, start + 1);
      assert sent[|base|..] == [request, retry.value];
      RetryExecutes(gateway, overflow, request, r, retry.value, start);
      r := AfterOverflow(overflow, r);
    }

    /** Plans one step: a first execution and, when its output is invalid and
        repairable and the budget allows it, one repair, which may retry an
        overflow only if the first execution did not. */
    method MakePlan() returns (r: Plan)
      requires Valid() && InjectiveIds(gateway)
      modifies this, ledger
      ensures Valid() && old(sent) <= sent
      ensures |sent| <= |old(sent)| + 3 && OneRetryOneRepair(sent[|old(sent)|..])
      ensures Finished(gateway, r, sent[|old(sent)|..], ledger.used.modelRounds - old(ledger.used.modelRounds))
      ensures Explained(gateway, r, sent, issued, ledger.Book())
      ensures OverflowSettled(r, sent, |old(sent)|, ledger.Book())
      ensures r.Raised? && r.error.InvalidOutput? ==> !r.error.repairable
    {
      r := ExecuteWithOverflowRetry(false, 0, true);
      ghost var first := sent[|old(sent)|..];
      ghost var spent := ledger.used.modelRounds - old(ledger.used.modelRounds);
      SliceIncreasing(sent, |old(sent)|);
      FirstFinishes(gateway, r, first, spent);
      if r.Planned? || !r.error.InvalidOutput? || !r.error.repairable { return; }
      ghost var between := sent;
      r := Repair(r.error.attempts, first, spent);
      TailGrows(between, sent, |old(sent)|);
    }

    method Repair(firstAttempts: seq<PlanningAttempt>, ghost first: seq<Request>, ghost spent: int) returns (r: Plan)
      requires Valid() && InjectiveIds(gateway)
      requires |first| <= |sent| && sent[|sent| - |first|..] == first
      requires Audits(gateway, firstAttempts, first, 0) && firstAttempts != [] && spent == |first| - 1
      requires OneRequestOneRetry(first, false, true) && (Overflowed(firstAttempts) <==> |first| > 1)
      requires Explained(gateway, Raised(InvalidOutput(firstAttempts, true)), sent, issued, ledger.Book())
      modifies this, ledger
      ensures Valid() && old(sent) <= sent
      ensures |first + sent[|old(sent)|..]| <= 3 && OneRetryOneRepair(first + sent[|old(sent)|..])
      ensures Finished(gateway, r, first + sent[|old(sent)|..], spent + ledger.used.modelRounds - old(ledger.used.modelRounds))
      ensures Explained(gateway, r, sent, issued, ledger.Book()) && !(r.Raised? && r.error.InvalidOutput?)
      ensures OverflowSettled(r, sent, |old(sent)| - |first|, ledger.Book())
    {
      JoinedRoles(first, []);
      var affordable := ChargeRound();
      if !affordable { return Raised(RepairUnavailable(firstAttempts)); }
      ghost var charged := ledger.used.modelRounds;
      r := ExecuteWithOverflowRetry(true, |firstAttempts|, !Overflowed(firstAttempts));
      ghost var second, from := sent[|old(sent)|..], |old(sent)| - |first|;
      JoinedRoles(first, second);
      SliceIncreasing(sent, from);
      TailGrows(old(sent), sent, from);
      RepairSettles(firstAttempts, first, sent, from, r, ledger.Book());
      CombinedFinishes(gateway, firstAttempts, first, second, r, ledger.used.modelRounds - charged);
      CombineExplains(gateway, firstAttempts, |firstAttempts|, r, second, sent, issued, ledger.Book(), ledger.used.modelRounds - charged);
      r := Combine(firstAttempts, r);
    }
  }

  /** The second trail, preceded by the first unless it already starts with it. */
  function Prefixed(first: seq<PlanningAttempt>, second: seq<PlanningAttempt>): seq<PlanningAttempt> {
    if first <= second then second else first + second
  }

  /** How plan() reports the outcome of a repair after an invalid first output. */
  function Combine(first: seq<PlanningAttempt>, r: Plan): Plan {
    match r
    case Planned(attempts) => Planned(first + attempts)
    case Raised(error) =>
      if error.InvalidOutput? then Raised(RepairFailed(Prefixed(first, error.attempts)))
      else Raised(error.WithAttempts(Prefixed(first, error.Attempts())))
  }

  /** One request in the given role, possibly followed by its overflow retry. */
  ghost predicate OneRequestOneRetry(requests: seq<Request>, repair: bool, allowRetry: bool) {
    && |requests| <= (if allowRetry then 2 else 1)
    && (|requests| > 0 ==> requests[0].repair == repair && requests[0].retryOf.None?)
    && (|requests| > 1 ==> requests[1].repair == repair && requests[1].retryOf.Some?)
  }

  /** What one attempt at one request reports. */
  ghost predicate Attempted(g: Gateway, r: Plan, request: Request, index: nat) {
    match r
    case Planned(attempts) =>
      Audits(g, attempts, [request], index) && attempts[0].outcome == Succeeded
    case Raised(error) =>
      && (error.InvalidOutput? || error.ProviderFailure? || error.StreamProtocol? || error.Escaped?)
      && (!error.Escaped? ==> Audits(g, error.attempts, [request], index))
      && (error.ProviderFailure? ==> error.attempts[0].errorCode == Some(error.code))
      && (error.InvalidOutput? ==> !Overflowed(error.attempts))
  }

  /** Why planning stopped where it did: the last reply, a context that needs
      compaction, or a budget that affords no more. */
  ghost predicate Explained(g: Gateway, r: Plan, sent: seq<Request>, issued: nat, book: BudgetBook) {
    var reply := if sent == [] then OtherReply else g.reply(|sent| - 1);
    match r
    case Planned(_) => reply.StepReply?
    case Raised(InvalidOutput(_, repairable)) => reply.InvalidReply? && reply.fixable == repairable
    case Raised(ProviderFailure(code, _)) => reply.ProviderReply? && reply.code == code
    case Raised(StreamProtocol(_)) => reply.ProtocolReply?
    case Raised(RepairUnavailable(_)) => reply.InvalidReply? && reply.fixable && book.Consume(ROUND).Err?
    case Raised(RepairFailed(_)) => reply.InvalidReply?
    case Raised(Escaped) => reply.OtherReply? || Unaffordable(reply, book) || g.window(issued).None? || !g.projected(issued)
  }

  predicate Unaffordable(reply: Reply, book: BudgetBook) {
    match reply
    case StepReply(usage) => book.Consume(UsageDelta(usage)).Err?
    case InvalidReply(usage, _) => book.Consume(UsageDelta(usage)).Err?
    case ProviderReply(_, reported) => reported.Some? && book.Consume(UsageDelta(reported.value)).Err?
    case ProtocolReply(reported) => reported.Some? && book.Consume(UsageDelta(reported.value)).Err?
    case OtherReply => true
  }

  /** An overflow is reported only when it could not be retried: the last
      request was no normal projection, a retry was spent already, or the
      budget has no round left. */
  ghost predicate OverflowSettled(r: Plan, sent: seq<Request>, from: nat, book: BudgetBook) {
    r.Raised? && r.error.ProviderFailure? && r.error.code == OVERFLOW && sent != [] ==>
      || sent[|sent| - 1].projection != Normal
      || book.Consume(ROUND).Err?
      || exists k :: from <= k < |sent| && sent[k].retryOf.Some?
  }

  /** The outcome of a retry, preceded by the attempt that overflowed. */
  function AfterOverflow(overflow: PlannerError, r: Plan): Plan {
    match r
    case Planned(attempts) => Planned(overflow.Attempts() + attempts)
    case Raised(error) => Raised(error.WithAttempts(overflow.Attempts() + error.Attempts()))
  }

  /** What an execution reports about the requests it sent and the extra model
      rounds it charged. */
  ghost predicate Executed(g: Gateway, r: Plan, requests: seq<Request>, start: nat, rounds: int) {
    match r
    case Planned(attempts) => SuccessTrail(g, attempts, requests, start, rounds)
    case Raised(error) =>
      && Contiguous(error.Attempts(), start) && |error.Attempts()| <= 1 + rounds
      && (error.InvalidOutput? || error.ProviderFailure? || error.StreamProtocol? || error.Escaped?)
      && (error.InvalidOutput? ==> InvalidTrail(g, error.attempts, requests, start, rounds))
  }

  ghost predicate SuccessTrail(g: Gateway, attempts: seq<PlanningAttempt>, requests: seq<Request>, start: nat, rounds: int) {
    && Audits(g, attempts, requests, start) && attempts != []
    && attempts[|attempts| - 1].outcome == Succeeded && rounds == |requests| - 1
  }

  ghost predicate InvalidTrail(g: Gateway, attempts: seq<PlanningAttempt>, requests: seq<Request>, start: nat, rounds: int) {
    && Audits(g, attempts, requests, start) && attempts != [] && rounds == |requests| - 1
    && (Overflowed(attempts) <==> |requests| > 1)
  }

  /** What a whole plan reports: a successful step carries a valid trail of all
      its requests and charged one round less than it sent; a failure carries
      at most one attempt more than it charged for. */
  ghost predicate Finished(g: Gateway, r: Plan, requests: seq<Request>, rounds: int) {
    match r
    case Planned(attempts) => ValidTrail(attempts) && Audits(g, attempts, requests, 0) && rounds == |requests| - 1
    case Raised(error) => Contiguous(error.Attempts(), 0) && |error.Attempts()| <= 1 + rounds
  }

  lemma AttemptExecutes(g: Gateway, r: Plan, request: Request, start: nat)
    requires Attempted(g, r, request, start)
    ensures Executed(g, r, [request], start, 0)
  {
  }

  lemma AuditsAppend(
    g: Gateway, first: seq<PlanningAttempt>, requests: seq<Request>, second: seq<PlanningAttempt>, more: seq<Request>,
    start: nat)
    requires Audits(g, first, requests, start) && Audits(g, second, more, start + |first|)
    ensures Audits(g, first + second, requests + more, start)
  {
  }

  lemma RetryExecutes(g: Gateway, overflow: PlannerError, request: Request, r: Plan, retry: Request, start: nat)
    requires overflow.ProviderFailure? && overflow.code == OVERFLOW
    requires Attempted(g, Raised(overflow), request, start) && Attempted(g, r, retry, start + 1)
    ensures Executed(g, AfterOverflow(overflow, r), [request, retry], start, 1)
  {
    assert [request] + [retry] == [request, retry];
    assert overflow.attempts[0].errorCode == Some(OVERFLOW);
    match r
    case Planned(attempts) => AuditsAppend(g, overflow.attempts, [request], attempts, [retry], start);
    case Raised(error) =>
      if !error.Escaped? {
        AuditsAppend(g, overflow.attempts, [request], error.attempts, [retry], start);
        assert (overflow.attempts + error.attempts)[0].errorCode == Some(OVERFLOW);
        assert Overflowed(overflow.attempts + error.attempts);
      }
  }

  lemma FirstFinishes(g: Gateway, r: Plan, requests: seq<Request>, rounds: int)
    requires InjectiveIds(g) && Increasing(requests)
    requires Executed(g, r, requests, 0, rounds) && OneRequestOneRetry(requests, false, true)
    ensures Finished(g, r, requests, rounds) && OneRetryOneRepair(requests)
  {
    if r.Planned? { TrailFromAudit(g, r.attempts, requests); }
  }

  lemma CombinedFinishes(
    g: Gateway, firstAttempts: seq<PlanningAttempt>, first: seq<Request>, second: seq<Request>, r: Plan, rounds: int)
    requires InjectiveIds(g) && Increasing(first + second)
    requires Audits(g, firstAttempts, first, 0) && firstAttempts != []
    requires Executed(g, r, second, |firstAttempts|, rounds)
    ensures Finished(g, Combine(firstAttempts, r), first + second, |first| + rounds)
  {
    match r
    case Planned(attempts) =>
      AuditsAppend(g, firstAttempts, first, attempts, second, 0);
      TrailFromAudit(g, firstAttempts + attempts, first + second);
    case Raised(error) => PrefixedContiguous(firstAttempts, error.Attempts());
  }

  /** A combined outcome stopped where the repair stopped. */
  lemma CombineExplains(
    g: Gateway, first: seq<PlanningAttempt>, start: nat, r: Plan, second: seq<Request>, sent: seq<Request>, issued: nat,
    book: BudgetBook, rounds: int)
    requires Explained(g, r, sent, issued, book) && Executed(g, r, second, start, rounds)
    ensures Explained(g, Combine(first, r), sent, issued, book)
    ensures !(Combine(first, r).Raised? && Combine(first, r).error.InvalidOutput?)
  {
  }

  /** An execution without an overflow that may be retried is settled. */
  lemma AttemptSettles(r: Plan, sent: seq<Request>, request: Request, book: BudgetBook)
    requires !(r.Raised? && r.error.ProviderFailure? && r.error.code == OVERFLOW && request.projection == Normal)
    ensures OverflowSettled(r, sent + [request], |sent|, book)
  {
  }

  /** A repair reports an overflow only after a retry, its own or the first's. */
  lemma RepairSettles(
    firstAttempts: seq<PlanningAttempt>, first: seq<Request>, sent: seq<Request>, from: nat, r: Plan, book: BudgetBook)
    requires OneRequestOneRetry(first, false, true) && (Overflowed(firstAttempts) <==> |first| > 1)
    requires from <= |sent| && first <= sent[from..]
    requires !Overflowed(firstAttempts) ==> OverflowSettled(r, sent, from + |first|, book)
    ensures OverflowSettled(Combine(firstAttempts, r), sent, from, book)
  {
    if |first| > 1 { assert sent[from + 1] == sent[from..][1] == first[1]; }
  }

  lemma LastOne(sent: seq<Request>, request: Request)
    ensures (sent + [request])[|sent|..] == [request]
  {
  }

  lemma TailGrows(sent: seq<Request>, later: seq<Request>, from: nat)
    requires sent <= later && from <= |sent|
    ensures later[from..] == sent[from..] + later[|sent|..]
  {
  }

  lemma PrefixedContiguous(first: seq<PlanningAttempt>, second: seq<PlanningAttempt>)
    requires Contiguous(first, 0) && Contiguous(second, |first|) && first != []
    ensures Prefixed(first, second) == first + second && Contiguous(first + second, 0)
  {
    if second != [] { assert second[0].repairIndex != first[0].repairIndex; }
  }

  lemma SliceIncreasing(sent: seq<Request>, from: nat)
    requires Increasing(sent) && from <= |sent|
    ensures Increasing(sent[from..])
  {
  }

  lemma SentIncreasing(sent: seq<Request>, next: Request)
    requires Increasing(sent) && (sent == [] || sent[|sent| - 1].serial < next.serial)
    ensures Increasing(sent + [next])
  {
  }

  lemma TrailFromAudit(g: Gateway, attempts: seq<PlanningAttempt>, requests: seq<Request>)
    requires InjectiveIds(g) && Audits(g, attempts, requests, 0) && Increasing(requests)
    requires attempts != [] && attempts[|attempts| - 1].outcome == Succeeded
    ensures ValidTrail(attempts)
  {
    forall i, j | 0 <= i < j < |attempts| ensures attempts[i].requestId != attempts[j].requestId {
      assert requests[i].serial < requests[j].serial;
    }
  }

  lemma JoinedRoles(first: seq<Request>, second: seq<Request>)
    requires OneRequestOneRetry(first, false, true) && OneRequestOneRetry(second, true, |first| <= 1)
    ensures |first + second| <= 3 && OneRetryOneRepair(first + second)
  {
  }
}
