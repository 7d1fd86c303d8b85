/** The root budget ledger with child reservations (agent/budgets.py) and its
    durable checkpoint (agent/budget_checkpoint.py). A ledger's lock bodies
    never suspend, so each method is one atomic step. */
module Budgets {
  import opened Outcomes

  datatype Amounts = Amounts(
    modelRounds: int,
    toolCalls: int,
    inputTokens: int,
    outputTokens: int,
    cost: real,
    artifactBytes: int,
    subagents: int)
  {
    predicate NonNegative() {
      && modelRounds >= 0 && toolCalls >= 0 && inputTokens >= 0 && outputTokens >= 0
      && cost >= 0.0 && artifactBytes >= 0 && subagents >= 0
    }

    predicate Fits(ceiling: Amounts) {
      && modelRounds <= ceiling.modelRounds && toolCalls <= ceiling.toolCalls
      && inputTokens <= ceiling.inputTokens && outputTokens <= ceiling.outputTokens
      && cost <= ceiling.cost && artifactBytes <= ceiling.artifactBytes && subagents <= ceiling.subagents
    }

    function Plus(other: Amounts): Amounts {
      Amounts(modelRounds + other.modelRounds, toolCalls + other.toolCalls, inputTokens + other.inputTokens,
              outputTokens + other.outputTokens, cost + other.cost, artifactBytes + other.artifactBytes,
              subagents + other.subagents)
    }

    function Minus(other: Amounts): Amounts {
      Amounts(modelRounds - other.modelRounds, toolCalls - other.toolCalls, inputTokens - other.inputTokens,
              outputTokens - other.outputTokens, cost - other.cost, artifactBytes - other.artifactBytes,
              subagents - other.subagents)
    }
  }

  const ZERO: Amounts := Amounts(0, 0, 0, 0, 0.0, 0, 0)

  /** A validated delta; building one with a negative component raises. */
  type BudgetDelta = d: Amounts | d.NonNegative() witness ZERO

  function Add(a: BudgetDelta, b: BudgetDelta): BudgetDelta {
    a.Plus(b)
  }

  function Subtract(a: BudgetDelta, b: BudgetDelta): Result<BudgetDelta> {
    if a.Minus(b).NonNegative() then Ok(a.Minus(b)) else Err
  }

  // ---------------------------------------------------------------- the ledger and its handles

  class BudgetLedger {
    const limits: BudgetDelta
    const startedAt: int
    var used: BudgetDelta
    var reserved: BudgetDelta
    var adopted: BudgetDelta

    constructor (limits: BudgetDelta, startedAt: int)
      ensures this.limits == limits && this.startedAt == startedAt
      ensures used == ZERO && reserved == ZERO && adopted == ZERO
    {
      this.limits := limits;
      this.startedAt := startedAt;
      used, reserved, adopted := ZERO, ZERO, ZERO;
    }

    /** The ledger as a value. */
    function Book(): BudgetBook
      reads this
    {
      BudgetBook(limits, used, reserved, adopted)
    }

    method Consume(delta: BudgetDelta) returns (ok: bool)
      modifies this
      ensures ok <==> old(Book()).Consume(delta).Ok?
      ensures Book() == if ok then old(Book()).Consume(delta).value else old(Book())
    {
      var attempted := Add(Add(used, reserved), delta);
      ok := attempted.Fits(limits);
      if ok {
        used := Add(used, delta);
      }
    }

    method Reserve(amount: BudgetDelta) returns (r: Option<BudgetReservation>)
      modifies this
      ensures r.Some? <==> old(Book()).Reserve(amount).Ok?
      ensures Book() == if r.Some? then old(Book()).Reserve(amount).value else old(Book())
      ensures r.Some? ==> fresh(r.value) && r.value.ledger == this && r.value.amount == amount
      ensures r.Some? ==> !r.value.adopted && !r.value.closed
    {
      var attempted := Add(Add(used, reserved), amount);
      if !attempted.Fits(limits) { return None; }
      reserved := Add(reserved, amount);
      var handle := new BudgetReservation(this, amount, false);
      return Some(handle);
    }

    /** Reclaims part of the reservation that a restored ledger carries. */
    method AdoptReservation(amount: BudgetDelta) returns (r: Option<BudgetReservation>)
      modifies this
      ensures r.Some? <==> old(Book()).Adopt(amount).Ok?
      ensures Book() == if r.Some? then old(Book()).Adopt(amount).value else old(Book())
      ensures r.Some? ==> fresh(r.value) && r.value.ledger == this && r.value.amount == amount
      ensures r.Some? ==> r.value.adopted && !r.value.closed
    {
      var available := Subtract(reserved, adopted);
      if available.Err? || !amount.Fits(available.value) { return None; }
      adopted := Add(adopted, amount);
      var handle := new BudgetReservation(this, amount, true);
      return Some(handle);
    }

    /** Runs statement by statement as the original does: a later check that
        fails leaves the assignments before it in place. */
    method SettleReservation(amount: BudgetDelta, actual: BudgetDelta, wasAdopted: bool) returns (ok: bool)
      modifies this
      ensures old(Book()).Settle(amount, actual, wasAdopted).Ok? ==>
                ok && Book() == old(Book()).Settle(amount, actual, wasAdopted).value
      ensures old(Book()).Settle(amount, actual, wasAdopted).Err? ==> !ok
      ensures Book() == old(Book()).AfterSettling(amount, actual, wasAdopted)
      ensures Subtract(old(reserved), amount).Err? ==> Book() == old(Book())
    {
      var remaining := Subtract(reserved, amount);
      if remaining.Err? { return false; }
      reserved := remaining.value;
      if wasAdopted {
        var rest := Subtract(adopted, amount);
        if rest.Err? { return false; }
        adopted := rest.value;
      }
      used := Add(used, actual);
      ok := Add(used, reserved).Fits(limits);
    }
  }

  class BudgetReservation {
    const ledger: BudgetLedger
    const amount: BudgetDelta
    const adopted: bool
    var closed: bool

    constructor (ledger: BudgetLedger, amount: BudgetDelta, adopted: bool)
      ensures this.ledger == ledger && this.amount == amount && this.adopted == adopted && !closed
    {
      this.ledger, this.amount, this.adopted := ledger, amount, adopted;
      closed := false;
    }

    /** Raises on a closed handle or on usage beyond the reservation; a closed
        handle never settles again. */
    method Consume(actual: BudgetDelta) returns (ok: bool)
      modifies this, ledger
      ensures ok <==> !old(closed) && actual.Fits(amount) && old(ledger.Book()).Settle(amount, actual, adopted).Ok?
      ensures ok ==> closed && ledger.Book() == old(ledger.Book()).Settle(amount, actual, adopted).value
      ensures old(closed) || !actual.Fits(amount) ==> ledger.Book() == old(ledger.Book()) && closed == old(closed)
      ensures !ok ==> closed == old(closed)
    {
      if closed || !actual.Fits(amount) { return false; }
      ok := ledger.SettleReservation(amount, actual, adopted);
      if ok { closed := true; }
    }

    method Release() returns (ok: bool)
      modifies this, ledger
      ensures ok <==> old(closed) || old(ledger.Book()).Settle(amount, ZERO, adopted).Ok?
      ensures old(closed) ==> closed && ledger.Book() == old(ledger.Book())
      ensures ok && !old(closed) ==> closed && ledger.Book() == old(ledger.Book()).Settle(amount, ZERO, adopted).value
    {
      if closed { return true; }
      ok := ledger.SettleReservation(amount, ZERO, adopted);
      if ok { closed := true; }
    }
  }

  // ---------------------------------------------------------------- the ledger as a value

  datatype BudgetBook = BudgetBook(limits: BudgetDelta, used: BudgetDelta, reserved: BudgetDelta, adopted: BudgetDelta)
  {
    predicate Within() {
      Add(used, reserved).Fits(limits)
    }

    function Consume(delta: BudgetDelta): Result<BudgetBook> {
      if Add(Add(used, reserved), delta).Fits(limits) then Ok(this.(used := Add(used, delta))) else Err
    }

    function Reserve(amount: BudgetDelta): Result<BudgetBook> {
      if Add(Add(used, reserved), amount).Fits(limits) then Ok(this.(reserved := Add(reserved, amount))) else Err
    }

    function Adopt(amount: BudgetDelta): Result<BudgetBook> {
      match Subtract(reserved, adopted)
      case Err => Err
      case Ok(available) => if amount.Fits(available) then Ok(this.(adopted := Add(adopted, amount))) else Err
    }

    function Settle(amount: BudgetDelta, actual: BudgetDelta, wasAdopted: bool): Result<BudgetBook> {
      var rest := if wasAdopted then Subtract(adopted, amount) else Ok(adopted);
      match Subtract(reserved, amount)
      case Err => Err
      case Ok(remaining) =>
        if rest.Err? || !Add(Add(used, actual), remaining).Fits(limits) then Err
        else Ok(this.(used := Add(used, actual), reserved := remaining, adopted := rest.value))
    }

    /** The book after a settlement, whether or not it raised: what precedes
        the failing test stays done. */
    function AfterSettling(amount: BudgetDelta, actual: BudgetDelta, wasAdopted: bool): BudgetBook {
      match Subtract(reserved, amount)
      case Err => this
      case Ok(remaining) =>
        var freed := this.(reserved := remaining);
        if !wasAdopted then freed.(used := Add(used, actual))
        else match Subtract(adopted, amount)
             case Err => freed
             case Ok(rest) => freed.(adopted := rest, used := Add(used, actual))
    }
  }

  /** A handle given out by the ledger and not yet settled. */
  datatype Handle = Handle(amount: BudgetDelta, adopted: bool)

  function Total(open: seq<Handle>): BudgetDelta {
    if open == [] then ZERO else Add(Total(open[..|open| - 1]), open[|open| - 1].amount)
  }

  function TotalAdopted(open: seq<Handle>): BudgetDelta {
    if open == [] then ZERO
    else
      var last := open[|open| - 1];
      Add(TotalAdopted(open[..|open| - 1]), if last.adopted then last.amount else ZERO)
  }

  function Closing(open: seq<Handle>, i: nat): seq<Handle>
    requires i < |open|
  {
    open[..i] + open[i + 1..]
  }

  lemma {:induction false} ClosingTotals(open: seq<Handle>, i: nat)
    requires i < |open|
    ensures Total(open) == Add(Total(Closing(open, i)), open[i].amount)
    ensures TotalAdopted(open) == Add(TotalAdopted(Closing(open, i)), if open[i].adopted then open[i].amount else ZERO)
  {
    var n := |open| - 1;
    if i == n {
      assert Closing(open, i) == open[..n];
    } else {
      ClosingTotals(open[..n], i);
      ClosingLast(open, i);
      var adopted := if open[i].adopted then open[i].amount else ZERO;
      AddSwaps(Total(Closing(open[..n], i)), open[i].amount, open[n].amount);
      AddSwaps(TotalAdopted(Closing(open[..n], i)), adopted, if open[n].adopted then open[n].amount else ZERO);
    }
  }

  lemma ClosingLast(open: seq<Handle>, i: nat)
    requires i < |open| - 1
    ensures
      var shorter := Closing(open, i);
      && shorter != [] && shorter[|shorter| - 1] == open[|open| - 1]
      && shorter[..|shorter| - 1] == Closing(open[..|open| - 1], i)
  {
  }

  lemma AddSwaps(a: BudgetDelta, b: BudgetDelta, c: BudgetDelta)
    ensures Add(Add(a, b), c) == Add(Add(a, c), b)
  {
  }

  lemma {:induction false} AdoptedWithinTotal(open: seq<Handle>)
    ensures TotalAdopted(open).Fits(Total(open))
  {
    if open != [] { AdoptedWithinTotal(open[..|open| - 1]); }
  }

  // ---------------------------------------------------------------- histories

  /** A ledger in use: its book, the handles still open, and three running
      sums that the program does not store: direct charges, settled actuals,
      and what is left of the restored reservation after every adoption. */
  datatype Account = Account(
    book: BudgetBook, open: seq<Handle>, charged: BudgetDelta, settled: BudgetDelta, remainder: Amounts)

  datatype BudgetStep =
    | Charge(delta: BudgetDelta)
    | Hold(amount: BudgetDelta)
    | Reclaim(amount: BudgetDelta)
    | Finish(handle: nat, actual: BudgetDelta)

  /** One call on the ledger or on an open handle; `None` says that it raised.
      In a balanced ledger a call that raises has changed nothing: for a
      settlement, RaisingSettlementChangesNothing. */
  function Next(a: Account, step: BudgetStep): Option<Account> {
    match step
    case Charge(delta) =>
      (match a.book.Consume(delta)
       case Err => None
       case Ok(book) => Some(a.(book := book, charged := Add(a.charged, delta))))
    case Hold(amount) =>
      (match a.book.Reserve(amount)
       case Err => None
       case Ok(book) => Some(a.(book := book, open := a.open + [Handle(amount, false)])))
    case Reclaim(amount) =>
      (match a.book.Adopt(amount)
       case Err => None
       case Ok(book) =>
         Some(a.(book := book, open := a.open + [Handle(amount, true)], remainder := a.remainder.Minus(amount))))
    case Finish(i, actual) =>
      if i >= |a.open| || !actual.Fits(a.open[i].amount) then None
      else
        match a.book.Settle(a.open[i].amount, actual, a.open[i].adopted)
        case Err => None
        case Ok(book) => Some(a.(book := book, open := Closing(a.open, i), settled := Add(a.settled, actual)))
  }

  function Resume(limits: BudgetDelta, used: BudgetDelta, reserved: BudgetDelta): Account {
    Account(BudgetBook(limits, used, reserved, ZERO), [], used, ZERO, reserved)
  }

  /** What the ledger keeps: every limit, and where both of its sums come from. */
  ghost predicate Balanced(a: Account) {
    && a.book.Within()
    && a.book.used == Add(a.charged, a.settled)
    && a.book.reserved == a.remainder.Plus(Total(a.open))
    && a.book.adopted == TotalAdopted(a.open)
  }

  lemma {:induction false} AppendTotals(open: seq<Handle>, h: Handle)
    ensures Total(open + [h]) == Add(Total(open), h.amount)
    ensures TotalAdopted(open + [h]) == Add(TotalAdopted(open), if h.adopted then h.amount else ZERO)
  {
    assert (open + [h])[..|open|] == open;
  }

  lemma ReserveWithin(book: BudgetBook, amount: BudgetDelta)
    requires book.Reserve(amount).Ok?
    ensures book.Reserve(amount).value.Within()
  {
  }

  lemma PlusAdd(remainder: Amounts, total: BudgetDelta, amount: BudgetDelta)
    ensures remainder.Plus(total).Plus(amount) == remainder.Plus(Add(total, amount))
  {
  }

  lemma {:induction false} AppendLive(open: seq<Handle>, amount: BudgetDelta)
    ensures TotalAdopted(open + [Handle(amount, false)]) == TotalAdopted(open)
  {
    AppendTotals(open, Handle(amount, false));
    assert Add(TotalAdopted(open), ZERO) == TotalAdopted(open);
  }

  lemma FinishSums(reserved: BudgetDelta, amount: BudgetDelta, remainder: Amounts, rest: BudgetDelta)
    requires reserved == remainder.Plus(Add(rest, amount))
    ensures reserved.Minus(amount) == remainder.Plus(rest)
  {
  }

  lemma AddAssociates(a: BudgetDelta, b: BudgetDelta, c: BudgetDelta)
    ensures Add(Add(a, b), c) == Add(a, Add(b, c))
  {
  }

  lemma AdoptedSums(rest: BudgetDelta, amount: BudgetDelta)
    ensures Add(rest, amount).Minus(amount) == rest
  {
  }

  lemma HoldBalanced(a: Account, amount: BudgetDelta)
    requires Balanced(a) && Next(a, Hold(amount)).Some?
    ensures Balanced(Next(a, Hold(amount)).value)
  {
    NextHold(a, amount);
    HoldBook(a.book, amount, a.remainder, Total(a.open));
    HeldAccount(a, Next(a, Hold(amount)).value, amount, Total(a.open));
  }

  lemma NextHold(a: Account, amount: BudgetDelta)
    requires Next(a, Hold(amount)).Some?
    ensures a.book.Reserve(amount).Ok?
    ensures Next(a, Hold(amount)).value ==
              a.(book := a.book.Reserve(amount).value, open := a.open + [Handle(amount, false)])
  {
  }

  lemma HeldAccount(a: Account, next: Account, amount: BudgetDelta, total: BudgetDelta)
    requires next.open == a.open + [Handle(amount, false)] && total == Total(a.open)
    requires next.charged == a.charged && next.settled == a.settled && next.remainder == a.remainder
    requires next.book.Within() && next.book.used == Add(a.charged, a.settled)
    requires next.book.reserved == a.remainder.Plus(Add(total, amount)) && next.book.adopted == TotalAdopted(a.open)
    ensures Balanced(next)
  {
    AppendLive(a.open, amount);
    AppendTotals(a.open, Handle(amount, false));
  }

  lemma HoldBook(book: BudgetBook, amount: BudgetDelta, remainder: Amounts, total: BudgetDelta)
    requires book.Reserve(amount).Ok? && book.reserved == remainder.Plus(total)
    ensures
      var held := book.Reserve(amount).value;
      && held.Within() && held.used == book.used && held.adopted == book.adopted
      && held.reserved == remainder.Plus(Add(total, amount))
  {
    ReserveWithin(book, amount);
    PlusAdd(remainder, total, amount);
  }

  lemma ReclaimBalanced(a: Account, amount: BudgetDelta)
    requires Balanced(a) && Next(a, Reclaim(amount)).Some?
    ensures Balanced(Next(a, Reclaim(amount)).value)
  {
    AppendTotals(a.open, Handle(amount, true));
  }

  lemma FinishBalanced(a: Account, i: nat, actual: BudgetDelta)
    requires Balanced(a) && Next(a, Finish(i, actual)).Some?
    ensures Balanced(Next(a, Finish(i, actual)).value)
  {
    NextFinish(a, i, actual);
    ClosingTotals(a.open, i);
    FinishedAccount(a, Next(a, Finish(i, actual)).value, a.open[i], Closing(a.open, i), actual);
  }

  lemma NextFinish(a: Account, i: nat, actual: BudgetDelta)
    requires Next(a, Finish(i, actual)).Some?
    ensures i < |a.open| && a.book.Settle(a.open[i].amount, actual, a.open[i].adopted).Ok?
    ensures
      var book := a.book.Settle(a.open[i].amount, actual, a.open[i].adopted).value;
      Next(a, Finish(i, actual)).value == a.(book := book, open := Closing(a.open, i), settled := Add(a.settled, actual))
  {
  }

  lemma FinishedAccount(a: Account, next: Account, h: Handle, rest: seq<Handle>, actual: BudgetDelta)
    requires Balanced(a) && a.book.Settle(h.amount, actual, h.adopted).Ok?
    requires Total(a.open) == Add(Total(rest), h.amount)
    requires TotalAdopted(a.open) == Add(TotalAdopted(rest), if h.adopted then h.amount else ZERO)
    requires next == a.(book := a.book.Settle(h.amount, actual, h.adopted).value, open := rest, settled := Add(a.settled, actual))
    ensures Balanced(next)
  {
    FinishBook(a, h, actual, Total(rest), TotalAdopted(rest));
  }

  lemma FinishBook(a: Account, h: Handle, actual: BudgetDelta, rest: BudgetDelta, adopted: BudgetDelta)
    requires a.book.Settle(h.amount, actual, h.adopted).Ok? && a.book.used == Add(a.charged, a.settled)
    requires a.book.reserved == a.remainder.Plus(Add(rest, h.amount))
    requires a.book.adopted == Add(adopted, if h.adopted then h.amount else ZERO)
    ensures
      var book := a.book.Settle(h.amount, actual, h.adopted).value;
      && book.Within() && book.used == Add(a.charged, Add(a.settled, actual))
      && book.reserved == a.remainder.Plus(rest) && book.adopted == adopted
  {
    FinishSums(a.book.reserved, h.amount, a.remainder, rest);
    AdoptedSums(adopted, if h.adopted then h.amount else ZERO);
    AddAssociates(a.charged, a.settled, actual);
  }

  lemma {:induction false} StepBalanced(a: Account, step: BudgetStep)
    requires Balanced(a) && Next(a, step).Some?
    ensures Balanced(Next(a, step).value)
  {
    match step
    case Charge(_) =>
    case Hold(amount) => HoldBalanced(a, amount);
    case Reclaim(amount) => ReclaimBalanced(a, amount);
    case Finish(i, actual) => FinishBalanced(a, i, actual);
  }

  /** An adoption stays within what was restored and not yet adopted. */
  predicate Prudent(a: Account, step: BudgetStep) {
    step.Reclaim? ==> step.amount.Fits(a.remainder)
  }

  /** Runs a history; a step that raises leaves the account unchanged. */
  function RunBudget(a: Account, steps: seq<BudgetStep>): Account {
    if steps == [] then a
    else
      var before := RunBudget(a, steps[..|steps| - 1]);
      match Next(before, steps[|steps| - 1])
      case None => before
      case Some(after) => after
  }

  ghost predicate PrudentRun(a: Account, steps: seq<BudgetStep>) {
    forall k :: 0 <= k < |steps| ==> Prudent(RunBudget(a, steps[..k]), steps[k])
  }

  /** Every history of a fresh or restored ledger stays balanced. */
  lemma {:induction false} HistoryBalanced(limits: BudgetDelta, used: BudgetDelta, reserved: BudgetDelta, steps: seq<BudgetStep>)
    requires Add(used, reserved).Fits(limits)
    ensures Balanced(RunBudget(Resume(limits, used, reserved), steps))
  {
    if steps != [] {
      HistoryBalanced(limits, used, reserved, steps[..|steps| - 1]);
      var before := RunBudget(Resume(limits, used, reserved), steps[..|steps| - 1]);
      if Next(before, steps[|steps| - 1]).Some? { StepBalanced(before, steps[|steps| - 1]); }
    }
  }

  lemma PrudentStep(a: Account, step: BudgetStep)
    requires a.remainder.NonNegative() && Prudent(a, step) && Next(a, step).Some?
    ensures Next(a, step).value.remainder.NonNegative()
  {
  }

  /** While adoptions stay within the restored remainder, it never goes negative. */
  lemma {:induction false} PrudentKeepsRemainder(a: Account, steps: seq<BudgetStep>)
    requires a.remainder.NonNegative() && PrudentRun(a, steps)
    ensures RunBudget(a, steps).remainder.NonNegative()
  {
    if steps != [] {
      var n := |steps| - 1;
      forall k | 0 <= k < n ensures Prudent(RunBudget(a, steps[..n][..k]), steps[..n][k]) {
        assert steps[..n][..k] == steps[..k];
      }
      PrudentKeepsRemainder(a, steps[..n]);
      var before := RunBudget(a, steps[..n]);
      assert Prudent(before, steps[n]);
      if Next(before, steps[n]).Some? { PrudentStep(before, steps[n]); }
    }
  }

  /** Settling an open handle with a fitting actual never raises while the
      remainder is non-negative. */
  lemma {:induction false} SettleNeverRaises(a: Account, i: nat, actual: BudgetDelta)
    requires Balanced(a) && a.remainder.NonNegative()
    requires i < |a.open| && actual.Fits(a.open[i].amount)
    ensures Next(a, Finish(i, actual)).Some?
    ensures Next(a, Finish(i, actual)).value.remainder == a.remainder
  {
    HandleSettles(a, i, actual);
    FinishIsSettle(a, i, actual);
  }

  lemma HandleSettles(a: Account, i: nat, actual: BudgetDelta)
    requires Balanced(a) && a.remainder.NonNegative()
    requires i < |a.open| && actual.Fits(a.open[i].amount)
    ensures a.book.Settle(a.open[i].amount, actual, a.open[i].adopted).Ok?
  {
    var h, rest := a.open[i], Closing(a.open, i);
    ClosingTotals(a.open, i);
    FinishSums(a.book.reserved, h.amount, a.remainder, Total(rest));
    PlusNonNegative(a.remainder, Total(rest));
    AdoptedSums(TotalAdopted(rest), if h.adopted then h.amount else ZERO);
    SettleFits(a.book, h.amount, actual, h.adopted, a.remainder.Plus(Total(rest)), TotalAdopted(rest));
  }

  /** A settlement fails only at its first test, so its later assignments are
      never left behind. */
  lemma {:induction false} RaisingSettlementChangesNothing(a: Account, i: nat, actual: BudgetDelta)
    requires Balanced(a) && i < |a.open| && actual.Fits(a.open[i].amount) && Next(a, Finish(i, actual)).None?
    ensures Subtract(a.book.reserved, a.open[i].amount).Err?
    ensures a.book.AfterSettling(a.open[i].amount, actual, a.open[i].adopted) == a.book
  {
    var h, rest := a.open[i], Closing(a.open, i);
    ClosingTotals(a.open, i);
    AdoptedSums(TotalAdopted(rest), if h.adopted then h.amount else ZERO);
    match Subtract(a.book.reserved, h.amount)
    case Err =>
    case Ok(remaining) =>
      SettleFits(a.book, h.amount, actual, h.adopted, remaining, TotalAdopted(rest));
      FinishIsSettle(a, i, actual);
  }

  lemma FinishIsSettle(a: Account, i: nat, actual: BudgetDelta)
    requires i < |a.open| && actual.Fits(a.open[i].amount)
    requires a.book.Settle(a.open[i].amount, actual, a.open[i].adopted).Ok?
    ensures Next(a, Finish(i, actual)).Some?
    ensures Next(a, Finish(i, actual)).value.remainder == a.remainder
  {
  }

  lemma PlusNonNegative(a: Amounts, b: Amounts)
    requires a.NonNegative() && b.NonNegative()
    ensures a.Plus(b).NonNegative()
  {
  }

  lemma SettleFits(
    book: BudgetBook, amount: BudgetDelta, actual: BudgetDelta, wasAdopted: bool, remaining: BudgetDelta, rest: BudgetDelta)
    requires book.Within() && actual.Fits(amount) && book.reserved.Minus(amount) == remaining
    requires wasAdopted ==> book.adopted.Minus(amount) == rest
    ensures book.Settle(amount, actual, wasAdopted).Ok?
  {
    SpendingHeld(book.used, book.reserved, amount, actual, remaining, book.limits);
  }

  /** Spending at most what was held leaves the sum within the limits. */
  lemma SpendingHeld(
    used: BudgetDelta, reserved: BudgetDelta, amount: BudgetDelta, actual: BudgetDelta, remaining: BudgetDelta,
    limits: BudgetDelta)
    requires Add(used, reserved).Fits(limits) && actual.Fits(amount) && reserved.Minus(amount) == remaining
    ensures Add(Add(used, actual), remaining).Fits(limits)
  {
  }

  /** Releases every open handle, last one first. */
  function ReleaseAll(a: Account): Option<Account>
    decreases |a.open|
  {
    if a.open == [] then Some(a)
    else
      match Next(a, Finish(|a.open| - 1, ZERO))
      case None => None
      case Some(next) => ReleaseAll(next)
  }

  /** The ledger can settle everything it has handed out exactly when the
      adoptions stayed within what was restored: a non-negative remainder is
      the guard that adopt_reservation would have to test, and it tests the
      whole reserved amount, live handles included, instead. */
  lemma {:induction false} SettlesIffRemainderRemains(a: Account)
    requires Balanced(a)
    ensures ReleaseAll(a).Some? <==> a.remainder.NonNegative()
    decreases |a.open|
  {
    if a.open != [] {
      var last := |a.open| - 1;
      ClosingTotals(a.open, last);
      match Next(a, Finish(last, ZERO))
      case None =>
        if a.remainder.NonNegative() { SettleNeverRaises(a, last, ZERO); }
      case Some(next) =>
        StepBalanced(a, Finish(last, ZERO));
        SettlesIffRemainderRemains(next);
    }
  }

  /** An adoption beyond what was restored and not yet adopted leaves a ledger
      that cannot settle all it has handed out. */
  lemma {:induction false} OverAdoptionBreaksSettling(a: Account, amount: BudgetDelta)
    requires Balanced(a) && Next(a, Reclaim(amount)).Some? && !Prudent(a, Reclaim(amount))
    ensures ReleaseAll(Next(a, Reclaim(amount)).value).None?
  {
    StepBalanced(a, Reclaim(amount));
    OverdrawnRemainder(a, amount);
    OverdrawnIsStuck(Next(a, Reclaim(amount)).value);
  }

  lemma OverdrawnRemainder(a: Account, amount: BudgetDelta)
    requires Next(a, Reclaim(amount)).Some? && !amount.Fits(a.remainder)
    ensures !Next(a, Reclaim(amount)).value.remainder.NonNegative()
  {
  }

  lemma OverdrawnIsStuck(a: Account)
    requires Balanced(a) && !a.remainder.NonNegative()
    ensures ReleaseAll(a).None?
  {
    SettlesIffRemainderRemains(a);
  }

  /** A fresh ledger with one handle open. */
  function HeldOnce(limits: BudgetDelta, amount: BudgetDelta): Account {
    Account(BudgetBook(limits, ZERO, amount, ZERO), [Handle(amount, false)], ZERO, ZERO, ZERO)
  }

  /** The ledger accepts such adoptions: after one hold on a fresh ledger, it
      lets a caller adopt the live amount although nothing was restored. */
  lemma OverAdoptionIsAccepted(limits: BudgetDelta, amount: BudgetDelta)
    requires amount.Fits(limits) && amount != ZERO
    ensures Next(Resume(limits, ZERO, ZERO), Hold(amount)) == Some(HeldOnce(limits, amount))
    ensures Next(HeldOnce(limits, amount), Reclaim(amount)).Some? && !Prudent(HeldOnce(limits, amount), Reclaim(amount))
  {
    FreshHold(limits, amount);
    LiveIsAdopted(HeldOnce(limits, amount), amount);
  }

  lemma LiveIsAdopted(a: Account, amount: BudgetDelta)
    requires a.book.reserved == amount && a.book.adopted == a.remainder == ZERO && amount != ZERO
    ensures Next(a, Reclaim(amount)).Some? && !Prudent(a, Reclaim(amount))
  {
    AddZero(amount);
  }

  lemma FreshHold(limits: BudgetDelta, amount: BudgetDelta)
    requires amount.Fits(limits)
    ensures Next(Resume(limits, ZERO, ZERO), Hold(amount)) == Some(HeldOnce(limits, amount))
  {
    EmptyReserves(Resume(limits, ZERO, ZERO).book, amount);
    assert [] + [Handle(amount, false)] == [Handle(amount, false)];
  }

  lemma EmptyReserves(book: BudgetBook, amount: BudgetDelta)
    requires book.used == book.reserved == ZERO && amount.Fits(book.limits)
    ensures book.Reserve(amount) == Ok(book.(reserved := amount))
  {
    AddZero(book.used);
    AddZero(amount);
  }

  lemma AddZero(a: BudgetDelta)
    ensures Add(ZERO, a) == a && Add(a, ZERO) == a && a.Minus(ZERO) == a
  {
  }

  /** `used` only grows, and never beyond a limit. */
  lemma {:induction false} UsedGrowsWithinLimits(a: Account, step: BudgetStep)
    requires Balanced(a) && a.remainder.NonNegative() && Prudent(a, step) && Next(a, step).Some?
    ensures a.book.used.Fits(Next(a, step).value.book.used)
    ensures Next(a, step).value.book.used.Fits(a.book.limits)
    ensures Next(a, step).value.remainder.NonNegative()
  {
    StepBalanced(a, step);
  }

  // ---------------------------------------------------------------- checkpoints

  datatype BudgetCheckpoint = BudgetCheckpoint(
    limits: BudgetDelta, startedAt: int, used: BudgetDelta, reserved: BudgetDelta, capturedAt: int, elapsed: int)
  {
    predicate Valid() {
      Add(used, reserved).Fits(limits) && capturedAt >= startedAt && elapsed == capturedAt - startedAt
    }
  }

  function Capture(book: BudgetBook, startedAt: int, now: int): Result<BudgetCheckpoint> {
    var elapsed := if now < startedAt then 0 else now - startedAt;
    var c := BudgetCheckpoint(book.limits, startedAt, book.used, book.reserved, now, elapsed);
    if c.Valid() then Ok(c) else Err
  }

  function Restore(c: BudgetCheckpoint): Result<Account> {
    if Add(c.used, c.reserved).Fits(c.limits) then Ok(Resume(c.limits, c.used, c.reserved)) else Err
  }

  /** Capturing a balanced ledger succeeds at any time not before its start,
      restoring the capture succeeds, and the restored ledger is balanced,
      holds the same sums, and has all of its reservation left to adopt, so
      that everything it can adopt it can also settle. */
  lemma {:induction false} CaptureRestore(a: Account, startedAt: int, now: int)
    requires Balanced(a)
    ensures Capture(a.book, startedAt, now).Ok? <==> now >= startedAt
    ensures now >= startedAt ==>
      var c := Capture(a.book, startedAt, now).value;
      && Restore(c).Ok?
      && var b := Restore(c).value;
      && Balanced(b) && b.remainder.NonNegative()
      && b.book.limits == a.book.limits && b.book.used == a.book.used && b.book.reserved == a.book.reserved
      && b.remainder == a.remainder.Plus(Total(a.open))
  {
  }
}
