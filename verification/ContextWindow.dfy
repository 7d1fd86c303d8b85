/** Building one model context under a budget (agent/context_manager.py,
    ContextManager.build): every source is screened, what is left is taken
    greedily by priority, and the window accounts for all of it. A message is
    modelled by its size in bytes. */
module ContextWindow {
  import opened Outcomes

  datatype Layer = Conversation | UserInput | Memory | Skills | ToolResults | HookHints

  datatype Sensitivity = Public | Workspace | Private | Secret

  datatype Projection = Normal | OverflowReferences

  datatype Budget = Budget(maxMessages: nat, maxTotalBytes: nat, maxTokens: nat, maxItemBytes: nat)

  datatype Policy = Policy(allowWorkspace: bool, allowPrivate: bool)

  /** A fragment's message in full, as a reference for the overflow
      projection and as a reference for an item that is too large. */
  datatype Fragment = Fragment(
    id: Id, layer: Layer, sensitivity: Sensitivity, referable: bool,
    full: nat, overflowReference: nat, itemReference: nat)

  datatype Control = Control(id: Id, full: nat)

  /** `declared` is missing for a result without a known classification. */
  datatype ToolResult = ToolResult(
    id: Id, declared: Option<Sensitivity>, full: nat, overflowReference: nat, itemReference: nat)

  datatype Source = OfFragment(fragment: Fragment) | OfControl(control: Control) | OfResult(result: ToolResult)

  datatype Inputs = Inputs(fragments: seq<Fragment>, controls: seq<Control>, results: seq<ToolResult>)

  datatype Reason =
    | SensitivityPolicy
    | OverflowWithoutReference
    | ArtifactizationRequired
    | ReferenceExceedsItemBudget
    | ItemBudget
    | Unclassified
    | ContextBudget

  datatype Candidate = Candidate(id: Id, layer: Layer, sensitivity: Sensitivity, size: nat, reference: bool)

  datatype Omitted = Omitted(id: Id, layer: Layer, sensitivity: Sensitivity, reason: Reason)

  datatype Window = Window(
    included: seq<Candidate>, omitted: seq<Omitted>, usedBytes: nat, estimatedTokens: nat,
    compactionReasons: seq<(Id, Reason)>)

  datatype Manager = Manager(policy: Policy, budget: Budget, projection: Projection)

  // ---------------------------------------------------------------- tables

  function Priority(layer: Layer): nat {
    match layer
    case UserInput => 0
    case ToolResults => 1
    case Conversation => 2
    case Skills => 3
    case Memory => 4
    case HookHints => 5
  }

  /** The order of the layers in the finished window. */
  function Place(layer: Layer): nat {
    match layer
    case Conversation => 0
    case UserInput => 1
    case Memory => 2
    case Skills => 3
    case ToolResults => 4
    case HookHints => 5
  }

  const RANKS: nat := 6

  predicate Required(layer: Layer) {
    layer == UserInput || layer == ToolResults
  }

  predicate Allows(policy: Policy, sensitivity: Sensitivity) {
    match sensitivity
    case Secret => false
    case Private => policy.allowPrivate
    case Workspace => policy.allowWorkspace
    case Public => true
  }

  function EstimateTokens(bytes: nat): nat {
    var tokens := (bytes + 2) / 3;
    if tokens < 1 then 1 else tokens
  }

  // ---------------------------------------------------------------- screening one source

  datatype Screened = Offer(candidate: Candidate) | Drop(omitted: Omitted)

  function ScreenFragment(m: Manager, f: Fragment): Screened {
    var required := f.layer == UserInput;
    if !Allows(m.policy, f.sensitivity) then Drop(Omitted(f.id, f.layer, f.sensitivity, SensitivityPolicy))
    else if m.projection == OverflowReferences && !required && !f.referable then
      Drop(Omitted(f.id, f.layer, f.sensitivity, OverflowWithoutReference))
    else
      var projected := m.projection == OverflowReferences && !required;
      var size := if projected then f.overflowReference else f.full;
      if size <= m.budget.maxItemBytes then Offer(Candidate(f.id, f.layer, f.sensitivity, size, projected))
      else if !f.referable || (required && m.projection != Normal) then
        Drop(Omitted(f.id, f.layer, f.sensitivity, ArtifactizationRequired))
      else if f.itemReference > m.budget.maxItemBytes then
        Drop(Omitted(f.id, f.layer, f.sensitivity, ReferenceExceedsItemBudget))
      else Offer(Candidate(f.id, f.layer, f.sensitivity, f.itemReference, true))
  }

  function ScreenControl(m: Manager, c: Control): Screened {
    if c.full > m.budget.maxItemBytes then Drop(Omitted(c.id, UserInput, Workspace, ItemBudget))
    else Offer(Candidate(c.id, UserInput, Workspace, c.full, false))
  }

  function ScreenResult(m: Manager, r: ToolResult): Screened {
    if r.declared.None? then Drop(Omitted(r.id, ToolResults, Secret, Unclassified))
    else
      var sensitivity := r.declared.value;
      if !Allows(m.policy, sensitivity) then Drop(Omitted(r.id, ToolResults, sensitivity, SensitivityPolicy))
      else
        var projected := m.projection == OverflowReferences;
        var size := if projected then r.overflowReference else r.full;
        if size <= m.budget.maxItemBytes then Offer(Candidate(r.id, ToolResults, sensitivity, size, projected))
        else if !projected && r.itemReference <= m.budget.maxItemBytes then
          Offer(Candidate(r.id, ToolResults, sensitivity, r.itemReference, true))
        else Drop(Omitted(r.id, ToolResults, sensitivity, ArtifactizationRequired))
  }

  function Screen(m: Manager, source: Source): Screened {
    match source
    case OfFragment(f) => ScreenFragment(m, f)
    case OfControl(c) => ScreenControl(m, c)
    case OfResult(r) => ScreenResult(m, r)
  }

  function Offered(m: Manager, sources: seq<Source>): seq<Candidate> {
    if sources == [] then []
    else
      var earlier := Offered(m, sources[..|sources| - 1]);
      match Screen(m, sources[|sources| - 1])
      case Offer(candidate) => earlier + [candidate]
      case Drop(_) => earlier
  }

  function Dropped(m: Manager, sources: seq<Source>): seq<Omitted> {
    if sources == [] then []
    else
      var earlier := Dropped(m, sources[..|sources| - 1]);
      match Screen(m, sources[|sources| - 1])
      case Offer(_) => earlier
      case Drop(omitted) => earlier + [omitted]
  }

  /** The sources in the order in which they are screened. */
  function Sources(inputs: Inputs): seq<Source> {
    var n, c := |inputs.fragments|, |inputs.controls|;
    seq(n + c + |inputs.results|, i requires 0 <= i < n + c + |inputs.results| =>
      if i < n then OfFragment(inputs.fragments[i])
      else if i < n + c then OfControl(inputs.controls[i - n])
      else OfResult(inputs.results[i - n - c]))
  }

  // ---------------------------------------------------------------- sorting and selecting

  function Filter<T>(xs: seq<T>, keep: T -> bool): seq<T> {
    if xs == [] then []
    else
      var earlier := Filter(xs[..|xs| - 1], keep);
      if keep(xs[|xs| - 1]) then earlier + [xs[|xs| - 1]] else earlier
  }

  function At(key: Layer -> nat, rank: nat): Candidate -> bool {
    (c: Candidate) => key(c.layer) == rank
  }

  /** The candidates rank by rank, each rank in its own order. */
  function Grouped(cs: seq<Candidate>, key: Layer -> nat, ranks: nat): seq<Candidate> {
    if ranks == 0 then [] else Grouped(cs, key, ranks - 1) + Filter(cs, At(key, ranks - 1))
  }

  predicate Fits(budget: Budget, messages: nat, bytes: nat) {
    && messages <= budget.maxMessages
    && bytes <= budget.maxTotalBytes
    && EstimateTokens(bytes) <= budget.maxTokens
  }

  datatype Selection = Selection(selected: seq<Candidate>, passed: seq<Candidate>, used: nat)

  /** The system rules and the run snapshot come first. */
  const BASE_MESSAGES: nat := 2

  function Select(budget: Budget, base: nat, cs: seq<Candidate>): Selection {
    if cs == [] then Selection([], [], base)
    else
      var s := Select(budget, base, cs[..|cs| - 1]);
      var c := cs[|cs| - 1];
      if Fits(budget, BASE_MESSAGES + |s.selected| + 1, s.used + c.size)
      then Selection(s.selected + [c], s.passed, s.used + c.size)
      else s.(passed := s.passed + [c])
  }

  function PassedOver(cs: seq<Candidate>): seq<Omitted> {
    seq(|cs|, i requires 0 <= i < |cs| => Omitted(cs[i].id, cs[i].layer, cs[i].sensitivity, ContextBudget))
  }

  function Reasons(omitted: seq<Omitted>): seq<(Id, Reason)> {
    if omitted == [] then []
    else
      var earlier, last := Reasons(omitted[..|omitted| - 1]), omitted[|omitted| - 1];
      if Required(last.layer) then earlier + [(last.id, last.reason)] else earlier
  }

  /** Each reason once, where it came first. */
  function FirstOccurrences(reasons: seq<(Id, Reason)>): seq<(Id, Reason)> {
    if reasons == [] then []
    else
      var earlier, last := FirstOccurrences(reasons[..|reasons| - 1]), reasons[|reasons| - 1];
      if last in reasons[..|reasons| - 1] then earlier else earlier + [last]
  }

  function Ids(cs: seq<Candidate>): seq<Id> {
    seq(|cs|, i requires 0 <= i < |cs| => cs[i].id)
  }

  predicate Distinct(ids: seq<Id>) {
    forall i, j :: 0 <= i < j < |ids| ==> ids[i] != ids[j]
  }

  /** What the window's own validation demands; the hash and the two base
      messages always meet it. */
  predicate ValidWindow(budget: Budget, baseIds: seq<Id>, w: Window) {
    && Distinct(baseIds + Ids(w.included))
    && w.usedBytes >= 1 && w.estimatedTokens >= 1
    && Fits(budget, BASE_MESSAGES + |w.included|, w.usedBytes)
    && w.estimatedTokens == EstimateTokens(w.usedBytes)
  }

  /** The finished window for the screened sources. */
  function Assemble(m: Manager, base: nat, sources: seq<Source>): Window {
    var s := Select(m.budget, base, Grouped(Offered(m, sources), Priority, RANKS));
    var omitted := Dropped(m, sources) + PassedOver(s.passed);
    Window(Grouped(s.selected, Place, RANKS), omitted, s.used, EstimateTokens(s.used), FirstOccurrences(Reasons(omitted)))
  }

  /** Builds the window, or raises when the two base messages alone exceed the
      budget or the window does not pass its own validation. */
  method Build(m: Manager, baseIds: seq<Id>, base: nat, inputs: Inputs) returns (r: Result<Window>)
    ensures r == (if Fits(m.budget, BASE_MESSAGES, base)
                     && ValidWindow(m.budget, baseIds, Assemble(m, base, Sources(inputs)))
                  then Ok(Assemble(m, base, Sources(inputs))) else Err)
  {
    if !Fits(m.budget, BASE_MESSAGES, base) { return Err; }
    var candidates, omitted, reasons := ScreenAll(m, Sources(inputs));
    var sorted := Grouped(candidates, Priority, RANKS);
    var selected, used;
    selected, omitted, reasons, used := Choose(m.budget, base, sorted, omitted, reasons);
    var w := Window(Grouped(selected, Place, RANKS), omitted, used, EstimateTokens(used), FirstOccurrences(reasons));
    if !ValidWindow(m.budget, baseIds, w) { return Err; }
    r := Ok(w);
  }

  /** Records the outcome of screening one source. */
  method Take(s: Screened, candidates: seq<Candidate>, omitted: seq<Omitted>, reasons: seq<(Id, Reason)>)
    returns (candidates': seq<Candidate>, omitted': seq<Omitted>, reasons': seq<(Id, Reason)>)
    requires reasons == Reasons(omitted)
    ensures candidates' == if s.Offer? then candidates + [s.candidate] else candidates
    ensures omitted' == if s.Drop? then omitted + [s.omitted] else omitted
    ensures reasons' == Reasons(omitted')
  {
    candidates', omitted', reasons' := candidates, omitted, reasons;
    match s {
      case Offer(candidate) => candidates' := candidates + [candidate];
      case Drop(o) =>
        omitted' := omitted + [o];
        assert omitted'[..|omitted|] == omitted;
        if Required(o.layer) { reasons' := reasons + [(o.id, o.reason)]; }
    }
  }

  /** The loops over the fragments, the control messages and the tool results. */
  method ScreenAll(m: Manager, sources: seq<Source>)
    returns (candidates: seq<Candidate>, omitted: seq<Omitted>, reasons: seq<(Id, Reason)>)
    ensures candidates == Offered(m, sources) && omitted == Dropped(m, sources) && reasons == Reasons(omitted)
  {
    candidates, omitted, reasons := [], [], [];
    for i := 0 to |sources|
      invariant candidates == Offered(m, sources[..i]) && omitted == Dropped(m, sources[..i])
      invariant reasons == Reasons(omitted)
    {
      assert sources[..i + 1][..i] == sources[..i];
      candidates, omitted, reasons := Take(Screen(m, sources[i]), candidates, omitted, reasons);
    }
    assert sources[..|sources|] == sources;
  }

  /** The greedy loop over the sorted candidates. */
  method Choose(budget: Budget, base: nat, sorted: seq<Candidate>, dropped: seq<Omitted>, why: seq<(Id, Reason)>)
    returns (selected: seq<Candidate>, omitted: seq<Omitted>, reasons: seq<(Id, Reason)>, used: nat)
    requires why == Reasons(dropped)
    ensures
      var s := Select(budget, base, sorted);
      selected == s.selected && used == s.used && omitted == dropped + PassedOver(s.passed)
    ensures reasons == Reasons(omitted)
  {
    omitted, reasons := dropped, why;
    selected, used := [], base;
    ghost var passed := [];
    for i := 0 to |sorted|
      invariant Selection(selected, passed, used) == Select(budget, base, sorted[..i])
      invariant omitted == dropped + PassedOver(passed) && reasons == Reasons(omitted)
    {
      assert sorted[..i + 1][..i] == sorted[..i];
      var c := sorted[i];
      var next := used + c.size;
      if BASE_MESSAGES + |selected| + 1 > budget.maxMessages || next > budget.maxTotalBytes
        || EstimateTokens(next) > budget.maxTokens
      {
        passed := passed + [c];
        var none;
        none, omitted, reasons := Take(Drop(Omitted(c.id, c.layer, c.sensitivity, ContextBudget)), [], omitted, reasons);
      } else {
        selected, used := selected + [c], next;
      }
    }
    assert sorted[..|sorted|] == sorted;
  }

  // ---------------------------------------------------------------- filters and groups

  lemma {:induction false} FilterAppend<T>(xs: seq<T>, ys: seq<T>, keep: T -> bool)
    ensures Filter(xs + ys, keep) == Filter(xs, keep) + Filter(ys, keep)
  {
    if ys == [] {
      assert xs + ys == xs;
    } else {
      var n := |ys| - 1;
      assert (xs + ys)[..|xs + ys| - 1] == xs + ys[..n];
      FilterAppend(xs, ys[..n], keep);
    }
  }

  lemma {:induction false} FilterCommutes<T>(xs: seq<T>, f: T -> bool, g: T -> bool)
    ensures Filter(Filter(xs, f), g) == Filter(Filter(xs, g), f)
  {
    if xs != [] {
      var init, last := xs[..|xs| - 1], xs[|xs| - 1];
      FilterCommutes(init, f, g);
      FilterAppend(Filter(init, f), [last], g);
      FilterAppend(Filter(init, g), [last], f);
    }
  }

  lemma {:induction false} FilterMembers<T>(xs: seq<T>, keep: T -> bool)
    ensures forall x :: x in Filter(xs, keep) <==> x in xs && keep(x)
  {
    if xs != [] {
      FilterMembers(xs[..|xs| - 1], keep);
      assert forall x :: x in xs <==> x in xs[..|xs| - 1] || x == xs[|xs| - 1];
    }
  }

  lemma {:induction false} FilterAll<T>(xs: seq<T>, keep: T -> bool)
    requires forall x :: x in xs ==> keep(x)
    ensures Filter(xs, keep) == xs
  {
    if xs != [] { FilterAll(xs[..|xs| - 1], keep); }
  }

  lemma {:induction false} FilterGrouped(cs: seq<Candidate>, key: Layer -> nat, ranks: nat, keep: Candidate -> bool)
    ensures Filter(Grouped(cs, key, ranks), keep) == Grouped(Filter(cs, keep), key, ranks)
  {
    if ranks > 0 {
      FilterGrouped(cs, key, ranks - 1, keep);
      FilterAppend(Grouped(cs, key, ranks - 1), Filter(cs, At(key, ranks - 1)), keep);
      FilterCommutes(cs, At(key, ranks - 1), keep);
    }
  }

  predicate Ascending(cs: seq<Candidate>, key: Layer -> nat) {
    forall i, j :: 0 <= i < j < |cs| ==> key(cs[i].layer) <= key(cs[j].layer)
  }

  lemma {:induction false} GroupedAscends(cs: seq<Candidate>, key: Layer -> nat, ranks: nat)
    ensures Ascending(Grouped(cs, key, ranks), key)
    ensures forall c :: c in Grouped(cs, key, ranks) ==> key(c.layer) < ranks
  {
    if ranks > 0 {
      GroupedAscends(cs, key, ranks - 1);
      FilterMembers(cs, At(key, ranks - 1));
      var low, top := Grouped(cs, key, ranks - 1), Filter(cs, At(key, ranks - 1));
      forall i | 0 <= i < |top| ensures key(top[i].layer) == ranks - 1 { assert top[i] in top; }
      forall i | 0 <= i < |low| ensures key(low[i].layer) < ranks - 1 { assert low[i] in low; }
    }
  }

  /** `at` is where the candidate belongs: behind its own rank. */
  predicate Splits(sorted: seq<Candidate>, key: Layer -> nat, c: Candidate, at: nat) {
    && at <= |sorted|
    && (forall i :: 0 <= i < at ==> key(sorted[i].layer) <= key(c.layer))
    && (forall i :: at <= i < |sorted| ==> key(c.layer) < key(sorted[i].layer))
  }

  function Insert(sorted: seq<Candidate>, c: Candidate, at: nat): seq<Candidate>
    requires at <= |sorted|
  {
    sorted[..at] + [c] + sorted[at..]
  }

  /** Adding a candidate at the end of the list puts it behind its own rank. */
  lemma {:induction false} GroupedInsert(cs: seq<Candidate>, c: Candidate, key: Layer -> nat, ranks: nat, at: nat)
    requires key(c.layer) < ranks && Splits(Grouped(cs, key, ranks), key, c, at)
    ensures Grouped(cs + [c], key, ranks) == Insert(Grouped(cs, key, ranks), c, at)
  {
    var low, top := Grouped(cs, key, ranks - 1), Filter(cs, At(key, ranks - 1));
    FilterOne(cs, c, At(key, ranks - 1));
    if key(c.layer) == ranks - 1 {
      AtTheEnd(cs, c, key, ranks, at);
      GroupedBelow(cs, c, key, ranks - 1);
      InsertTop(low, top, c);
    } else {
      SplitsLower(cs, c, key, ranks, at);
      GroupedInsert(cs, c, key, ranks - 1, at);
      InsertLow(low, top, c, at);
    }
  }

  lemma FilterOne<T>(xs: seq<T>, x: T, keep: T -> bool)
    ensures Filter(xs + [x], keep) == if keep(x) then Filter(xs, keep) + [x] else Filter(xs, keep)
  {
    assert (xs + [x])[..|xs + [x]| - 1] == xs;
  }

  lemma InsertTop(low: seq<Candidate>, top: seq<Candidate>, c: Candidate)
    ensures Insert(low + top, c, |low + top|) == low + (top + [c])
  {
  }

  lemma InsertLow(low: seq<Candidate>, top: seq<Candidate>, c: Candidate, at: nat)
    requires at <= |low|
    ensures Insert(low + top, c, at) == Insert(low, c, at) + top
  {
    assert (low + top)[at..] == low[at..] + top;
  }

  lemma AtTheEnd(cs: seq<Candidate>, c: Candidate, key: Layer -> nat, ranks: nat, at: nat)
    requires key(c.layer) == ranks - 1 && Splits(Grouped(cs, key, ranks), key, c, at)
    ensures at == |Grouped(cs, key, ranks)|
  {
    var sorted := Grouped(cs, key, ranks);
    GroupedAscends(cs, key, ranks);
    var i := if at < |sorted| then at else 0;
    if sorted != [] { assert sorted[i] in sorted; }
  }

  lemma SplitsLower(cs: seq<Candidate>, c: Candidate, key: Layer -> nat, ranks: nat, at: nat)
    requires key(c.layer) + 1 < ranks && Splits(Grouped(cs, key, ranks), key, c, at)
    ensures Splits(Grouped(cs, key, ranks - 1), key, c, at)
  {
    var low, top := Grouped(cs, key, ranks - 1), Filter(cs, At(key, ranks - 1));
    FilterMembers(cs, At(key, ranks - 1));
    if top != [] {
      assert top[0] in top && (low + top)[|low|] == top[0];
    }
    forall i | 0 <= i < |low| ensures (low + top)[i] == low[i] {}
  }

  lemma {:induction false} GroupedBelow(cs: seq<Candidate>, c: Candidate, key: Layer -> nat, ranks: nat)
    requires key(c.layer) >= ranks
    ensures Grouped(cs + [c], key, ranks) == Grouped(cs, key, ranks)
  {
    if ranks > 0 {
      GroupedBelow(cs, c, key, ranks - 1);
      NotFiltered(cs, c, key, ranks - 1);
      GroupedStep(cs, key, ranks - 1);
      GroupedStep(cs + [c], key, ranks - 1);
    }
  }

  lemma GroupedStep(cs: seq<Candidate>, key: Layer -> nat, rank: nat)
    ensures Grouped(cs, key, rank + 1) == Grouped(cs, key, rank) + Filter(cs, At(key, rank))
  {
  }

  lemma NotFiltered(cs: seq<Candidate>, c: Candidate, key: Layer -> nat, rank: nat)
    requires key(c.layer) != rank
    ensures Filter(cs + [c], At(key, rank)) == Filter(cs, At(key, rank))
  {
    FilterOne(cs, c, At(key, rank));
  }

  // ---------------------------------------------------------------- the sort

  /** `order` lists the candidates' ordinals by rank, then ordinal. Ordinals
      grow along the list of candidates, so an index stands for its ordinal. */
  ghost predicate SortedOrder(cs: seq<Candidate>, key: Layer -> nat, order: seq<nat>) {
    && |order| == |cs|
    && (forall i :: 0 <= i < |order| ==> order[i] < |cs|)
    && (forall k: nat :: k < |cs| ==> k in order)
    && forall i, j :: 0 <= i < j < |order| ==> Before(cs, key, order[i], order[j])
  }

  predicate Before(cs: seq<Candidate>, key: Layer -> nat, a: nat, b: nat)
    requires a < |cs| && b < |cs|
  {
    var p, q := key(cs[a].layer), key(cs[b].layer);
    p < q || (p == q && a < b)
  }

  function Permuted(cs: seq<Candidate>, order: seq<nat>): seq<Candidate>
    requires forall i :: 0 <= i < |order| ==> order[i] < |cs|
  {
    seq(|order|, i requires 0 <= i < |order| => cs[order[i]])
  }

  lemma {:induction false} SortedIsGrouped(cs: seq<Candidate>, key: Layer -> nat, ranks: nat, order: seq<nat>)
    requires SortedOrder(cs, key, order) && forall layer :: key(layer) < ranks
    ensures Permuted(cs, order) == Grouped(cs, key, ranks)
  {
    if cs == [] {
      GroupedNothing(key, ranks);
    } else {
      var n: nat := |cs| - 1;
      assert n in order;
      var k :| 0 <= k < |order| && order[k] == n;
      var rest := order[..k] + order[k + 1..];
      WithoutLast(cs, key, order, k);
      SortedIsGrouped(cs[..n], key, ranks, rest);
      assert cs[..n] + [cs[n]] == cs;
      SplitsAtLast(cs, key, order, k);
      GroupedInsert(cs[..n], cs[n], key, ranks, k);
      PermutedInsert(cs, order, k);
    }
  }

  /** Sorting by priority and ordinal has one result: the candidates grouped by
      priority, each group in the order of the list. */
  lemma {:induction false} SortIsGrouping(cs: seq<Candidate>, order: seq<nat>)
    requires SortedOrder(cs, Priority, order)
    ensures Permuted(cs, order) == Grouped(cs, Priority, RANKS)
  {
    SortedIsGrouped(cs, Priority, RANKS, order);
  }

  lemma SplitsAtLast(cs: seq<Candidate>, key: Layer -> nat, order: seq<nat>, k: nat)
    requires cs != [] && SortedOrder(cs, key, order) && k < |order| && order[k] == |cs| - 1
    requires SortedOrder(cs[..|cs| - 1], key, order[..k] + order[k + 1..])
    ensures Splits(Permuted(cs[..|cs| - 1], order[..k] + order[k + 1..]), key, cs[|cs| - 1], k)
  {
    var n := |cs| - 1;
    var rest := order[..k] + order[k + 1..];
    forall i | 0 <= i < k ensures key(cs[..n][rest[i]].layer) <= key(cs[n].layer) {
      assert Before(cs, key, order[i], order[k]);
    }
    forall i | k <= i < |rest| ensures key(cs[n].layer) < key(cs[..n][rest[i]].layer) {
      assert Before(cs, key, order[k], order[i + 1]);
    }
  }

  lemma PermutedInsert(cs: seq<Candidate>, order: seq<nat>, k: nat)
    requires cs != [] && k < |order| && order[k] == |cs| - 1
    requires forall i :: 0 <= i < |order| ==> order[i] < |cs|
    requires forall i :: 0 <= i < |order| && i != k ==> order[i] < |cs| - 1
    ensures
      var rest := order[..k] + order[k + 1..];
      && (forall i :: 0 <= i < |rest| ==> rest[i] < |cs| - 1)
      && Permuted(cs, order) == Insert(Permuted(cs[..|cs| - 1], rest), cs[|cs| - 1], k)
  {
    var n := |cs| - 1;
    var rest := order[..k] + order[k + 1..];
    forall i | 0 <= i < |rest| ensures rest[i] < n { assert rest[i] == order[if i < k then i else i + 1]; }
  }

  lemma {:induction false} GroupedNothing(key: Layer -> nat, ranks: nat)
    ensures Grouped([], key, ranks) == []
  {
    if ranks > 0 { GroupedNothing(key, ranks - 1); }
  }

  lemma WithoutLast(cs: seq<Candidate>, key: Layer -> nat, order: seq<nat>, k: nat)
    requires cs != [] && SortedOrder(cs, key, order) && k < |order| && order[k] == |cs| - 1
    ensures forall i :: 0 <= i < |order| && i != k ==> order[i] < |cs| - 1
    ensures SortedOrder(cs[..|cs| - 1], key, order[..k] + order[k + 1..])
  {
    var n := |cs| - 1;
    var rest := order[..k] + order[k + 1..];
    forall at | 0 <= at < |order| && at != k ensures order[at] < n {
      if at < k { assert Before(cs, key, order[at], order[k]); } else { assert Before(cs, key, order[k], order[at]); }
    }
    forall i | 0 <= i < |rest| ensures rest[i] < n { assert rest[i] == order[if i < k then i else i + 1]; }
    forall x: nat | x < n ensures x in rest {
      assert x in order;
      var at :| 0 <= at < |order| && order[at] == x;
      assert rest[if at < k then at else at - 1] == x;
    }
    forall i, j | 0 <= i < j < |rest| ensures Before(cs[..n], key, rest[i], rest[j]) {
      assert Before(cs, key, order[if i < k then i else i + 1], order[if j < k then j else j + 1]);
    }
  }

  // The second sort, by layer, of what was selected. An ordinal is still a
  // position in the list of candidates, not in the list that is sorted.

  /** Which of the sorted candidates the greedy loop selects. */
  function Picks(budget: Budget, base: nat, cs: seq<Candidate>): seq<nat> {
    if cs == [] then []
    else
      var init, n := cs[..|cs| - 1], |cs| - 1;
      var s := Select(budget, base, init);
      if Fits(budget, BASE_MESSAGES + |s.selected| + 1, s.used + cs[n].size) then Picks(budget, base, init) + [n]
      else Picks(budget, base, init)
  }

  lemma {:induction false} PicksAreSelected(budget: Budget, base: nat, cs: seq<Candidate>)
    ensures
      var picks, selected := Picks(budget, base, cs), Select(budget, base, cs).selected;
      && |picks| == |selected| && (forall i :: 0 <= i < |picks| ==> picks[i] < |cs| && cs[picks[i]] == selected[i])
      && forall i, j :: 0 <= i < j < |picks| ==> picks[i] < picks[j]
  {
    if cs != [] { PicksAreSelected(budget, base, cs[..|cs| - 1]); }
  }

  /** `order` sorts the items by layer, then by the ordinals they carry. */
  ghost predicate LayerOrder(items: seq<Candidate>, ordinals: seq<nat>, order: seq<nat>)
    requires |ordinals| == |items|
  {
    && |order| == |items|
    && (forall i :: 0 <= i < |order| ==> order[i] < |items|)
    && (forall k: nat :: k < |items| ==> k in order)
    && forall i, j :: 0 <= i < j < |order| ==> LayerBefore(items, ordinals, order[i], order[j])
  }

  predicate LayerBefore(items: seq<Candidate>, ordinals: seq<nat>, a: nat, b: nat)
    requires |ordinals| == |items| && a < |items| && b < |items|
  {
    var p, q := Place(items[a].layer), Place(items[b].layer);
    p < q || (p == q && ordinals[a] < ordinals[b])
  }

  lemma SamePlaceSameLayer(a: Layer, b: Layer)
    requires Place(a) == Place(b)
    ensures a == b
  {
  }

  /** Sorting what was selected by layer and ordinal has one result: it is
      grouped by layer, each group as it was selected. */
  lemma {:induction false} LayerSortIsGrouping(
    budget: Budget, base: nat, cs: seq<Candidate>, byPriority: seq<nat>, sorted: seq<Candidate>,
    selected: seq<Candidate>, ordinals: seq<nat>, byLayer: seq<nat>)
    requires SortedOrder(cs, Priority, byPriority) && sorted == Permuted(cs, byPriority)
    requires selected == Select(budget, base, sorted).selected
    requires Ordinals(byPriority, Picks(budget, base, sorted), ordinals)
    requires |ordinals| == |selected| && LayerOrder(selected, ordinals, byLayer)
    ensures sorted == Grouped(cs, Priority, RANKS) && Permuted(selected, byLayer) == Grouped(selected, Place, RANKS)
  {
    SortIsGrouping(cs, byPriority);
    PicksAreSelected(budget, base, sorted);
    OrdinalsAscend(cs, byPriority, sorted, Picks(budget, base, sorted), selected, ordinals);
    LayerOrderIsSorted(selected, ordinals, byLayer);
    SortedIsGrouped(selected, Place, RANKS, byLayer);
  }

  /** The ordinals of the selected candidates. */
  predicate Ordinals(byPriority: seq<nat>, picks: seq<nat>, ordinals: seq<nat>) {
    |ordinals| == |picks| && forall i :: 0 <= i < |picks| ==> picks[i] < |byPriority| && ordinals[i] == byPriority[picks[i]]
  }

  lemma OrdinalsAscend(
    cs: seq<Candidate>, byPriority: seq<nat>, sorted: seq<Candidate>, picks: seq<nat>, selected: seq<Candidate>,
    ordinals: seq<nat>)
    requires SortedOrder(cs, Priority, byPriority) && sorted == Permuted(cs, byPriority)
    requires |picks| == |selected| && forall i :: 0 <= i < |picks| ==> picks[i] < |sorted| && sorted[picks[i]] == selected[i]
    requires (forall i, j :: 0 <= i < j < |picks| ==> picks[i] < picks[j]) && Ordinals(byPriority, picks, ordinals)
    ensures forall i, j :: 0 <= i < j < |selected| && Place(selected[i].layer) == Place(selected[j].layer) ==>
              ordinals[i] < ordinals[j]
  {
    forall i, j | 0 <= i < j < |selected| && Place(selected[i].layer) == Place(selected[j].layer)
      ensures ordinals[i] < ordinals[j]
    {
      SamePlaceSameLayer(selected[i].layer, selected[j].layer);
      assert Before(cs, Priority, byPriority[picks[i]], byPriority[picks[j]]);
    }
  }

  lemma LayerOrderIsSorted(items: seq<Candidate>, ordinals: seq<nat>, order: seq<nat>)
    requires |ordinals| == |items| && LayerOrder(items, ordinals, order)
    requires forall i, j :: 0 <= i < j < |items| && Place(items[i].layer) == Place(items[j].layer) ==> ordinals[i] < ordinals[j]
    ensures SortedOrder(items, Place, order)
  {
    forall i, j | 0 <= i < j < |order| ensures Before(items, Place, order[i], order[j]) {
      assert LayerBefore(items, ordinals, order[i], order[j]);
    }
  }

  // ---------------------------------------------------------------- what every window accounts for

  function IdOf(source: Source): Id {
    match source
    case OfFragment(f) => f.id
    case OfControl(c) => c.id
    case OfResult(r) => r.id
  }

  function LayerOf(source: Source): Layer {
    match source
    case OfFragment(f) => f.layer
    case OfControl(_) => UserInput
    case OfResult(_) => ToolResults
  }

  function SourceIds(sources: seq<Source>): seq<Id> {
    seq(|sources|, i requires 0 <= i < |sources| => IdOf(sources[i]))
  }

  function Sum<T>(xs: seq<T>, weight: T -> nat): nat {
    if xs == [] then 0 else Sum(xs[..|xs| - 1], weight) + weight(xs[|xs| - 1])
  }

  function Size(c: Candidate): nat { c.size }

  function One(c: Candidate): nat { 1 }

  /** Weights that count how often an identifier occurs. */
  function Candidates(id: Id): Candidate -> nat {
    (c: Candidate) => if c.id == id then 1 else 0
  }

  function Omissions(id: Id): Omitted -> nat {
    (o: Omitted) => if o.id == id then 1 else 0
  }

  function Occurrences(id: Id): Source -> nat {
    (s: Source) => if IdOf(s) == id then 1 else 0
  }

  lemma {:induction false} SumAppend<T>(xs: seq<T>, ys: seq<T>, weight: T -> nat)
    ensures Sum(xs + ys, weight) == Sum(xs, weight) + Sum(ys, weight)
  {
    if ys == [] {
      assert xs + ys == xs;
    } else {
      assert (xs + ys)[..|xs + ys| - 1] == xs + ys[..|ys| - 1];
      SumAppend(xs, ys[..|ys| - 1], weight);
    }
  }

  lemma SumOne<T>(xs: seq<T>, x: T, weight: T -> nat)
    ensures Sum(xs + [x], weight) == Sum(xs, weight) + weight(x)
  {
    assert (xs + [x])[..|xs + [x]| - 1] == xs;
  }

  lemma {:induction false} SumOnes(cs: seq<Candidate>)
    ensures Sum(cs, One) == |cs|
  {
    if cs != [] { SumOnes(cs[..|cs| - 1]); }
  }

  lemma FilterSumOne(cs: seq<Candidate>, c: Candidate, keep: Candidate -> bool, weight: Candidate -> nat)
    ensures Sum(Filter(cs + [c], keep), weight) == Sum(Filter(cs, keep), weight) + if keep(c) then weight(c) else 0
  {
    FilterOne(cs, c, keep);
    SumOne(Filter(cs, keep), c, weight);
  }

  lemma SumOfGroups(cs: seq<Candidate>, key: Layer -> nat, ranks: nat, weight: Candidate -> nat)
    requires ranks > 0
    ensures Sum(Grouped(cs, key, ranks), weight) ==
              Sum(Grouped(cs, key, ranks - 1), weight) + Sum(Filter(cs, At(key, ranks - 1)), weight)
  {
    SumAppend(Grouped(cs, key, ranks - 1), Filter(cs, At(key, ranks - 1)), weight);
  }

  lemma {:induction false} GroupedSumOne(
    cs: seq<Candidate>, c: Candidate, key: Layer -> nat, ranks: nat, weight: Candidate -> nat)
    ensures Sum(Grouped(cs + [c], key, ranks), weight) ==
              Sum(Grouped(cs, key, ranks), weight) + if key(c.layer) < ranks then weight(c) else 0
  {
    if ranks > 0 {
      GroupedSumOne(cs, c, key, ranks - 1, weight);
      FilterSumOne(cs, c, At(key, ranks - 1), weight);
      SumOfGroups(cs, key, ranks, weight);
      SumOfGroups(cs + [c], key, ranks, weight);
    }
  }

  /** Grouping neither loses nor repeats a candidate. */
  lemma {:induction false} GroupedSum(cs: seq<Candidate>, key: Layer -> nat, ranks: nat, weight: Candidate -> nat)
    requires forall layer :: key(layer) < ranks
    ensures Sum(Grouped(cs, key, ranks), weight) == Sum(cs, weight)
  {
    if cs == [] {
      NothingGrouped(key, ranks);
    } else {
      var init, last := cs[..|cs| - 1], cs[|cs| - 1];
      GroupedSum(init, key, ranks, weight);
      assert cs == init + [last];
      GroupedSumOne(init, last, key, ranks, weight);
      assert key(last.layer) < ranks;
    }
  }

  lemma {:induction false} GroupedLength(cs: seq<Candidate>, key: Layer -> nat, ranks: nat)
    requires forall layer :: key(layer) < ranks
    ensures |Grouped(cs, key, ranks)| == |cs|
  {
    GroupedSum(cs, key, ranks, One);
    SumOnes(cs);
    SumOnes(Grouped(cs, key, ranks));
  }

  lemma {:induction false} NothingGrouped(key: Layer -> nat, ranks: nat)
    ensures Grouped([], key, ranks) == []
  {
    if ranks > 0 { NothingGrouped(key, ranks - 1); }
  }

  lemma {:induction false} GroupedMembers(cs: seq<Candidate>, key: Layer -> nat, ranks: nat)
    ensures forall c :: c in Grouped(cs, key, ranks) ==> c in cs
  {
    if ranks > 0 {
      GroupedMembers(cs, key, ranks - 1);
      FilterMembers(cs, At(key, ranks - 1));
    }
  }

  lemma {:induction false} SelectMembers(budget: Budget, base: nat, cs: seq<Candidate>)
    ensures
      var s := Select(budget, base, cs);
      (forall c :: c in s.selected ==> c in cs) && forall c :: c in s.passed ==> c in cs
  {
    if cs != [] {
      var init := cs[..|cs| - 1];
      SelectMembers(budget, base, init);
      assert cs == init + [cs[|cs| - 1]];
    }
  }

  lemma {:induction false} SelectSplits(budget: Budget, base: nat, cs: seq<Candidate>, weight: Candidate -> nat)
    ensures
      var s := Select(budget, base, cs);
      Sum(s.selected, weight) + Sum(s.passed, weight) == Sum(cs, weight)
  {
    if cs != [] {
      var init, last := cs[..|cs| - 1], cs[|cs| - 1];
      SelectSplits(budget, base, init, weight);
      SumOne(Select(budget, base, init).selected, last, weight);
      SumOne(Select(budget, base, init).passed, last, weight);
    }
  }

  lemma {:induction false} SelectFits(budget: Budget, base: nat, cs: seq<Candidate>)
    ensures
      var s := Select(budget, base, cs);
      && s.used == base + Sum(s.selected, Size)
      && (Fits(budget, BASE_MESSAGES, base) ==> Fits(budget, BASE_MESSAGES + |s.selected|, s.used))
  {
    if cs != [] {
      var init, last := cs[..|cs| - 1], cs[|cs| - 1];
      SelectFits(budget, base, init);
      SumOne(Select(budget, base, init).selected, last, Size);
    }
  }

  /** What was passed over does not fit the finished selection either. */
  lemma {:induction false} SelectIsMaximal(budget: Budget, base: nat, cs: seq<Candidate>)
    ensures
      var s := Select(budget, base, cs);
      forall c :: c in s.passed ==> !Fits(budget, BASE_MESSAGES + |s.selected| + 1, s.used + c.size)
  {
    if cs != [] { SelectIsMaximal(budget, base, cs[..|cs| - 1]); }
  }

  lemma ScreeningKeepsId(m: Manager, source: Source)
    ensures Screen(m, source).Offer? ==> Screen(m, source).candidate.id == IdOf(source)
    ensures Screen(m, source).Drop? ==> Screen(m, source).omitted.id == IdOf(source)
    ensures Screen(m, source).Offer? ==> Screen(m, source).candidate.layer == LayerOf(source)
    ensures Screen(m, source).Drop? ==> Screen(m, source).omitted.layer == LayerOf(source)
  {
  }

  lemma {:induction false} ScreeningAccounts(m: Manager, sources: seq<Source>, id: Id)
    ensures Sum(Offered(m, sources), Candidates(id)) + Sum(Dropped(m, sources), Omissions(id)) ==
              Sum(sources, Occurrences(id))
  {
    if sources != [] {
      var init, last := sources[..|sources| - 1], sources[|sources| - 1];
      ScreeningAccounts(m, init, id);
      ScreeningKeepsId(m, last);
      assert Sum(sources, Occurrences(id)) == Sum(init, Occurrences(id)) + Occurrences(id)(last);
      match Screen(m, last) {
        case Offer(c) =>
          SumOne(Offered(m, init), c, Candidates(id));
          assert Candidates(id)(c) == Occurrences(id)(last);
        case Drop(o) =>
          SumOne(Dropped(m, init), o, Omissions(id));
          assert Omissions(id)(o) == Occurrences(id)(last);
      }
    }
  }

  lemma {:induction false} PassedOverSum(cs: seq<Candidate>, id: Id)
    ensures Sum(PassedOver(cs), Omissions(id)) == Sum(cs, Candidates(id))
  {
    if cs != [] {
      PassedOverSum(cs[..|cs| - 1], id);
      assert PassedOver(cs)[..|cs| - 1] == PassedOver(cs[..|cs| - 1]);
    }
  }

  lemma {:induction false} ReasonsAreRequired(omitted: seq<Omitted>)
    ensures FirstOccurrences(Reasons(omitted)) != [] <==> exists o :: o in omitted && Required(o.layer)
  {
    if omitted != [] {
      var init, last := omitted[..|omitted| - 1], omitted[|omitted| - 1];
      ReasonsAreRequired(init);
      OccurrencesNonempty(Reasons(init));
      OccurrencesNonempty(Reasons(omitted));
      assert forall o :: o in omitted <==> o in init || o == last;
    }
  }

  lemma {:induction false} OccurrencesNonempty(reasons: seq<(Id, Reason)>)
    ensures FirstOccurrences(reasons) == [] <==> reasons == []
  {
    if reasons != [] { OccurrencesNonempty(reasons[..|reasons| - 1]); }
  }

  lemma {:induction false} OfferedComeFromSources(m: Manager, sources: seq<Source>)
    ensures forall c :: c in Offered(m, sources) ==> exists s :: s in sources && Screen(m, s) == Offer(c)
    ensures forall o :: o in Dropped(m, sources) ==> o.reason != ContextBudget
  {
    if sources != [] {
      var init, last := sources[..|sources| - 1], sources[|sources| - 1];
      OfferedComeFromSources(m, init);
      assert last in sources && forall s :: s in init ==> s in sources;
    }
  }

  /** The sizes a fragment's message may have, in order of preference. */
  function Forms(m: Manager, f: Fragment): seq<nat> {
    if m.projection == Normal then if f.referable then [f.full, f.itemReference] else [f.full]
    else if f.layer == UserInput then [f.full]
    else if f.referable then [f.overflowReference, f.itemReference]
    else []
  }

  predicate FirstFitting(sizes: seq<nat>, limit: nat, i: nat)
    requires i < |sizes|
  {
    sizes[i] <= limit && forall j :: 0 <= j < i ==> sizes[j] > limit
  }

  /** A fragment is offered exactly when the policy allows it and some form of
      it fits the item budget; it takes the first that does. */
  lemma FragmentScreening(m: Manager, f: Fragment)
    ensures
      var s := ScreenFragment(m, f);
      && (s.Offer? <==> Allows(m.policy, f.sensitivity) && exists i :: 0 <= i < |Forms(m, f)| && Forms(m, f)[i] <= m.budget.maxItemBytes)
      && (s.Offer? ==>
            && s.candidate.id == f.id && s.candidate.layer == f.layer && s.candidate.sensitivity == f.sensitivity
            && (s.candidate.reference ==> f.referable)
            && exists i :: 0 <= i < |Forms(m, f)| && FirstFitting(Forms(m, f), m.budget.maxItemBytes, i)
                           && s.candidate.size == Forms(m, f)[i])
      && (s.Drop? ==>
            && s.omitted.id == f.id && s.omitted.layer == f.layer && s.omitted.sensitivity == f.sensitivity
            && (s.omitted.reason == SensitivityPolicy <==> !Allows(m.policy, f.sensitivity)))
  {
    var forms := Forms(m, f);
    var s := ScreenFragment(m, f);
    if s.Offer? {
      assert FirstFitting(forms, m.budget.maxItemBytes, 0) || FirstFitting(forms, m.budget.maxItemBytes, 1);
    } else {
      assert Allows(m.policy, f.sensitivity) ==> forall i :: 0 <= i < |forms| ==> forms[i] > m.budget.maxItemBytes;
    }
  }

  /** Nothing a fragment or a tool result carries passes the policy unseen. A
      result without a classification is never offered. */
  lemma OfferedIsAllowed(m: Manager, source: Source)
    requires Screen(m, source).Offer? && !source.OfControl?
    ensures Allows(m.policy, Screen(m, source).candidate.sensitivity)
    ensures Screen(m, source).candidate.sensitivity != Secret
    ensures source.OfResult? ==> source.result.declared == Some(Screen(m, source).candidate.sensitivity)
    ensures source.OfFragment? ==> source.fragment.sensitivity == Screen(m, source).candidate.sensitivity
  {
  }

  /** Every source is included or omitted, and only once. */
  ghost predicate Partitioned(sources: seq<Source>, w: Window) {
    forall id :: Sum(w.included, Candidates(id)) + Sum(w.omitted, Omissions(id)) == Sum(sources, Occurrences(id))
  }

  ghost predicate Exact(budget: Budget, base: nat, w: Window) {
    && w.usedBytes == base + Sum(w.included, Size)
    && w.estimatedTokens == EstimateTokens(w.usedBytes)
    && Fits(budget, BASE_MESSAGES + |w.included|, w.usedBytes)
  }

  /** Each omission for want of budget has a candidate that does not fit. */
  ghost predicate Maximal(m: Manager, sources: seq<Source>, w: Window) {
    forall o :: o in w.omitted && o.reason == ContextBudget ==> HasMisfit(m, sources, w, o)
  }

  ghost predicate HasMisfit(m: Manager, sources: seq<Source>, w: Window, o: Omitted) {
    exists c :: c in Offered(m, sources) && c.id == o.id && c.layer == o.layer
      && !Fits(m.budget, BASE_MESSAGES + |w.included| + 1, w.usedBytes + c.size)
  }

  lemma {:induction false} WindowIsPartition(m: Manager, base: nat, sources: seq<Source>)
    ensures Partitioned(sources, Assemble(m, base, sources))
  {
    var w := Assemble(m, base, sources);
    forall id
      ensures Sum(w.included, Candidates(id)) + Sum(w.omitted, Omissions(id)) == Sum(sources, Occurrences(id))
    {
      ScreeningAccounts(m, sources, id);
      SelectionAccounts(m.budget, base, Offered(m, sources), Dropped(m, sources), RANKS, id, w.included, w.omitted);
    }
  }

  /** Selecting and reordering lose nothing that was offered. */
  lemma SelectionAccounts(
    budget: Budget, base: nat, offered: seq<Candidate>, dropped: seq<Omitted>, ranks: nat, id: Id,
    included: seq<Candidate>, omitted: seq<Omitted>)
    requires forall layer :: Priority(layer) < ranks && Place(layer) < ranks
    requires
      var s := Select(budget, base, Grouped(offered, Priority, ranks));
      included == Grouped(s.selected, Place, ranks) && omitted == dropped + PassedOver(s.passed)
    ensures Sum(included, Candidates(id)) + Sum(omitted, Omissions(id)) ==
              Sum(offered, Candidates(id)) + Sum(dropped, Omissions(id))
  {
    var s := Select(budget, base, Grouped(offered, Priority, ranks));
    GroupedSum(offered, Priority, ranks, Candidates(id));
    SelectSplits(budget, base, Grouped(offered, Priority, ranks), Candidates(id));
    GroupedSum(s.selected, Place, ranks, Candidates(id));
    SumAppend(dropped, PassedOver(s.passed), Omissions(id));
    PassedOverSum(s.passed, id);
  }

  lemma {:induction false} WindowIsExact(m: Manager, base: nat, sources: seq<Source>)
    requires Fits(m.budget, BASE_MESSAGES, base)
    ensures Exact(m.budget, base, Assemble(m, base, sources))
  {
    var w := Assemble(m, base, sources);
    SelectionIsExact(m.budget, base, Grouped(Offered(m, sources), Priority, RANKS), RANKS, w.included, w.usedBytes);
  }

  lemma SelectionIsExact(
    budget: Budget, base: nat, sorted: seq<Candidate>, ranks: nat, included: seq<Candidate>, used: nat)
    requires Fits(budget, BASE_MESSAGES, base) && forall layer :: Place(layer) < ranks
    requires included == Grouped(Select(budget, base, sorted).selected, Place, ranks)
    requires used == Select(budget, base, sorted).used
    ensures used == base + Sum(included, Size) && Fits(budget, BASE_MESSAGES + |included|, used)
  {
    var selected := Select(budget, base, sorted).selected;
    SelectFits(budget, base, sorted);
    GroupedSum(selected, Place, ranks, Size);
    GroupedLength(selected, Place, ranks);
  }

  lemma {:induction false} WindowIsMaximal(m: Manager, base: nat, sources: seq<Source>)
    ensures Maximal(m, sources, Assemble(m, base, sources))
  {
    forall o | o in Assemble(m, base, sources).omitted && o.reason == ContextBudget
      ensures HasMisfit(m, sources, Assemble(m, base, sources), o)
    {
      OmissionIsMisfit(m, base, sources, o);
    }
  }

  lemma {:induction false} OmissionIsMisfit(m: Manager, base: nat, sources: seq<Source>, o: Omitted)
    requires o in Assemble(m, base, sources).omitted && o.reason == ContextBudget
    ensures HasMisfit(m, sources, Assemble(m, base, sources), o)
  {
    var passed := Select(m.budget, base, Grouped(Offered(m, sources), Priority, RANKS)).passed;
    OfferedComeFromSources(m, sources);
    var i := PassedIndex(Dropped(m, sources), passed, o);
    PassedIsMisfit(m, base, sources, passed[i], Assemble(m, base, sources));
  }

  lemma PassedIsMisfit(m: Manager, base: nat, sources: seq<Source>, c: Candidate, w: Window)
    requires c in Select(m.budget, base, Grouped(Offered(m, sources), Priority, RANKS)).passed
    requires w == Assemble(m, base, sources)
    ensures c in Offered(m, sources) && !Fits(m.budget, BASE_MESSAGES + |w.included| + 1, w.usedBytes + c.size)
  {
    PassedWasOffered(m.budget, base, Offered(m, sources), RANKS, c);
    PassedMisfits(m.budget, base, Grouped(Offered(m, sources), Priority, RANKS), RANKS, c, w.included, w.usedBytes);
  }

  lemma PassedWasOffered(budget: Budget, base: nat, offered: seq<Candidate>, ranks: nat, c: Candidate)
    requires c in Select(budget, base, Grouped(offered, Priority, ranks)).passed
    ensures c in offered
  {
    GroupedMembers(offered, Priority, ranks);
    SelectMembers(budget, base, Grouped(offered, Priority, ranks));
  }

  lemma PassedMisfits(
    budget: Budget, base: nat, sorted: seq<Candidate>, ranks: nat, c: Candidate, included: seq<Candidate>, used: nat)
    requires forall layer :: Place(layer) < ranks
    requires c in Select(budget, base, sorted).passed && used == Select(budget, base, sorted).used
    requires included == Grouped(Select(budget, base, sorted).selected, Place, ranks)
    ensures !Fits(budget, BASE_MESSAGES + |included| + 1, used + c.size)
  {
    SelectIsMaximal(budget, base, sorted);
    GroupedLength(Select(budget, base, sorted).selected, Place, ranks);
  }

  lemma PassedIndex(dropped: seq<Omitted>, passed: seq<Candidate>, o: Omitted) returns (i: nat)
    requires o in dropped + PassedOver(passed) && o !in dropped
    ensures i < |passed| && passed[i].id == o.id && passed[i].layer == o.layer
  {
    assert o in PassedOver(passed);
    i :| i < |passed| && PassedOver(passed)[i] == o;
  }

  /** Everything in the window was offered by one of the sources. */
  lemma {:induction false} IncludedComeFromSources(m: Manager, base: nat, sources: seq<Source>, c: Candidate)
    requires c in Assemble(m, base, sources).included
    ensures exists s :: s in sources && Screen(m, s) == Offer(c)
  {
    var sorted := Grouped(Offered(m, sources), Priority, RANKS);
    GroupedMembers(Select(m.budget, base, sorted).selected, Place, RANKS);
    SelectMembers(m.budget, base, sorted);
    GroupedMembers(Offered(m, sources), Priority, RANKS);
    assert c in Offered(m, sources);
    OfferedComeFromSources(m, sources);
  }

  /** Compaction is asked for exactly when a required source was left out. */
  lemma {:induction false} CompactionIffRequiredOmitted(m: Manager, base: nat, sources: seq<Source>)
    ensures
      var w := Assemble(m, base, sources);
      w.compactionReasons != [] <==> exists o :: o in w.omitted && Required(o.layer)
  {
    ReasonsAreRequired(Assemble(m, base, sources).omitted);
  }

  /** The window's own validation fails on one ground only: two included
      contexts, or one and a base message, share an identifier. */
  lemma {:induction false} OnlyClashesAreRefused(m: Manager, baseIds: seq<Id>, base: nat, sources: seq<Source>)
    requires Fits(m.budget, BASE_MESSAGES, base) && base >= 1
    ensures
      var w := Assemble(m, base, sources);
      ValidWindow(m.budget, baseIds, w) <==> Distinct(baseIds + Ids(w.included))
  {
    WindowIsExact(m, base, sources);
  }

  lemma {:induction false} DistinctByCount(ids: seq<Id>)
    ensures Distinct(ids) <==> forall x :: multiset(ids)[x] <= 1
  {
    if ids != [] {
      var init, last := ids[..|ids| - 1], ids[|ids| - 1];
      DistinctByCount(init);
      assert ids == init + [last];
      assert multiset(ids) == multiset(init) + multiset{last};
      if last in init {
        assert multiset(init)[last] >= 1 && multiset(ids)[last] >= 2;
      } else {
        assert multiset(init)[last] == 0;
        assert forall x :: multiset(ids)[x] == if x == last then 1 else multiset(init)[x];
      }
    }
  }

  lemma {:induction false} CandidateCount(cs: seq<Candidate>, id: Id)
    ensures multiset(Ids(cs))[id] == Sum(cs, Candidates(id))
  {
    if cs != [] {
      CandidateCount(cs[..|cs| - 1], id);
      assert Ids(cs) == Ids(cs[..|cs| - 1]) + [cs[|cs| - 1].id];
    }
  }

  lemma {:induction false} SourceCount(sources: seq<Source>, id: Id)
    ensures multiset(SourceIds(sources))[id] == Sum(sources, Occurrences(id))
  {
    if sources != [] {
      SourceCount(sources[..|sources| - 1], id);
      assert SourceIds(sources) == SourceIds(sources[..|sources| - 1]) + [IdOf(sources[|sources| - 1])];
    }
  }

  /** Sources with distinct identifiers never clash. */
  lemma {:induction false} DistinctSourcesNeverClash(m: Manager, baseIds: seq<Id>, base: nat, sources: seq<Source>)
    requires Fits(m.budget, BASE_MESSAGES, base) && base >= 1
    requires Distinct(baseIds + SourceIds(sources))
    ensures ValidWindow(m.budget, baseIds, Assemble(m, base, sources))
  {
    var w := Assemble(m, base, sources);
    OnlyClashesAreRefused(m, baseIds, base, sources);
    WindowIsPartition(m, base, sources);
    DistinctByCount(baseIds + SourceIds(sources));
    DistinctByCount(baseIds + Ids(w.included));
    forall x ensures multiset(baseIds + Ids(w.included))[x] <= 1 {
      CandidateCount(w.included, x);
      SourceCount(sources, x);
      assert Sum(w.included, Candidates(x)) + Sum(w.omitted, Omissions(x)) == Sum(sources, Occurrences(x));
      assert multiset(baseIds + SourceIds(sources))[x] <= 1;
    }
  }

  // ---------------------------------------------------------------- non-interference

  function UpTo(p: nat): Candidate -> bool {
    (c: Candidate) => Priority(c.layer) <= p
  }

  function OmittedUpTo(p: nat): Omitted -> bool {
    (o: Omitted) => Priority(o.layer) <= p
  }

  function SourceUpTo(p: nat): Source -> bool {
    (s: Source) => Priority(LayerOf(s)) <= p
  }

  lemma {:induction false} ScreeningUpTo(m: Manager, sources: seq<Source>, p: nat)
    ensures Filter(Offered(m, sources), UpTo(p)) == Offered(m, Filter(sources, SourceUpTo(p)))
    ensures Filter(Dropped(m, sources), OmittedUpTo(p)) == Dropped(m, Filter(sources, SourceUpTo(p)))
  {
    if sources != [] {
      var init, last := sources[..|sources| - 1], sources[|sources| - 1];
      ScreeningUpTo(m, init, p);
      ScreeningKeepsId(m, last);
      var low := Filter(init, SourceUpTo(p));
      assert (low + [last])[..|low|] == low;
      match Screen(m, last) {
        case Offer(c) => FilterOne(Offered(m, init), c, UpTo(p));
        case Drop(o) => FilterOne(Dropped(m, init), o, OmittedUpTo(p));
      }
    }
  }

  lemma {:induction false} SelectUpTo(budget: Budget, base: nat, cs: seq<Candidate>, p: nat)
    requires Ascending(cs, Priority)
    ensures
      var s, low := Select(budget, base, cs), Select(budget, base, Filter(cs, UpTo(p)));
      Filter(s.selected, UpTo(p)) == low.selected && Filter(s.passed, UpTo(p)) == low.passed
  {
    if cs != [] {
      var init, last := cs[..|cs| - 1], cs[|cs| - 1];
      var s := Select(budget, base, cs);
      if Priority(last.layer) <= p {
        SelectMembers(budget, base, cs);
        forall c | c in cs ensures UpTo(p)(c) {
          var i :| 0 <= i < |cs| && cs[i] == c;
        }
        FilterAll(cs, UpTo(p));
        FilterAll(s.selected, UpTo(p));
        FilterAll(s.passed, UpTo(p));
      } else {
        SelectUpTo(budget, base, init, p);
        var earlier := Select(budget, base, init);
        FilterAppend(earlier.selected, [last], UpTo(p));
        FilterAppend(earlier.passed, [last], UpTo(p));
      }
    }
  }

  lemma {:induction false} PassedOverUpTo(cs: seq<Candidate>, p: nat)
    ensures Filter(PassedOver(cs), OmittedUpTo(p)) == PassedOver(Filter(cs, UpTo(p)))
  {
    if cs != [] {
      var init, last := cs[..|cs| - 1], cs[|cs| - 1];
      PassedOverUpTo(init, p);
      assert PassedOver(cs)[..|cs| - 1] == PassedOver(init);
    }
  }

  /** The decisions on priorities up to p are those of a window that was built
      from these priorities alone. */
  lemma {:induction false} LowerPrioritiesNeverMatter(m: Manager, base: nat, sources: seq<Source>, p: nat)
    ensures
      var w, alone := Assemble(m, base, sources), Assemble(m, base, Filter(sources, SourceUpTo(p)));
      && Filter(w.included, UpTo(p)) == alone.included
      && Filter(w.omitted, OmittedUpTo(p)) == alone.omitted
  {
    var offered := Offered(m, sources);
    var sorted := Grouped(offered, Priority, RANKS);
    var s := Select(m.budget, base, sorted);
    ScreeningUpTo(m, sources, p);
    FilterGrouped(offered, Priority, RANKS, UpTo(p));
    GroupedAscends(offered, Priority, RANKS);
    SelectUpTo(m.budget, base, sorted, p);
    FilterGrouped(s.selected, Place, RANKS, UpTo(p));
    FilterAppend(Dropped(m, sources), PassedOver(s.passed), OmittedUpTo(p));
    PassedOverUpTo(s.passed, p);
  }

  /** Hence optional context (conversation, skills, memory, hints) never decides
      whether compaction is asked for. */
  lemma {:induction false} OptionalContextNeverForcesCompaction(m: Manager, base: nat, sources: seq<Source>)
    ensures
      var w, alone := Assemble(m, base, sources), Assemble(m, base, Filter(sources, SourceUpTo(1)));
      w.compactionReasons == [] <==> alone.compactionReasons == []
  {
    LowerPrioritiesNeverMatter(m, base, sources, 1);
    var w, alone := Assemble(m, base, sources), Assemble(m, base, Filter(sources, SourceUpTo(1)));
    ReasonsAreRequired(w.omitted);
    ReasonsAreRequired(alone.omitted);
    RequiredAreKept(w.omitted, alone.omitted);
  }

  lemma RequiredAreKept(omitted: seq<Omitted>, kept: seq<Omitted>)
    requires kept == Filter(omitted, OmittedUpTo(1))
    ensures (exists o :: o in omitted && Required(o.layer)) <==> exists o :: o in kept && Required(o.layer)
  {
    FilterMembers(omitted, OmittedUpTo(1));
    if o :| o in omitted && Required(o.layer) { assert o in kept; }
    if o :| o in kept && Required(o.layer) { assert o in omitted; }
  }
}
