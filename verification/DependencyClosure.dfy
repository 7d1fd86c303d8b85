/** The runtime dependency closure (scripts/runtime_sbom.py): a worklist over
    active requirements that ends on cyclic metadata and fails closed. */
module DependencyClosure {
  import opened Outcomes
  import opened Sorting

  /** A parsed requirement; `active` is the value of its marker. */
  datatype Requirement = Requirement(name: Id, active: bool, extras: bool, direct: bool, specifier: Id)

  /** Installed metadata; missing or blank fields and unparsable requirements
      are `None`. */
  datatype Distribution = Distribution(name: Option<Id>, version: Option<Id>, dependencies: seq<Option<Requirement>>)

  /** The environment: how names are canonicalised, what is installed under each
      canonical name, and which versions a specifier contains. */
  datatype World = World(
    canonical: Id -> Id, installed: map<Id, Distribution>, contains: (Id, Id) -> bool)

  datatype Item = Item(name: Id, version: Id)

  // ---------------------------------------------------------------- the specification

  predicate RootsFit(roots: seq<Option<Requirement>>) {
    roots != [] && forall i :: 0 <= i < |roots| ==> roots[i].Some? && !roots[i].value.extras && !roots[i].value.direct
  }

  /** An active root. */
  predicate IsRoot(roots: seq<Option<Requirement>>, r: Requirement) {
    r.active && Some(r) in roots
  }

  /** An active requirement of an installed distribution. */
  predicate IsChild(w: World, c: Id, r: Requirement) {
    c in w.installed && r.active && Some(r) in w.installed[c].dependencies
  }

  /** A chain of active requirements from a root. */
  ghost predicate Chain(w: World, roots: seq<Option<Requirement>>, path: seq<Id>) {
    && path != []
    && (exists r :: IsRoot(roots, r) && w.canonical(r.name) == path[0])
    && forall i :: 0 <= i < |path| - 1 ==> Requires(w, path[i], path[i + 1])
  }

  ghost predicate Requires(w: World, from: Id, to: Id) {
    exists r :: IsChild(w, from, r) && w.canonical(r.name) == to
  }

  ghost predicate Reachable(w: World, roots: seq<Option<Requirement>>, c: Id) {
    exists path :: Chain(w, roots, path) && path[|path| - 1] == c
  }

  /** The metadata of a distribution name it and its version. */
  predicate Readable(w: World, c: Id) {
    && c in w.installed && w.installed[c].name.Some? && w.installed[c].version.Some?
    && w.canonical(w.installed[c].name.value) == c
  }

  /** The metadata of a distribution is usable, requirements included. */
  predicate Usable(w: World, c: Id) {
    && Readable(w, c)
    && forall i :: 0 <= i < |w.installed[c].dependencies| ==>
         w.installed[c].dependencies[i].Some? && !w.installed[c].dependencies[i].value.direct
  }

  /** The installed version meets a requirement, which enables no extras. */
  predicate Accepts(w: World, r: Requirement, version: Id) {
    !r.extras && w.contains(r.specifier, version)
  }

  /** A requirement of a root or of a reachable distribution that is in force. */
  ghost predicate Demanded(w: World, roots: seq<Option<Requirement>>, r: Requirement) {
    IsRoot(roots, r) || exists c :: Reachable(w, roots, c) && IsChild(w, c, r)
  }

  /** What must hold for the closure to exist. */
  ghost predicate Resolvable(w: World, roots: seq<Option<Requirement>>) {
    && RootsFit(roots) && (exists r :: IsRoot(roots, r))
    && (forall c :: Reachable(w, roots, c) ==> Usable(w, c))
    && (forall r :: Demanded(w, roots, r) ==> Meets(w, r))
  }

  predicate Meets(w: World, r: Requirement) {
    var c := w.canonical(r.name);
    c in w.installed && w.installed[c].version.Some? && Accepts(w, r, w.installed[c].version.value)
  }

  lemma RootIsReachable(w: World, roots: seq<Option<Requirement>>, r: Requirement)
    requires IsRoot(roots, r)
    ensures Reachable(w, roots, w.canonical(r.name))
  {
    assert Chain(w, roots, [w.canonical(r.name)]);
  }

  lemma ChildIsReachable(w: World, roots: seq<Option<Requirement>>, c: Id, r: Requirement)
    requires Reachable(w, roots, c) && IsChild(w, c, r)
    ensures Reachable(w, roots, w.canonical(r.name))
  {
    var path :| Chain(w, roots, path) && path[|path| - 1] == c;
    var longer := path + [w.canonical(r.name)];
    forall i | 0 <= i < |longer| - 1 ensures Requires(w, longer[i], longer[i + 1]) {
      if i < |path| - 1 { assert Requires(w, path[i], path[i + 1]); }
    }
    assert longer[0] == path[0];
    assert Chain(w, roots, longer);
  }

  /** A set that holds the roots and is closed under requirements holds
      everything reachable. */
  lemma {:induction false} ClosedHoldsChain(w: World, roots: seq<Option<Requirement>>, names: set<Id>, path: seq<Id>)
    requires Chain(w, roots, path)
    requires forall r :: IsRoot(roots, r) ==> w.canonical(r.name) in names
    requires forall c, r :: c in names && IsChild(w, c, r) ==> w.canonical(r.name) in names
    ensures path[|path| - 1] in names
  {
    var n := |path| - 1;
    if n > 0 {
      var shorter := path[..n];
      forall i | 0 <= i < |shorter| - 1 ensures Requires(w, shorter[i], shorter[i + 1]) {
        assert Requires(w, path[i], path[i + 1]);
      }
      ClosedHoldsChain(w, roots, names, shorter);
      assert Requires(w, path[n - 1], path[n]);
    }
  }

  // ---------------------------------------------------------------- the worklist

  /** The requirement was met by a resolved distribution. */
  predicate Settled(w: World, resolved: map<Id, Item>, r: Requirement) {
    var c := w.canonical(r.name);
    c in resolved && Accepts(w, r, resolved[c].version)
  }

  /** What is resolved is reachable and usable. */
  ghost predicate Resolved(w: World, roots: seq<Option<Requirement>>, resolved: map<Id, Item>) {
    forall c :: ResolvedAt(w, roots, resolved, c)
  }

  ghost predicate ResolvedAt(w: World, roots: seq<Option<Requirement>>, resolved: map<Id, Item>, c: Id) {
    c in resolved ==>
      Reachable(w, roots, c) && Usable(w, c) && resolved[c].name == c && Some(resolved[c].version) == w.installed[c].version
  }

  /** Each resolved distribution met all its constraints. */
  ghost predicate Bound(w: World, resolved: map<Id, Item>, constraints: map<Id, seq<Requirement>>) {
    constraints.Keys == resolved.Keys && forall c :: BoundAt(w, resolved, constraints, c)
  }

  predicate BoundAt(w: World, resolved: map<Id, Item>, constraints: map<Id, seq<Requirement>>, c: Id) {
    c in constraints && c in resolved ==> forall r :: r in constraints[c] ==> Accepts(w, r, resolved[c].version)
  }

  /** Every demanded requirement is settled or still pending. */
  ghost predicate Covered(
    w: World, roots: seq<Option<Requirement>>, pending: seq<Requirement>, resolved: map<Id, Item>)
  {
    && (forall r :: r in pending && r.active ==> Demanded(w, roots, r))
    && (forall r :: IsRoot(roots, r) ==> r in pending || Settled(w, resolved, r))
    && (forall c, r :: ChildCovered(w, pending, resolved, c, r))
  }

  predicate ChildCovered(w: World, pending: seq<Requirement>, resolved: map<Id, Item>, c: Id, r: Requirement) {
    c in resolved && IsChild(w, c, r) ==> r in pending || Settled(w, resolved, r)
  }

  lemma StartsCovered(w: World, roots: seq<Option<Requirement>>, pending: seq<Requirement>)
    requires |pending| == |roots| && forall k :: 0 <= k < |roots| ==> Some(pending[k]) == roots[k]
    ensures Covered(w, roots, pending, map[])
  {
    forall r | r in pending && r.active ensures Demanded(w, roots, r) {
      var k :| 0 <= k < |pending| && pending[k] == r;
      assert IsRoot(roots, r);
    }
    forall r | IsRoot(roots, r) ensures r in pending {
      var k :| 0 <= k < |roots| && roots[k] == Some(r);
      assert pending[k] == r;
    }
  }

  lemma DemandedIsReachable(w: World, roots: seq<Option<Requirement>>, r: Requirement)
    requires Demanded(w, roots, r)
    ensures Reachable(w, roots, w.canonical(r.name))
  {
    if IsRoot(roots, r) {
      RootIsReachable(w, roots, r);
    } else {
      var c :| Reachable(w, roots, c) && IsChild(w, c, r);
      ChildIsReachable(w, roots, c, r);
    }
  }

  /** Taking a requirement that is settled, or not in force. */
  lemma TakeOne(
    w: World, roots: seq<Option<Requirement>>, r: Requirement, rest: seq<Requirement>, resolved: map<Id, Item>)
    requires Covered(w, roots, [r] + rest, resolved) && (r.active ==> Settled(w, resolved, r))
    ensures Covered(w, roots, rest, resolved)
  {
    assert forall x :: x in [r] + rest <==> x == r || x in rest;
    forall c, x ensures ChildCovered(w, rest, resolved, c, x) { assert ChildCovered(w, [r] + rest, resolved, c, x); }
  }

  /** Resolving a distribution brings its requirements into the list. */
  lemma ResolveOne(
    w: World, roots: seq<Option<Requirement>>, r: Requirement, rest: seq<Requirement>, resolved: map<Id, Item>, item: Item,
    children: seq<Requirement>)
    requires Covered(w, roots, [r] + rest, resolved) && r.active
    requires w.canonical(r.name) == item.name && item.name !in resolved && Reachable(w, roots, item.name)
    requires Accepts(w, r, item.version)
    requires forall x :: x in children <==> IsChild(w, item.name, x)
    ensures Covered(w, roots, rest + children, resolved[item.name := item])
  {
    var resolved' := resolved[item.name := item];
    assert forall x :: x in [r] + rest <==> x == r || x in rest;
    assert forall x :: x in rest + children <==> x in rest || x in children;
    forall x | x in rest + children && x.active ensures Demanded(w, roots, x) {
      if x in children { assert IsChild(w, item.name, x); }
    }
    forall c, x ensures ChildCovered(w, rest + children, resolved', c, x) {
      assert ChildCovered(w, [r] + rest, resolved, c, x);
    }
  }

  /** With nothing pending, everything reachable is resolved. */
  lemma ReachableIsResolved(w: World, roots: seq<Option<Requirement>>, resolved: map<Id, Item>, c: Id)
    requires Covered(w, roots, [], resolved) && Reachable(w, roots, c)
    ensures c in resolved
  {
    var path :| Chain(w, roots, path) && path[|path| - 1] == c;
    forall x, r | x in resolved && IsChild(w, x, r) ensures w.canonical(r.name) in resolved {
      assert ChildCovered(w, [], resolved, x, r);
    }
    ClosedHoldsChain(w, roots, resolved.Keys, path);
  }

  lemma DemandIsMet(w: World, roots: seq<Option<Requirement>>, resolved: map<Id, Item>, r: Requirement)
    requires Resolved(w, roots, resolved) && Covered(w, roots, [], resolved) && Demanded(w, roots, r)
    ensures Meets(w, r) && w.canonical(r.name) in resolved
  {
    if !IsRoot(roots, r) {
      var c :| Reachable(w, roots, c) && IsChild(w, c, r);
      ReachableIsResolved(w, roots, resolved, c);
      assert ChildCovered(w, [], resolved, c, r);
    }
    assert Settled(w, resolved, r);
    assert ResolvedAt(w, roots, resolved, w.canonical(r.name));
  }

  lemma SomeRoot(w: World, roots: seq<Option<Requirement>>, resolved: map<Id, Item>)
    requires Resolved(w, roots, resolved) && Covered(w, roots, [], resolved)
    ensures resolved != map[] <==> exists r :: IsRoot(roots, r)
  {
    if resolved != map[] {
      var c :| c in resolved;
      assert ResolvedAt(w, roots, resolved, c);
      var path :| Chain(w, roots, path) && path[|path| - 1] == c;
    }
    if r :| IsRoot(roots, r) {
      assert w.canonical(r.name) in resolved;
    }
  }

  /** With nothing pending, what is resolved is what is reachable. */
  lemma NothingPending(w: World, roots: seq<Option<Requirement>>, resolved: map<Id, Item>)
    requires Resolved(w, roots, resolved) && Covered(w, roots, [], resolved)
    ensures forall c :: c in resolved <==> Reachable(w, roots, c)
  {
    forall c ensures c in resolved <==> Reachable(w, roots, c) {
      assert ResolvedAt(w, roots, resolved, c);
      if Reachable(w, roots, c) { ReachableIsResolved(w, roots, resolved, c); }
    }
  }

  lemma FinishedIsResolvable(w: World, roots: seq<Option<Requirement>>, resolved: map<Id, Item>)
    requires Resolved(w, roots, resolved) && Covered(w, roots, [], resolved) && RootsFit(roots)
    ensures Resolvable(w, roots) <==> resolved != map[]
  {
    SomeRoot(w, roots, resolved);
    forall c | Reachable(w, roots, c) ensures Usable(w, c) {
      ReachableIsResolved(w, roots, resolved, c);
      assert ResolvedAt(w, roots, resolved, c);
    }
    forall r | Demanded(w, roots, r) ensures Meets(w, r) {
      DemandIsMet(w, roots, resolved, r);
    }
  }

  function ByText(): (Id, Id) -> bool {
    (a: Id, b: Id) => TextLess(a.text, b.text)
  }

  lemma ByTextIsStrict()
    ensures StrictOrder(ByText())
    ensures forall a: Id, b: Id :: a != b ==> ByText()(a, b) || ByText()(b, a)
  {
    forall a: Id, b: Id ensures ByText()(a, b) ==> !ByText()(b, a)
      ensures a != b ==> ByText()(a, b) || ByText()(b, a)
    {
      TextLessOrder(a.text, b.text, b.text);
    }
    forall a: Id, b: Id, c: Id | ByText()(a, b) && ByText()(b, c) ensures ByText()(a, c) {
      TextLessOrder(a.text, b.text, c.text);
    }
  }

  function Names(items: seq<Item>): seq<Id> {
    seq(|items|, i requires 0 <= i < |items| => items[i].name)
  }

  lemma BindMore(
    w: World, resolved: map<Id, Item>, resolved': map<Id, Item>, constraints: map<Id, seq<Requirement>>, c: Id,
    all: seq<Requirement>)
    requires Bound(w, resolved, constraints) && c in resolved' && (resolved' == resolved || resolved' == resolved[c := resolved'[c]])
    requires forall r :: r in all ==> Accepts(w, r, resolved'[c].version)
    ensures Bound(w, resolved', constraints[c := all])
  {
    var constraints' := constraints[c := all];
    forall x ensures BoundAt(w, resolved', constraints', x) { assert BoundAt(w, resolved, constraints, x); }
  }

  lemma ResolveMore(w: World, roots: seq<Option<Requirement>>, resolved: map<Id, Item>, item: Item)
    requires Resolved(w, roots, resolved) && Reachable(w, roots, item.name) && Usable(w, item.name)
    requires w.installed[item.name].version == Some(item.version)
    ensures Resolved(w, roots, resolved[item.name := item])
  {
    var resolved' := resolved[item.name := item];
    forall c ensures ResolvedAt(w, roots, resolved', c) { assert ResolvedAt(w, roots, resolved, c); }
  }

  /** The variables of the worklist. */
  datatype Work = Work(
    pending: seq<Requirement>, resolved: map<Id, Item>, order: seq<Id>, constraints: map<Id, seq<Requirement>>)

  ghost predicate Sound(w: World, roots: seq<Option<Requirement>>, work: Work) {
    && Resolved(w, roots, work.resolved) && Bound(w, work.resolved, work.constraints)
    && Covered(w, roots, work.pending, work.resolved)
    && Listed(work.order, work.resolved)
  }

  ghost predicate Listed(order: seq<Id>, resolved: map<Id, Item>) {
    (forall c :: c in order <==> c in resolved) && Comparable(order, ByText())
  }

  ghost predicate Smaller(w: World, next: Work, work: Work) {
    || next.resolved.Keys > work.resolved.Keys
    || (next.resolved == work.resolved && |next.pending| < |work.pending|)
  }

  lemma ResolvedIsInstalled(w: World, roots: seq<Option<Requirement>>, resolved: map<Id, Item>)
    requires Resolved(w, roots, resolved)
    ensures resolved.Keys <= w.installed.Keys
  {
    forall c | c in resolved ensures c in w.installed { assert ResolvedAt(w, roots, resolved, c); }
  }

  /** Resolves the closure of the roots, or refuses it. It ends because every
      turn resolves another installed distribution or shortens the list. */
  method RuntimeDistributionClosure(w: World, roots: seq<Option<Requirement>>) returns (closure: Result<seq<Item>>)
    ensures closure.Ok? <==> Resolvable(w, roots)
    ensures closure.Ok? ==> Ordered(Names(closure.value), ByText())
    ensures closure.Ok? ==> forall c :: c in Names(closure.value) <==> Reachable(w, roots, c)
    ensures closure.Ok? ==> forall item :: item in closure.value ==>
      item.name in w.installed && w.installed[item.name].version == Some(item.version)
  {
    var started := ReadRoots(roots);
    if started.Err? { return Err; }
    StartsCovered(w, roots, started.value);
    var work := Work(started.value, map[], [], map[]);
    while work.pending != []
      invariant Sound(w, roots, work)
      decreases w.installed.Keys - work.resolved.Keys, |work.pending|
    {
      var next := TakeRequirement(w, roots, work);
      if next.Err? { return Err; }
      ResolvedIsInstalled(w, roots, next.value.resolved);
      work := next.value;
    }
    FinishedIsResolvable(w, roots, work.resolved);
    if work.order == [] {
      NothingResolved(work.order, work.resolved);
      return Err;
    }
    assert work.order[0] in work.resolved;
    NothingPending(w, roots, work.resolved);
    forall c | c in work.resolved ensures work.resolved[c].name == c && c in w.installed
      ensures w.installed[c].version == Some(work.resolved[c].version)
    {
      assert ResolvedAt(w, roots, work.resolved, c);
    }
    closure := Ok(SortedItems(work.order, work.resolved));
  }

  /** The resolved distributions by name. */
  function SortedItems(order: seq<Id>, resolved: map<Id, Item>): (items: seq<Item>)
    requires Listed(order, resolved) && forall c :: c in resolved ==> resolved[c].name == c
    ensures Ordered(Names(items), ByText())
    ensures forall c :: c in Names(items) <==> c in resolved
    ensures forall item :: item in items ==> item.name in resolved && resolved[item.name] == item
  {
    ByTextIsStrict();
    SortOrders(order, ByText());
    var names := Sort(order, ByText());
    assert forall i :: 0 <= i < |names| ==> names[i] in order;
    var items := seq(|names|, i requires 0 <= i < |names| => resolved[names[i]]);
    assert Names(items) == names;
    items
  }

  /** One turn of the worklist. */
  method TakeRequirement(w: World, ghost roots: seq<Option<Requirement>>, work: Work) returns (next: Result<Work>)
    requires work.pending != [] && Sound(w, roots, work)
    ensures next.Ok? ==> Sound(w, roots, next.value) && Smaller(w, next.value, work)
    ensures next.Err? ==> !Resolvable(w, roots)
  {
    var requirement, rest := work.pending[0], work.pending[1..];
    assert work.pending == [requirement] + rest;
    if !requirement.active {
      TakeOne(w, roots, requirement, rest, work.resolved);
      return Ok(work.(pending := rest));
    }
    assert Demanded(w, roots, requirement);
    DemandedIsReachable(w, roots, requirement);
    if w.canonical(requirement.name) in work.resolved {
      next := Recheck(w, roots, work, requirement, rest);
    } else {
      next := ResolveNext(w, roots, work, requirement, rest);
    }
  }

  /** A requirement of a distribution that is resolved already. */
  method Recheck(
    w: World, ghost roots: seq<Option<Requirement>>, work: Work, requirement: Requirement, rest: seq<Requirement>)
    returns (next: Result<Work>)
    requires work.pending == [requirement] + rest && requirement.active && Sound(w, roots, work)
    requires w.canonical(requirement.name) in work.resolved && Demanded(w, roots, requirement)
    ensures next.Ok? ==> Sound(w, roots, next.value) && Smaller(w, next.value, work)
    ensures next.Err? ==> !Resolvable(w, roots)
  {
    var c := w.canonical(requirement.name);
    var all := work.constraints[c] + [requirement];
    assert BoundAt(w, work.resolved, work.constraints, c) && ResolvedAt(w, roots, work.resolved, c);
    var fits := RequireSatisfied(w, work.resolved[c].version, all);
    if !fits {
      assert !Meets(w, requirement);
      return Err;
    }
    assert requirement in all;
    TakeOne(w, roots, requirement, rest, work.resolved);
    BindMore(w, work.resolved, work.resolved, work.constraints, c, all);
    next := Ok(work.(pending := rest, constraints := work.constraints[c := all]));
  }

  /** A requirement that brings in another distribution; it is the first of its
      constraints. */
  method ResolveNext(
    w: World, ghost roots: seq<Option<Requirement>>, work: Work, requirement: Requirement, rest: seq<Requirement>)
    returns (next: Result<Work>)
    requires work.pending == [requirement] + rest && requirement.active && Sound(w, roots, work)
    requires w.canonical(requirement.name) !in work.resolved && Demanded(w, roots, requirement)
    requires Reachable(w, roots, w.canonical(requirement.name))
    ensures next.Ok? ==> Sound(w, roots, next.value) && Smaller(w, next.value, work)
    ensures next.Err? ==> !Resolvable(w, roots)
  {
    var c := w.canonical(requirement.name);
    var all := [requirement];
    if c !in w.installed || !Readable(w, c) { return Err; }
    var version := w.installed[c].version.value;
    var fits := RequireSatisfied(w, version, all);
    if !fits {
      assert !Meets(w, requirement);
      return Err;
    }
    assert requirement in all;
    var children := ActiveChildren(w, c);
    if children.Err? { return Err; }
    var item := Item(c, version);
    ResolveOne(w, roots, requirement, rest, work.resolved, item, children.value);
    MoreComparable(work.order, c);
    BindMore(w, work.resolved, work.resolved[c := item], work.constraints, c, all);
    ResolveMore(w, roots, work.resolved, item);
    next := Ok(Work(rest + children.value, work.resolved[c := item], work.order + [c], work.constraints[c := all]));
  }

  lemma NothingResolved(order: seq<Id>, resolved: map<Id, Item>)
    requires order == [] && forall c :: c in order <==> c in resolved
    ensures resolved == map[]
  {
  }

  lemma MoreComparable(order: seq<Id>, c: Id)
    requires Comparable(order, ByText()) && c !in order
    ensures Comparable(order + [c], ByText())
  {
    ByTextIsStrict();
    forall i | 0 <= i < |order| ensures ByText()(order[i], c) || ByText()(c, order[i]) { assert order[i] in order; }
  }

  method ReadRoots(roots: seq<Option<Requirement>>) returns (pending: Result<seq<Requirement>>)
    ensures pending.Ok? <==> RootsFit(roots)
    ensures pending.Ok? ==> |pending.value| == |roots|
    ensures pending.Ok? ==> forall k :: 0 <= k < |roots| ==> Some(pending.value[k]) == roots[k]
  {
    var read: seq<Requirement> := [];
    for i := 0 to |roots|
      invariant forall k :: 0 <= k < i ==> roots[k].Some? && !roots[k].value.extras && !roots[k].value.direct
      invariant |read| == i && forall k :: 0 <= k < i ==> Some(read[k]) == roots[k]
    {
      if roots[i].None? || roots[i].value.extras || roots[i].value.direct { return Err; }
      read := read + [roots[i].value];
    }
    pending := if read == [] then Err else Ok(read);
  }

  method RequireSatisfied(w: World, version: Id, requirements: seq<Requirement>) returns (fits: bool)
    ensures fits <==> forall r :: r in requirements ==> Accepts(w, r, version)
  {
    for i := 0 to |requirements|
      invariant forall k :: 0 <= k < i ==> Accepts(w, requirements[k], version)
    {
      if requirements[i].extras || !w.contains(requirements[i].specifier, version) {
        assert requirements[i] in requirements;
        return false;
      }
    }
    fits := true;
  }

  method ActiveChildren(w: World, c: Id) returns (children: Result<seq<Requirement>>)
    requires Readable(w, c)
    ensures children.Ok? <==> Usable(w, c)
    ensures children.Ok? ==> forall r :: r in children.value <==> IsChild(w, c, r)
  {
    var listed := w.installed[c].dependencies;
    var active: seq<Requirement> := [];
    for i := 0 to |listed|
      invariant forall k :: 0 <= k < i ==> listed[k].Some? && !listed[k].value.direct
      invariant forall r :: r in active <==> r.active && Some(r) in listed[..i]
    {
      assert listed[..i + 1] == listed[..i] + [listed[i]];
      if listed[i].None? || listed[i].value.direct { return Err; }
      var child := listed[i].value;
      if child.active { active := active + [child]; }
    }
    assert listed[..|listed|] == listed;
    children := Ok(active);
  }
}
