/** Trust in Hooks (hooks/state.py): layers are installed and confirmed through
    services that cache the records of one shared store, and a Hook runs only
    when a decision in that history still stands behind it. */
module HookTrust {
  import opened Outcomes

  datatype Scope = Managed | User | Workspace | Session

  datatype Implementation = Builtin(handler: Id) | Command(spec: string)

  datatype Definition = Definition(hookId: Id, implementation: Implementation, settings: string)

  /** Scope and owner of a layer name its record. */
  datatype LayerKey = LayerKey(scope: Scope, owner: Id)

  datatype Layer = Layer(key: LayerKey, revision: nat, hooks: seq<Definition>)

  /** SHA-256 of the canonical value, taken as injective. */
  datatype Hash = OfDefinition(definition: Definition) | OfLayer(layer: Layer)

  datatype Trust = Signed | Confirmed | ConfirmationRequired | WorkspaceTrust

  datatype Record = Record(layer: Layer, trust: Trust, confirmations: map<Id, Hash>, revision: nat, idempotencyKey: Id)

  /** What a caller decided, as the store came to know it. */
  datatype Decision =
    | Install(layer: Layer, key: Id)
    | ConfirmLayer(contentHash: Hash, key: Id)
    | ConfirmCommand(hookId: Id, definitionHash: Hash, key: Id)

  // ---------------------------------------------------------------- layers

  predicate UniqueHooks(layer: Layer) {
    forall i, j :: 0 <= i < j < |layer.hooks| ==> layer.hooks[i].hookId != layer.hooks[j].hookId
  }

  predicate IsCommand(layer: Layer, hookId: Id, hash: Hash) {
    exists i :: 0 <= i < |layer.hooks| && layer.hooks[i].hookId == hookId && layer.hooks[i].implementation.Command?
                && OfDefinition(layer.hooks[i]) == hash
  }

  /** The confirmations that a new layer keeps: those of unchanged commands. */
  function Preserved(current: Option<Record>, layer: Layer): map<Id, Hash> {
    if current.None? || layer.key.scope != Workspace then map[]
    else map id | id in current.value.confirmations && IsCommand(layer, id, current.value.confirmations[id]) ::
           current.value.confirmations[id]
  }

  function InitialTrust(scope: Scope): Trust {
    match scope
    case Managed => Signed
    case Workspace => WorkspaceTrust
    case _ => ConfirmationRequired
  }

  // ---------------------------------------------------------------- decisions

  function RevisionOf(record: Option<Record>): nat {
    if record.Some? then record.value.revision else 0
  }

  function After(current: Option<Record>, d: Decision): Option<Record> {
    match d
    case Install(layer, key) =>
      Some(Record(layer, InitialTrust(layer.key.scope), Preserved(current, layer), RevisionOf(current) + 1, key))
    case ConfirmLayer(_, key) =>
      if current.None? then None
      else Some(Record(current.value.layer, Confirmed, map[], current.value.revision + 1, key))
    case ConfirmCommand(hookId, hash, key) =>
      if current.None? then None
      else
        var r := current.value;
        Some(Record(r.layer, r.trust, r.confirmations[hookId := hash], r.revision + 1, key))
  }

  /** What the services require of a decision. */
  predicate Permitted(key: LayerKey, current: Option<Record>, d: Decision) {
    match d
    case Install(layer, _) => layer.key == key && UniqueHooks(layer)
    case ConfirmLayer(hash, _) =>
      (key.scope == User || key.scope == Session) && current.Some? && hash == OfLayer(current.value.layer)
    case ConfirmCommand(hookId, hash, _) =>
      key.scope == Workspace && current.Some? && IsCommand(current.value.layer, hookId, hash)
  }

  /** The record a history of decisions leads to. */
  function Fold(ds: seq<Decision>): Option<Record> {
    if ds == [] then None else After(Fold(ds[..|ds| - 1]), ds[|ds| - 1])
  }

  predicate Legit(key: LayerKey, ds: seq<Decision>) {
    ds == [] || (Legit(key, ds[..|ds| - 1]) && Permitted(key, Fold(ds[..|ds| - 1]), ds[|ds| - 1]))
  }

  /** A legitimate history of n decisions leads to revision n of its layer. */
  lemma {:induction false} FoldCounts(key: LayerKey, ds: seq<Decision>)
    requires Legit(key, ds)
    ensures RevisionOf(Fold(ds)) == |ds| && (ds != [] ==> Fold(ds).Some? && Fold(ds).value.layer.key == key)
    ensures Fold(ds).Some? ==> UniqueHooks(Fold(ds).value.layer)
  {
    if ds != [] { FoldCounts(key, ds[..|ds| - 1]); }
  }

  lemma FoldMore(key: LayerKey, ds: seq<Decision>, d: Decision)
    ensures Fold(ds + [d]) == After(Fold(ds), d)
    ensures Legit(key, ds + [d]) <==> Legit(key, ds) && Permitted(key, Fold(ds), d)
  {
    assert (ds + [d])[..|ds + [d]| - 1] == ds;
  }

  // ---------------------------------------------------------------- who may run

  /** The layer that takes effect from a record, if any. */
  function Effective(record: Record, workspaceTrusted: bool): Option<Layer> {
    match record.layer.key.scope
    case Managed => Some(record.layer)
    case Workspace => if workspaceTrusted then Some(record.layer.(hooks := RunnableHooks(record, record.layer.hooks))) else None
    case _ => if record.trust == Confirmed then Some(record.layer) else None
  }

  predicate Runnable(record: Record, hook: Definition) {
    hook.implementation.Builtin?
    || (hook.hookId in record.confirmations && record.confirmations[hook.hookId] == OfDefinition(hook))
  }

  function RunnableHooks(record: Record, hooks: seq<Definition>): seq<Definition> {
    if hooks == [] then []
    else
      var earlier := RunnableHooks(record, hooks[..|hooks| - 1]);
      if Runnable(record, hooks[|hooks| - 1]) then earlier + [hooks[|hooks| - 1]] else earlier
  }

  lemma {:induction false} RunnableMembers(record: Record, hooks: seq<Definition>, hook: Definition)
    ensures hook in RunnableHooks(record, hooks) <==> hook in hooks && Runnable(record, hook)
  {
    if hooks != [] {
      RunnableMembers(record, hooks[..|hooks| - 1], hook);
      assert hooks == hooks[..|hooks| - 1] + [hooks[|hooks| - 1]];
    }
  }

  /** Decision i confirmed the command's exact definition, and every layer
      installed since still has it. */
  predicate StandsSince(ds: seq<Decision>, hook: Definition, i: nat)
    requires i < |ds|
  {
    && ds[i].ConfirmCommand? && ds[i].hookId == hook.hookId && ds[i].definitionHash == OfDefinition(hook)
    && forall k :: i < k < |ds| && ds[k].Install? ==> hook in ds[k].layer.hooks
  }

  ghost predicate CommandStands(ds: seq<Decision>, hook: Definition) {
    exists i :: 0 <= i < |ds| && StandsSince(ds, hook, i)
  }

  lemma CommandStandsStep(ds: seq<Decision>, d: Decision, hook: Definition)
    ensures CommandStands(ds + [d], hook) <==>
      (CommandStands(ds, hook) && (d.Install? ==> hook in d.layer.hooks))
      || (d.ConfirmCommand? && d.hookId == hook.hookId && d.definitionHash == OfDefinition(hook))
  {
    var all := ds + [d];
    if i :| 0 <= i < |ds| && StandsSince(ds, hook, i) {
      if d.Install? ==> hook in d.layer.hooks { assert StandsSince(all, hook, i); }
    }
    if i :| 0 <= i < |all| && StandsSince(all, hook, i) {
      if i < |ds| {
        assert StandsSince(ds, hook, i) by { assert forall k :: i < k < |ds| ==> all[k] == ds[k]; }
        assert all[|ds|] == d;
      }
    }
    if d.ConfirmCommand? && d.hookId == hook.hookId && d.definitionHash == OfDefinition(hook) {
      assert StandsSince(all, hook, |ds|);
    }
  }

  /** In every history a workspace command Hook is confirmed exactly when some
      confirmation named its exact definition and every layer installed since
      has kept it. */
  lemma {:induction false} CommandConfirmedIff(owner: Id, ds: seq<Decision>, hook: Definition)
    requires Legit(LayerKey(Workspace, owner), ds) && hook.implementation.Command?
    ensures CommandStands(ds, hook) <==>
      Fold(ds).Some? && hook.hookId in Fold(ds).value.confirmations
      && Fold(ds).value.confirmations[hook.hookId] == OfDefinition(hook)
    ensures CommandStands(ds, hook) ==> hook in Fold(ds).value.layer.hooks
  {
    if ds != [] {
      var before, last := ds[..|ds| - 1], ds[|ds| - 1];
      CommandConfirmedIff(owner, before, hook);
      assert ds == before + [last];
      CommandStandsStep(before, last, hook);
      FoldCounts(LayerKey(Workspace, owner), before);
      if last.Install? { KeepsExactly(last.layer, hook); }
      if last.ConfirmCommand? && last.hookId == hook.hookId { OneDefinition(Fold(before).value.layer, hook, last.definitionHash); }
    }
  }

  lemma KeepsExactly(layer: Layer, hook: Definition)
    requires hook.implementation.Command?
    ensures IsCommand(layer, hook.hookId, OfDefinition(hook)) <==> hook in layer.hooks
  {
    if hook in layer.hooks {
      var i :| 0 <= i < |layer.hooks| && layer.hooks[i] == hook;
      assert OfDefinition(layer.hooks[i]) == OfDefinition(hook);
    }
  }

  /** A layer has one definition for an identifier. */
  lemma OneDefinition(layer: Layer, hook: Definition, hash: Hash)
    requires UniqueHooks(layer) && IsCommand(layer, hook.hookId, hash)
    ensures hook in layer.hooks ==> hash == OfDefinition(hook)
    ensures hash == OfDefinition(hook) ==> hook in layer.hooks
  {
    var i :| 0 <= i < |layer.hooks| && layer.hooks[i].hookId == hook.hookId && layer.hooks[i].implementation.Command?
             && OfDefinition(layer.hooks[i]) == hash;
    if hook in layer.hooks {
      var j :| 0 <= j < |layer.hooks| && layer.hooks[j] == hook;
      assert i == j;
    }
  }

  /** Decision i confirmed the layer's exact content, and nothing was installed
      since. */
  ghost predicate LayerStands(ds: seq<Decision>, layer: Layer) {
    exists i :: 0 <= i < |ds| && ConfirmedSince(ds, layer, i)
  }

  predicate ConfirmedSince(ds: seq<Decision>, layer: Layer, i: nat)
    requires i < |ds|
  {
    ds[i].ConfirmLayer? && ds[i].contentHash == OfLayer(layer) && forall k :: i < k < |ds| ==> !ds[k].Install?
  }

  lemma LayerStandsStep(ds: seq<Decision>, d: Decision, layer: Layer)
    ensures LayerStands(ds + [d], layer) <==>
      (LayerStands(ds, layer) && !d.Install?) || (d.ConfirmLayer? && d.contentHash == OfLayer(layer))
  {
    var all := ds + [d];
    if i :| 0 <= i < |ds| && ConfirmedSince(ds, layer, i) {
      if !d.Install? { assert ConfirmedSince(all, layer, i); }
    }
    if i :| 0 <= i < |all| && ConfirmedSince(all, layer, i) {
      if i < |ds| {
        assert ConfirmedSince(ds, layer, i) by { assert forall k :: i < k < |ds| ==> all[k] == ds[k]; }
        assert all[|ds|] == d;
      }
    }
    if d.ConfirmLayer? && d.contentHash == OfLayer(layer) { assert ConfirmedSince(all, layer, |ds|); }
  }

  /** In every history a user or session layer is confirmed exactly when its
      exact content was confirmed after its last installation. */
  lemma {:induction false} LayerConfirmedIff(key: LayerKey, ds: seq<Decision>)
    requires Legit(key, ds) && (key.scope == User || key.scope == Session) && ds != []
    ensures Fold(ds).Some?
    ensures Fold(ds).value.trust == Confirmed <==> LayerStands(ds, Fold(ds).value.layer)
  {
    var before, last := ds[..|ds| - 1], ds[|ds| - 1];
    FoldCounts(key, before);
    if before != [] { LayerConfirmedIff(key, before); }
    assert ds == before + [last];
    LayerStandsStep(before, last, Fold(ds).value.layer);
  }

  /** Hence what takes effect from a workspace layer: the builtin Hooks of the
      layer, and the commands that stand. */
  lemma {:induction false} EffectiveWorkspaceHooks(owner: Id, ds: seq<Decision>, hook: Definition)
    requires Legit(LayerKey(Workspace, owner), ds) && ds != []
    ensures Fold(ds).Some? && Effective(Fold(ds).value, true).Some?
    ensures hook in Effective(Fold(ds).value, true).value.hooks <==>
      hook in Fold(ds).value.layer.hooks && (hook.implementation.Builtin? || CommandStands(ds, hook))
  {
    FoldCounts(LayerKey(Workspace, owner), ds);
    RunnableMembers(Fold(ds).value, Fold(ds).value.layer.hooks, hook);
    if hook.implementation.Command? { CommandConfirmedIff(owner, ds, hook); }
  }

  // ---------------------------------------------------------------- records are well formed

  /** The record's own validation. */
  predicate WellFormed(r: Record) {
    && r.revision >= 1
    && (forall id :: id in r.confirmations ==> IsCommand(r.layer, id, r.confirmations[id]))
    && match r.layer.key.scope
       case Managed => r.trust == Signed && r.confirmations == map[]
       case Workspace => r.trust == WorkspaceTrust
       case _ => r.trust == Confirmed || r.trust == ConfirmationRequired
  }

  /** No permitted decision makes a record that its validation refuses. */
  lemma {:induction false} FoldIsWellFormed(key: LayerKey, ds: seq<Decision>)
    requires Legit(key, ds) && ds != []
    ensures Fold(ds).Some? && WellFormed(Fold(ds).value)
  {
    var before := ds[..|ds| - 1];
    FoldCounts(key, ds);
    FoldCounts(key, before);
    if before != [] { FoldIsWellFormed(key, before); }
  }

  // ---------------------------------------------------------------- the store

  function Past(history: map<LayerKey, seq<Decision>>, key: LayerKey): seq<Decision> {
    if key in history then history[key] else []
  }

  function RowOf(rows: map<LayerKey, Record>, key: LayerKey): Option<Record> {
    if key in rows then Some(rows[key]) else None
  }

  /** Every row is what a legitimate history led to. */
  ghost predicate Explained(rows: map<LayerKey, Record>, history: map<LayerKey, seq<Decision>>) {
    forall key :: RowExplained(rows, history, key)
  }

  predicate RowExplained(rows: map<LayerKey, Record>, history: map<LayerKey, seq<Decision>>, key: LayerKey) {
    Legit(key, Past(history, key)) && Fold(Past(history, key)) == RowOf(rows, key)
  }

  /** A service's records are earlier states of the rows, or their present. */
  ghost predicate Cached(records: map<LayerKey, Record>, history: map<LayerKey, seq<Decision>>) {
    forall key :: CachedAt(records, history, key)
  }

  predicate CachedAt(records: map<LayerKey, Record>, history: map<LayerKey, seq<Decision>>, key: LayerKey) {
    key in records ==> records[key].layer.key == key && CachedRow(records[key], Past(history, key))
  }

  predicate CachedRow(record: Record, past: seq<Decision>) {
    record.revision <= |past| && Fold(past[..record.revision]) == Some(record)
  }

  ghost predicate Grows(history: map<LayerKey, seq<Decision>>, history': map<LayerKey, seq<Decision>>) {
    forall key :: GrowsAt(history, history', key)
  }

  predicate GrowsAt(history: map<LayerKey, seq<Decision>>, history': map<LayerKey, seq<Decision>>, key: LayerKey) {
    Past(history, key) <= Past(history', key)
  }

  /** What other services do never invalidates a cache: it only ages. */
  lemma CachesOnlyAge(records: map<LayerKey, Record>, history: map<LayerKey, seq<Decision>>, history': map<LayerKey, seq<Decision>>)
    requires Cached(records, history) && Grows(history, history')
    ensures Cached(records, history')
  {
    forall key ensures CachedAt(records, history', key) {
      assert CachedAt(records, history, key) && GrowsAt(history, history', key);
      if key in records {
        assert Past(history', key)[..records[key].revision] == Past(history, key)[..records[key].revision];
      }
    }
  }

  lemma RowIsCached(rows: map<LayerKey, Record>, history: map<LayerKey, seq<Decision>>, key: LayerKey)
    requires Explained(rows, history) && key in rows
    ensures CachedRow(rows[key], Past(history, key)) && rows[key].layer.key == key && rows[key].revision == |Past(history, key)|
  {
    var past := Past(history, key);
    assert RowExplained(rows, history, key);
    FoldCounts(key, past);
    assert past[..|past|] == past;
  }

  lemma RowsAreCached(rows: map<LayerKey, Record>, history: map<LayerKey, seq<Decision>>)
    requires Explained(rows, history)
    ensures Cached(rows, history)
  {
    forall key ensures CachedAt(rows, history, key) {
      if key in rows { RowIsCached(rows, history, key); }
    }
  }

  /** The put of a prepared candidate on the row it expects. */
  lemma PutIsExplained(
    rows: map<LayerKey, Record>, history: map<LayerKey, seq<Decision>>, candidate: Record, expected: nat, d: Decision)
    requires Explained(rows, history) && RevisionOf(RowOf(rows, candidate.layer.key)) == expected
    requires Prepared(Past(history, candidate.layer.key), candidate, expected, d)
    ensures
      var key := candidate.layer.key;
      var history' := history[key := Past(history, key) + [d]];
      Explained(rows[key := candidate], history') && Grows(history, history')
  {
    var key := candidate.layer.key;
    var rows', history' := rows[key := candidate], history[key := Past(history, key) + [d]];
    forall other ensures RowExplained(rows', history', other) {
      assert RowExplained(rows, history, other);
      if other == key { NextIsExplained(rows, history, candidate, expected, d); }
    }
    forall other ensures GrowsAt(history, history', other) {}
  }

  lemma NextIsExplained(
    rows: map<LayerKey, Record>, history: map<LayerKey, seq<Decision>>, candidate: Record, expected: nat, d: Decision)
    requires RowExplained(rows, history, candidate.layer.key)
    requires RevisionOf(RowOf(rows, candidate.layer.key)) == expected
    requires Prepared(Past(history, candidate.layer.key), candidate, expected, d)
    ensures
      var next := Past(history, candidate.layer.key) + [d];
      Legit(candidate.layer.key, next) && Fold(next) == Some(candidate)
  {
    var key := candidate.layer.key;
    var past := Past(history, key);
    FoldCounts(key, past);
    assert past[..expected] == past;
    FoldMore(key, past, d);
  }

  lemma UnchangedGrows(history: map<LayerKey, seq<Decision>>)
    ensures Grows(history, history)
  {
    forall key ensures GrowsAt(history, history, key) {}
  }

  predicate SameContent(a: Record, b: Record) {
    a.layer == b.layer && a.trust == b.trust && a.confirmations == b.confirmations
  }

  function Recorded(history: map<LayerKey, seq<Decision>>, key: LayerKey, d: Decision): map<LayerKey, seq<Decision>> {
    history[key := Past(history, key) + [d]]
  }

  /** What a decision leaves: only the history of its layer may have grown, by
      that decision, and the cache shows the outcome if there is one. */
  ghost predicate Decided(
    was: map<LayerKey, seq<Decision>>, now: map<LayerKey, seq<Decision>>, cache: map<LayerKey, Record>,
    cache': map<LayerKey, Record>, key: LayerKey, d: Decision, r: Result<Record>)
  {
    && Grows(was, now)
    && (now == was || now == Recorded(was, key, d))
    && (r.Err? ==> cache' == cache)
    && (r.Ok? ==> cache' == cache[key := r.value] && r.value.idempotencyKey == d.key)
  }

  /** The candidate is what the decision makes of the past that was expected. */
  ghost predicate Prepared(past: seq<Decision>, candidate: Record, expected: nat, d: Decision) {
    && expected <= |past| && candidate.revision == expected + 1
    && Permitted(candidate.layer.key, Fold(past[..expected]), d)
    && After(Fold(past[..expected]), d) == Some(candidate)
  }

  lemma CachePrepares(
    records: map<LayerKey, Record>, history: map<LayerKey, seq<Decision>>, key: LayerKey, candidate: Record, d: Decision)
    requires Cached(records, history) && candidate.layer.key == key
    requires Permitted(key, RowOf(records, key), d) && After(RowOf(records, key), d) == Some(candidate)
    ensures Prepared(Past(history, key), candidate, RevisionOf(RowOf(records, key)), d)
  {
    assert CachedAt(records, history, key);
  }

  lemma CacheShows(
    records: map<LayerKey, Record>, rows: map<LayerKey, Record>, history: map<LayerKey, seq<Decision>>, key: LayerKey)
    requires Explained(rows, history) && Cached(records, history) && key in rows
    ensures Cached(records[key := rows[key]], history)
  {
    RowIsCached(rows, history, key);
    var records' := records[key := rows[key]];
    forall other ensures CachedAt(records', history, other) { assert CachedAt(records, history, other); }
  }

  /** How the transaction of a put ends. */
  datatype Fate = Lands | LandsThenRaises | LandsThenCancelled | Fails

  class HookStore {
    var rows: map<LayerKey, Record>
    ghost var history: map<LayerKey, seq<Decision>>

    constructor ()
      ensures rows == map[] && history == map[] && Explained(rows, history)
    {
      rows := map[];
      history := map[];
    }

    /** The row is at the expected revision, and not this candidate already. */
    predicate Takes(candidate: Record, expected: nat)
      reads this
    {
      var row := RowOf(rows, candidate.layer.key);
      RevisionOf(row) == expected && (row.Some? ==> row.value.idempotencyKey != candidate.idempotencyKey)
    }

    /** A compare-and-swap put. A repeated key returns the stored record, and a
        commit that raised after it took effect is recovered. */
    method Put(candidate: Record, expected: nat, fate: Fate, ghost d: Decision) returns (r: Result<Record>)
      requires Explained(rows, history)
      requires Prepared(Past(history, candidate.layer.key), candidate, expected, d)
      modifies this
      ensures Explained(rows, history) && Grows(old(history), history)
      ensures history == (if old(Takes(candidate, expected)) && fate != Fails
                          then old(history)[candidate.layer.key := Past(old(history), candidate.layer.key) + [d]]
                          else old(history))
      ensures old(Takes(candidate, expected)) ==> (r.Ok? <==> fate == Lands || fate == LandsThenRaises)
      ensures !old(Takes(candidate, expected)) ==> rows == old(rows)
      ensures forall key :: key != candidate.layer.key ==> RowOf(rows, key) == RowOf(old(rows), key)
      ensures r.Ok? ==> RowOf(rows, candidate.layer.key) == Some(r.value) && SameContent(r.value, candidate)
      ensures r.Ok? ==> r.value.idempotencyKey == candidate.idempotencyKey
    {
      var key := candidate.layer.key;
      UnchangedGrows(history);
      if key in rows && rows[key].idempotencyKey == candidate.idempotencyKey {
        if !SameContent(rows[key], candidate) { return Err; }
        return Ok(rows[key]);
      }
      var actual := if key in rows then rows[key].revision else 0;
      if actual != expected || fate == Fails { return Err; }
      PutIsExplained(rows, history, candidate, expected, d);
      history := history[key := Past(history, key) + [d]];
      rows := rows[key := candidate];
      if fate == LandsThenCancelled { return Err; }
      r := Ok(rows[key]);
    }
  }

  // ---------------------------------------------------------------- the service

  class HookService {
    const store: HookStore
    const workspace: Id
    const managed: Layer
    const builtins: set<Id>
    var initialized: bool
    var records: map<LayerKey, Record>

    ghost predicate Valid()
      reads this, store
    {
      && managed.key.scope == Managed && UniqueHooks(managed)
      && Explained(store.rows, store.history) && Cached(records, store.history)
      && (initialized ==> managed.key in records && records[managed.key].layer == managed)
    }

    /** The cached record is the layer's latest. */
    ghost predicate Current(key: LayerKey)
      reads this, store
    {
      key in records && records[key].revision == |Past(store.history, key)|
    }

    /** The cache shows the stored row. */
    predicate Shows(key: LayerKey)
      reads this, store
    {
      key in records && RowOf(store.rows, key) == Some(records[key])
    }

    /** The cache of a layer does not know its latest decision. */
    ghost predicate Stale(key: LayerKey)
      reads this, store
    {
      RevisionOf(RowOf(records, key)) < |Past(store.history, key)|
    }

    constructor (store: HookStore, workspace: Id, managed: Layer, builtins: set<Id>)
      requires managed.key.scope == Managed && UniqueHooks(managed) && Explained(store.rows, store.history)
      ensures Valid() && fresh(this) && !initialized && records == map[]
      ensures this.store == store && this.workspace == workspace && this.managed == managed && this.builtins == builtins
    {
      this.store, this.workspace, this.managed, this.builtins := store, workspace, managed, builtins;
      initialized, records := false, map[];
    }

    predicate Acceptable(layer: Layer) {
      && (layer.key.scope != Managed ==> layer.revision >= 1)
      && forall i :: 0 <= i < |layer.hooks| && layer.hooks[i].implementation.Builtin? ==>
           layer.hooks[i].implementation.handler in builtins
    }

    /** The persisted catalog belongs to this workspace and runtime. */
    ghost predicate CatalogFits(rows: map<LayerKey, Record>) {
      forall key :: key in rows ==>
        && (key.scope == Managed ==> key.owner == managed.key.owner)
        && (key.scope == Workspace ==> key.owner == workspace)
        && (key.scope != Managed ==> Acceptable(rows[key].layer))
    }

    /** Loads the records and puts the signed layer in place. */
    method Initialize(managedKey: Id, catalogFits: bool, fate: Fate) returns (ok: bool)
      requires Valid() && (catalogFits <==> CatalogFits(store.rows))
      modifies this, store
      ensures Valid() && Grows(old(store.history), store.history)
      ensures ok ==> initialized
      ensures !ok ==> initialized == old(initialized) && records == old(records)
      ensures catalogFits && (fate == Lands || fate == LandsThenRaises) && managed.key !in old(store.rows) ==> ok
      ensures forall key :: key != managed.key ==>
        RowOf(store.rows, key) == RowOf(old(store.rows), key) && Past(store.history, key) == Past(old(store.history), key)
      ensures ok && !old(initialized) ==> forall key :: key != managed.key ==> RowOf(records, key) == RowOf(store.rows, key)
    {
      if initialized { return true; }
      if !catalogFits { return false; }
      var loaded := store.rows;
      ghost var was := store.history;
      RowsAreCached(loaded, was);
      UnchangedGrows(was);
      if managed.key !in loaded || loaded[managed.key].layer != managed {
        var current := RowOf(loaded, managed.key);
        var candidate := Record(managed, Signed, map[], RevisionOf(current) + 1, managedKey);
        CachePrepares(loaded, was, managed.key, candidate, Install(managed, managedKey));
        var r := store.Put(candidate, RevisionOf(current), fate, Install(managed, managedKey));
        CachesOnlyAge(loaded, was, store.history);
        CachesOnlyAge(records, was, store.history);
        if r.Err? { return false; }
        CacheShows(loaded, store.rows, store.history, managed.key);
        loaded := loaded[managed.key := r.value];
      }
      records, initialized := loaded, true;
      ok := true;
    }

    /** The cached record and the stored row are both at the expected revision,
        and neither carries this idempotency key. */
    predicate Fresh(layerKey: LayerKey, expected: nat, key: Id)
      reads this, store
    {
      && RevisionOf(RowOf(records, layerKey)) == expected && RevisionOf(RowOf(store.rows, layerKey)) == expected
      && (layerKey in records ==> records[layerKey].idempotencyKey != key)
      && (layerKey in store.rows ==> store.rows[layerKey].idempotencyKey != key)
    }

    /** What an installation must meet to reach the store. */
    predicate Installs(layer: Layer, expected: nat, key: Id)
      reads this, store
    {
      && initialized && layer.key.scope != Managed && (layer.key.scope == Workspace ==> layer.key.owner == workspace)
      && Acceptable(layer) && Fresh(layer.key, expected, key)
      && layer.revision == (if layer.key in records then records[layer.key].layer.revision + 1 else 1)
    }

    /** It is recorded exactly when it meets that and the put lands; it is
        reported as recorded only without a cancellation. */
    method InstallLayer(layer: Layer, expected: nat, key: Id, fate: Fate, cancelled: bool) returns (r: Result<Record>)
      requires Valid() && UniqueHooks(layer)
      modifies this, store
      ensures Valid() && initialized == old(initialized)
      ensures Decided(old(store.history), store.history, old(records), records, layer.key, Install(layer, key), r)
      ensures store.history == (if old(Installs(layer, expected, key)) && fate != Fails
                                then Recorded(old(store.history), layer.key, Install(layer, key)) else old(store.history))
      ensures old(Installs(layer, expected, key)) ==> (r.Ok? <==> (fate == Lands || fate == LandsThenRaises) && !cancelled)
      ensures r.Ok? && store.history != old(store.history) ==> Current(layer.key) && Shows(layer.key)
      ensures !old(Stale(layer.key)) ==> (Stale(layer.key) <==> r.Err? && store.history != old(store.history))
      ensures r.Ok? ==> old(initialized) && r.value.layer == layer && layer.key.scope != Managed && Acceptable(layer)
    {
      UnchangedGrows(store.history);
      assert CachedAt(records, store.history, layer.key);
      if layer.key.scope == Managed || (layer.key.scope == Workspace && layer.key.owner != workspace) { return Err; }
      if !Acceptable(layer) || !initialized { return Err; }
      var current := RowOf(records, layer.key);
      if current.Some? && current.value.idempotencyKey == key {
        if current.value.layer != layer { return Err; }
        assert records[layer.key := current.value] == records;
        return Ok(current.value);
      }
      if RevisionOf(current) != expected { return Err; }
      if layer.revision != (if current.None? then 1 else current.value.layer.revision + 1) { return Err; }
      var confirmations := Preserved(current, layer);
      var candidate := Record(layer, InitialTrust(layer.key.scope), confirmations, expected + 1, key);
      r := Decide(current, candidate, fate, cancelled, Install(layer, key));
    }

    /** The compare-and-swap put of a decision, and the cached record after it.
        A cancellation that arrives after the put leaves the cache behind. */
    method Decide(current: Option<Record>, candidate: Record, fate: Fate, cancelled: bool, ghost d: Decision)
      returns (r: Result<Record>)
      requires Valid() && current == RowOf(records, candidate.layer.key)
      requires Permitted(candidate.layer.key, current, d) && After(current, d) == Some(candidate)
      requires candidate.layer.key.scope != Managed && candidate.idempotencyKey == d.key
      modifies this, store
      ensures Valid() && initialized == old(initialized)
      ensures Decided(old(store.history), store.history, old(records), records, candidate.layer.key, d, r)
      ensures r.Ok? ==> SameContent(r.value, candidate) && Current(candidate.layer.key) && Shows(candidate.layer.key)
      ensures store.history == (if old(store.Takes(candidate, RevisionOf(current))) && fate != Fails
                                then Recorded(old(store.history), candidate.layer.key, d) else old(store.history))
      ensures old(store.Takes(candidate, RevisionOf(current))) ==>
                (r.Ok? <==> (fate == Lands || fate == LandsThenRaises) && !cancelled)
    {
      var key := candidate.layer.key;
      ghost var was := store.history;
      CachePrepares(records, was, key, candidate, d);
      r := store.Put(candidate, RevisionOf(current), fate, d);
      CachesOnlyAge(records, was, store.history);
      if r.Err? { return; }
      if cancelled { return Err; }
      CacheShows(records, store.rows, store.history, key);
      RowIsCached(store.rows, store.history, key);
      records := records[key := r.value];
    }

    predicate ConfirmsLayer(key: LayerKey, contentHash: Hash, expected: nat, idempotencyKey: Id)
      reads this, store
    {
      && initialized && (key.scope == User || key.scope == Session) && key in records
      && OfLayer(records[key].layer) == contentHash && Fresh(key, expected, idempotencyKey)
    }

    predicate ConfirmsCommand(key: LayerKey, hookId: Id, definitionHash: Hash, expected: nat, idempotencyKey: Id)
      reads this, store
    {
      && initialized && key.scope == Workspace && key in records
      && IsCommand(records[key].layer, hookId, definitionHash) && Fresh(key, expected, idempotencyKey)
    }

    method ConfirmWholeLayer(key: LayerKey, contentHash: Hash, expected: nat, idempotencyKey: Id, fate: Fate, cancelled: bool)
      returns (r: Result<Record>)
      requires Valid()
      modifies this, store
      ensures Valid() && initialized == old(initialized)
      ensures Decided(old(store.history), store.history, old(records), records, key,
                      ConfirmLayer(contentHash, idempotencyKey), r)
      ensures store.history == (if old(ConfirmsLayer(key, contentHash, expected, idempotencyKey)) && fate != Fails
                                then Recorded(old(store.history), key, ConfirmLayer(contentHash, idempotencyKey))
                                else old(store.history))
      ensures old(ConfirmsLayer(key, contentHash, expected, idempotencyKey)) ==>
                (r.Ok? <==> (fate == Lands || fate == LandsThenRaises) && !cancelled)
      ensures r.Ok? && store.history != old(store.history) ==> Current(key) && Shows(key)
      ensures !old(Stale(key)) ==> (Stale(key) <==> r.Err? && store.history != old(store.history))
      ensures r.Ok? ==> OfLayer(r.value.layer) == contentHash && r.value.trust == Confirmed
    {
      UnchangedGrows(store.history);
      assert CachedAt(records, store.history, key);
      if key.scope != User && key.scope != Session { return Err; }
      var replay := RowOf(records, key);
      if replay.Some? && replay.value.idempotencyKey == idempotencyKey {
        if OfLayer(replay.value.layer) != contentHash || replay.value.trust != Confirmed { return Err; }
        assert records[key := replay.value] == records;
        return Ok(replay.value);
      }
      if !initialized || replay.None? || replay.value.revision != expected { return Err; }
      if OfLayer(replay.value.layer) != contentHash { return Err; }
      var candidate := Record(replay.value.layer, Confirmed, map[], expected + 1, idempotencyKey);
      r := Decide(replay, candidate, fate, cancelled, ConfirmLayer(contentHash, idempotencyKey));
    }

    method ConfirmWorkspaceCommand(
      owner: Id, hookId: Id, definitionHash: Hash, expected: nat, idempotencyKey: Id, fate: Fate, cancelled: bool)
      returns (r: Result<Record>)
      requires Valid()
      modifies this, store
      ensures Valid() && initialized == old(initialized)
      ensures Decided(old(store.history), store.history, old(records), records, LayerKey(Workspace, owner),
                      ConfirmCommand(hookId, definitionHash, idempotencyKey), r)
      ensures store.history ==
                (if old(ConfirmsCommand(LayerKey(Workspace, owner), hookId, definitionHash, expected, idempotencyKey))
                    && fate != Fails
                 then Recorded(old(store.history), LayerKey(Workspace, owner),
                               ConfirmCommand(hookId, definitionHash, idempotencyKey))
                 else old(store.history))
      ensures old(ConfirmsCommand(LayerKey(Workspace, owner), hookId, definitionHash, expected, idempotencyKey)) ==>
                (r.Ok? <==> (fate == Lands || fate == LandsThenRaises) && !cancelled)
      ensures r.Ok? && store.history != old(store.history) ==>
                Current(LayerKey(Workspace, owner)) && Shows(LayerKey(Workspace, owner))
      ensures !old(Stale(LayerKey(Workspace, owner))) ==>
                (Stale(LayerKey(Workspace, owner)) <==> r.Err? && store.history != old(store.history))
      ensures r.Ok? ==> hookId in r.value.confirmations && r.value.confirmations[hookId] == definitionHash
    {
      var key := LayerKey(Workspace, owner);
      UnchangedGrows(store.history);
      assert CachedAt(records, store.history, key);
      var replay := RowOf(records, key);
      if replay.Some? && replay.value.idempotencyKey == idempotencyKey {
        var confirmations := replay.value.confirmations;
        if hookId !in confirmations || confirmations[hookId] != definitionHash { return Err; }
        assert records[key := replay.value] == records;
        return Ok(replay.value);
      }
      if !initialized || replay.None? || replay.value.revision != expected { return Err; }
      var record := replay.value;
      if !IsCommand(record.layer, hookId, definitionHash) { return Err; }
      var confirmations := record.confirmations[hookId := definitionHash];
      var candidate := Record(record.layer, record.trust, confirmations, record.revision + 1, idempotencyKey);
      r := Decide(replay, candidate, fate, cancelled, ConfirmCommand(hookId, definitionHash, idempotencyKey));
    }

    /** The layers in force for a principal and a session. */
    method EffectiveLayers(principal: Id, session: Id, workspaceTrusted: bool) returns (layers: seq<Layer>)
      requires Valid() && initialized
      ensures forall layer :: layer in layers <==> InForce(layer, principal, session, workspaceTrusted)
      ensures managed in layers
    {
      layers := [];
      var expected := [managed.key, LayerKey(User, principal), LayerKey(Workspace, workspace), LayerKey(Session, session)];
      for i := 0 to |expected|
        invariant forall layer :: layer in layers <==>
          exists k :: 0 <= k < i && InForceAt(layer, expected[k], workspaceTrusted)
      {
        if expected[i] in records {
          var effective := Effective(records[expected[i]], workspaceTrusted);
          if effective.Some? { layers := layers + [effective.value]; }
        }
      }
      assert InForceAt(managed, expected[0], workspaceTrusted);
      assert expected[1] == LayerKey(User, principal) && expected[2] == LayerKey(Workspace, workspace)
             && expected[3] == LayerKey(Session, session);
    }

    predicate InForceAt(layer: Layer, key: LayerKey, workspaceTrusted: bool)
      reads this
    {
      key in records && Effective(records[key], workspaceTrusted) == Some(layer)
    }

    predicate InForce(layer: Layer, principal: Id, session: Id, workspaceTrusted: bool)
      reads this
    {
      || InForceAt(layer, managed.key, workspaceTrusted)
      || InForceAt(layer, LayerKey(User, principal), workspaceTrusted)
      || InForceAt(layer, LayerKey(Workspace, workspace), workspaceTrusted)
      || InForceAt(layer, LayerKey(Session, session), workspaceTrusted)
    }

    /** The history that a service has seen of a layer. */
    ghost function Seen(key: LayerKey): seq<Decision>
      requires Valid() && key in records
      reads this, store
    {
      assert CachedAt(records, store.history, key);
      Past(store.history, key)[..records[key].revision]
    }

    /** Whatever services, retries, cancellations and restarts did: a workspace
        command is in force only if a decision this service has seen confirmed
        that exact definition and no layer installed since lacks it, and a user
        or session layer only if its exact content was confirmed after its last
        installation. */
    lemma InForceIsTrusted(layer: Layer, key: LayerKey, workspaceTrusted: bool, hook: Definition)
      requires Valid() && InForceAt(layer, key, workspaceTrusted) && hook in layer.hooks
      ensures key.scope == Workspace && hook.implementation.Command? ==>
                workspaceTrusted && CommandStands(Seen(key), hook)
      ensures key.scope == User || key.scope == Session ==> LayerStands(Seen(key), layer)
      ensures key == managed.key && initialized ==> layer == managed
    {
      var seen := Seen(key);
      assert CachedAt(records, store.history, key) && RowExplained(store.rows, store.history, key);
      LegitPrefix(key, Past(store.history, key), records[key].revision);
      if key.scope == Workspace && workspaceTrusted { EffectiveWorkspaceHooks(key.owner, seen, hook); }
      if key.scope == User || key.scope == Session { LayerConfirmedIff(key, seen); }
    }

    /** With a cache that is not behind, the same holds of the whole history:
        of every decision that any service ever recorded. */
    lemma CurrentIsTrusted(layer: Layer, key: LayerKey, workspaceTrusted: bool, hook: Definition)
      requires Valid() && Current(key) && InForceAt(layer, key, workspaceTrusted) && hook in layer.hooks
      ensures key.scope == Workspace && hook.implementation.Command? ==>
                workspaceTrusted && CommandStands(Past(store.history, key), hook)
      ensures key.scope == User || key.scope == Session ==> LayerStands(Past(store.history, key), layer)
    {
      assert Past(store.history, key)[..records[key].revision] == Past(store.history, key);
      InForceIsTrusted(layer, key, workspaceTrusted, hook);
    }

    /** Whatever the age of the cache, what is in force stands in the whole
        history exactly when the stored row still backs it: the row confirms
        that exact command, or is confirmed with that exact layer. */
    lemma StandsIffStored(layer: Layer, key: LayerKey, workspaceTrusted: bool, hook: Definition)
      requires Valid() && InForceAt(layer, key, workspaceTrusted) && hook in layer.hooks
      ensures key.scope == Workspace && hook.implementation.Command? ==>
        (CommandStands(Past(store.history, key), hook) <==>
         key in store.rows && hook.hookId in store.rows[key].confirmations
         && store.rows[key].confirmations[hook.hookId] == OfDefinition(hook))
      ensures key.scope == User || key.scope == Session ==>
        (LayerStands(Past(store.history, key), layer) <==>
         key in store.rows && store.rows[key].layer == layer && store.rows[key].trust == Confirmed)
    {
      var past := Past(store.history, key);
      assert RowExplained(store.rows, store.history, key);
      if key.scope == Workspace && hook.implementation.Command? { CommandConfirmedIff(key.owner, past, hook); }
      if key.scope == User || key.scope == Session { LayerStandsIff(key, past, layer); }
    }
  }

  /** A user or session layer stands exactly when it is the installed one and
      is confirmed. */
  lemma {:induction false} LayerStandsIff(key: LayerKey, ds: seq<Decision>, layer: Layer)
    requires Legit(key, ds) && (key.scope == User || key.scope == Session)
    ensures LayerStands(ds, layer) <==>
      Fold(ds).Some? && Fold(ds).value.layer == layer && Fold(ds).value.trust == Confirmed
  {
    if ds != [] {
      var before, last := ds[..|ds| - 1], ds[|ds| - 1];
      assert ds == before + [last];
      LayerStandsIff(key, before, layer);
      LayerStandsStep(before, last, layer);
    }
  }

  /** The whole-history form fails for a service whose cache is behind. It
      installs a layer with a command, confirms the command, and installs a
      layer without it; the last call is cancelled after its put. The service
      then keeps in force a command that the recorded layer dropped. */
  method CancelledInstallKeepsCommand(workspace: Id, managed: Layer, hook: Definition, keys: seq<Id>)
    returns (service: HookService)
    requires managed.key.scope == Managed && UniqueHooks(managed) && hook.implementation.Command?
    requires |keys| == 3 && keys[0] != keys[1] && keys[1] != keys[2] && keys[0] != keys[2]
    ensures fresh(service) && service.Valid()
    ensures
      var key := LayerKey(Workspace, workspace);
      && service.InForceAt(Layer(key, 1, [hook]), key, true)
      && service.Stale(key) && !CommandStands(Past(service.store.history, key), hook)
  {
    var key := LayerKey(Workspace, workspace);
    var layer, without := Layer(key, 1, [hook]), Layer(key, 2, []);
    service := ConfirmedCommand(workspace, managed, layer, hook, keys[0], keys[1]);
    ghost var past, kept := Past(service.store.history, key), service.records;
    var third := service.InstallLayer(without, 2, keys[2], Lands, true);
    assert service.records == kept && third.Err?;
    DroppedDoesNotStand(past, without, keys[2], hook);
  }

  /** A service that has installed a layer with one command and confirmed it. */
  method ConfirmedCommand(workspace: Id, managed: Layer, layer: Layer, hook: Definition, key0: Id, key1: Id)
    returns (service: HookService)
    requires managed.key.scope == Managed && UniqueHooks(managed) && hook.implementation.Command? && key0 != key1
    requires layer == Layer(LayerKey(Workspace, workspace), 1, [hook])
    ensures fresh(service) && fresh(service.store) && service.Valid() && service.initialized && service.workspace == workspace
    ensures service.Shows(layer.key) && service.Current(layer.key)
    ensures service.records[layer.key].revision == 2 && service.records[layer.key].idempotencyKey == key1
    ensures service.records[layer.key].layer == layer && service.InForceAt(layer, layer.key, true)
  {
    var store := new HookStore();
    service := new HookService(store, workspace, managed, {});
    ghost var installed, confirmed := Install(layer, key0), ConfirmCommand(hook.hookId, OfDefinition(hook), key1);
    FoldOnce(layer, hook, installed, confirmed);
    var ok := service.Initialize(key0, true, Lands);
    assert ok && RowOf(service.records, layer.key) == None && RowOf(store.rows, layer.key) == None;
    var first := service.InstallLayer(layer, 0, key0, Lands, false);
    assert Past(store.history, layer.key) == [installed] && service.Shows(layer.key);
    assert CachedAt(service.records, store.history, layer.key);
    assert [installed][..1] == [installed];
    var second := service.ConfirmWorkspaceCommand(workspace, hook.hookId, OfDefinition(hook), 1, key1, Lands, false);
    assert Past(store.history, layer.key) == [installed, confirmed] && service.Shows(layer.key);
    assert CachedAt(service.records, store.history, layer.key);
    assert [installed, confirmed][..2] == [installed, confirmed];
  }

  /** What installing a command and confirming it leads to. */
  lemma FoldOnce(layer: Layer, hook: Definition, installed: Decision, confirmed: Decision)
    requires layer.key.scope == Workspace && layer.hooks == [hook] && hook.implementation.Command?
    requires installed.Install? && installed.layer == layer
    requires confirmed.ConfirmCommand? && confirmed.hookId == hook.hookId && confirmed.definitionHash == OfDefinition(hook)
    ensures Fold([installed]) == Some(Record(layer, WorkspaceTrust, map[], 1, installed.key))
    ensures Fold([installed, confirmed]) ==
              Some(Record(layer, WorkspaceTrust, map[hook.hookId := OfDefinition(hook)], 2, confirmed.key))
    ensures Effective(Fold([installed, confirmed]).value, true) == Some(layer)
    ensures IsCommand(layer, hook.hookId, OfDefinition(hook))
  {
    var first := Record(layer, WorkspaceTrust, map[], 1, installed.key);
    var second := Record(layer, WorkspaceTrust, map[hook.hookId := OfDefinition(hook)], 2, confirmed.key);
    FoldMore(layer.key, [], installed);
    FoldMore(layer.key, [installed], confirmed);
    assert [] + [installed] == [installed] && [installed] + [confirmed] == [installed, confirmed];
    assert Preserved(None, layer) == map[];
    assert layer.hooks[0] == hook && layer.hooks[..0] == [];
    assert RunnableHooks(second, layer.hooks) == [hook];
  }

  lemma DroppedDoesNotStand(before: seq<Decision>, without: Layer, key: Id, hook: Definition)
    requires hook !in without.hooks
    ensures !CommandStands(before + [Install(without, key)], hook)
  {
    CommandStandsStep(before, Install(without, key), hook);
  }

  lemma {:induction false} LegitPrefix(key: LayerKey, ds: seq<Decision>, n: nat)
    requires Legit(key, ds) && n <= |ds|
    ensures Legit(key, ds[..n])
  {
    if n < |ds| {
      LegitPrefix(key, ds[..|ds| - 1], n);
      assert ds[..|ds| - 1][..n] == ds[..n];
    } else {
      assert ds[..n] == ds;
    }
  }
}
