/** Revisioned entities with compare-and-swap writes (adapters/sqlite_stores.py,
    _put_entity, _delete_entity). A revision counts the writes since the entity
    was last deleted, so it restarts after a delete. */
module EntityStore {
  import opened Outcomes

  datatype EntityKey = EntityKey(collection: Id, entity: Id)

  datatype EntityRow = EntityRow(revision: nat, value: string)

  type EntityRows = map<EntityKey, EntityRow>

  function RevisionOf(rows: EntityRows, key: EntityKey): nat {
    if key in rows then rows[key].revision else 0
  }

  datatype EntityOp =
    | Put(key: EntityKey, value: string, expected: Option<int>)
    | Delete(key: EntityKey, expected: Option<int>)

  /** The write is refused exactly when it names another revision. */
  predicate Conflicts(rows: EntityRows, key: EntityKey, expected: Option<int>) {
    expected.Some? && expected.value != RevisionOf(rows, key)
  }

  function PutEntity(rows: EntityRows, key: EntityKey, value: string, expected: Option<int>): Result<(EntityRows, nat)> {
    var actual := RevisionOf(rows, key);
    if Conflicts(rows, key, expected) then Err
    else Ok((rows[key := EntityRow(actual + 1, value)], actual + 1))
  }

  function DeleteEntity(rows: EntityRows, key: EntityKey, expected: Option<int>): Result<EntityRows> {
    if Conflicts(rows, key, expected) then Err else Ok(rows - {key})
  }

  /** A write that raises changes nothing. */
  function ApplyEntity(rows: EntityRows, op: EntityOp): EntityRows {
    match op
    case Put(key, value, expected) =>
      (match PutEntity(rows, key, value, expected) case Err => rows case Ok((rows', _)) => rows')
    case Delete(key, expected) =>
      match DeleteEntity(rows, key, expected) case Err => rows case Ok(rows') => rows'
  }

  class EntityTable {
    var rows: EntityRows

    constructor ()
      ensures rows == map[]
    {
      rows := map[];
    }

    method PutRow(key: EntityKey, value: string, expected: Option<int>) returns (r: Result<nat>)
      modifies this
      ensures rows == ApplyEntity(old(rows), Put(key, value, expected))
      ensures r.Err? <==> Conflicts(old(rows), key, expected)
      ensures r.Ok? ==> r.value == RevisionOf(rows, key) == RevisionOf(old(rows), key) + 1
    {
      var actual := RevisionOf(rows, key);
      if expected.Some? && expected.value != actual { return Err; }
      var revision := actual + 1;
      rows := rows[key := EntityRow(revision, value)];
      r := Ok(revision);
    }

    method DeleteRow(key: EntityKey, expected: Option<int>) returns (ok: bool)
      modifies this
      ensures rows == ApplyEntity(old(rows), Delete(key, expected))
      ensures ok <==> !Conflicts(old(rows), key, expected)
    {
      var actual := RevisionOf(rows, key);
      if expected.Some? && expected.value != actual { return false; }
      if key in rows { rows := rows - {key}; }
      ok := true;
      assert rows == old(rows) - {key};
    }
  }

  // ---------------------------------------------------------------- histories

  function RunEntities(rows: EntityRows, ops: seq<EntityOp>): EntityRows {
    if ops == [] then rows else ApplyEntity(RunEntities(rows, ops[..|ops| - 1]), ops[|ops| - 1])
  }

  /** The values accepted for a key since its last accepted delete, in order. */
  function AcceptedValues(ops: seq<EntityOp>, key: EntityKey): seq<string> {
    if ops == [] then []
    else
      var earlier := AcceptedValues(ops[..|ops| - 1], key);
      var last := ops[|ops| - 1];
      if last.key != key || Conflicts(RunEntities(map[], ops[..|ops| - 1]), key, last.expected) then earlier
      else if last.Put? then earlier + [last.value]
      else []
  }

  /** An entity is its accepted writes: it exists when there is one, its
      revision counts them and its value is the last of them. Hence, between
      deletes, revision r names the r-th accepted value for good, and a
      compare-and-swap write that was accepted is never lost. */
  lemma {:induction false} EntityIsItsWrites(ops: seq<EntityOp>, key: EntityKey)
    ensures
      var rows, values := RunEntities(map[], ops), AcceptedValues(ops, key);
      && (key in rows <==> values != [])
      && RevisionOf(rows, key) == |values|
      && (key in rows ==> rows[key].value == values[|values| - 1])
  {
    if ops != [] {
      var before := ops[..|ops| - 1];
      EntityIsItsWrites(before, key);
      var last := ops[|ops| - 1];
      assert RunEntities(map[], ops) == ApplyEntity(RunEntities(map[], before), last);
    }
  }

  ghost predicate DeletesNothing(ops: seq<EntityOp>, key: EntityKey) {
    forall op :: op in ops ==> op.Put? || op.key != key
  }

  /** Without a delete of the key, later histories only append to its values. */
  lemma {:induction false} ValuesOnlyAppended(ops: seq<EntityOp>, more: seq<EntityOp>, key: EntityKey)
    requires DeletesNothing(more, key)
    ensures AcceptedValues(ops, key) <= AcceptedValues(ops + more, key)
  {
    if more == [] {
      assert ops + more == ops;
    } else {
      var n := |more| - 1;
      assert (ops + more)[..|ops + more| - 1] == ops + more[..n];
      ValuesOnlyAppended(ops, more[..n], key);
      assert more[n] in more;
    }
  }

  /** Two compare-and-swap writes that name the same revision, with no delete
      between them, are never both accepted. */
  lemma {:induction false} NoLostUpdate(
    ops: seq<EntityOp>, key: EntityKey, value: string, revision: int, more: seq<EntityOp>, other: string)
    requires DeletesNothing(more, key)
    requires PutEntity(RunEntities(map[], ops), key, value, Some(revision)).Ok?
    ensures
      var rows := RunEntities(map[], ops + [Put(key, value, Some(revision))] + more);
      && PutEntity(rows, key, other, Some(revision)).Err?
      && RevisionOf(rows, key) > revision
  {
    var first := ops + [Put(key, value, Some(revision))];
    assert first[..|first| - 1] == ops;
    EntityIsItsWrites(ops, key);
    ValuesOnlyAppended(first, more, key);
    EntityIsItsWrites(first + more, key);
    assert AcceptedValues(first, key) == AcceptedValues(ops, key) + [value];
  }

  /** Equal revisions of one entity, with no delete between them, mean equal values. */
  lemma {:induction false} RevisionNamesOneValue(ops: seq<EntityOp>, more: seq<EntityOp>, key: EntityKey)
    requires DeletesNothing(more, key)
    requires key in RunEntities(map[], ops)
    requires RevisionOf(RunEntities(map[], ops + more), key) == RevisionOf(RunEntities(map[], ops), key)
    ensures key in RunEntities(map[], ops + more)
    ensures RunEntities(map[], ops + more)[key] == RunEntities(map[], ops)[key]
  {
    EntityIsItsWrites(ops, key);
    EntityIsItsWrites(ops + more, key);
    ValuesOnlyAppended(ops, more, key);
  }

  /** A delete lets a revision name a second value. */
  lemma RevisionsRestartAfterDelete(key: EntityKey)
    ensures
      var first := [Put(key, "a", Some(0))];
      var again := first + [Delete(key, Some(1)), Put(key, "b", Some(0))];
      && RunEntities(map[], first) == map[key := EntityRow(1, "a")]
      && RunEntities(map[], again) == map[key := EntityRow(1, "b")]
  {
    var first := [Put(key, "a", Some(0))];
    var deleted := first + [Delete(key, Some(1))];
    var again := first + [Delete(key, Some(1)), Put(key, "b", Some(0))];
    assert first[..0] == [];
    assert RunEntities(map[], first) == map[key := EntityRow(1, "a")];
    assert deleted[..1] == first && again[..2] == deleted;
    assert RunEntities(map[], deleted) == map[];
  }
}
