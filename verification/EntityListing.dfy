/** Listing the entities of a collection page by page (adapters/sqlite_stores.py,
    _list_entities), and a scan of the whole collection by such pages while
    other writers change it (runtime/session_service.py, _scan_entities). */
module EntityListing {
  import opened Outcomes
  import opened Sorting
  import opened EntityStore

  datatype EntityRecord = EntityRecord(entity: Id, revision: nat, value: string)

  /** Identifiers are listed by their code points, which is the byte order of
      their UTF-8 form. */
  predicate IdLess(a: Id, b: Id) {
    TextLess(a.text, b.text)
  }

  lemma IdLessOrder(a: Id, b: Id, c: Id)
    ensures IdLess(a, b) && IdLess(b, c) ==> IdLess(a, c)
    ensures !(IdLess(a, b) && IdLess(b, a)) && (IdLess(a, b) || IdLess(b, a) || a == b)
  {
    TextLessOrder(a.text, b.text, c.text);
  }

  // ---------------------------------------------------------------- one page

  predicate IsBeyond(after: Option<Id>, id: Id) {
    after.None? || IdLess(after.value, id)
  }

  /** The identifiers of a collection behind a cursor. */
  function Beyond(rows: EntityRows, collection: Id, after: Option<Id>): set<Id> {
    set key | key in rows && key.collection == collection && IsBeyond(after, key.entity) :: key.entity
  }

  lemma BeyondHas(rows: EntityRows, collection: Id, after: Option<Id>, id: Id)
    ensures id in Beyond(rows, collection, after) <==> EntityKey(collection, id) in rows && IsBeyond(after, id)
  {
    if EntityKey(collection, id) in rows && IsBeyond(after, id) {
      assert EntityKey(collection, id).entity in Beyond(rows, collection, after);
    }
  }

  predicate IsLeast(x: Id, ids: set<Id>) {
    x in ids && forall y :: y in ids && y != x ==> IdLess(x, y)
  }

  lemma {:induction false} LeastExists(ids: set<Id>)
    requires ids != {}
    ensures exists x :: IsLeast(x, ids)
  {
    var x :| x in ids;
    var rest := ids - {x};
    if rest == {} {
      assert ids == {x};
      assert IsLeast(x, ids);
    } else {
      LeastExists(rest);
      var y :| IsLeast(y, rest);
      var least := if IdLess(x, y) then x else y;
      forall z | z in ids && z != least ensures IdLess(least, z) {
        IdLessOrder(x, y, z);
        IdLessOrder(y, x, z);
      }
      assert IsLeast(least, ids);
    }
  }

  lemma LeastIsOne(ids: set<Id>)
    ensures forall x, y :: IsLeast(x, ids) && IsLeast(y, ids) ==> x == y
  {
    forall x, y | IsLeast(x, ids) && IsLeast(y, ids) ensures x == y {
      IdLessOrder(x, y, x);
    }
  }

  /** The identifiers in ascending order. */
  function Ascending(ids: set<Id>): (r: seq<Id>)
    ensures forall x :: x in r <==> x in ids
    ensures forall i, j :: 0 <= i < j < |r| ==> IdLess(r[i], r[j])
  {
    if ids == {} then []
    else
      LeastExists(ids);
      LeastIsOne(ids);
      var x :| IsLeast(x, ids);
      [x] + Ascending(ids - {x})
  }

  function RecordOf(rows: EntityRows, collection: Id, id: Id): EntityRecord {
    var key := EntityKey(collection, id);
    EntityRecord(id, RevisionOf(rows, key), if key in rows then rows[key].value else "")
  }

  /** The first `limit` entities behind the cursor. */
  function Page(rows: EntityRows, collection: Id, after: Option<Id>, limit: nat): seq<EntityRecord> {
    var ids := Ascending(Beyond(rows, collection, after));
    seq(if limit < |ids| then limit else |ids|, i requires 0 <= i < |ids| => RecordOf(rows, collection, ids[i]))
  }

  function ListEntities(rows: EntityRows, collection: Id, after: Option<Id>, limit: int): Result<seq<EntityRecord>> {
    if limit < 1 || limit > 1000 then Err else Ok(Page(rows, collection, after, limit))
  }

  /** Strictly ascending, hence without repetition. */
  predicate Rising(records: seq<EntityRecord>) {
    forall i, j :: 0 <= i < j < |records| ==> IdLess(records[i].entity, records[j].entity)
  }

  predicate Lists(records: seq<EntityRecord>, id: Id) {
    exists r :: r in records && r.entity == id
  }

  /** What a page holds are rows of the collection behind the cursor. */
  predicate Holds(rows: EntityRows, collection: Id, after: Option<Id>, record: EntityRecord) {
    && EntityKey(collection, record.entity) in rows && IsBeyond(after, record.entity)
    && record == RecordOf(rows, collection, record.entity)
  }

  /** A page ascends, holds rows of the collection behind the cursor, and
      leaves out only what comes behind its own last identifier, if it is full. */
  lemma PageIsNext(rows: EntityRows, collection: Id, after: Option<Id>, limit: nat, id: Id)
    requires limit > 0
    ensures
      var page := Page(rows, collection, after, limit);
      && |page| <= limit && Rising(page) && (forall r :: r in page ==> Holds(rows, collection, after, r))
      && (id in Beyond(rows, collection, after) && !Lists(page, id) ==>
            |page| == limit && IdLess(page[|page| - 1].entity, id))
  {
    var ids := Ascending(Beyond(rows, collection, after));
    var page := Page(rows, collection, after, limit);
    forall r | r in page ensures Holds(rows, collection, after, r) {
      var i :| 0 <= i < |page| && page[i] == r;
      assert ids[i] in ids;
      BeyondHas(rows, collection, after, ids[i]);
    }
    if id in Beyond(rows, collection, after) {
      assert id in ids;
      var j :| 0 <= j < |ids| && ids[j] == id;
      if j < |page| { assert page[j] in page; }
    }
  }

  // ---------------------------------------------------------------- scanning a changing collection

  const SCAN_PAGE: nat := 500
  const MAX_SCAN_RECORDS: nat := 100000

  datatype ScanEnd = Scanned(records: seq<EntityRecord>) | NotStable | NotAdvancing | Repeated | TooMany

  /** Each record was a row of the collection when one of the pages was read. */
  ghost predicate Seen(tables: nat -> EntityRows, collection: Id, records: seq<EntityRecord>) {
    forall r :: r in records ==> SeenAt(tables, collection, r)
  }

  ghost predicate SeenAt(tables: nat -> EntityRows, collection: Id, r: EntityRecord) {
    exists n :: Holds(tables(n), collection, None, r)
  }

  /** The entity is there whenever a page is read. */
  ghost predicate Throughout(tables: nat -> EntityRows, collection: Id, id: Id) {
    forall n :: EntityKey(collection, id) in tables(n)
  }

  /** The scan so far has every lasting entity up to its cursor. */
  ghost predicate CaughtUp(tables: nat -> EntityRows, collection: Id, records: seq<EntityRecord>, after: Option<Id>) {
    forall id :: Throughout(tables, collection, id) ==> Lists(records, id) || IsBeyond(after, id)
  }

  /** The cursor is the last identifier read. */
  predicate Cursor(records: seq<EntityRecord>, after: Option<Id>) {
    after == if records == [] then None else Some(records[|records| - 1].entity)
  }

  function IdsOf(records: seq<EntityRecord>): set<Id> {
    set r | r in records :: r.entity
  }

  /** A page behind the cursor joins on: ascending, seen, and nothing repeated. */
  lemma PageJoins(
    tables: nat -> EntityRows, collection: Id, n: nat, records: seq<EntityRecord>, after: Option<Id>, page: seq<EntityRecord>)
    requires Rising(records) && Seen(tables, collection, records) && Cursor(records, after)
    requires Rising(page) && forall r :: r in page ==> Holds(tables(n), collection, after, r)
    ensures Rising(records + page) && Seen(tables, collection, records + page)
    ensures forall s :: s in page ==> s.entity !in IdsOf(records)
  {
    forall r, s | r in records && s in page ensures IdLess(r.entity, s.entity) {
      var i :| 0 <= i < |records| && records[i] == r;
      IdLessOrder(r.entity, records[|records| - 1].entity, s.entity);
    }
    forall i, j | 0 <= i < j < |records + page| ensures IdLess((records + page)[i].entity, (records + page)[j].entity) {
      if i < |records| <= j {
        assert records[i] in records && page[j - |records|] in page;
      }
    }
    forall r | r in page ensures SeenAt(tables, collection, r) && r.entity !in IdsOf(records) {
      assert Holds(tables(n), collection, None, r);
      IdLessOrder(r.entity, r.entity, r.entity);
    }
  }

  lemma PageCatchesUp(
    tables: nat -> EntityRows, collection: Id, n: nat, records: seq<EntityRecord>, after: Option<Id>)
    requires CaughtUp(tables, collection, records, after)
    ensures
      var page := Page(tables(n), collection, after, SCAN_PAGE);
      forall id :: Throughout(tables, collection, id) ==>
        Lists(records + page, id) || (|page| == SCAN_PAGE && IdLess(page[|page| - 1].entity, id))
  {
    var page := Page(tables(n), collection, after, SCAN_PAGE);
    forall id | Throughout(tables, collection, id)
      ensures Lists(records + page, id) || (|page| == SCAN_PAGE && IdLess(page[|page| - 1].entity, id))
    {
      PageIsNext(tables(n), collection, after, SCAN_PAGE, id);
      BeyondHas(tables(n), collection, after, id);
      assert Lists(records, id) || Lists(page, id) ==> Lists(records + page, id);
    }
  }

  /** What a scan answers: every lasting entity, or that there are too many. */
  ghost predicate Answers(tables: nat -> EntityRows, collection: Id, end: ScanEnd) {
    match end
    case Scanned(records) =>
      && |records| <= MAX_SCAN_RECORDS && Rising(records) && Seen(tables, collection, records)
      && forall id :: Throughout(tables, collection, id) ==> Lists(records, id)
    case TooMany =>
      exists records :: |records| > MAX_SCAN_RECORDS && Rising(records) && Seen(tables, collection, records)
    case _ => false
  }

  /** Reads the whole collection, page n from the n-th table: other writers may
      change it in between. The three checks of a page never fire, and every
      entity that lasts throughout is listed, once. */
  method ScanEntities(tables: nat -> EntityRows, collection: Id) returns (end: ScanEnd)
    ensures Answers(tables, collection, end)
  {
    var records, seen: set<Id>, after, n := [], {}, None, 0;
    while true
      invariant |records| <= MAX_SCAN_RECORDS && seen == IdsOf(records)
      invariant Rising(records) && Seen(tables, collection, records)
      invariant Cursor(records, after) && CaughtUp(tables, collection, records, after)
      decreases MAX_SCAN_RECORDS - |records|
    {
      var page := ListEntities(tables(n), collection, after, SCAN_PAGE).value;
      PageIsNext(tables(n), collection, after, SCAN_PAGE, Id(""));
      if !Rising(page) { return NotStable; }
      if after.Some? && page != [] && !IdLess(after.value, page[0].entity) { return NotAdvancing; }
      PageJoins(tables, collection, n, records, after, page);
      PageCatchesUp(tables, collection, n, records, after);
      if exists r :: r in page && r.entity in seen { return Repeated; }
      records, seen := records + page, seen + IdsOf(page);
      if |records| > MAX_SCAN_RECORDS { return TooMany; }
      if |page| < SCAN_PAGE { return Scanned(records); }
      after, n := Some(page[|page| - 1].entity), n + 1;
    }
  }

  lemma {:induction false} RisingCount(records: seq<EntityRecord>)
    requires Rising(records)
    ensures |IdsOf(records)| == |records|
  {
    if records == [] {
      assert IdsOf(records) == {};
    } else {
      var before, last := records[..|records| - 1], records[|records| - 1];
      RisingCount(before);
      forall r | r in before ensures r.entity != last.entity {
        var i :| 0 <= i < |before| && before[i] == r;
        IdLessOrder(r.entity, last.entity, r.entity);
      }
      assert records == before + [last];
      assert IdsOf(records) == IdsOf(before) + {last.entity};
    }
  }

  lemma FewerIds(a: set<Id>, b: set<Id>)
    requires a <= b
    ensures |a| <= |b|
  {
    assert b == a + (b - a);
  }

  /** Without writers the scan is exact: it gives up exactly on a collection
      beyond the limit, and otherwise lists its rows and no others. */
  lemma SteadyScan(tables: nat -> EntityRows, collection: Id, end: ScanEnd)
    requires Answers(tables, collection, end) && forall n :: tables(n) == tables(0)
    ensures end.TooMany? <==> |Beyond(tables(0), collection, None)| > MAX_SCAN_RECORDS
    ensures end.Scanned? ==> forall r :: r in end.records <==> Holds(tables(0), collection, None, r)
  {
    var all := Beyond(tables(0), collection, None);
    match end
    case Scanned(records) =>
      SeenAreRows(tables, collection, records);
      RisingCount(records);
      forall r | Holds(tables(0), collection, None, r) ensures r in records && r.entity in IdsOf(records) {
        assert Throughout(tables, collection, r.entity);
        assert Lists(records, r.entity);
      }
      forall id | id in all ensures id in IdsOf(records) {
        BeyondHas(tables(0), collection, None, id);
        assert Holds(tables(0), collection, None, RecordOf(tables(0), collection, id));
      }
      assert IdsOf(records) == all;
    case TooMany =>
      var records :| |records| > MAX_SCAN_RECORDS && Rising(records) && Seen(tables, collection, records);
      SeenAreRows(tables, collection, records);
      RisingCount(records);
      FewerIds(IdsOf(records), all);
  }

  lemma SeenAreRows(tables: nat -> EntityRows, collection: Id, records: seq<EntityRecord>)
    requires Seen(tables, collection, records) && forall n :: tables(n) == tables(0)
    ensures forall r :: r in records ==> Holds(tables(0), collection, None, r)
    ensures IdsOf(records) <= Beyond(tables(0), collection, None)
  {
    forall r | r in records
      ensures Holds(tables(0), collection, None, r) && r.entity in Beyond(tables(0), collection, None)
    {
      assert SeenAt(tables, collection, r);
      BeyondHas(tables(0), collection, None, r.entity);
    }
  }
}
