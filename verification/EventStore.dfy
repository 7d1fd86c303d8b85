/** The append-only event log (adapters/sqlite_stores.py, _append_events,
    _read_events): compare-and-swap on the stream's latest sequence, idempotent
    replay, and a terminal event that closes its stream. */
module EventStore {
  import opened Outcomes

  datatype NewEvent = NewEvent(id: Id, eventType: string, payload: string, occurredAt: int, terminal: bool, key: Id)

  datatype StoredEvent = StoredEvent(stream: Id, sequence: nat, event: NewEvent)

  datatype StreamRow = StreamRow(latest: nat, terminal: Option<nat>)

  /** The two tables: event rows in insertion order, and one row per stream. */
  datatype EventTables = EventTables(rows: seq<StoredEvent>, streams: map<Id, StreamRow>)

  datatype AppendError = InvalidArgument | IdempotencyConflict | EventIdConflict | SequenceConflict | TerminalConflict

  datatype AppendResult = Appended(events: seq<StoredEvent>) | Refused(error: AppendError)

  // ---------------------------------------------------------------- queries

  /** The events of one stream, in insertion order. */
  function StreamOf(rows: seq<StoredEvent>, stream: Id): seq<StoredEvent> {
    if rows == [] then []
    else
      var last := rows[|rows| - 1];
      StreamOf(rows[..|rows| - 1], stream) + if last.stream == stream then [last] else []
  }

  function FindKey(rows: seq<StoredEvent>, stream: Id, key: Id): (r: Option<StoredEvent>)
    ensures r.Some? ==> r.value in rows && r.value.stream == stream && r.value.event.key == key
    ensures r.None? ==> forall x :: x in rows ==> x.stream != stream || x.event.key != key
  {
    if rows == [] then None
    else
      var earlier := FindKey(rows[..|rows| - 1], stream, key);
      var last := rows[|rows| - 1];
      if earlier.Some? then earlier
      else if last.stream == stream && last.event.key == key then Some(last) else None
  }

  predicate HasEventId(rows: seq<StoredEvent>, id: Id) {
    exists x :: x in rows && x.event.id == id
  }

  function RowOf(t: EventTables, stream: Id): StreamRow {
    if stream in t.streams then t.streams[stream] else StreamRow(0, None)
  }

  predicate DistinctKeys(batch: seq<NewEvent>) {
    forall i, j :: 0 <= i < j < |batch| ==> batch[i].key != batch[j].key
  }

  predicate DistinctEventIds(batch: seq<NewEvent>) {
    forall i, j :: 0 <= i < j < |batch| ==> batch[i].id != batch[j].id
  }

  predicate AnyReplayed(rows: seq<StoredEvent>, stream: Id, batch: seq<NewEvent>) {
    exists i :: 0 <= i < |batch| && FindKey(rows, stream, batch[i].key).Some?
  }

  /** Every event of the batch is stored in the stream exactly as given. */
  predicate FullyReplayed(rows: seq<StoredEvent>, stream: Id, batch: seq<NewEvent>) {
    forall i :: 0 <= i < |batch| ==>
      FindKey(rows, stream, batch[i].key).Some? && FindKey(rows, stream, batch[i].key).value.event == batch[i]
  }

  function Replayed(rows: seq<StoredEvent>, stream: Id, batch: seq<NewEvent>): seq<StoredEvent>
    requires FullyReplayed(rows, stream, batch)
  {
    seq(|batch|, i requires 0 <= i < |batch| => FindKey(rows, stream, batch[i].key).value)
  }

  predicate TerminalOnlyLast(batch: seq<NewEvent>) {
    forall i :: 0 <= i < |batch| - 1 ==> !batch[i].terminal
  }

  function Stored(stream: Id, from: nat, batch: seq<NewEvent>): seq<StoredEvent> {
    seq(|batch|, i requires 0 <= i < |batch| => StoredEvent(stream, from + 1 + i, batch[i]))
  }

  // ---------------------------------------------------------------- the specification of an append

  /** Why an append of new events is refused, in the order of the checks. */
  function Refusal(t: EventTables, stream: Id, expected: nat, batch: seq<NewEvent>): Option<AppendError> {
    if exists i :: 0 <= i < |batch| && HasEventId(t.rows, batch[i].id) then Some(EventIdConflict)
    else if RowOf(t, stream).latest != expected then Some(SequenceConflict)
    else if RowOf(t, stream).terminal.Some? then Some(TerminalConflict)
    else if !TerminalOnlyLast(batch) then Some(TerminalConflict)
    else None
  }

  function Inserted(t: EventTables, stream: Id, batch: seq<NewEvent>): EventTables
    requires batch != []
  {
    var latest := RowOf(t, stream).latest;
    EventTables(t.rows + Stored(stream, latest, batch), t.streams[stream := NextRow(RowOf(t, stream), batch)])
  }

  function Append(t: EventTables, stream: Id, expected: int, batch: seq<NewEvent>): (EventTables, AppendResult) {
    if expected < 0 || stream.text == "" then (t, Refused(InvalidArgument))
    else if batch == [] then (t, Appended([]))
    else if !DistinctKeys(batch) then (t, Refused(IdempotencyConflict))
    else if !DistinctEventIds(batch) then (t, Refused(EventIdConflict))
    else if AnyReplayed(t.rows, stream, batch) then
      if FullyReplayed(t.rows, stream, batch) then (t, Appended(Replayed(t.rows, stream, batch)))
      else (t, Refused(IdempotencyConflict))
    else
      match Refusal(t, stream, expected, batch)
      case Some(error) => (t, Refused(error))
      case None => (Inserted(t, stream, batch), Appended(Stored(stream, expected, batch)))
  }

  /** The events after a cursor, at most `limit` of them. */
  function Read(t: EventTables, stream: Id, after: nat, limit: Option<nat>): seq<StoredEvent> {
    var later := After(StreamOf(t.rows, stream), after);
    if limit.Some? && limit.value < |later| then later[..limit.value] else later
  }

  function After(rows: seq<StoredEvent>, after: nat): seq<StoredEvent> {
    if rows == [] then []
    else
      var last := rows[|rows| - 1];
      After(rows[..|rows| - 1], after) + if last.sequence > after then [last] else []
  }

  // ---------------------------------------------------------------- the store

  class EventTable {
    var rows: seq<StoredEvent>
    var streams: map<Id, StreamRow>

    constructor ()
      ensures Tables() == EMPTY
    {
      rows, streams := [], map[];
    }

    function Tables(): EventTables
      reads this
    {
      EventTables(rows, streams)
    }

    method AppendEvents(stream: Id, expected: int, batch: seq<NewEvent>) returns (r: AppendResult)
      modifies this
      ensures (Tables(), r) == Append(old(Tables()), stream, expected, batch)
    {
      if expected < 0 || stream.text == "" { return Refused(InvalidArgument); }
      if batch == [] { return Appended([]); }
      if !DistinctKeys(batch) { return Refused(IdempotencyConflict); }
      if !DistinctEventIds(batch) { return Refused(EventIdConflict); }

      var found, replayed := LookUp(stream, batch);
      if found > 0 {
        if found != |batch| { return Refused(IdempotencyConflict); }
        var same := AllSame(replayed, batch);
        if !same { return Refused(IdempotencyConflict); }
        assert replayed == Replayed(rows, stream, batch);
        return Appended(replayed);
      }

      for i := 0 to |batch|
        invariant forall k :: 0 <= k < i ==> !HasEventId(rows, batch[k].id)
        invariant unchanged(this)
      {
        if HasEventId(rows, batch[i].id) { return Refused(EventIdConflict); }
      }
      var row := RowOf(Tables(), stream);
      if row.latest != expected { return Refused(SequenceConflict); }
      if row.terminal.Some? { return Refused(TerminalConflict); }
      if !TerminalOnlyLast(batch) { return Refused(TerminalConflict); }
      r := Insert(stream, row.latest, batch);
    }

    /** The stored rows of the batch's idempotency keys. */
    method LookUp(stream: Id, batch: seq<NewEvent>) returns (found: nat, replayed: seq<StoredEvent>)
      ensures found > 0 <==> AnyReplayed(rows, stream, batch)
      ensures found == |batch| <==> forall k :: 0 <= k < |batch| ==> FindKey(rows, stream, batch[k].key).Some?
      ensures found == |batch| ==> |replayed| == |batch|
      ensures found == |batch| ==>
                forall k :: 0 <= k < |batch| ==> Some(replayed[k]) == FindKey(rows, stream, batch[k].key)
    {
      replayed, found := [], 0;
      for i := 0 to |batch|
        invariant found <= i
        invariant found > 0 <==> exists k :: 0 <= k < i && FindKey(rows, stream, batch[k].key).Some?
        invariant found == i <==> forall k :: 0 <= k < i ==> FindKey(rows, stream, batch[k].key).Some?
        invariant found == i ==> |replayed| == i
        invariant found == i ==> forall k :: 0 <= k < i ==> Some(replayed[k]) == FindKey(rows, stream, batch[k].key)
      {
        var row := FindKey(rows, stream, batch[i].key);
        if row.Some? { replayed, found := replayed + [row.value], found + 1; }
      }
    }

    /** Inserts the rows one by one and moves the stream's row last. */
    method Insert(stream: Id, latest: nat, batch: seq<NewEvent>) returns (r: AppendResult)
      requires batch != [] && latest == RowOf(Tables(), stream).latest
      modifies this
      ensures Tables() == Inserted(old(Tables()), stream, batch)
      ensures r == Appended(Stored(stream, latest, batch))
    {
      if stream !in streams { streams := streams[stream := StreamRow(0, None)]; }
      ghost var before := streams;
      var appended := [];
      for i := 0 to |batch|
        invariant appended == Stored(stream, latest, batch)[..i]
        invariant rows == old(rows) + appended
        invariant streams == before
      {
        var stored := StoredEvent(stream, latest + 1 + i, batch[i]);
        rows := rows + [stored];
        appended := appended + [stored];
      }
      var sequence := latest + |appended|;
      var terminal := if batch[|batch| - 1].terminal then Some(sequence) else None;
      streams := streams[stream := StreamRow(sequence, terminal)];
      r := Appended(appended);
    }

    method ReadEvents(stream: Id, after: int, limit: Option<int>) returns (r: Result<seq<StoredEvent>>)
      ensures r.Err? <==> after < 0 || (limit.Some? && limit.value < 0)
      ensures r.Ok? ==>
        r.value == Read(Tables(), stream, after, if limit.Some? then Some(limit.value as nat) else None)
    {
      if after < 0 || (limit.Some? && limit.value < 0) { return Err; }
      r := Ok(Read(Tables(), stream, after, if limit.Some? then Some(limit.value as nat) else None));
    }
  }

  method AllSame(stored: seq<StoredEvent>, batch: seq<NewEvent>) returns (same: bool)
    requires |stored| == |batch|
    ensures same <==> forall k :: 0 <= k < |batch| ==> stored[k].event == batch[k]
  {
    for i := 0 to |batch|
      invariant forall k :: 0 <= k < i ==> stored[k].event == batch[k]
    {
      if stored[i].event != batch[i] { return false; }
    }
    same := true;
  }

  // ---------------------------------------------------------------- what every history keeps

  const EMPTY: EventTables := EventTables([], map[])

  /** One stream: numbered from one without a gap, closed by at most one
      terminal event, which is the last. */
  ghost predicate StreamSound(t: EventTables, stream: Id) {
    RowMatches(StreamOf(t.rows, stream), RowOf(t, stream))
  }

  ghost predicate RowMatches(events: seq<StoredEvent>, row: StreamRow) {
    && |events| == row.latest
    && (forall i :: 0 <= i < |events| ==> events[i].sequence == i + 1)
    && (forall i :: 0 <= i < |events| ==> (events[i].event.terminal <==> row.terminal == Some(i + 1)))
    && (row.terminal.Some? ==> row.terminal.value == row.latest > 0)
  }

  ghost predicate UniqueIds(rows: seq<StoredEvent>) {
    forall i, j :: 0 <= i < j < |rows| ==> rows[i].event.id != rows[j].event.id
  }

  ghost predicate UniqueKeys(rows: seq<StoredEvent>) {
    forall i, j :: 0 <= i < j < |rows| && rows[i].stream == rows[j].stream ==> rows[i].event.key != rows[j].event.key
  }

  ghost predicate Sound(t: EventTables) {
    (forall stream :: StreamSound(t, stream)) && UniqueIds(t.rows) && UniqueKeys(t.rows)
  }

  lemma {:induction false} StreamOfAppend(rows: seq<StoredEvent>, more: seq<StoredEvent>, stream: Id)
    ensures StreamOf(rows + more, stream) == StreamOf(rows, stream) + StreamOf(more, stream)
  {
    if more == [] {
      assert rows + more == rows;
    } else {
      var n := |more| - 1;
      assert (rows + more)[..|rows + more| - 1] == rows + more[..n];
      StreamOfAppend(rows, more[..n], stream);
    }
  }

  lemma {:induction false} StreamOfStored(stream: Id, from: nat, batch: seq<NewEvent>, other: Id)
    ensures StreamOf(Stored(stream, from, batch), other) == if other == stream then Stored(stream, from, batch) else []
  {
    if batch != [] {
      var n := |batch| - 1;
      assert Stored(stream, from, batch)[..n] == Stored(stream, from, batch[..n]);
      StreamOfStored(stream, from, batch[..n], other);
    }
  }

  /** The stream's row after a batch was added to it. */
  function NextRow(row: StreamRow, batch: seq<NewEvent>): StreamRow
    requires batch != []
  {
    StreamRow(row.latest + |batch|, if batch[|batch| - 1].terminal then Some(row.latest + |batch|) else None)
  }

  lemma ExtendRow(stream: Id, events: seq<StoredEvent>, row: StreamRow, batch: seq<NewEvent>)
    requires RowMatches(events, row) && row.terminal.None? && batch != [] && TerminalOnlyLast(batch)
    ensures RowMatches(events + Stored(stream, row.latest, batch), NextRow(row, batch))
  {
    var longer := events + Stored(stream, row.latest, batch);
    var next := NextRow(row, batch);
    forall i | 0 <= i < |longer|
      ensures longer[i].sequence == i + 1 && (longer[i].event.terminal <==> next.terminal == Some(i + 1))
    {
      if i < row.latest {
        assert longer[i] == events[i];
      } else {
        assert longer[i] == StoredEvent(stream, i + 1, batch[i - row.latest]);
      }
    }
  }

  lemma InsertStreams(t: EventTables, stream: Id, batch: seq<NewEvent>, other: Id)
    requires Sound(t) && batch != [] && RowOf(t, stream).terminal.None? && TerminalOnlyLast(batch)
    ensures StreamSound(Inserted(t, stream, batch), other)
  {
    var latest := RowOf(t, stream).latest;
    StreamOfAppend(t.rows, Stored(stream, latest, batch), other);
    StreamOfStored(stream, latest, batch, other);
    assert StreamSound(t, other);
    if other == stream {
      ExtendRow(stream, StreamOf(t.rows, stream), RowOf(t, stream), batch);
    } else {
      assert RowOf(Inserted(t, stream, batch), other) == RowOf(t, other);
    }
  }

  lemma InsertIds(rows: seq<StoredEvent>, stream: Id, from: nat, batch: seq<NewEvent>)
    requires UniqueIds(rows) && DistinctEventIds(batch)
    requires forall i :: 0 <= i < |batch| ==> !HasEventId(rows, batch[i].id)
    ensures UniqueIds(rows + Stored(stream, from, batch))
  {
    var after := rows + Stored(stream, from, batch);
    forall i, j | 0 <= i < j < |after| ensures after[i].event.id != after[j].event.id {
      if i < |rows| <= j {
        assert !HasEventId(rows, batch[j - |rows|].id);
        assert rows[i] in rows;
      }
    }
  }

  lemma InsertKeys(rows: seq<StoredEvent>, stream: Id, from: nat, batch: seq<NewEvent>)
    requires UniqueKeys(rows) && DistinctKeys(batch)
    requires forall i :: 0 <= i < |batch| ==> FindKey(rows, stream, batch[i].key).None?
    ensures UniqueKeys(rows + Stored(stream, from, batch))
  {
    var after := rows + Stored(stream, from, batch);
    forall i, j | 0 <= i < j < |after| && after[i].stream == after[j].stream
      ensures after[i].event.key != after[j].event.key
    {
      if i < |rows| <= j {
        assert FindKey(rows, stream, batch[j - |rows|].key).None?;
        assert rows[i] in rows;
      }
    }
  }

  lemma {:induction false} AppendSound(t: EventTables, stream: Id, expected: int, batch: seq<NewEvent>)
    requires Sound(t)
    ensures Sound(Append(t, stream, expected, batch).0)
  {
    var t' := Append(t, stream, expected, batch).0;
    if t' != t {
      forall other ensures StreamSound(t', other) { InsertStreams(t, stream, batch, other); }
      InsertIds(t.rows, stream, expected, batch);
      InsertKeys(t.rows, stream, expected, batch);
    }
  }

  datatype Request = Request(stream: Id, expected: int, batch: seq<NewEvent>)

  function RunAppends(t: EventTables, requests: seq<Request>): EventTables {
    if requests == [] then t
    else
      var last := requests[|requests| - 1];
      Append(RunAppends(t, requests[..|requests| - 1]), last.stream, last.expected, last.batch).0
  }

  /** Every history of appends keeps the store sound. */
  lemma {:induction false} HistorySound(requests: seq<Request>)
    ensures Sound(RunAppends(EMPTY, requests))
  {
    if requests != [] {
      var n := |requests| - 1;
      HistorySound(requests[..n]);
      AppendSound(RunAppends(EMPTY, requests[..n]), requests[n].stream, requests[n].expected, requests[n].batch);
    }
  }

  /** Rows are only ever added at the end. */
  lemma {:induction false} HistoryGrows(t: EventTables, requests: seq<Request>)
    ensures t.rows <= RunAppends(t, requests).rows
  {
    if requests != [] { HistoryGrows(t, requests[..|requests| - 1]); }
  }

  /** A refused append changes nothing. */
  lemma RefusalChangesNothing(t: EventTables, stream: Id, expected: int, batch: seq<NewEvent>)
    requires Append(t, stream, expected, batch).1.Refused?
    ensures Append(t, stream, expected, batch).0 == t
  {
  }

  lemma {:induction false} FindUnique(rows: seq<StoredEvent>, x: StoredEvent)
    requires UniqueKeys(rows) && x in rows
    ensures FindKey(rows, x.stream, x.event.key) == Some(x)
  {
    var found := FindKey(rows, x.stream, x.event.key);
    var i :| 0 <= i < |rows| && rows[i] == x;
    var j :| 0 <= j < |rows| && rows[j] == found.value;
    if i != j {
      if i < j { assert rows[i].event.key != rows[j].event.key; } else { assert rows[j].event.key != rows[i].event.key; }
    }
  }

  lemma StoredReplays(rows: seq<StoredEvent>, stream: Id, batch: seq<NewEvent>, stored: seq<StoredEvent>)
    requires UniqueKeys(rows) && |stored| == |batch|
    requires forall i :: 0 <= i < |batch| ==>
      stored[i] in rows && stored[i].stream == stream && stored[i].event == batch[i]
    ensures FullyReplayed(rows, stream, batch) && Replayed(rows, stream, batch) == stored
  {
    forall i | 0 <= i < |batch| ensures FindKey(rows, stream, batch[i].key) == Some(stored[i]) {
      FindUnique(rows, stored[i]);
    }
  }

  /** What an accepted append returned is stored. */
  lemma AcceptedIsStored(t: EventTables, stream: Id, expected: int, batch: seq<NewEvent>)
    requires Append(t, stream, expected, batch).1.Appended?
    ensures
      var (t', r) := Append(t, stream, expected, batch);
      && |r.events| == |batch| && DistinctKeys(batch) && DistinctEventIds(batch)
      && forall i :: 0 <= i < |batch| ==>
           r.events[i] in t'.rows && r.events[i].stream == stream && r.events[i].event == batch[i]
  {
    var (t', r) := Append(t, stream, expected, batch);
    if t' != t {
      forall i | 0 <= i < |batch| ensures r.events[i] in t'.rows { assert t'.rows[|t.rows| + i] == r.events[i]; }
    }
  }

  /** Appending a stored batch again, after any history and with any
      non-negative expected sequence, returns the stored events and changes
      nothing: also when the stream has terminated meanwhile. */
  lemma {:induction false} ReplayReturnsStored(
    before: seq<Request>, stream: Id, expected: int, batch: seq<NewEvent>, later: seq<Request>, again: nat)
    requires Append(RunAppends(EMPTY, before), stream, expected, batch).1.Appended?
    ensures
      var (t, r) := Append(RunAppends(EMPTY, before), stream, expected, batch);
      var t' := RunAppends(t, later);
      Append(t', stream, again, batch) == (t', r)
  {
    var (t, r) := Append(RunAppends(EMPTY, before), stream, expected, batch);
    var t' := RunAppends(t, later);
    AcceptedIsStored(RunAppends(EMPTY, before), stream, expected, batch);
    HistoryGrows(t, later);
    HistorySound(before);
    AppendSound(RunAppends(EMPTY, before), stream, expected, batch);
    LaterSound(t, later);
    if batch != [] {
      forall i | 0 <= i < |batch| ensures r.events[i] in t'.rows {
        var k :| 0 <= k < |t.rows| && t.rows[k] == r.events[i];
        assert t'.rows[k] == r.events[i];
      }
      StoredReplays(t'.rows, stream, batch, r.events);
      assert FindKey(t'.rows, stream, batch[0].key).Some?;
    }
  }

  lemma {:induction false} LaterSound(t: EventTables, requests: seq<Request>)
    requires Sound(t)
    ensures Sound(RunAppends(t, requests))
  {
    if requests != [] {
      var n := |requests| - 1;
      LaterSound(t, requests[..n]);
      AppendSound(RunAppends(t, requests[..n]), requests[n].stream, requests[n].expected, requests[n].batch);
    }
  }

  // ---------------------------------------------------------------- paging

  lemma SuffixGrows(rows: seq<StoredEvent>, after: nat)
    requires after < |rows| - 1
    ensures rows[..|rows| - 1][after..] + [rows[|rows| - 1]] == rows[after..]
  {
  }

  lemma {:induction false} AfterIsSuffix(rows: seq<StoredEvent>, after: nat)
    requires forall i :: 0 <= i < |rows| ==> rows[i].sequence == i + 1
    ensures After(rows, after) == if after < |rows| then rows[after..] else []
  {
    if rows != [] {
      var n := |rows| - 1;
      AfterIsSuffix(rows[..n], after);
      assert rows[n].sequence == n + 1;
      if after < n { SuffixGrows(rows, after); }
      if after == n { assert rows[n..] == [rows[n]]; }
    }
  }

  /** Reads page after page until one comes back short. The cursor after a full
      page is the sequence of its last event (PageIsSlice). */
  function ReadPages(t: EventTables, stream: Id, after: nat, size: nat): seq<StoredEvent>
    requires size > 0
    decreases RowOf(t, stream).latest - after
  {
    var page := Read(t, stream, after, Some(size));
    if |page| < size || after >= RowOf(t, stream).latest then page
    else page + ReadPages(t, stream, after + size, size)
  }

  /** A page is the slice of the stream after its cursor. */
  lemma PageIsSlice(t: EventTables, stream: Id, after: nat, size: nat)
    requires Sound(t) && after <= |StreamOf(t.rows, stream)|
    ensures
      var events := StreamOf(t.rows, stream);
      var end := if after + size < |events| then after + size else |events|;
      Read(t, stream, after, Some(size)) == events[after..end]
  {
    assert StreamSound(t, stream);
    AfterIsSuffix(StreamOf(t.rows, stream), after);
  }

  /** Paged reads concatenate to the stream, for every page size. */
  lemma {:induction false} PagesConcatenate(t: EventTables, stream: Id, after: nat, size: nat)
    requires Sound(t) && size > 0 && after <= |StreamOf(t.rows, stream)|
    ensures ReadPages(t, stream, after, size) == StreamOf(t.rows, stream)[after..]
    decreases |StreamOf(t.rows, stream)| - after
  {
    var events := StreamOf(t.rows, stream);
    assert StreamSound(t, stream);
    PageIsSlice(t, stream, after, size);
    if after + size <= |events| && after < |events| {
      PagesConcatenate(t, stream, after + size, size);
      assert events[after..] == events[after..after + size] + events[after + size..];
    }
  }
}
