/** The three-state journal of tool invocations (adapters/sqlite_stores.py,
    _start_journal, _complete_journal, _mark_journal_unknown). */
module InvocationJournal {
  import opened Outcomes

  datatype JournalKey = JournalKey(scope: Id, idempotencyKey: Id)

  datatype JournalState = Started | Unknown | Completed

  datatype InvocationRecord = InvocationRecord(
    requestHash: Id, state: JournalState, startedAt: int, completedAt: Option<int>, result: Option<string>)

  type JournalRows = map<JournalKey, InvocationRecord>

  datatype JournalOp =
    | Start(key: JournalKey, requestHash: Id, at: int)
    | Complete(key: JournalKey, requestHash: Id, result: string, at: int)
    | MarkUnknown(key: JournalKey, requestHash: Id, at: int)

  /** What an operation returns: the record that is in force after it, or a conflict. */
  function Outcome(rows: JournalRows, op: JournalOp): Result<InvocationRecord> {
    match op
    case Start(key, hash, at) =>
      if key !in rows then Ok(InvocationRecord(hash, Started, at, None, None))
      else if rows[key].requestHash != hash then Err
      else Ok(rows[key])
    case Complete(key, hash, result, at) =>
      if key !in rows || rows[key].requestHash != hash then Err
      else if rows[key].state == Completed then (if rows[key].result != Some(result) then Err else Ok(rows[key]))
      else Ok(rows[key].(state := Completed, completedAt := Some(at), result := Some(result)))
    case MarkUnknown(key, hash, at) =>
      if key !in rows || rows[key].requestHash != hash then Err
      else if rows[key].state != Started then Ok(rows[key])
      else Ok(rows[key].(state := Unknown, completedAt := Some(at), result := None))
  }

  function ApplyJournal(rows: JournalRows, op: JournalOp): JournalRows {
    match Outcome(rows, op)
    case Err => rows
    case Ok(record) => rows[op.key := record]
  }

  class JournalTable {
    var rows: JournalRows

    constructor ()
      ensures rows == map[]
    {
      rows := map[];
    }

    method StartRow(key: JournalKey, hash: Id, at: int) returns (r: Result<InvocationRecord>)
      modifies this
      ensures r == Outcome(old(rows), Start(key, hash, at)) && rows == ApplyJournal(old(rows), Start(key, hash, at))
    {
      if key in rows {
        var existing := rows[key];
        assert rows == rows[key := existing];
        if existing.requestHash != hash { return Err; }
        return Ok(existing);
      }
      var record := InvocationRecord(hash, Started, at, None, None);
      rows := rows[key := record];
      r := Ok(record);
    }

    method CompleteRow(key: JournalKey, hash: Id, result: string, at: int) returns (r: Result<InvocationRecord>)
      modifies this
      ensures r == Outcome(old(rows), Complete(key, hash, result, at))
      ensures rows == ApplyJournal(old(rows), Complete(key, hash, result, at))
    {
      if key !in rows { return Err; }
      var existing := rows[key];
      if existing.requestHash != hash { return Err; }
      if existing.state == Completed {
        assert rows == rows[key := existing];
        if existing.result != Some(result) { return Err; }
        return Ok(existing);
      }
      var record := existing.(state := Completed, completedAt := Some(at), result := Some(result));
      rows := rows[key := record];
      r := Ok(record);
    }

    method MarkUnknownRow(key: JournalKey, hash: Id, at: int) returns (r: Result<InvocationRecord>)
      modifies this
      ensures r == Outcome(old(rows), MarkUnknown(key, hash, at))
      ensures rows == ApplyJournal(old(rows), MarkUnknown(key, hash, at))
    {
      if key !in rows || rows[key].requestHash != hash { return Err; }
      var existing := rows[key];
      if existing.state == Completed || existing.state == Unknown {
        assert rows == rows[key := existing];
        return Ok(existing);
      }
      var record := existing.(state := Unknown, completedAt := Some(at), result := None);
      rows := rows[key := record];
      r := Ok(record);
    }
  }

  // ---------------------------------------------------------------- histories

  function RunJournal(rows: JournalRows, ops: seq<JournalOp>): JournalRows {
    if ops == [] then rows else ApplyJournal(RunJournal(rows, ops[..|ops| - 1]), ops[|ops| - 1])
  }

  predicate StateLeadsTo(from: JournalState, to: JournalState) {
    from == to || from == Started || (from == Unknown && to == Completed)
  }

  /** How a record may change: identity is fixed, the state moves forward, and
      a completed record is final. */
  predicate Evolves(from: InvocationRecord, to: InvocationRecord) {
    && from.requestHash == to.requestHash && from.startedAt == to.startedAt
    && StateLeadsTo(from.state, to.state)
    && (from.state == Completed ==> to == from)
    && (from.state == to.state ==> to == from)
  }

  /** A record carries a result exactly when it is completed. */
  ghost predicate Consistent(rows: JournalRows) {
    forall key :: key in rows ==>
      && (rows[key].result.Some? <==> rows[key].state == Completed)
      && (rows[key].completedAt.None? <==> rows[key].state == Started)
  }

  /** Through every history of operations, by any number of callers, each
      record evolves lawfully, and only completed records carry results. */
  lemma {:induction false} JournalEvolves(rows: JournalRows, ops: seq<JournalOp>)
    requires Consistent(rows)
    ensures Consistent(RunJournal(rows, ops))
    ensures forall key :: key in rows ==> key in RunJournal(rows, ops) && Evolves(rows[key], RunJournal(rows, ops)[key])
  {
    if ops != [] {
      var before := RunJournal(rows, ops[..|ops| - 1]);
      JournalEvolves(rows, ops[..|ops| - 1]);
      StepEvolves(before, ops[|ops| - 1]);
    }
  }

  lemma StepEvolves(rows: JournalRows, op: JournalOp)
    requires Consistent(rows)
    ensures Consistent(ApplyJournal(rows, op))
    ensures forall key :: key in rows ==> key in ApplyJournal(rows, op) && Evolves(rows[key], ApplyJournal(rows, op)[key])
  {
  }

  /** Once an invocation completed with a result, every later completion is
      refused or returns that same record. */
  lemma {:induction false} CompletedIsFinal(
    rows: JournalRows, key: JournalKey, hash: Id, result: string, at: int, ops: seq<JournalOp>,
    other: string, hash': Id, at': int)
    requires Consistent(rows) && Outcome(rows, Complete(key, hash, result, at)).Ok?
    ensures
      var record := Outcome(rows, Complete(key, hash, result, at)).value;
      var later := RunJournal(ApplyJournal(rows, Complete(key, hash, result, at)), ops);
      && record.state == Completed && record.result == Some(result)
      && key in later && later[key] == record
      && Outcome(later, Complete(key, hash', other, at')) ==
           (if hash' == hash && other == result then Ok(record) else Err)
  {
    var after := ApplyJournal(rows, Complete(key, hash, result, at));
    StepEvolves(rows, Complete(key, hash, result, at));
    JournalEvolves(after, ops);
  }

  /** A known key is bound to its request: another request hash is refused by
      every operation, whatever happened in between. */
  lemma {:induction false} KeyStaysBound(rows: JournalRows, key: JournalKey, ops: seq<JournalOp>, op: JournalOp)
    requires Consistent(rows) && key in rows && op.key == key && op.requestHash != rows[key].requestHash
    ensures Outcome(RunJournal(rows, ops), op).Err?
  {
    JournalEvolves(rows, ops);
  }
}
