/** Units of work over one database file (adapters/sqlite_stores.py,
    SqliteUnitOfWork; storage/sqlite.py, _write_sync): a transaction holds the
    file's only write lock from entry to commit or rollback, and every commit,
    rollback and close may fail or be cancelled. */
module UnitOfWork {
  import opened Outcomes
  import opened EventStore
  import opened EntityStore
  import opened InvocationJournal

  datatype Database = Database(events: EventTables, entities: EntityRows, journal: JournalRows)

  datatype Write =
    | AppendWrite(request: Request)
    | EntityWrite(entityOp: EntityOp)
    | JournalWrite(journalOp: JournalOp)

  const BLANK: Database := Database(EMPTY, map[], map[])

  function Apply(db: Database, write: Write): Database {
    match write
    case AppendWrite(q) => db.(events := Append(db.events, q.stream, q.expected, q.batch).0)
    case EntityWrite(op) => db.(entities := ApplyEntity(db.entities, op))
    case JournalWrite(op) => db.(journal := ApplyJournal(db.journal, op))
  }

  function Replay(db: Database, writes: seq<Write>): Database {
    if writes == [] then db else Apply(Replay(db, writes[..|writes| - 1]), writes[|writes| - 1])
  }

  // ---------------------------------------------------------------- one unit of work

  /** The file: what is durable, and which unit holds the write lock. */
  datatype FileState = FileState(durable: Database, writer: Option<nat>)

  /** A unit: `connection` is the transaction's own view while it is open. */
  datatype UnitState = UnitState(entered: bool, connection: Option<Database>, committed: bool, rolledBack: bool)

  /** How a call into the database ends: whether it takes effect, and whether
      the caller was cancelled while it ran. */
  datatype Fate = Fate(lands: bool, cancelled: bool)

  const FRESH: UnitState := UnitState(false, None, false, false)

  /** _require_connection accepts the unit. */
  predicate Active(unit: UnitState) {
    unit.connection.Some? && !unit.committed && !unit.rolledBack
  }

  function Entering(file: FileState, unit: UnitState, id: nat, fate: Fate): (FileState, UnitState) {
    if unit.entered then (file, unit)
    else if file.writer.Some? || !fate.lands || fate.cancelled then (file, unit.(entered := true))
    else (file.(writer := Some(id)), unit.(entered := true, connection := Some(file.durable)))
  }

  function Executing(unit: UnitState, write: Write): UnitState {
    if Active(unit) then unit.(connection := Some(Apply(unit.connection.value, write))) else unit
  }

  function Committing(file: FileState, unit: UnitState, fate: Fate): (FileState, UnitState) {
    if Active(unit) && fate.lands then (FileState(unit.connection.value, None), unit.(committed := true))
    else (file, unit)
  }

  function RollingBack(file: FileState, unit: UnitState, fate: Fate): (FileState, UnitState) {
    if Active(unit) && fate.lands then (file.(writer := None), unit.(rolledBack := true)) else (file, unit)
  }

  /** Leaving rolls an undecided unit back; closing the connection ends a
      transaction that is still open. */
  function Leaving(file: FileState, unit: UnitState, id: nat, fate: Fate): (FileState, UnitState) {
    if unit.connection.None? then (file, unit)
    else
      var (file', unit') := RollingBack(file, unit, fate);
      (if file'.writer == Some(id) then file'.(writer := None) else file', unit'.(connection := None))
  }

  class DatabaseFile {
    var durable: Database
    var writer: Option<nat>

    constructor ()
      ensures State() == FileState(BLANK, None)
    {
      durable, writer := BLANK, None;
    }

    function State(): FileState
      reads this
    {
      FileState(durable, writer)
    }

    /** One write in its own transaction. */
    method WriteOnce(write: Write, lands: bool) returns (raised: bool)
      modifies this
      ensures raised <==> old(writer).Some? || !lands
      ensures State() == if raised then old(State()) else FileState(Apply(old(durable), write), None)
    {
      if writer.Some? || !lands { return true; }
      durable := Apply(durable, write);
      raised := false;
    }
  }

  class UnitOfWorkSession {
    const file: DatabaseFile
    const id: nat
    var entered: bool
    var connection: Option<Database>
    var committed: bool
    var rolledBack: bool

    constructor (file: DatabaseFile, id: nat)
      ensures this.file == file && this.id == id && State() == FRESH
    {
      this.file, this.id := file, id;
      entered, connection, committed, rolledBack := false, None, false, false;
    }

    function State(): UnitState
      reads this
    {
      UnitState(entered, connection, committed, rolledBack)
    }

    method Enter(fate: Fate) returns (raised: bool)
      modifies this, file
      ensures (file.State(), State()) == Entering(old(file.State()), old(State()), id, fate)
      ensures raised <==> old(entered) || connection.None?
    {
      if entered { return true; }
      entered := true;
      if file.writer.Some? || !fate.lands { return connection.None?; }
      if fate.cancelled { return connection.None?; }
      file.writer := Some(id);
      connection := Some(file.durable);
      raised := false;
    }

    method Execute(write: Write) returns (raised: bool)
      modifies this
      ensures State() == Executing(old(State()), write)
      ensures raised <==> !old(Active(State()))
    {
      if connection.None? || committed || rolledBack { return true; }
      connection := Some(Apply(connection.value, write));
      raised := false;
    }

    /** A caller that is cancelled while the commit takes effect still sees the
        cancellation, on a unit that is marked committed. */
    method Commit(fate: Fate) returns (raised: bool)
      modifies this, file
      ensures (file.State(), State()) == Committing(old(file.State()), old(State()), fate)
      ensures raised <==> !old(committed) && (!committed || fate.cancelled)
    {
      if committed { return false; }
      if rolledBack { return true; }
      if connection.None? { return true; }
      if !fate.lands { return true; }
      file.durable, file.writer := connection.value, None;
      committed := true;
      raised := fate.cancelled;
    }

    method Rollback(fate: Fate) returns (raised: bool)
      modifies this, file
      ensures (file.State(), State()) == RollingBack(old(file.State()), old(State()), fate)
      ensures raised <==> committed || (!old(rolledBack) && (!rolledBack || fate.cancelled))
    {
      if committed { return true; }
      if rolledBack { return false; }
      if connection.None? { return true; }
      if !fate.lands { return true; }
      file.writer := None;
      rolledBack := true;
      raised := fate.cancelled;
    }

    method Leave(fate: Fate) returns (raised: bool)
      modifies this, file
      ensures (file.State(), State()) == Leaving(old(file.State()), old(State()), id, fate)
      ensures connection.None? && (old(connection).Some? ==> file.writer != Some(id))
    {
      if connection.None? { return false; }
      raised := false;
      if !committed && !rolledBack { raised := Rollback(fate); }
      if file.writer == Some(id) { file.writer := None; }
      connection := None;
    }
  }

  // ---------------------------------------------------------------- interleaved units

  datatype Step =
    | Enter(id: nat, fate: Fate)
    | Execute(id: nat, write: Write)
    | Commit(id: nat, fate: Fate)
    | Rollback(id: nat, fate: Fate)
    | Leave(id: nat, fate: Fate)
    | WriteOnce(write: Write, lands: bool)

  datatype World = World(file: FileState, units: map<nat, UnitState>)

  function UnitOf(w: World, id: nat): UnitState {
    if id in w.units then w.units[id] else FRESH
  }

  function StepUnit(w: World, step: Step): (FileState, UnitState)
    requires !step.WriteOnce?
  {
    var unit := UnitOf(w, step.id);
    match step
    case Enter(id, fate) => Entering(w.file, unit, id, fate)
    case Execute(_, write) => (w.file, Executing(unit, write))
    case Commit(_, fate) => Committing(w.file, unit, fate)
    case Rollback(_, fate) => RollingBack(w.file, unit, fate)
    case Leave(id, fate) => Leaving(w.file, unit, id, fate)
  }

  predicate WritesOnce(w: World, step: Step) {
    step.WriteOnce? && w.file.writer.None? && step.lands
  }

  function Next(w: World, step: Step): World {
    if step.WriteOnce? then
      if WritesOnce(w, step) then w.(file := w.file.(durable := Apply(w.file.durable, step.write))) else w
    else
      var (file, unit) := StepUnit(w, step);
      World(file, w.units[step.id := unit])
  }

  /** Any number of units of work and single writes, interleaved in any order. */
  function Run(steps: seq<Step>): World {
    if steps == [] then World(FileState(BLANK, None), map[])
    else Next(Run(steps[..|steps| - 1]), steps[|steps| - 1])
  }

  /** The writes a unit's calls performed, in order. */
  function Executed(steps: seq<Step>, id: nat): seq<Write> {
    if steps == [] then []
    else
      var before, last := steps[..|steps| - 1], steps[|steps| - 1];
      if last.Execute? && last.id == id && Active(UnitOf(Run(before), id)) then Executed(before, id) + [last.write]
      else Executed(before, id)
  }

  /** One durable transaction: a unit of work, or a single write. */
  datatype Transaction = Transaction(unit: Option<nat>, writes: seq<Write>)

  predicate Commits(w: World, step: Step) {
    step.Commit? && Active(UnitOf(w, step.id)) && step.fate.lands
  }

  /** The transactions that took effect, in the order in which they did. */
  function CommitOrder(steps: seq<Step>): seq<Transaction> {
    if steps == [] then []
    else
      var before, last := steps[..|steps| - 1], steps[|steps| - 1];
      if Commits(Run(before), last) then CommitOrder(before) + [Transaction(Some(last.id), Executed(before, last.id))]
      else if WritesOnce(Run(before), last) then CommitOrder(before) + [Transaction(None, [last.write])]
      else CommitOrder(before)
  }

  /** What running the transactions one after the other leaves. */
  function Serial(order: seq<Transaction>): Database {
    if order == [] then BLANK else Replay(Serial(order[..|order| - 1]), order[|order| - 1].writes)
  }

  lemma SerialAppend(order: seq<Transaction>, t: Transaction)
    ensures Serial(order + [t]) == Replay(Serial(order), t.writes)
  {
    assert (order + [t])[..|order + [t]| - 1] == order;
  }

  lemma ReplayOne(db: Database, writes: seq<Write>, write: Write)
    ensures Replay(db, writes + [write]) == Apply(Replay(db, writes), write)
  {
    assert (writes + [write])[..|writes + [write]| - 1] == writes;
  }

  // ---------------------------------------------------------------- what every run keeps

  /** The lock is held exactly by the unit that may still write, and that unit
      sees the durable state with its own writes on top. */
  ghost predicate Exclusive(steps: seq<Step>) {
    forall id: nat :: OwnView(Run(steps), id, Executed(steps, id))
  }

  ghost predicate OwnView(w: World, id: nat, writes: seq<Write>) {
    var unit := UnitOf(w, id);
    && (Active(unit) <==> w.file.writer == Some(id))
    && (Active(unit) ==> unit.connection.value == Replay(w.file.durable, writes))
    && (!unit.entered ==> unit == FRESH && writes == [])
  }

  lemma StepOwnView(steps: seq<Step>, step: Step, id: nat)
    requires Exclusive(steps)
    ensures OwnView(Run(steps + [step]), id, Executed(steps + [step], id))
  {
    var now := steps + [step];
    assert now[..|now| - 1] == steps;
    var w := Run(steps);
    assert OwnView(w, id, Executed(steps, id));
    if !step.WriteOnce? { assert OwnView(w, step.id, Executed(steps, step.id)); }
    if step.Execute? && step.id == id { ReplayOne(w.file.durable, Executed(steps, id), step.write); }
  }

  lemma {:induction false} AlwaysExclusive(steps: seq<Step>)
    ensures Exclusive(steps)
  {
    if steps != [] {
      var before := steps[..|steps| - 1];
      AlwaysExclusive(before);
      assert steps == before + [steps[|steps| - 1]];
      forall id: nat ensures OwnView(Run(steps), id, Executed(steps, id)) {
        StepOwnView(before, steps[|steps| - 1], id);
      }
    }
  }

  /** In every interleaving the durable state is that of some serial order: the
      committed transactions, whole, in the order of their commits. */
  lemma {:induction false} CommittedIsSerial(steps: seq<Step>)
    ensures Run(steps).file.durable == Serial(CommitOrder(steps))
  {
    if steps != [] {
      var before, last := steps[..|steps| - 1], steps[|steps| - 1];
      CommittedIsSerial(before);
      AlwaysExclusive(before);
      var w := Run(before);
      if Commits(w, last) {
        assert OwnView(w, last.id, Executed(before, last.id));
        SerialAppend(CommitOrder(before), Transaction(Some(last.id), Executed(before, last.id)));
      } else if WritesOnce(w, last) {
        SerialAppend(CommitOrder(before), Transaction(None, [last.write]));
        ReplayOne(w.file.durable, [], last.write);
      } else {
        assert Run(steps).file.durable == w.file.durable;
      }
    }
  }

  /** A unit is in the order exactly when it is marked committed; then it is
      there once, with everything it executed. */
  ghost predicate Whole(steps: seq<Step>, id: nat) {
    var order := CommitOrder(steps);
    && (UnitOf(Run(steps), id).committed <==> exists i :: 0 <= i < |order| && order[i].unit == Some(id))
    && (forall i :: 0 <= i < |order| && order[i].unit == Some(id) ==> order[i].writes == Executed(steps, id))
    && (forall i, j :: 0 <= i < j < |order| && order[i].unit == Some(id) ==> order[j].unit != Some(id))
  }

  lemma {:induction false} AllOrNothing(steps: seq<Step>, id: nat)
    ensures Whole(steps, id)
  {
    if steps != [] {
      var before, last := steps[..|steps| - 1], steps[|steps| - 1];
      AllOrNothing(before, id);
      var w, order, earlier := Run(before), CommitOrder(steps), CommitOrder(before);
      if Commits(w, last) && last.id == id {
        assert order[|earlier|].unit == Some(id);
      } else {
        assert UnitOf(Run(steps), id).committed == UnitOf(w, id).committed;
        assert UnitOf(w, id).committed ==> Executed(steps, id) == Executed(before, id);
        if i :| 0 <= i < |earlier| && earlier[i].unit == Some(id) { assert order[i] == earlier[i]; }
      }
    }
  }

  // ---------------------------------------------------------------- isolation

  lemma StillActive(w: World, step: Step, id: nat)
    requires UnitOf(w, id).entered
    ensures UnitOf(Next(w, step), id).entered
    ensures Active(UnitOf(Next(w, step), id)) ==> Active(UnitOf(w, id))
  {
  }

  lemma {:induction false} ActiveThroughout(steps: seq<Step>, more: seq<Step>, id: nat)
    requires UnitOf(Run(steps), id).entered
    ensures UnitOf(Run(steps + more), id).entered
    ensures Active(UnitOf(Run(steps + more), id)) ==> Active(UnitOf(Run(steps), id))
  {
    if more == [] {
      assert steps + more == steps;
    } else {
      var n := |more| - 1;
      assert (steps + more)[..|steps + more| - 1] == steps + more[..n];
      ActiveThroughout(steps, more[..n], id);
      StillActive(Run(steps + more[..n]), more[n], id);
    }
  }

  /** While a unit is active nothing else becomes durable. */
  lemma {:induction false} NothingCommitsMeanwhile(steps: seq<Step>, more: seq<Step>, id: nat)
    requires Active(UnitOf(Run(steps), id)) && Active(UnitOf(Run(steps + more), id))
    ensures CommitOrder(steps + more) == CommitOrder(steps)
  {
    if more == [] {
      assert steps + more == steps;
    } else {
      var n := |more| - 1;
      var now := steps + more[..n];
      assert (steps + more)[..|steps + more| - 1] == now;
      AlwaysExclusive(steps);
      assert OwnView(Run(steps), id, Executed(steps, id));
      ActiveThroughout(steps, more[..n], id);
      StillActive(Run(now), more[n], id);
      NothingCommitsMeanwhile(steps, more[..n], id);
      AlwaysExclusive(now);
      assert OwnView(Run(now), id, Executed(now, id));
      forall other: nat ensures Active(UnitOf(Run(now), other)) ==> other == id {
        assert OwnView(Run(now), other, Executed(now, other));
      }
    }
  }

  /** What a committed unit saw at every point of its life is the serial state
      at its own place in the commit order, with its writes so far on top. */
  lemma {:induction false} ReadsAreSerial(steps: seq<Step>, more: seq<Step>, id: nat, fate: Fate)
    requires Active(UnitOf(Run(steps), id)) && Active(UnitOf(Run(steps + more), id)) && fate.lands
    ensures
      var order := CommitOrder(steps + more + [Commit(id, fate)]);
      var place := |CommitOrder(steps)|;
      && |order| == place + 1
      && order[place] == Transaction(Some(id), Executed(steps + more, id))
      && UnitOf(Run(steps), id).connection == Some(Replay(Serial(order[..place]), Executed(steps, id)))
  {
    NothingCommitsMeanwhile(steps, more, id);
    var now := steps + more;
    assert (now + [Commit(id, fate)])[..|now + [Commit(id, fate)]| - 1] == now;
    AlwaysExclusive(steps);
    assert OwnView(Run(steps), id, Executed(steps, id));
    CommittedIsSerial(steps);
    assert (CommitOrder(now) + [Transaction(Some(id), Executed(now, id))])[..|CommitOrder(now)|] == CommitOrder(steps);
  }

  /** Whatever its last calls did, a unit that has left leaves no lock behind. */
  lemma {:induction false} LeavingReleases(steps: seq<Step>, id: nat, fate: Fate)
    ensures Run(steps + [Leave(id, fate)]).file.writer != Some(id)
    ensures Run(steps + [Leave(id, fate)]).file.durable == Run(steps).file.durable
  {
    var now := steps + [Leave(id, fate)];
    assert now[..|now| - 1] == steps;
    AlwaysExclusive(steps);
    assert OwnView(Run(steps), id, Executed(steps, id));
  }

  // ---------------------------------------------------------------- the stores inside

  ghost predicate StoresSound(db: Database) {
    Sound(db.events) && Consistent(db.journal)
  }

  lemma {:induction false} ReplaySound(db: Database, writes: seq<Write>)
    requires StoresSound(db)
    ensures StoresSound(Replay(db, writes))
  {
    if writes != [] {
      var before, last := writes[..|writes| - 1], writes[|writes| - 1];
      ReplaySound(db, before);
      match last {
        case AppendWrite(q) => AppendSound(Replay(db, before).events, q.stream, q.expected, q.batch);
        case EntityWrite(_) =>
        case JournalWrite(op) => StepEvolves(Replay(db, before).journal, op);
      }
    }
  }

  lemma {:induction false} SerialSound(order: seq<Transaction>)
    ensures StoresSound(Serial(order))
  {
    if order == [] {
      HistorySound([]);
    } else {
      SerialSound(order[..|order| - 1]);
      ReplaySound(Serial(order[..|order| - 1]), order[|order| - 1].writes);
    }
  }

  /** The event log and the journal stay sound in every durable state and in
      every view a unit has, whatever was interleaved, cancelled or lost. */
  lemma {:induction false} StoresStaySound(steps: seq<Step>, id: nat)
    ensures StoresSound(Run(steps).file.durable)
    ensures Active(UnitOf(Run(steps), id)) ==> StoresSound(UnitOf(Run(steps), id).connection.value)
  {
    CommittedIsSerial(steps);
    SerialSound(CommitOrder(steps));
    AlwaysExclusive(steps);
    assert OwnView(Run(steps), id, Executed(steps, id));
    ReplaySound(Run(steps).file.durable, Executed(steps, id));
  }
}
