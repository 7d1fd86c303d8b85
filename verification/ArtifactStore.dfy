/** The content-addressed artifact store (adapters/local_artifacts.py): objects
    and metadata files are linked into place and never rolled back, while a
    journal row makes an artifact visible. A crash or an error may fall on
    either side of every step. */
module ArtifactStore {
  import opened Outcomes

  type Bytes = seq<bv8>

  /** SHA-256, taken as injective. */
  datatype Digest = Sha256(content: Bytes)

  datatype Metadata = Metadata(
    artifact: Id, workspace: Id, digest: Digest, byteLength: nat, secret: bool, details: string)

  datatype KeyState = Preparing | Complete

  /** An idempotency row; the request digest stands for the whole metadata. */
  datatype KeyRow = KeyRow(request: Metadata, state: KeyState)

  /** Object files, metadata files, and the two tables of the journal. */
  datatype Disk = Disk(
    objects: map<Digest, Bytes>, files: map<Id, Metadata>, entries: map<Id, Metadata>, keys: map<Id, KeyRow>)

  datatype Request = Request(key: Id, metadata: Metadata, content: Bytes)

  /** A step that takes effect, takes effect but is not survived, or fails. */
  datatype Step = Done | DoneThenLost | NotDone

  datatype Faults = Faults(begin: Step, verify: Step, promote: Step, describe: Step, commit: Step)

  const FAULTLESS: Faults := Faults(Done, Done, Done, Done, Done)

  datatype Outcome = Stored(metadata: Metadata) | Conflict | Corrupt | Lost

  // ---------------------------------------------------------------- requests

  /** The checks before anything is committed. */
  predicate Acceptable(workspace: Id, q: Request) {
    && q.key.text != "" && q.metadata.workspace == workspace && !q.metadata.secret
    && q.metadata.byteLength == |q.content| && q.metadata.digest == Sha256(q.content)
  }

  predicate ObjectMatches(objects: map<Digest, Bytes>, m: Metadata) {
    m.digest in objects && |objects[m.digest]| == m.byteLength && Sha256(objects[m.digest]) == m.digest
  }

  /** A visible artifact, when its row and its file agree. */
  predicate Readable(files: map<Id, Metadata>, entries: map<Id, Metadata>, workspace: Id, id: Id) {
    && id in entries && id in files && files[id] == entries[id]
    && entries[id].artifact == id && entries[id].workspace == workspace && !entries[id].secret
  }

  // ---------------------------------------------------------------- the specification of a commit

  function Commit(d: Disk, workspace: Id, q: Request, f: Faults): (Disk, Outcome) {
    if f.begin != Done then (d, Lost)
    else if q.key in d.keys then CommitAgain(d, workspace, q, f)
    else if q.metadata.artifact in d.entries then CommitShared(d, workspace, q, f)
    else CommitNew(d, q, f)
  }

  /** The key is known: nothing is written. */
  function CommitAgain(d: Disk, workspace: Id, q: Request, f: Faults): (Disk, Outcome)
    requires q.key in d.keys
  {
    var row, m := d.keys[q.key], q.metadata;
    if row.state != Complete then (d, Corrupt)
    else if row.request != m then (d, Conflict)
    else if m.artifact !in d.entries then (d, Conflict)
    else if !Readable(d.files, d.entries, workspace, m.artifact) then (d, Corrupt)
    else if d.entries[m.artifact] != m then (d, Conflict)
    else if f.verify != Done then (d, Lost)
    else if !ObjectMatches(d.objects, m) then (d, Corrupt)
    else (d, if f.commit == Done then Stored(d.entries[m.artifact]) else Lost)
  }

  /** A new key for an artifact that is visible already. */
  function CommitShared(d: Disk, workspace: Id, q: Request, f: Faults): (Disk, Outcome)
    requires q.key !in d.keys && q.metadata.artifact in d.entries
  {
    var m := q.metadata;
    if !Readable(d.files, d.entries, workspace, m.artifact) then (d, Corrupt)
    else if d.entries[m.artifact] != m then (d, Conflict)
    else if f.verify != Done then (d, Lost)
    else if !ObjectMatches(d.objects, m) then (d, Corrupt)
    else if f.commit == NotDone then (d, Lost)
    else (d.(keys := d.keys[q.key := KeyRow(m, Complete)]), if f.commit == Done then Stored(m) else Lost)
  }

  /** The content's object, once its link was made. */
  function Promoted(d: Disk, q: Request): Disk {
    if q.metadata.digest in d.objects then d else d.(objects := d.objects[q.metadata.digest := q.content])
  }

  function Described(d: Disk, q: Request): Disk {
    if q.metadata.artifact in d.files then d else d.(files := d.files[q.metadata.artifact := q.metadata])
  }

  function MadeVisible(d: Disk, q: Request): Disk {
    d.(entries := d.entries[q.metadata.artifact := q.metadata], keys := d.keys[q.key := KeyRow(q.metadata, Complete)])
  }

  /** Object first, metadata file second, rows last. */
  function CommitNew(d: Disk, q: Request, f: Faults): (Disk, Outcome) {
    var m := q.metadata;
    if f.promote == NotDone then (d, Lost)
    else
      var promoted := Promoted(d, q);
      if !ObjectMatches(promoted.objects, m) then (promoted, Corrupt)
      else if f.promote == DoneThenLost then (promoted, Lost)
      else if f.describe == NotDone then (promoted, Lost)
      else if m.artifact in d.files && d.files[m.artifact] != m then (promoted, Corrupt)
      else
        var described := Described(promoted, q);
        if f.describe == DoneThenLost || f.commit == NotDone then (described, Lost)
        else (MadeVisible(described, q), if f.commit == Done then Stored(m) else Lost)
  }

  // ---------------------------------------------------------------- the store

  class LocalArtifactStore {
    const workspace: Id
    var objects: map<Digest, Bytes>
    var files: map<Id, Metadata>
    var entries: map<Id, Metadata>
    var keys: map<Id, KeyRow>
    /** Every state of the disk, for a reader or a crash between two steps. */
    ghost var trail: seq<Disk>

    constructor (workspace: Id)
      ensures this.workspace == workspace && State() == EMPTY && trail == [EMPTY]
    {
      this.workspace := workspace;
      objects, files, entries, keys := map[], map[], map[], map[];
      trail := [EMPTY];
    }

    function State(): Disk
      reads this
    {
      Disk(objects, files, entries, keys)
    }

    method Put(q: Request, f: Faults) returns (outcome: Outcome)
      modifies this
      ensures !Acceptable(workspace, q) ==> outcome == Conflict && unchanged(this)
      ensures Acceptable(workspace, q) ==> (State(), outcome) == Commit(old(State()), workspace, q, f)
      ensures Acceptable(workspace, q) && Backed(old(State()), workspace) ==>
                GrowsSafely(old(trail), trail, old(State()), workspace)
    {
      if q.key.text == "" || q.metadata.workspace != workspace || q.metadata.secret { return Conflict; }
      if q.metadata.byteLength != |q.content| || q.metadata.digest != Sha256(q.content) { return Conflict; }
      outcome := CommitStaged(q, f);
    }

    /** A key that is known already. */
    method Repeat(q: Request, f: Faults) returns (outcome: Outcome)
      requires q.key in keys
      ensures (State(), outcome) == CommitAgain(State(), workspace, q, f)
    {
      var row, m := keys[q.key], q.metadata;
      if row.state != Complete { return Corrupt; }
      if row.request != m { return Conflict; }
      if m.artifact !in entries { return Conflict; }
      if !Readable(files, entries, workspace, m.artifact) { return Corrupt; }
      if entries[m.artifact] != m { return Conflict; }
      if f.verify != Done { return Lost; }
      if !ObjectMatches(objects, m) { return Corrupt; }
      outcome := if f.commit == Done then Stored(entries[m.artifact]) else Lost;
    }

    /** The transaction: rows change on commit, files as soon as they are linked. */
    method CommitStaged(q: Request, f: Faults) returns (outcome: Outcome)
      requires Acceptable(workspace, q)
      modifies this
      ensures (State(), outcome) == Commit(old(State()), workspace, q, f)
      ensures Backed(old(State()), workspace) ==> GrowsSafely(old(trail), trail, old(State()), workspace)
    {
      if f.begin != Done { return Lost; }
      if q.key in keys {
        outcome := Repeat(q, f);
        return;
      }
      if q.metadata.artifact in entries { outcome := Share(q, f); } else { outcome := Create(q, f); }
    }

    /** A new key for a visible artifact. */
    method Share(q: Request, f: Faults) returns (outcome: Outcome)
      requires Acceptable(workspace, q) && q.key !in keys && q.metadata.artifact in entries
      modifies `entries, `keys, `trail
      ensures (State(), outcome) == CommitShared(old(State()), workspace, q, f)
      ensures Backed(old(State()), workspace) ==> GrowsSafely(old(trail), trail, old(State()), workspace)
    {
      var m := q.metadata;
      if !Readable(files, entries, workspace, m.artifact) { return Corrupt; }
      if entries[m.artifact] != m { return Conflict; }
      if f.verify != Done { return Lost; }
      if !ObjectMatches(objects, m) { return Corrupt; }
      assert entries == entries[m.artifact := m];
      outcome := MakeVisible(q, f);
    }

    method Create(q: Request, f: Faults) returns (outcome: Outcome)
      requires Acceptable(workspace, q) && q.key !in keys && q.metadata.artifact !in entries
      modifies this
      ensures (State(), outcome) == CommitNew(old(State()), q, f)
      ensures Backed(old(State()), workspace) ==> GrowsSafely(old(trail), trail, old(State()), workspace)
    {
      var failure := PromoteAndDescribe(q, f);
      if failure.Some? { return failure.value; }
      ghost var middle, linked := trail, State();
      outcome := MakeVisible(q, f);
      if Backed(old(State()), workspace) { GrowsOn(old(trail), middle, trail, old(State()), linked, workspace); }
    }

    /** The rows of one transaction: the key is reserved, the entry inserted
        unless it is there, the key completed, and all of it committed. */
    method MakeVisible(q: Request, f: Faults) returns (outcome: Outcome)
      requires Acceptable(workspace, q) && q.key !in keys
      requires q.metadata.artifact in files && files[q.metadata.artifact] == q.metadata
      requires q.metadata.artifact in entries ==> entries[q.metadata.artifact] == q.metadata
      modifies `entries, `keys, `trail
      ensures outcome == if f.commit == Done then Stored(q.metadata) else Lost
      ensures State() == if f.commit == NotDone then old(State()) else MadeVisible(old(State()), q)
      ensures Backed(old(State()), workspace) ==> GrowsSafely(old(trail), trail, old(State()), workspace)
    {
      var m := q.metadata;
      var keys', entries' := keys[q.key := KeyRow(m, Preparing)], entries;
      if m.artifact !in entries { entries' := entries[m.artifact := m]; }
      keys' := keys'[q.key := keys'[q.key].(state := Complete)];
      if f.commit == NotDone { return Lost; }
      ghost var was := State();
      assert m.artifact in entries ==> entries == entries[m.artifact := m];
      assert keys' == keys[q.key := KeyRow(m, Complete)];
      entries, keys := entries', keys';
      trail := trail + [State()];
      if Backed(was, workspace) { VisibleIsBacked(was, q, workspace); }
      outcome := if f.commit == Done then Stored(m) else Lost;
    }

    /** Links the object and the metadata file; existing ones must agree. */
    method PromoteAndDescribe(q: Request, f: Faults) returns (failure: Option<Outcome>)
      requires Acceptable(workspace, q)
      modifies `objects, `files, `trail
      ensures failure.Some? ==> (State(), failure.value) == CommitNew(old(State()), q, f)
      ensures failure.None? ==>
        && State() == Described(Promoted(old(State()), q), q)
        && ObjectMatches(objects, q.metadata) && State().files[q.metadata.artifact] == q.metadata
        && f.promote == Done && f.describe == Done
      ensures Backed(old(State()), workspace) ==>
        Backed(State(), workspace) && Extends(State(), old(State()))
        && GrowsSafely(old(trail), trail, old(State()), workspace)
    {
      var m := q.metadata;
      if f.promote == NotDone { return Some(Lost); }
      if m.digest !in objects { objects := objects[m.digest := q.content]; }
      trail := trail + [State()];
      if Backed(old(State()), workspace) { PromotedIsBacked(old(State()), q, workspace); }
      if !ObjectMatches(objects, m) { return Some(Corrupt); }
      if f.promote == DoneThenLost || f.describe == NotDone { return Some(Lost); }
      if m.artifact in files {
        if files[m.artifact] != m { return Some(Corrupt); }
      } else {
        ghost var promoted := State();
        files := files[m.artifact := m];
        trail := trail + [State()];
        if Backed(old(State()), workspace) { DescribedIsBacked(promoted, q, workspace); }
      }
      if f.describe == DoneThenLost { return Some(Lost); }
      failure := None;
    }
  }

  const EMPTY: Disk := Disk(map[], map[], map[], map[])

  // ---------------------------------------------------------------- what every state keeps

  /** Rows are backed by files, files by objects, and objects by their names;
      every key is complete and names a visible artifact. */
  ghost predicate Backed(d: Disk, workspace: Id) {
    && (forall id :: id in d.entries ==> Readable(d.files, d.entries, workspace, id))
    && FilesBacked(d.files, d.objects)
    && (forall digest :: digest in d.objects ==> Sha256(d.objects[digest]) == digest)
    && (forall key :: key in d.keys ==> KeyHolds(d.entries, d.keys[key]))
  }

  ghost predicate FilesBacked(files: map<Id, Metadata>, objects: map<Digest, Bytes>) {
    forall id :: id in files ==> files[id].artifact == id && ObjectMatches(objects, files[id])
  }

  predicate KeyHolds(entries: map<Id, Metadata>, row: KeyRow) {
    row.state == Complete && row.request.artifact in entries && entries[row.request.artifact] == row.request
  }

  predicate Contains<K, V(==)>(larger: map<K, V>, smaller: map<K, V>) {
    forall k :: k in smaller ==> k in larger && larger[k] == smaller[k]
  }

  /** Nothing was removed or overwritten. */
  ghost predicate Extends(later: Disk, earlier: Disk) {
    && Contains(later.objects, earlier.objects) && Contains(later.files, earlier.files)
    && Contains(later.entries, earlier.entries) && Contains(later.keys, earlier.keys)
  }

  ghost predicate GrowsSafely(earlier: seq<Disk>, trail: seq<Disk>, start: Disk, workspace: Id) {
    earlier <= trail && forall i :: |earlier| <= i < |trail| ==> Backed(trail[i], workspace) && Extends(trail[i], start)
  }

  lemma GrowsOn(
    earlier: seq<Disk>, middle: seq<Disk>, trail: seq<Disk>, start: Disk, linked: Disk, workspace: Id)
    requires GrowsSafely(earlier, middle, start, workspace) && Extends(linked, start)
    requires GrowsSafely(middle, trail, linked, workspace)
    ensures GrowsSafely(earlier, trail, start, workspace)
  {
    forall i | |earlier| <= i < |trail| ensures Backed(trail[i], workspace) && Extends(trail[i], start) {
      if i < |middle| {
        assert trail[i] == middle[i];
      } else {
        ExtendsOn(trail[i], linked, start);
      }
    }
  }

  lemma ExtendsOn(later: Disk, middle: Disk, earlier: Disk)
    requires Extends(later, middle) && Extends(middle, earlier)
    ensures Extends(later, earlier)
  {
  }

  lemma FilesStayBacked(files: map<Id, Metadata>, objects: map<Digest, Bytes>, objects': map<Digest, Bytes>)
    requires FilesBacked(files, objects) && Contains(objects', objects)
    ensures FilesBacked(files, objects')
  {
    forall id | id in files ensures files[id].artifact == id && ObjectMatches(objects', files[id]) {
      assert ObjectMatches(objects, files[id]);
    }
  }

  lemma PromotedIsBacked(d: Disk, q: Request, workspace: Id)
    requires Backed(d, workspace) && Acceptable(workspace, q)
    ensures Backed(Promoted(d, q), workspace) && Extends(Promoted(d, q), d)
    ensures ObjectMatches(Promoted(d, q).objects, q.metadata)
  {
    FilesStayBacked(d.files, d.objects, Promoted(d, q).objects);
  }

  lemma DescribedIsBacked(d: Disk, q: Request, workspace: Id)
    requires Backed(d, workspace) && Acceptable(workspace, q) && ObjectMatches(d.objects, q.metadata)
    ensures Backed(Described(d, q), workspace) && Extends(Described(d, q), d)
  {
    forall id | id in d.entries ensures Readable(Described(d, q).files, d.entries, workspace, id) {
      assert Readable(d.files, d.entries, workspace, id);
    }
  }

  lemma VisibleIsBacked(d: Disk, q: Request, workspace: Id)
    requires Backed(d, workspace) && Acceptable(workspace, q) && q.key !in d.keys
    requires q.metadata.artifact in d.files && d.files[q.metadata.artifact] == q.metadata
    requires q.metadata.artifact in d.entries ==> d.entries[q.metadata.artifact] == q.metadata
    ensures Backed(MadeVisible(d, q), workspace) && Extends(MadeVisible(d, q), d)
  {
    var d' := MadeVisible(d, q);
    forall id | id in d'.entries ensures Readable(d.files, d'.entries, workspace, id) {
      assert id in d.entries ==> Readable(d.files, d.entries, workspace, id);
    }
    forall key | key in d'.keys ensures KeyHolds(d'.entries, d'.keys[key]) {
      assert key in d.keys ==> KeyHolds(d.entries, d.keys[key]);
    }
  }

  // ---------------------------------------------------------------- histories

  /** One call of Put: a request, and what befalls each of its steps. */
  datatype Attempt = Attempt(request: Request, faults: Faults)

  function After(d: Disk, workspace: Id, a: Attempt): Disk {
    if Acceptable(workspace, a.request) then Commit(d, workspace, a.request, a.faults).0 else d
  }

  function Run(d: Disk, workspace: Id, attempts: seq<Attempt>): Disk {
    if attempts == [] then d else After(Run(d, workspace, attempts[..|attempts| - 1]), workspace, attempts[|attempts| - 1])
  }

  predicate Free(d: Disk, q: Request) {
    && q.key !in d.keys && q.metadata.artifact !in d.entries
    && (q.metadata.artifact in d.files ==> d.files[q.metadata.artifact] == q.metadata)
  }

  /** Where a call for a new artifact may leave the disk. */
  lemma NewStops(d: Disk, workspace: Id, q: Request, f: Faults)
    requires Backed(d, workspace) && Acceptable(workspace, q)
    requires q.key !in d.keys && q.metadata.artifact !in d.entries
    ensures
      var stopped, promoted := CommitNew(d, q, f).0, Promoted(d, q);
      stopped == d || stopped == promoted
      || (Free(d, q) && stopped in {Described(promoted, q), MadeVisible(Described(promoted, q), q)})
  {
    PromotedIsBacked(d, q, workspace);
  }

  lemma CommitNewIsSafe(d: Disk, workspace: Id, q: Request, f: Faults)
    requires Backed(d, workspace) && Acceptable(workspace, q)
    requires q.key !in d.keys && q.metadata.artifact !in d.entries
    ensures Backed(CommitNew(d, q, f).0, workspace) && Extends(CommitNew(d, q, f).0, d)
  {
    NewStops(d, workspace, q, f);
    StopIsSafe(d, workspace, q, CommitNew(d, q, f).0, Promoted(d, q));
  }

  lemma StopIsSafe(d: Disk, workspace: Id, q: Request, stopped: Disk, promoted: Disk)
    requires Backed(d, workspace) && Acceptable(workspace, q) && promoted == Promoted(d, q)
    requires q.key !in d.keys && q.metadata.artifact !in d.entries
    requires stopped == d || stopped == promoted
             || (Free(d, q) && stopped in {Described(promoted, q), MadeVisible(Described(promoted, q), q)})
    ensures Backed(stopped, workspace) && Extends(stopped, d)
  {
    PromotedIsBacked(d, q, workspace);
    if stopped != d && stopped != promoted { DescribedIsSafe(d, promoted, workspace, q, stopped, Described(promoted, q)); }
  }

  lemma DescribedIsSafe(d: Disk, promoted: Disk, workspace: Id, q: Request, stopped: Disk, described: Disk)
    requires Backed(promoted, workspace) && Extends(promoted, d) && Acceptable(workspace, q)
    requires ObjectMatches(promoted.objects, q.metadata) && described == Described(promoted, q)
    requires q.key !in promoted.keys && q.metadata.artifact !in promoted.entries
    requires q.metadata.artifact in promoted.files ==> promoted.files[q.metadata.artifact] == q.metadata
    requires stopped == described || stopped == MadeVisible(described, q)
    ensures Backed(stopped, workspace) && Extends(stopped, d)
  {
    DescribedIsBacked(promoted, q, workspace);
    ExtendsOn(described, promoted, d);
    if stopped != described {
      VisibleIsBacked(described, q, workspace);
      ExtendsOn(stopped, described, d);
    }
  }

  lemma CommitIsSafe(d: Disk, workspace: Id, q: Request, f: Faults)
    requires Backed(d, workspace) && Acceptable(workspace, q)
    ensures Backed(Commit(d, workspace, q, f).0, workspace) && Extends(Commit(d, workspace, q, f).0, d)
  {
    if q.key !in d.keys {
      var m := q.metadata;
      if m.artifact !in d.entries {
        CommitNewIsSafe(d, workspace, q, f);
      } else if d.entries[m.artifact] == m && Readable(d.files, d.entries, workspace, m.artifact) {
        VisibleIsBacked(d, q, workspace);
        assert d.entries[m.artifact := m] == d.entries;
      }
    }
  }

  /** Through every history of calls, each of which may be lost at any step,
      every visible row stays backed and nothing is ever overwritten. */
  lemma {:induction false} HistoryIsSafe(d: Disk, workspace: Id, attempts: seq<Attempt>)
    requires Backed(d, workspace)
    ensures Backed(Run(d, workspace, attempts), workspace) && Extends(Run(d, workspace, attempts), d)
  {
    if attempts != [] {
      var n := |attempts| - 1;
      var before := Run(d, workspace, attempts[..n]);
      HistoryIsSafe(d, workspace, attempts[..n]);
      if Acceptable(workspace, attempts[n].request) {
        CommitIsSafe(before, workspace, attempts[n].request, attempts[n].faults);
        ExtendsOn(Run(d, workspace, attempts), before, d);
      }
    }
  }

  /** What a call that nothing befalls returns. `Corrupt` has one cause: a lost
      earlier call left a metadata file for this identifier with other metadata. */
  function Verdict(d: Disk, q: Request): Outcome {
    var m := q.metadata;
    if q.key in d.keys then (if d.keys[q.key].request == m then Stored(m) else Conflict)
    else if m.artifact in d.entries then (if d.entries[m.artifact] == m then Stored(m) else Conflict)
    else if m.artifact in d.files && d.files[m.artifact] != m then Corrupt
    else Stored(m)
  }

  lemma {:induction false} VerdictIsOutcome(d: Disk, workspace: Id, q: Request, f: Faults)
    requires Backed(d, workspace) && Acceptable(workspace, q)
    ensures Commit(d, workspace, q, f).1 == Verdict(d, q) || Commit(d, workspace, q, f).1 == Lost
    ensures Commit(d, workspace, q, FAULTLESS).1 == Verdict(d, q)
    ensures Verdict(d, q) == Stored(q.metadata) ==>
              KeyHolds(Commit(d, workspace, q, FAULTLESS).0.entries, KeyRow(q.metadata, Complete))
  {
    var m := q.metadata;
    if q.key in d.keys {
      assert KeyHolds(d.entries, d.keys[q.key]);
    }
    if m.artifact in d.entries {
      assert Readable(d.files, d.entries, workspace, m.artifact);
      assert ObjectMatches(d.objects, d.files[m.artifact]);
    } else {
      PromotedIsBacked(d, q, workspace);
    }
  }

  /** A key stays bound to the request that was stored under it: whatever
      happens later, another request is refused and the same one answered alike. */
  lemma {:induction false} KeyStaysBound(
    d: Disk, workspace: Id, q: Request, f: Faults, later: seq<Attempt>, again: Request, f': Faults)
    requires Backed(d, workspace) && Acceptable(workspace, q) && Acceptable(workspace, again)
    requires Commit(d, workspace, q, f).1.Stored? && again.key == q.key
    ensures
      var d' := Run(Commit(d, workspace, q, f).0, workspace, later);
      var (d'', outcome) := Commit(d', workspace, again, f');
      && d'' == d'
      && (outcome == Lost || outcome == if again.metadata == q.metadata then Stored(q.metadata) else Conflict)
  {
    var stored := Commit(d, workspace, q, f).0;
    CommitIsSafe(d, workspace, q, f);
    VerdictIsOutcome(d, workspace, q, f);
    StoredBindsKey(d, workspace, q, f);
    HistoryIsSafe(stored, workspace, later);
    VerdictIsOutcome(Run(stored, workspace, later), workspace, again, f');
  }

  lemma StoredBindsKey(d: Disk, workspace: Id, q: Request, f: Faults)
    requires Backed(d, workspace) && Acceptable(workspace, q) && Commit(d, workspace, q, f).1.Stored?
    ensures q.key in Commit(d, workspace, q, f).0.keys
    ensures Commit(d, workspace, q, f).0.keys[q.key].request == q.metadata
    ensures Commit(d, workspace, q, f).1 == Stored(q.metadata)
  {
  }

  /** From the moment its metadata file is linked an artifact is reserved: every
      later state shows that metadata for the identifier, or none. */
  lemma {:induction false} FileReservesIdentifier(d: Disk, workspace: Id, id: Id, later: seq<Attempt>)
    requires Backed(d, workspace) && id in d.files
    ensures
      var d' := Run(d, workspace, later);
      id in d'.entries ==> d'.entries[id] == d.files[id] && ObjectMatches(d'.objects, d.files[id])
  {
    HistoryIsSafe(d, workspace, later);
    var d' := Run(d, workspace, later);
    if id in d'.entries {
      assert Readable(d'.files, d'.entries, workspace, id);
      assert ObjectMatches(d'.objects, d'.files[id]);
    }
  }

  /** One lost call changes nothing of what the same call, made again and left
      alone, achieves. */
  lemma RetryReaches(d: Disk, workspace: Id, q: Request, f: Faults)
    requires Backed(d, workspace) && Acceptable(workspace, q) && Verdict(d, q) == Stored(q.metadata)
    ensures Commit(Commit(d, workspace, q, f).0, workspace, q, FAULTLESS) == Commit(d, workspace, q, FAULTLESS)
  {
    var m := q.metadata;
    var d' := Commit(d, workspace, q, f).0;
    VerdictIsOutcome(d, workspace, q, f);
    CommitIsSafe(d, workspace, q, f);
    VerdictIsOutcome(d', workspace, q, FAULTLESS);
    if q.key !in d.keys && m.artifact !in d.entries && f.begin == Done {
      RetryNew(d, workspace, q, f);
    }
  }

  lemma NewSucceeds(d: Disk, workspace: Id, q: Request)
    requires Backed(d, workspace) && Acceptable(workspace, q) && Free(d, q)
    ensures Commit(d, workspace, q, FAULTLESS) ==
              (MadeVisible(Described(Promoted(d, q), q), q), Stored(q.metadata))
  {
    PromotedIsBacked(d, q, workspace);
  }

  lemma VisibleAnswers(d: Disk, workspace: Id, q: Request)
    requires Backed(d, workspace) && Acceptable(workspace, q) && q.key in d.keys && d.keys[q.key].request == q.metadata
    ensures Commit(d, workspace, q, FAULTLESS) == (d, Stored(q.metadata))
  {
    VerdictIsOutcome(d, workspace, q, FAULTLESS);
  }

  lemma RetryNew(d: Disk, workspace: Id, q: Request, f: Faults)
    requires Backed(d, workspace) && Acceptable(workspace, q) && Free(d, q)
    ensures Commit(CommitNew(d, q, f).0, workspace, q, FAULTLESS) == Commit(d, workspace, q, FAULTLESS)
  {
    var stopped, described := CommitNew(d, q, f).0, Described(Promoted(d, q), q);
    NewStops(d, workspace, q, f);
    NewSucceeds(d, workspace, q);
    CommitNewIsSafe(d, workspace, q, f);
    if stopped == MadeVisible(described, q) {
      VisibleAnswers(stopped, workspace, q);
    } else if stopped != d {
      StepsAreIdempotent(d, q);
      NewSucceeds(stopped, workspace, q);
    }
  }

  lemma StepsAreIdempotent(d: Disk, q: Request)
    requires Free(d, q)
    ensures
      var promoted := Promoted(d, q);
      var described := Described(promoted, q);
      && Free(promoted, q) && Free(described, q)
      && Promoted(promoted, q) == promoted && Promoted(described, q) == described
      && Described(described, q) == described
  {
  }

  function Retries(q: Request, faults: seq<Faults>): seq<Attempt> {
    seq(|faults|, i requires 0 <= i < |faults| => Attempt(q, faults[i]))
  }

  /** Any number of lost calls, then the identical call: the same disk and the
      same answer as if it had succeeded at once. */
  lemma {:induction false} IdenticalRetryConverges(d: Disk, workspace: Id, q: Request, faults: seq<Faults>)
    requires Backed(d, workspace) && Acceptable(workspace, q) && Verdict(d, q) == Stored(q.metadata)
    ensures Commit(Run(d, workspace, Retries(q, faults)), workspace, q, FAULTLESS) ==
              (Commit(d, workspace, q, FAULTLESS).0, Stored(q.metadata))
  {
    VerdictIsOutcome(d, workspace, q, FAULTLESS);
    if faults != [] {
      var n := |faults| - 1;
      var before := Run(d, workspace, Retries(q, faults[..n]));
      assert Retries(q, faults)[..n] == Retries(q, faults[..n]);
      IdenticalRetryConverges(d, workspace, q, faults[..n]);
      HistoryIsSafe(d, workspace, Retries(q, faults[..n]));
      VerdictIsOutcome(before, workspace, q, FAULTLESS);
      RetryReaches(before, workspace, q, faults[n]);
    }
  }

  /** An orphan left by one lost request refuses another for good. */
  lemma OrphanRefusesOthers(workspace: Id, q: Request, other: Request)
    requires Acceptable(workspace, q) && Acceptable(workspace, other)
    requires q.metadata.artifact == other.metadata.artifact && q.metadata != other.metadata
    ensures
      var d := Commit(EMPTY, workspace, q, FAULTLESS.(commit := NotDone)).0;
      d.entries == map[] && Commit(d, workspace, other, FAULTLESS).1 == Corrupt
  {
    var d := Commit(EMPTY, workspace, q, FAULTLESS.(commit := NotDone)).0;
    CommitIsSafe(EMPTY, workspace, q, FAULTLESS.(commit := NotDone));
    VerdictIsOutcome(d, workspace, other, FAULTLESS);
  }

  // ---------------------------------------------------------------- streams

  /** Reads of a stream return at least one byte while any are left, and at
      most as many as asked; `sizes` decides how many. */
  function NextChunk(rest: Bytes, requested: nat, size: nat): (chunk: Bytes)
    requires requested > 0
    ensures chunk <= rest && |chunk| <= requested && (chunk == [] <==> rest == [])
  {
    var most := Min(requested, |rest|);
    var taken := if size < 1 then Min(1, most) else Min(size, most);
    rest[..taken]
  }

  function Min(a: nat, b: nat): nat {
    if a < b then a else b
  }

  datatype Reading = OffsetBeyondLength | EndsTooEarly | Chunks(chunks: seq<Bytes>)

  function From(stored: Bytes, position: nat): Bytes {
    if position <= |stored| then stored[position..] else []
  }

  /** Reads a range chunk by chunk. The object is whatever is stored, however
      short, while the range is measured by its declared length. */
  method ReadRange(stored: Bytes, byteLength: nat, offset: nat, limit: Option<nat>, chunkSize: nat, sizes: nat -> nat)
    returns (r: Reading)
    requires chunkSize > 0
    ensures r.OffsetBeyondLength? <==> offset > byteLength
    ensures offset <= byteLength ==>
      var wanted := if limit.Some? then Min(byteLength - offset, limit.value) else byteLength - offset;
      && (r.Chunks? <==> wanted <= |From(stored, offset)|)
      && (r.Chunks? ==>
            && Concat(r.chunks) == From(stored, offset)[..wanted]
            && forall i :: 0 <= i < |r.chunks| ==> 1 <= |r.chunks[i]| <= chunkSize)
  {
    if offset > byteLength { return OffsetBeyondLength; }
    var read, chunks := 0, [];
    var remaining: nat := if limit.Some? then Min(byteLength - offset, limit.value) else byteLength - offset;
    ghost var wanted, left := remaining, From(stored, offset);
    while remaining > 0
      invariant read <= |left| && read + remaining == wanted
      invariant Concat(chunks) == left[..read]
      invariant forall i :: 0 <= i < |chunks| ==> 1 <= |chunks[i]| <= chunkSize
    {
      var chunk := NextChunk(From(stored, offset + read), Min(chunkSize, remaining), sizes(read));
      FromLater(stored, offset, read);
      if chunk == [] { return EndsTooEarly; }
      ChunkExtends(left, read, chunks, chunk);
      remaining, read, chunks := remaining - |chunk|, read + |chunk|, chunks + [chunk];
    }
    r := Chunks(chunks);
  }

  lemma FromLater(stored: Bytes, offset: nat, read: nat)
    requires read <= |From(stored, offset)|
    ensures From(stored, offset + read) == From(stored, offset)[read..]
  {
  }

  lemma ChunkExtends(left: Bytes, read: nat, chunks: seq<Bytes>, chunk: Bytes)
    requires read <= |left| && Concat(chunks) == left[..read] && chunk <= left[read..]
    ensures Concat(chunks + [chunk]) == left[..read + |chunk|]
  {
    assert (chunks + [chunk])[..|chunks|] == chunks;
    assert left[..read] + chunk == left[..read + |chunk|];
  }

  function Concat(chunks: seq<Bytes>): Bytes {
    if chunks == [] then [] else Concat(chunks[..|chunks| - 1]) + chunks[|chunks| - 1]
  }

  /** Hashes a stream, but no more than one byte beyond the declared length.
      That is enough: the digest and the length are the declared ones exactly
      when the whole object is the declared content. */
  method BoundedDigest(stored: Bytes, m: Metadata, chunkSize: nat, sizes: nat -> nat) returns (digest: Digest, observed: nat)
    requires chunkSize > 0
    ensures observed == Min(|stored|, m.byteLength + 1) && digest == Sha256(stored[..observed])
    ensures digest == m.digest && observed == m.byteLength <==> m.digest == Sha256(stored) && |stored| == m.byteLength
  {
    var hashed := [];
    observed := 0;
    var limit := m.byteLength + 1;
    while observed < limit
      invariant observed <= limit && observed <= |stored| && hashed == stored[..observed]
      decreases limit - observed
    {
      var chunk := NextChunk(stored[observed..], Min(chunkSize, limit - observed), sizes(observed));
      if chunk == [] { break; }
      assert stored[..observed] + chunk == stored[..observed + |chunk|];
      hashed, observed := hashed + chunk, observed + |chunk|;
    }
    digest := Sha256(hashed);
    assert stored[..|stored|] == stored;
  }

  /** Stages an incoming stream under a limit. */
  method Stage(chunks: seq<Bytes>, maxBytes: nat) returns (staged: Result<Bytes>)
    ensures staged == if |Concat(chunks)| <= maxBytes then Ok(Concat(chunks)) else Err
  {
    var content := [];
    for i := 0 to |chunks|
      invariant content == Concat(chunks[..i]) && |content| <= maxBytes
    {
      assert chunks[..i + 1][..i] == chunks[..i];
      if |content| + |chunks[i]| > maxBytes {
        ConcatGrows(chunks, i + 1);
        return Err;
      }
      content := content + chunks[i];
    }
    assert chunks[..|chunks|] == chunks;
    staged := Ok(content);
  }

  lemma {:induction false} ConcatGrows(chunks: seq<Bytes>, i: nat)
    requires i <= |chunks|
    ensures |Concat(chunks[..i])| <= |Concat(chunks)|
    decreases |chunks|
  {
    if i < |chunks| {
      assert chunks[..|chunks| - 1][..i] == chunks[..i];
      ConcatGrows(chunks[..|chunks| - 1], i);
    } else {
      assert chunks[..i] == chunks;
    }
  }
}
