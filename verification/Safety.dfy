/** What every durable write keeps, and what a write does to the reservations. */
module Safety {
  import opened Base
  import opened Accounting
  import opened Lifecycle
  import R = Records

  /** A record at its volume's own id is the only one that holds that name. */
  lemma OnlyHolder(f: Files, x: Id, i: Id)
    requires RecordsOk(f) && NamesOk(f.records)
    requires x in f.records && AliasOf(f.records[x]).None?
    requires i in f.records && Holds(f.records[i], x)
    ensures i == x
  {
    assert RecordOk(f, x);
    assert SameName(f.records[i], f.records[x]);
  }

  lemma CreateOkAt(f: Files, x: Id)
    requires CreatesOk(f)
    ensures x in f.creating ==> CreateOk(f, x)
  {
  }

  lemma ExpandOkAt(f: Files, x: Id)
    requires ExpandsOk(f)
    ensures x in f.expanding ==> ExpandOk(f, x)
  {
  }

  // ---- Payload changes ----

  function WithPayload(f: Files, x: Id, q: Option<Quota>): Files {
    f.(payload := if q.Some? then f.payload[x := q.value] else f.payload - {x})
  }

  /** A pending create makes, bounds or drops its payload; a committed volume's limit is set to what
      it reserves; a delete tombstone allows the removal. */
  predicate PayloadChange(f: Files, x: Id, q: Option<Quota>) {
    || (Pends(f, x) && (q.None? || q == Some(Unlimited) || q == Some(Limit(f.creating[x].size))))
    || (At(f, x, Committed) && q == Some(Limit(Reserved(f, x))))
    || (At(f, x, Deleting) && q.None?)
  }

  lemma PayloadKeepsRecords(f: Files, x: Id, q: Option<Quota>)
    requires RecordsOk(f) && NamesOk(f.records) && CreatesOk(f) && PayloadChange(f, x, q)
    ensures RecordsOk(WithPayload(f, x, q))
  {
    var g := WithPayload(f, x, q);
    CreateOkAt(f, x);
    forall i | i in g.records ensures RecordOk(g, i) {
      assert RecordOk(f, i);
      if Holds(f.records[i], x) && x in f.records {
        OnlyHolder(f, x, i);
      }
    }
  }

  lemma PayloadKeepsIntents(f: Files, x: Id, q: Option<Quota>)
    requires CreatesOk(f) && ExpandsOk(f) && PayloadChange(f, x, q)
    ensures CreatesOk(WithPayload(f, x, q)) && ExpandsOk(WithPayload(f, x, q))
  {
    var g := WithPayload(f, x, q);
    forall y | y in g.creating ensures CreateOk(g, y) {
      assert CreateOk(f, y);
    }
    forall y | y in g.expanding ensures ExpandOk(g, y) {
      assert ExpandOk(f, y);
    }
  }

  lemma PayloadKeepsReleases(f: Files, x: Id, q: Option<Quota>)
    requires CreatesOk(f) && ExpandsOk(f) && ReleasesOk(f) && PayloadChange(f, x, q)
    ensures ReleasesOk(WithPayload(f, x, q))
  {
    var g := WithPayload(f, x, q);
    CreateOkAt(f, x);
    ExpandOkAt(f, x);
    forall i | i in g.records && ReleasedAt(g, i) ensures ReleaseOk(g, i) {
      assert ReleasedAt(f, i) ==> ReleaseOk(f, i);
    }
  }

  lemma PayloadKeepsPayloads(f: Files, x: Id, q: Option<Quota>)
    requires RecordsOk(f) && PayloadsOk(f) && PayloadChange(f, x, q)
    ensures PayloadsOk(WithPayload(f, x, q))
  {
    var g := WithPayload(f, x, q);
    if x in f.records { assert RecordOk(f, x); }
    forall y | y in g.payload ensures Pends(g, y) || Busy(g.records, y) {
      if y == x && x in f.records { assert Holds(f.records[x], x); }
    }
  }

  lemma PayloadKeeps(f: Files, x: Id, q: Option<Quota>)
    requires FilesOk(f) && PayloadChange(f, x, q)
    ensures FilesOk(WithPayload(f, x, q))
  {
    PayloadKeepsRecords(f, x, q);
    PayloadKeepsIntents(f, x, q);
    PayloadKeepsReleases(f, x, q);
    PayloadKeepsPayloads(f, x, q);
  }

  // ---- Intents come and go ----

  /** A create intent may go once its metadata reserves the same bytes, or once its payload is gone. */
  lemma CreateIntentGoes(f: Files, x: Id)
    requires FilesOk(f) && x in f.creating && (x in f.records || x !in f.payload)
    ensures FilesOk(f.(creating := f.creating - {x}))
  {
    CreateIntentGoesRecords(f, x);
    CreateIntentGoesIntents(f, x);
    CreateIntentGoesPayloads(f, x);
  }

  lemma CreateIntentGoesRecords(f: Files, x: Id)
    requires RecordsOk(f) && NamesOk(f.records) && ReleasesOk(f)
    ensures var g := f.(creating := f.creating - {x}); RecordsOk(g) && NamesOk(g.records) && ReleasesOk(g)
  {
    var g := f.(creating := f.creating - {x});
    forall i | i in g.records ensures RecordOk(g, i) { assert RecordOk(f, i); }
    forall i | i in g.records && ReleasedAt(g, i) ensures ReleaseOk(g, i) { assert ReleasedAt(f, i); }
  }

  lemma CreateIntentGoesIntents(f: Files, x: Id)
    requires CreatesOk(f) && ExpandsOk(f)
    ensures CreatesOk(f.(creating := f.creating - {x})) && ExpandsOk(f.(creating := f.creating - {x}))
  {
    var g := f.(creating := f.creating - {x});
    forall y | y in g.creating ensures CreateOk(g, y) { assert CreateOk(f, y); }
    forall y | y in g.expanding ensures ExpandOk(g, y) { assert ExpandOk(f, y); }
  }

  lemma CreateIntentGoesPayloads(f: Files, x: Id)
    requires CreatesOk(f) && PayloadsOk(f) && x in f.creating && (x in f.records || x !in f.payload)
    ensures PayloadsOk(f.(creating := f.creating - {x}))
  {
    var g := f.(creating := f.creating - {x});
    assert CreateOk(f, x);
    if x in f.records {
      assert Holds(f.records[x], x);
    }
    forall y | y in g.payload ensures Pends(g, y) || Busy(g.records, y) {
      assert Pends(f, y) || Busy(f.records, y);
    }
  }

  lemma CreateIntentComes(f: Files, x: Id, size: int, inc: nat)
    requires FilesOk(f) && 0 < size
    requires NotFound(f, x) && Clear(f, x) && x !in f.records && x !in f.expanding && x !in f.payload
    ensures FilesOk(f.(creating := f.creating[x := R.CreationIntent(x, size, inc)]))
  {
    var g := f.(creating := f.creating[x := R.CreationIntent(x, size, inc)]);
    forall i | i in g.records ensures RecordOk(g, i) { assert RecordOk(f, i); }
    forall y | y in g.creating ensures CreateOk(g, y) { if y != x { assert CreateOk(f, y); } }
    forall y | y in g.expanding ensures ExpandOk(g, y) { assert ExpandOk(f, y); }
    forall i | i in g.records && ReleasedAt(g, i) ensures ReleaseOk(g, i) { assert ReleasedAt(f, i); }
    assert NamesOk(g.records);
    assert PayloadsOk(g);
  }

  lemma ExpandIntentGoes(f: Files, x: Id)
    requires FilesOk(f) && x in f.expanding && f.records[x].size == f.expanding[x].toSize
    ensures FilesOk(f.(expanding := f.expanding - {x}))
  {
    var g := f.(expanding := f.expanding - {x});
    forall i | i in g.records ensures RecordOk(g, i) { assert RecordOk(f, i); }
    forall y | y in g.creating ensures CreateOk(g, y) { assert CreateOk(f, y); }
    forall y | y in g.expanding ensures ExpandOk(g, y) { assert ExpandOk(f, y); }
    forall i | i in g.records && ReleasedAt(g, i) ensures ReleaseOk(g, i) { assert ReleasedAt(f, i); }
    assert NamesOk(g.records);
    assert PayloadsOk(g);
  }

  lemma ExpandIntentComes(f: Files, x: Id, fromSize: int, toSize: int)
    requires FilesOk(f) && 0 < fromSize < toSize && Quiet(f, x) && Clear(f, x)
    requires f.records[x].size == fromSize || f.records[x].size == toSize
    ensures FilesOk(f.(expanding := f.expanding[x := R.ExpansionIntent(x, fromSize, toSize)]))
  {
    var g := f.(expanding := f.expanding[x := R.ExpansionIntent(x, fromSize, toSize)]);
    forall i | i in g.records ensures RecordOk(g, i) { assert RecordOk(f, i); }
    forall y | y in g.creating ensures CreateOk(g, y) { assert CreateOk(f, y); }
    forall y | y in g.expanding ensures ExpandOk(g, y) { if y != x { assert ExpandOk(f, y); } }
    forall i | i in g.records && ReleasedAt(g, i) ensures ReleaseOk(g, i) { assert ReleasedAt(f, i); }
    assert NamesOk(g.records);
    assert PayloadsOk(g);
  }

  // ---- Records come, change and go ----

  lemma CommitKeepsRecords(f: Files, x: Id)
    requires RecordsOk(f) && NamesOk(f.records) && CreatesOk(f) && ExpandsOk(f) && CanWrite(f, CommitRecord(x))
    ensures RecordsOk(Apply(f, CommitRecord(x))) && NamesOk(Apply(f, CommitRecord(x)).records)
  {
    var g := Apply(f, CommitRecord(x));
    assert CreateOk(f, x);
    assert x !in f.expanding;
    forall i | i in g.records ensures RecordOk(g, i) { if i != x { assert RecordOk(f, i); } }
    forall i, j | i in g.records && j in g.records && SameName(g.records[i], g.records[j]) ensures i == j {
      if i != x && j != x {
        assert SameName(f.records[i], f.records[j]);
      }
    }
  }

  lemma CommitKeepsIntents(f: Files, x: Id)
    requires CreatesOk(f) && ExpandsOk(f) && ReleasesOk(f) && CanWrite(f, CommitRecord(x))
    ensures var g := Apply(f, CommitRecord(x)); CreatesOk(g) && ExpandsOk(g) && ReleasesOk(g)
  {
    var g := Apply(f, CommitRecord(x));
    forall y | y in g.creating ensures CreateOk(g, y) {
      assert CreateOk(f, y);
      assert Busy(g.records, y) && y != x ==> Busy(f.records, y);
    }
    forall y | y in g.expanding ensures ExpandOk(g, y) { assert ExpandOk(f, y); }
    forall i | i in g.records && ReleasedAt(g, i) ensures ReleaseOk(g, i) { assert ReleasedAt(f, i); }
  }

  lemma CommitKeepsPayloads(f: Files, x: Id)
    requires PayloadsOk(f) && CanWrite(f, CommitRecord(x))
    ensures PayloadsOk(Apply(f, CommitRecord(x)))
  {
    var g := Apply(f, CommitRecord(x));
    forall y | y in g.payload ensures Pends(g, y) || Busy(g.records, y) {
      if y == x {
        assert Holds(g.records[x], x);
      } else if Busy(f.records, y) {
        var i :| i in f.records && Holds(f.records[i], y);
        assert i in g.records && Holds(g.records[i], y);
      }
    }
  }

  lemma ResizeKeepsRecords(f: Files, x: Id)
    requires RecordsOk(f) && NamesOk(f.records) && ExpandsOk(f) && x in f.expanding
    ensures x in f.records
    ensures var g := WithSize(f, x, f.expanding[x].toSize); RecordsOk(g) && NamesOk(g.records)
  {
    assert ExpandOk(f, x);
    var g := WithSize(f, x, f.expanding[x].toSize);
    forall i | i in g.records ensures RecordOk(g, i) { assert RecordOk(f, i); }
    forall i, j | i in g.records && j in g.records && SameName(g.records[i], g.records[j]) ensures i == j {
      assert SameName(f.records[i], f.records[j]);
    }
  }

  lemma ResizeKeepsIntents(f: Files, x: Id)
    requires CreatesOk(f) && ExpandsOk(f) && ReleasesOk(f) && x in f.expanding && At(f, x, Committed)
    ensures var g := WithSize(f, x, f.expanding[x].toSize); CreatesOk(g) && ExpandsOk(g) && ReleasesOk(g)
  {
    assert ExpandOk(f, x);
    var g := WithSize(f, x, f.expanding[x].toSize);
    forall y | y in g.creating ensures CreateOk(g, y) {
      assert CreateOk(f, y);
      assert Busy(g.records, y) ==> Busy(f.records, y);
    }
    forall y | y in g.expanding ensures ExpandOk(g, y) { assert ExpandOk(f, y); }
    forall i | i in g.records && ReleasedAt(g, i) ensures ReleaseOk(g, i) { assert ReleasedAt(f, i); }
  }

  lemma ResizeKeepsPayloads(f: Files, x: Id)
    requires PayloadsOk(f) && x in f.expanding && At(f, x, Committed)
    ensures PayloadsOk(WithSize(f, x, f.expanding[x].toSize))
  {
    var g := WithSize(f, x, f.expanding[x].toSize);
    forall y | y in g.payload ensures Pends(g, y) || Busy(g.records, y) {
      if Busy(f.records, y) {
        var i :| i in f.records && Holds(f.records[i], y);
        assert Holds(g.records[i], y);
      }
    }
  }

  lemma ResizeKeeps(f: Files, x: Id)
    requires FilesOk(f) && x in f.expanding && At(f, x, Committed)
    ensures FilesOk(WithSize(f, x, f.expanding[x].toSize))
  {
    ResizeKeepsRecords(f, x);
    ResizeKeepsIntents(f, x);
    ResizeKeepsPayloads(f, x);
  }

  /** The four ways a record's state moves on. */
  predicate PhaseChange(f: Files, i: Id, phase: Phase) {
    || (Quiet(f, i) && phase == Deleting)
    || (At(f, i, ArchivingAtHome) && i in f.archive && phase == ArchivingMoved)
    || (At(f, i, ArchivingMoved) && phase == Archived)
    || (At(f, i, Archived) && phase == Reclaiming)
  }

  lemma PhaseKeepsRecords(f: Files, i: Id, phase: Phase)
    requires RecordsOk(f) && NamesOk(f.records) && ReleasesOk(f) && PhaseChange(f, i, phase)
    ensures RecordsOk(WithPhase(f, i, phase)) && ReleasesOk(WithPhase(f, i, phase))
  {
    var g := WithPhase(f, i, phase);
    assert RecordOk(f, i);
    forall j | j in g.records ensures RecordOk(g, j) { assert RecordOk(f, j); }
    forall j | j in g.records && ReleasedAt(g, j) ensures ReleaseOk(g, j) {
      assert ReleasedAt(f, j);
    }
  }

  lemma PhaseKeepsNames(f: Files, i: Id, phase: Phase)
    requires NamesOk(f.records) && PhaseChange(f, i, phase)
    ensures NamesOk(WithPhase(f, i, phase).records)
  {
    var g := WithPhase(f, i, phase);
    forall j, k | j in g.records && k in g.records && SameName(g.records[j], g.records[k]) ensures j == k {
      assert SameName(f.records[j], f.records[k]);
    }
  }

  lemma PhaseKeepsIntents(f: Files, i: Id, phase: Phase)
    requires CreatesOk(f) && ExpandsOk(f) && PhaseChange(f, i, phase)
    ensures CreatesOk(WithPhase(f, i, phase)) && ExpandsOk(WithPhase(f, i, phase))
  {
    var g := WithPhase(f, i, phase);
    forall y | y in g.creating ensures CreateOk(g, y) {
      assert CreateOk(f, y);
      assert Busy(g.records, y) ==> Busy(f.records, y);
    }
    forall y | y in g.expanding ensures ExpandOk(g, y) { assert ExpandOk(f, y); }
  }

  lemma PhaseKeepsPayloads(f: Files, i: Id, phase: Phase)
    requires RecordsOk(f) && PayloadsOk(f) && PhaseChange(f, i, phase)
    ensures PayloadsOk(WithPhase(f, i, phase))
  {
    var g := WithPhase(f, i, phase);
    assert RecordOk(f, i);
    forall y | y in g.payload ensures Pends(g, y) || Busy(g.records, y) {
      if Busy(f.records, y) {
        var j :| j in f.records && Holds(f.records[j], y);
        assert RecordOk(f, j);
        assert Holds(g.records[j], y);
      }
    }
  }

  lemma PhaseKeeps(f: Files, i: Id, phase: Phase)
    requires FilesOk(f) && PhaseChange(f, i, phase)
    ensures FilesOk(WithPhase(f, i, phase))
  {
    PhaseKeepsRecords(f, i, phase);
    PhaseKeepsNames(f, i, phase);
    PhaseKeepsIntents(f, i, phase);
    PhaseKeepsPayloads(f, i, phase);
  }

  /** A tombstone may be unlinked once its payload is gone. */
  lemma UnlinkKeepsRecords(f: Files, i: Id)
    requires RecordsOk(f) && NamesOk(f.records) && ReleasesOk(f) && i in f.records && ReleasedAt(f, i)
    ensures var g := f.(records := f.records - {i}); RecordsOk(g) && NamesOk(g.records) && ReleasesOk(g)
  {
    var g := f.(records := f.records - {i});
    forall j | j in g.records ensures RecordOk(g, j) { assert RecordOk(f, j); }
    forall j | j in g.records && ReleasedAt(g, j) ensures ReleaseOk(g, j) { assert ReleasedAt(f, j); }
    assert NamesOk(g.records);
  }

  lemma UnlinkKeepsIntents(f: Files, i: Id)
    requires CreatesOk(f) && ExpandsOk(f) && ReleasesOk(f) && i in f.records && ReleasedAt(f, i)
    ensures var g := f.(records := f.records - {i}); CreatesOk(g) && ExpandsOk(g)
  {
    var g := f.(records := f.records - {i});
    assert ReleaseOk(f, i);
    forall y | y in g.creating ensures CreateOk(g, y) {
      assert CreateOk(f, y);
      assert Busy(g.records, y) ==> Busy(f.records, y);
    }
    forall y | y in g.expanding ensures ExpandOk(g, y) { assert ExpandOk(f, y); }
  }

  lemma UnlinkKeepsPayloads(f: Files, i: Id)
    requires RecordsOk(f) && ReleasesOk(f) && PayloadsOk(f) && i in f.records && ReleasedAt(f, i)
    ensures PayloadsOk(f.(records := f.records - {i}))
  {
    var g := f.(records := f.records - {i});
    assert RecordOk(f, i) && ReleaseOk(f, i);
    forall y | y in g.payload ensures Pends(g, y) || Busy(g.records, y) {
      if Busy(f.records, y) {
        var j :| j in f.records && Holds(f.records[j], y);
        assert j in g.records && Holds(g.records[j], y);
      }
    }
  }

  lemma UnlinkKeeps(f: Files, i: Id)
    requires FilesOk(f) && i in f.records && ReleasedAt(f, i)
    ensures FilesOk(f.(records := f.records - {i}))
  {
    UnlinkKeepsRecords(f, i);
    UnlinkKeepsIntents(f, i);
    UnlinkKeepsPayloads(f, i);
  }

  // ---- Archiving ----

  lemma PrepareKeepsRecords(f: Files, x: Id, name: Id)
    requires RecordsOk(f) && NamesOk(f.records) && ReleasesOk(f) && CanWrite(f, PrepareArchive(x, name))
    ensures RecordsOk(Apply(f, PrepareArchive(x, name))) && NamesOk(Apply(f, PrepareArchive(x, name)).records)
    ensures ReleasesOk(Apply(f, PrepareArchive(x, name)))
  {
    var g := Apply(f, PrepareArchive(x, name));
    assert RecordOk(f, x);
    forall j | j in g.records ensures RecordOk(g, j) { if j != name { assert RecordOk(f, j); } }
    forall j, k | j in g.records && k in g.records && SameName(g.records[j], g.records[k]) ensures j == k {
      var j', k' := if j == name then x else j, if k == name then x else k;
      assert SameName(f.records[j'], f.records[k']);
    }
    forall j | j in g.records && ReleasedAt(g, j) ensures ReleaseOk(g, j) { assert ReleasedAt(f, j); }
  }

  lemma PrepareKeepsIntents(f: Files, x: Id, name: Id)
    requires RecordsOk(f) && CreatesOk(f) && ExpandsOk(f) && CanWrite(f, PrepareArchive(x, name))
    ensures var g := Apply(f, PrepareArchive(x, name)); CreatesOk(g) && ExpandsOk(g)
  {
    var g := Apply(f, PrepareArchive(x, name));
    assert RecordOk(f, x);
    forall y | y in g.creating ensures CreateOk(g, y) {
      assert CreateOk(f, y);
      if Busy(g.records, y) {
        var j :| j in g.records && Holds(g.records[j], y);
        assert Holds(f.records[if j == name then x else j], y);
      }
    }
    forall y | y in g.expanding ensures ExpandOk(g, y) { assert ExpandOk(f, y); }
  }

  lemma PrepareKeepsPayloads(f: Files, x: Id, name: Id)
    requires RecordsOk(f) && PayloadsOk(f) && CanWrite(f, PrepareArchive(x, name))
    ensures PayloadsOk(Apply(f, PrepareArchive(x, name)))
  {
    var g := Apply(f, PrepareArchive(x, name));
    assert RecordOk(f, x);
    forall y | y in g.payload ensures Pends(g, y) || Busy(g.records, y) {
      if Busy(f.records, y) {
        var j :| j in f.records && Holds(f.records[j], y);
        var j' := if j == x then name else j;
        assert j' in g.records && Holds(g.records[j'], y);
      }
    }
  }

  /** While a record holds a volume name, no other does. */
  lemma HolderIsAlone(f: Files, i: Id, j: Id)
    requires NamesOk(f.records) && i in f.records && j in f.records && i != j && Pending(f.records[i].phase)
    ensures !Holds(f.records[j], f.records[i].original)
  {
    assert !SameName(f.records[i], f.records[j]);
  }

  lemma MovePayloadKeepsRecords(f: Files, name: Id)
    requires RecordsOk(f) && NamesOk(f.records) && ReleasesOk(f) && CanWrite(f, MovePayload(name))
    ensures var g := Apply(f, MovePayload(name)); RecordsOk(g) && NamesOk(g.records) && ReleasesOk(g)
  {
    var g := Apply(f, MovePayload(name));
    assert RecordOk(f, name);
    forall j | j in g.records ensures RecordOk(g, j) {
      assert RecordOk(f, j);
      if j != name { HolderIsAlone(f, name, j); }
    }
    forall j | j in g.records && ReleasedAt(g, j) ensures ReleaseOk(g, j) {
      assert RecordOk(f, j);
      if j != name { HolderIsAlone(f, name, j); }
      assert ReleasedAt(f, j);
    }
  }

  lemma MovePayloadKeepsRest(f: Files, name: Id)
    requires RecordsOk(f) && CreatesOk(f) && ExpandsOk(f) && PayloadsOk(f) && CanWrite(f, MovePayload(name))
    ensures var g := Apply(f, MovePayload(name)); CreatesOk(g) && ExpandsOk(g) && PayloadsOk(g)
  {
    var g := Apply(f, MovePayload(name));
    forall y | y in g.creating ensures CreateOk(g, y) { assert CreateOk(f, y); }
    forall y | y in g.expanding ensures ExpandOk(g, y) { assert ExpandOk(f, y); }
    assert PayloadsOk(g);
  }

  lemma RemoveArchiveKeepsRecords(f: Files, name: Id)
    requires RecordsOk(f) && NamesOk(f.records) && ReleasesOk(f)
    requires CanWrite(f, RemoveArchive(name)) && ReleaseOk(f, name)
    ensures var g := Apply(f, RemoveArchive(name)); RecordsOk(g) && NamesOk(g.records) && ReleasesOk(g)
  {
    var g := Apply(f, RemoveArchive(name));
    forall j | j in g.records ensures RecordOk(g, j) { assert RecordOk(f, j); }
    forall j | j in g.records && ReleasedAt(g, j) ensures ReleaseOk(g, j) {
      if j != name { assert ReleasedAt(f, j); }
    }
  }

  lemma RemoveArchiveKeepsRest(f: Files, name: Id)
    requires CreatesOk(f) && ExpandsOk(f) && PayloadsOk(f) && CanWrite(f, RemoveArchive(name))
    ensures var g := Apply(f, RemoveArchive(name)); CreatesOk(g) && ExpandsOk(g) && PayloadsOk(g)
  {
    var g := Apply(f, RemoveArchive(name));
    forall y | y in g.creating ensures CreateOk(g, y) { assert CreateOk(f, y); }
    forall y | y in g.expanding ensures ExpandOk(g, y) { assert ExpandOk(f, y); }
    assert PayloadsOk(g);
  }

  lemma CreateWriteKeepsFiles(f: Files, w: Write)
    requires FilesOk(f) && CanWrite(f, w)
    requires w.MakePayload? || w.LimitPayload? || w.CommitRecord? || w.FinishCreate? || w.RemovePending?
    ensures FilesOk(Apply(f, w))
  {
    match w
    case MakePayload(x) => PayloadKeeps(f, x, Some(Unlimited));
    case LimitPayload(x) => PayloadKeeps(f, x, Some(Limit(f.creating[x].size)));
    case CommitRecord(x) =>
      CommitKeepsRecords(f, x);
      CommitKeepsIntents(f, x);
      CommitKeepsPayloads(f, x);
    case FinishCreate(x) => CreateIntentGoes(f, x);
    case RemovePending(x) => PayloadKeeps(f, x, None);
  }

  lemma ExpandWriteKeepsFiles(f: Files, w: Write)
    requires FilesOk(f) && CanWrite(f, w) && Current(f, w)
    requires w.ApplyQuota? || w.GrowRecord? || w.AbsorbExpand? || w.FinishExpand?
    ensures FilesOk(Apply(f, w))
  {
    match w
    case ApplyQuota(x, bytes) => PayloadKeeps(f, x, Some(Limit(bytes)));
    case GrowRecord(x, _) => ResizeKeeps(f, x);
    case AbsorbExpand(x) => ResizeKeeps(f, x);
    case FinishExpand(x) => ExpandIntentGoes(f, x);
  }

  lemma ArchiveWriteKeepsFiles(f: Files, w: Write)
    requires FilesOk(f) && CanWrite(f, w)
    requires w.PrepareArchive? || w.MovePayload? || w.MoveRecord? || w.SealArchive? || w.MarkReclaiming?
    ensures FilesOk(Apply(f, w))
  {
    match w
    case PrepareArchive(x, name) =>
      PrepareKeepsRecords(f, x, name);
      PrepareKeepsIntents(f, x, name);
      PrepareKeepsPayloads(f, x, name);
    case MovePayload(name) =>
      MovePayloadKeepsRecords(f, name);
      MovePayloadKeepsRest(f, name);
    case MoveRecord(name) => PhaseKeeps(f, name, ArchivingMoved);
    case SealArchive(name) => PhaseKeeps(f, name, Archived);
    case MarkReclaiming(name) => PhaseKeeps(f, name, Reclaiming);
  }

  lemma RemovePayloadKeeps(f: Files, x: Id)
    requires FilesOk(f) && CanWrite(f, RemovePayload(x))
    ensures FilesOk(Apply(f, RemovePayload(x)))
  {
    PayloadKeeps(f, x, None);
  }

  lemma RemoveArchiveKeeps(f: Files, name: Id)
    requires FilesOk(f) && CanWrite(f, RemoveArchive(name)) && ReleaseOk(f, name)
    ensures FilesOk(Apply(f, RemoveArchive(name)))
  {
    RemoveArchiveKeepsRecords(f, name);
    RemoveArchiveKeepsRest(f, name);
  }

  lemma RemovalKeepsFiles(f: Files, w: Write)
    requires FilesOk(f) && CanWrite(f, w)
    requires w.MarkDeleting? || w.RemovePayload? || w.UnlinkRecord? || w.RemoveArchive? || w.UnlinkArchive?
    requires w.RemoveArchive? ==> ReleaseOk(f, w.name)
    ensures FilesOk(Apply(f, w))
  {
    match w
    case MarkDeleting(x) => PhaseKeeps(f, x, Deleting);
    case RemovePayload(x) => RemovePayloadKeeps(f, x);
    case UnlinkRecord(x) => UnlinkKeeps(f, x);
    case RemoveArchive(name) => RemoveArchiveKeeps(f, name);
    case UnlinkArchive(name) => UnlinkKeeps(f, name);
  }

  /** Every write keeps the files consistent, those of an expansion as long as they are current. */
  lemma WriteKeepsFiles(f: Files, w: Write)
    requires FilesOk(f) && CanWrite(f, w) && Current(f, w)
    requires w.RemoveArchive? ==> ReleaseOk(f, w.name)
    ensures FilesOk(Apply(f, w))
  {
    if w.PrepareArchive? || w.MovePayload? || w.MoveRecord? || w.SealArchive? || w.MarkReclaiming? {
      ArchiveWriteKeepsFiles(f, w);
    } else if w.MarkDeleting? || w.RemovePayload? || w.UnlinkRecord? || w.RemoveArchive? || w.UnlinkArchive? {
      RemovalKeepsFiles(f, w);
    } else if w.ApplyQuota? || w.GrowRecord? || w.AbsorbExpand? || w.FinishExpand? {
      ExpandWriteKeepsFiles(f, w);
    } else {
      CreateWriteKeepsFiles(f, w);
    }
  }

  // ---- What each write does to the durable reservations ----

  /** A reservation is renamed by the archive name and dropped with the payload; nothing else moves it. */
  function DurableAfter(f: Files, w: Write): map<Id, int>
    requires CanWrite(f, w)
  {
    match w
    case PrepareArchive(x, name) => (Durable(f) - {x})[name := f.records[x].size]
    case RemovePayload(x) => Durable(f) - {x}
    case RemoveArchive(name) => Durable(f) - {name}
    case _ => Durable(f)
  }

  /** What the consistency of the files says about the one place a write touches. */
  predicate SubjectOk(f: Files, w: Write)
    requires CanWrite(f, w)
  {
    match w
    case ApplyQuota(x, _) => At(f, x, Committed)
    case GrowRecord(x, _) => x in f.expanding
    case FinishExpand(x) => x !in f.creating && At(f, x, Committed) && f.records[x].size == f.expanding[x].toSize
    case RemovePayload(x) => x !in f.creating && x !in f.expanding
    case MarkDeleting(x) => x in f.payload
    case MovePayload(name) => !At(f, f.records[name].original, Deleting)
    case MarkReclaiming(name) => name in f.archive
    case RemoveArchive(name) => name !in f.creating && name !in f.expanding
    case _ => true
  }

  lemma FilesOkSubject(f: Files, w: Write)
    requires FilesOk(f) && CanWrite(f, w) && Current(f, w)
    requires w.RemoveArchive? ==> ReleaseOk(f, w.name)
    ensures SubjectOk(f, w)
  {
    match w
    case FinishExpand(x) => assert ExpandOk(f, x);
    case RemovePayload(x) =>
      CreateOkAt(f, x);
      ExpandOkAt(f, x);
    case MarkDeleting(x) => assert RecordOk(f, x);
    case MovePayload(name) =>
      var x := f.records[name].original;
      if At(f, x, Deleting) && x != name {
        assert RecordOk(f, x);
        assert SameName(f.records[name], f.records[x]);
      }
    case MarkReclaiming(name) => assert RecordOk(f, name);
    case _ =>
  }

  /** A write renames a reservation, drops one, or leaves every one of them alone. */
  lemma ReservationAfter(f: Files, w: Write, k: Id)
    requires CanWrite(f, w) && SubjectOk(f, w)
    ensures Reservation(Apply(f, w), k) ==
            match w
            case PrepareArchive(x, name) => if k == name then Reservation(f, x)
                                         else if k == x then None
                                         else Reservation(f, k)
            case RemovePayload(x) => if k == x then None else Reservation(f, k)
            case RemoveArchive(name) => if k == name then None else Reservation(f, k)
            case _ => Reservation(f, k)
  {
  }

  lemma DurableEffect(f: Files, w: Write)
    requires CanWrite(f, w) && SubjectOk(f, w)
    ensures Durable(Apply(f, w)) == DurableAfter(f, w)
  {
    var g := Apply(f, w);
    forall k ensures k in Durable(f) <==> Reservation(f, k).Some? {}
    forall k ensures k in Durable(g) <==> Reservation(g, k).Some? {}
    forall k
      ensures k in Durable(g) <==> k in DurableAfter(f, w)
      ensures k in Durable(g) ==> Durable(g)[k] == DurableAfter(f, w)[k]
    {
      ReservationAfter(f, w, k);
    }
  }

  lemma DurableNeverGrows(f: Files, w: Write)
    requires CanWrite(f, w) && SubjectOk(f, w) && ValidRows(Durable(f))
    ensures Sum(Durable(Apply(f, w))) <= Sum(Durable(f))
  {
    DurableEffect(f, w);
    match w
    case PrepareArchive(x, name) =>
      assert Reservation(f, x) == Some(f.records[x].size) && Reservation(f, name) == None;
      SumRekey(Durable(f), x, name);
    case RemovePayload(x) => SumCovers(Durable(f) - {x}, Durable(f));
    case RemoveArchive(name) => SumCovers(Durable(f) - {name}, Durable(f));
    case _ =>
  }

  lemma DurableIsPositive(f: Files)
    requires FilesOk(f)
    ensures ValidRows(Durable(f))
  {
    forall k | k in Durable(f) ensures 0 < Durable(f)[k] {
      CreateOkAt(f, k);
      ExpandOkAt(f, k);
      assert k in f.records ==> RecordOk(f, k);
    }
  }
}
