/** The fast index against the simple truth: what the capacity walk makes of a pool's files. */
module Admission {
  import opened Base
  import opened Accounting
  import opened Lifecycle
  import R = Records
  import B = Rebuild
  import Safety

  // ---- Any order of the walk gives the pool's records ----

  /** One file met by `os.walk` below `info`. */
  datatype FileRef = RecordFile(id: Id) | CreateIntentFile(id: Id) | ExpandIntentFile(id: Id) | UnrelatedFile

  predicate Exists(f: Files, r: FileRef) {
    match r
    case RecordFile(i) => i in f.records
    case CreateIntentFile(x) => x in f.creating
    case ExpandIntentFile(x) => x in f.expanding
    case UnrelatedFile => true
  }

  /** The walk meets every metadata file and intent exactly once, in some order. */
  ghost predicate IsWalk(f: Files, order: seq<FileRef>)
  {
    && (forall r :: r in order ==> Exists(f, r))
    && (forall r :: Exists(f, r) && r != UnrelatedFile ==> r in order)
    && (forall i, j :: 0 <= i < j < |order| && order[i] == order[j] ==> order[i] == UnrelatedFile)
  }

  function EntryOf(f: Files, r: FileRef): R.Entry
    requires Exists(f, r)
  {
    match r
    case RecordFile(i) =>
      var m := f.records[i];
      R.MetadataFile(m.size, Some(R.Identity(i, AliasOf(m))), StateOf(m.phase), Some(!ReleasedAt(f, i)))
    case CreateIntentFile(x) => R.CreateFile(Some(f.creating[x]))
    case ExpandIntentFile(x) => R.ExpandFile(Some(f.expanding[x]))
    case UnrelatedFile => R.OtherFile
  }

  function EntriesOf(f: Files, order: seq<FileRef>): seq<R.Entry>
    requires forall r :: r in order ==> Exists(f, r)
  {
    seq(|order|, k requires 0 <= k < |order| => EntryOf(f, order[k]))
  }

  /** Every file passes its own validation: sizes are positive, intents carry their own id. */
  ghost predicate EntriesValid(f: Files)
  {
    && (forall i :: i in f.records ==> 0 < f.records[i].size)
    && (forall x :: x in f.creating ==> f.creating[x].id == x && 0 < f.creating[x].size)
    && (forall x :: x in f.expanding ==> f.expanding[x].id == x && 0 < f.expanding[x].fromSize < f.expanding[x].toSize)
  }

  lemma FilesOkValid(f: Files)
    requires FilesOk(f)
    ensures EntriesValid(f)
  {
    forall i | i in f.records ensures 0 < f.records[i].size { assert RecordOk(f, i); }
    forall x | x in f.creating ensures f.creating[x].id == x && 0 < f.creating[x].size { assert CreateOk(f, x); }
    forall x | x in f.expanding
      ensures f.expanding[x].id == x && 0 < f.expanding[x].fromSize < f.expanding[x].toSize
    {
      assert ExpandOk(f, x);
    }
  }

  // What the scan holds after the files in `seen`, part by part.

  function Seen(f: Files, seen: set<FileRef>): set<Id> {
    set i | i in f.records && RecordFile(i) in seen
  }

  function SeenCommitted(f: Files, seen: set<FileRef>): map<Id, int> {
    map i | i in Seen(f, seen) && !ReleasedAt(f, i) :: f.records[i].size
  }

  function SeenAliases(f: Files, seen: set<FileRef>): map<Id, set<Id>> {
    map i | i in Seen(f, seen) && !ReleasedAt(f, i) && AliasOf(f.records[i]).Some? :: {AliasOf(f.records[i]).value}
  }

  function SeenTombstones(f: Files, seen: set<FileRef>): set<Id> {
    (set i | i in Seen(f, seen) && ReleasedAt(f, i))
    + (set i | i in Seen(f, seen) && ReleasedAt(f, i) && AliasOf(f.records[i]).Some? :: AliasOf(f.records[i]).value)
  }

  function SeenCreations(f: Files, seen: set<FileRef>): map<Id, R.CreationIntent> {
    map x | x in f.creating && CreateIntentFile(x) in seen :: f.creating[x]
  }

  function SeenExpansions(f: Files, seen: set<FileRef>): map<Id, R.ExpansionIntent> {
    map x | x in f.expanding && ExpandIntentFile(x) in seen :: f.expanding[x]
  }

  function PartialScan(f: Files, seen: set<FileRef>): R.Scan {
    R.Scan(SeenCommitted(f, seen), SeenAliases(f, seen), SeenTombstones(f, seen), Seen(f, seen),
           SeenCreations(f, seen), SeenExpansions(f, seen))
  }

  lemma SeeCommitted(f: Files, seen: set<FileRef>, i: Id)
    requires i in f.records
    ensures SeenCommitted(f, seen + {RecordFile(i)}) ==
            if ReleasedAt(f, i) then SeenCommitted(f, seen) else SeenCommitted(f, seen)[i := f.records[i].size]
  {
    assert Seen(f, seen + {RecordFile(i)}) == Seen(f, seen) + {i};
  }

  lemma SeeAlias(f: Files, seen: set<FileRef>, i: Id)
    requires i in f.records
    ensures SeenAliases(f, seen + {RecordFile(i)}) ==
            if ReleasedAt(f, i) || AliasOf(f.records[i]).None? then SeenAliases(f, seen)
            else SeenAliases(f, seen)[i := {AliasOf(f.records[i]).value}]
  {
    assert Seen(f, seen + {RecordFile(i)}) == Seen(f, seen) + {i};
  }

  lemma SeeTombstone(f: Files, seen: set<FileRef>, i: Id)
    requires i in f.records
    ensures SeenTombstones(f, seen + {RecordFile(i)}) ==
            if !ReleasedAt(f, i) then SeenTombstones(f, seen)
            else if AliasOf(f.records[i]).None? then SeenTombstones(f, seen) + {i}
            else SeenTombstones(f, seen) + {i} + {AliasOf(f.records[i]).value}
  {
    assert Seen(f, seen + {RecordFile(i)}) == Seen(f, seen) + {i};
  }

  lemma SeeIntent(f: Files, seen: set<FileRef>, r: FileRef)
    requires Exists(f, r) && (r.CreateIntentFile? || r.ExpandIntentFile?)
    ensures var s, t := PartialScan(f, seen), PartialScan(f, seen + {r});
            t == if r.CreateIntentFile? then s.(creations := s.creations[r.id := f.creating[r.id]])
                 else s.(expansions := s.expansions[r.id := f.expanding[r.id]])
  {
    assert Seen(f, seen + {r}) == Seen(f, seen);
  }

  lemma AbsorbRecord(f: Files, seen: set<FileRef>, i: Id)
    requires EntriesValid(f) && i in f.records && RecordFile(i) !in seen
    ensures var s, e := PartialScan(f, seen), EntryOf(f, RecordFile(i));
            R.Sound(e) && R.IsNew(s, e) && R.Absorb(s, e) == PartialScan(f, seen + {RecordFile(i)})
  {
    var r := RecordFile(i);
    SeeCommitted(f, seen, i);
    SeeAlias(f, seen, i);
    SeeTombstone(f, seen, i);
    assert Seen(f, seen + {r}) == Seen(f, seen) + {i};
    assert SeenCreations(f, seen + {r}) == SeenCreations(f, seen);
    assert SeenExpansions(f, seen + {r}) == SeenExpansions(f, seen);
  }

  lemma AbsorbFile(f: Files, seen: set<FileRef>, r: FileRef)
    requires EntriesValid(f) && Exists(f, r) && r !in seen && r != UnrelatedFile
    ensures var s, e := PartialScan(f, seen), EntryOf(f, r);
            R.Sound(e) && R.IsNew(s, e) && R.Absorb(s, e) == PartialScan(f, seen + {r})
  {
    match r
    case RecordFile(i) => AbsorbRecord(f, seen, i);
    case CreateIntentFile(x) => SeeIntent(f, seen, r);
    case ExpandIntentFile(x) => SeeIntent(f, seen, r);
  }

  lemma ScanOfOneMore(f: Files, before: seq<FileRef>, r: FileRef)
    requires EntriesValid(f) && Exists(f, r) && (forall q :: q in before ==> Exists(f, q))
    requires r == UnrelatedFile || r !in before
    requires R.ScanOf(EntriesOf(f, before)) == Success(PartialScan(f, Met(before)))
    ensures R.ScanOf(EntriesOf(f, before) + [EntryOf(f, r)]) == Success(PartialScan(f, Met(before + [r])))
  {
    R.ScanOfNext(EntriesOf(f, before), EntryOf(f, r));
    FilesMet(before, r);
    if r != UnrelatedFile {
      AbsorbFile(f, Met(before), r);
    }
  }

  lemma {:induction false} ScanOfPrefix(f: Files, order: seq<FileRef>)
    requires EntriesValid(f) && forall r :: r in order ==> Exists(f, r)
    requires forall i, j :: 0 <= i < j < |order| && order[i] == order[j] ==> order[i] == UnrelatedFile
    ensures R.ScanOf(EntriesOf(f, order)) == Success(PartialScan(f, Met(order)))
    decreases |order|
  {
    if order == [] {
      assert EntriesOf(f, order) == [] && Met(order) == {};
      assert PartialScan(f, {}) == R.NOTHING;
    } else {
      var before, r := order[..|order| - 1], order[|order| - 1];
      assert order == before + [r];
      ScanOfPrefix(f, before);
      assert r in before ==> r == UnrelatedFile;
      ScanOfOneMore(f, before, r);
      assert EntriesOf(f, order) == EntriesOf(f, before) + [EntryOf(f, r)];
    }
  }

  function Met(order: seq<FileRef>): set<FileRef> {
    (set r | r in order) - {UnrelatedFile}
  }

  lemma FilesMet(before: seq<FileRef>, r: FileRef)
    ensures Met(before + [r]) == if r == UnrelatedFile then Met(before) else Met(before) + {r}
  {
    assert forall q :: q in before + [r] <==> q in before || q == r;
  }

  lemma SeeingAll(f: Files, seen: set<FileRef>)
    requires forall r :: Exists(f, r) && r != UnrelatedFile ==> r in seen
    ensures PartialScan(f, seen) == PoolScan(f)
  {
    assert Seen(f, seen) == f.records.Keys by {
      forall i | i in f.records ensures RecordFile(i) in seen { assert Exists(f, RecordFile(i)); }
    }
    assert SeenCreations(f, seen) == f.creating by {
      forall x | x in f.creating ensures CreateIntentFile(x) in seen { assert Exists(f, CreateIntentFile(x)); }
    }
    assert SeenExpansions(f, seen) == f.expanding by {
      forall x | x in f.expanding ensures ExpandIntentFile(x) in seen { assert Exists(f, ExpandIntentFile(x)); }
    }
  }

  /** Whatever order `os.walk` chooses, the code computes the same records of the pool. */
  lemma WalkOrderIsIrrelevant(f: Files, order: seq<FileRef>)
    requires EntriesValid(f) && IsWalk(f, order)
    ensures R.Parse(EntriesOf(f, order)) == CapacityRecordsOf(f)
  {
    ScanOfPrefix(f, order);
    SeeingAll(f, Met(order));
  }

  // ---- What the code reserves, against what the files stand for ----

  lemma ClearIsUntombstoned(f: Files, x: Id)
    ensures Clear(f, x) <==> x !in Tombstones(f)
  {
  }

  /** The code's own reservation for one id: intents of tombstoned ids are skipped. */
  function CodeReservation(f: Files, k: Id): Option<int> {
    if k in f.expanding && k !in Tombstones(f) then Some(f.expanding[k].toSize)
    else if k in f.creating && k !in Tombstones(f) then Some(f.creating[k].size)
    else if k in CommittedSizes(f) then Some(CommittedSizes(f)[k])
    else None
  }

  lemma CodeReserves(f: Files, k: Id)
    requires Parses(f)
    ensures var reserved := CapacityRecordsOf(f).value.reservations;
            && (k in reserved <==> CodeReservation(f, k).Some?)
            && (k in reserved ==> reserved[k] == CodeReservation(f, k).value)
  {
  }

  lemma ReservationsArePositive(f: Files)
    requires EntriesValid(f) && Parses(f)
    ensures ValidRows(CapacityRecordsOf(f).value.reservations)
  {
    var reserved := CapacityRecordsOf(f).value.reservations;
    forall k | k in reserved ensures 0 < reserved[k] {
      CodeReserves(f, k);
    }
  }

  /** An intent the tombstones hide although its bytes are not committed either. */
  predicate HiddenIntent(f: Files, k: Id) {
    && k in Tombstones(f) && (k in f.creating || k in f.expanding)
    && !(k in CommittedSizes(f) && Some(CommittedSizes(f)[k]) == Reservation(f, k))
  }

  /** The walk reserves exactly what the files stand for if and only if no tombstone hides an intent. */
  lemma ReservationsAreDurableIff(f: Files)
    requires Parses(f)
    ensures CapacityRecordsOf(f).value.reservations == Durable(f) <==> forall k :: !HiddenIntent(f, k)
  {
    var reserved := CapacityRecordsOf(f).value.reservations;
    forall k
      ensures (k in reserved <==> CodeReservation(f, k).Some?)
              && (k in reserved ==> reserved[k] == CodeReservation(f, k).value)
      ensures k in Durable(f) <==> Reservation(f, k).Some?
      ensures HiddenIntent(f, k) <==> CodeReservation(f, k) != Reservation(f, k)
    {
      CodeReserves(f, k);
    }
    if exists k :: HiddenIntent(f, k) {
      var k :| HiddenIntent(f, k);
      assert CodeReservation(f, k) != Reservation(f, k);
    }
  }

  /** In consistent files nothing is hidden and the walk succeeds: what the code calls reserved
      is exactly what the files stand for. */
  lemma ConsistentFilesParse(f: Files)
    requires FilesOk(f)
    ensures Parses(f) && CapacityRecordsOf(f).value.reservations == Durable(f)
  {
    IntentsUntombstoned(f);
    IntentsAgree(f);
    ReservationsAreDurableIff(f);
  }

  lemma IntentsUntombstoned(f: Files)
    requires ReleasesOk(f)
    ensures forall x :: x in f.creating || x in f.expanding ==> x !in Tombstones(f)
  {
    forall x | x in f.creating || x in f.expanding ensures x !in Tombstones(f) {
      assert Clear(f, x);
      ClearIsUntombstoned(f, x);
    }
  }

  lemma IntentsAgree(f: Files)
    requires CreatesOk(f) && ExpandsOk(f)
    ensures Parses(f)
  {
    var s := PoolScan(f);
    forall x | x in s.creations ensures R.CreationAgrees(s.committed, s.tombstones, x, s.creations[x]) {
      assert CreateOk(f, x);
    }
    forall x | x in s.expansions ensures R.ExpansionAgrees(R.WithCreations(s), s.tombstones, x, s.expansions[x]) {
      assert ExpandOk(f, x);
    }
  }

  /** Before every admission the rebuilt rows charge at least the durable sum, and each reserved id in full. */
  lemma WorkingCoversDurable(f: Files, rows: map<Id, int>)
    requires FilesOk(f) && ValidRows(rows)
    ensures Parses(f) && ValidRows(Working(f, rows))
    ensures Sum(Durable(f)) <= Sum(Working(f, rows))
    ensures forall k :: k in Durable(f) ==> k in Working(f, rows) && Working(f, rows)[k] == Durable(f)[k]
  {
    ConsistentFilesParse(f);
    Safety.DurableIsPositive(f);
    B.RebuiltCovers(rows, CapacityRecordsOf(f).value);
  }
}
