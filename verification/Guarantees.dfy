/** What a pool's users can rely on at every moment of every history. */
module Guarantees {
  import opened Base
  import opened Accounting
  import opened Lifecycle
  import opened Paths
  import B = Rebuild
  import Safety
  import Admission
  import Runs

  /** The bytes the files stand for never exceed the pool, every walk of the pool succeeds, and the
      rebuilt index always charges at least that much. */
  lemma NoOvercommit(total: int, path: seq<System>, plan: seq<Action>, i: nat)
    requires IsHistory(total, path, plan) && i <= |plan|
    ensures var s := path[i];
            && Sum(Durable(s.files)) <= total
            && Parses(s.files)
            && CapacityRecordsOf(s.files).value.reservations == Durable(s.files)
            && Sum(Durable(s.files)) <= Sum(Working(s.files, s.stats))
  {
    Runs.HistoryIsConsistent(total, path, plan, i);
    Runs.HistoryKeepsTotal(total, path, plan, i);
    Admission.ConsistentFilesParse(path[i].files);
    Admission.WorkingCoversDurable(path[i].files, path[i].stats);
  }

  // ---- Enforced limits ----

  /** Where payload bytes can be. */
  datatype Place = Home(id: Id) | InArchive(id: Id)

  function LimitAt(f: Files, at: Place): Option<int> {
    match at
    case Home(x) => if x in f.payload && f.payload[x].Limit? then Some(f.payload[x].bytes) else None
    case InArchive(n) => if n in f.archive && f.archive[n].Limit? then Some(f.archive[n].bytes) else None
  }

  function Places(f: Files): set<Place> {
    (set x | x in f.payload :: Home(x)) + (set n | n in f.archive :: InArchive(n))
  }

  function EnforcedLimits(f: Files): map<Place, int> {
    map at | at in Places(f) && LimitAt(f, at).Some? :: LimitAt(f, at).value
  }

  /** The reservation that pays for a payload. */
  ghost function PaidBy(f: Files, at: Place): Id
    requires FilesOk(f) && at in Places(f)
  {
    match at
    case InArchive(n) => n
    case Home(x) =>
      if Pends(f, x) || (x in f.records && AliasOf(f.records[x]).None?) then x else
        HolderExists(f, x);
        var i :| i in f.records && Holds(f.records[i], x);
        i
  }

  lemma HolderExists(f: Files, x: Id)
    requires PayloadsOk(f) && x in f.payload && !Pends(f, x)
    ensures exists i :: i in f.records && Holds(f.records[i], x)
  {
  }

  /** Every payload, active or archived, has a durable reservation at least as large as its limit. */
  lemma PaidInFull(f: Files, at: Place)
    requires FilesOk(f) && at in Places(f)
    ensures PaidBy(f, at) in Durable(f)
    ensures LimitAt(f, at).Some? ==> LimitAt(f, at).value <= Durable(f)[PaidBy(f, at)]
  {
    var i := PaidBy(f, at);
    Safety.CreateOkAt(f, i);
    Safety.ExpandOkAt(f, i);
    if i in f.records { assert RecordOk(f, i); }
    assert Reservation(f, i).Some?;
  }

  /** No reservation pays for two payloads. */
  lemma PaidOnce(f: Files, a: Place, b: Place)
    requires FilesOk(f) && a in Places(f) && b in Places(f) && PaidBy(f, a) == PaidBy(f, b)
    ensures a == b
  {
    var i := PaidBy(f, a);
    Safety.CreateOkAt(f, i);
    if i in f.records { assert RecordOk(f, i); }
  }

  /** These reservations pay for the payloads, each for at most one, and none for less than its limit. */
  ghost predicate Pays(f: Files, paidBy: map<Place, Id>)
  {
    && paidBy.Keys == Places(f)
    && (forall at :: at in paidBy ==>
          paidBy[at] in Durable(f) && (LimitAt(f, at).Some? ==> LimitAt(f, at).value <= Durable(f)[paidBy[at]]))
    && forall a, b :: a in paidBy && b in paidBy && paidBy[a] == paidBy[b] ==> a == b
  }

  lemma PaidByPays(f: Files)
    requires FilesOk(f)
    ensures exists paidBy :: Pays(f, paidBy)
  {
    var paidBy := map at | at in Places(f) :: PaidBy(f, at);
    forall at | at in paidBy
      ensures paidBy[at] in Durable(f) && (LimitAt(f, at).Some? ==> LimitAt(f, at).value <= Durable(f)[paidBy[at]])
    {
      PaidInFull(f, at);
    }
    forall a, b | a in paidBy && b in paidBy && paidBy[a] == paidBy[b] ensures a == b {
      PaidOnce(f, a, b);
    }
    assert Pays(f, paidBy);
  }

  /** Each payload, active or archived, has a durable reservation of its own, at least as large as the
      limit enforced on it. */
  lemma EveryPayloadIsPaid(total: int, path: seq<System>, plan: seq<Action>, i: nat)
    requires IsHistory(total, path, plan) && i <= |plan|
    ensures exists paidBy :: Pays(path[i].files, paidBy)
  {
    Runs.HistoryIsConsistent(total, path, plan, i);
    PaidByPays(path[i].files);
  }

  lemma PaidLimitsFit(f: Files, paidBy: map<Place, Id>)
    requires ValidRows(Durable(f)) && Pays(f, paidBy)
    ensures Sum(EnforcedLimits(f)) <= Sum(Durable(f))
  {
    SumCoversAlong(EnforcedLimits(f), Durable(f), paidBy);
  }

  lemma LimitsAreReserved(f: Files)
    requires FilesOk(f)
    ensures Sum(EnforcedLimits(f)) <= Sum(Durable(f))
  {
    Safety.DurableIsPositive(f);
    PaidByPays(f);
    var paidBy :| Pays(f, paidBy);
    PaidLimitsFit(f, paidBy);
  }

  /** Enforced quotas and file sizes, active and archived, never sum to more than the pool. */
  lemma LimitsFitThePool(total: int, path: seq<System>, plan: seq<Action>, i: nat)
    requires IsHistory(total, path, plan) && i <= |plan|
    ensures Sum(EnforcedLimits(path[i].files)) <= total
  {
    Runs.HistoryIsConsistent(total, path, plan, i);
    Runs.HistoryKeepsTotal(total, path, plan, i);
    LimitsAreReserved(path[i].files);
  }

  // ---- Sizes never shrink ----

  lemma StepNeverShrinks(s: System, a: Action, i: Id)
    requires ExpandsOk(s.files) && Enabled(s, a) && Assumed(s, a)
    requires i in s.files.records && i in Next(s, a).files.records
    ensures s.files.records[i].size <= Next(s, a).files.records[i].size
  {
    if a.Do? {
      Safety.ExpandOkAt(s.files, i);
      WriteNeverShrinks(s.files, a.w, i);
    }
  }

  lemma WriteNeverShrinks(f: Files, w: Write, i: Id)
    requires CanWrite(f, w) && Current(f, w) && (i in f.expanding ==> ExpandOk(f, i))
    requires i in f.records && i in Apply(f, w).records
    ensures f.records[i].size <= Apply(f, w).records[i].size
  {
  }

  /** The metadata of `x` exists all the way from `j` to `k`. */
  ghost predicate Throughout(path: seq<System>, j: nat, k: nat, x: Id)
    requires j <= k < |path|
  {
    forall m :: j <= m <= k ==> x in path[m].files.records
  }

  lemma HistoryStepNeverShrinks(total: int, path: seq<System>, plan: seq<Action>, i: nat, x: Id)
    requires IsHistory(total, path, plan) && i < |plan|
    requires x in path[i].files.records && x in path[i + 1].files.records
    ensures path[i].files.records[x].size <= path[i + 1].files.records[x].size
  {
    Runs.HistoryIsConsistent(total, path, plan, i);
    Runs.HistoryStep(total, path, plan, i);
    StepNeverShrinks(path[i], plan[i], x);
  }

  /** Over any sequence of requests a volume's committed size only grows. */
  lemma {:induction false} NeverShrinks(total: int, path: seq<System>, plan: seq<Action>, j: nat, k: nat, x: Id)
    requires IsHistory(total, path, plan) && j <= k <= |plan| && Throughout(path, j, k, x)
    ensures path[j].files.records[x].size <= path[k].files.records[x].size
    decreases k
  {
    if j < k {
      NeverShrinks(total, path, plan, j, k - 1, x);
      HistoryStepNeverShrinks(total, path, plan, k - 1, x);
    }
  }

  // ---- Capacity is released after the payload, and only then ----

  /** The steps that stop an id from reserving: the removal of its payload behind a tombstone, the
      rename into an archive, and the unlinking of a cancelled create whose payload is gone. */
  predicate Releases(f: Files, a: Action, k: Id, g: Files) {
    match a
    case Do(RemovePayload(x)) => x == k && At(f, k, Deleting) && k !in g.payload
    case Do(RemoveArchive(name)) => name == k && At(f, k, Reclaiming) && k !in g.archive
    case Do(PrepareArchive(x, name)) =>
      x == k && k in Durable(f) && name in Durable(g) && Durable(g)[name] == Durable(f)[k]
    case WriteIntent => k !in f.payload
    case _ => false
  }

  lemma StepReleases(s: System, a: Action, k: Id)
    requires Inv(s) && Enabled(s, a) && Assumed(s, a)
    requires k in Durable(s.files) && k !in Durable(Next(s, a).files)
    ensures Releases(s.files, a, k, Next(s, a).files)
    ensures a.WriteIntent? ==> s.txn.Some? && s.txn.value.grant == Cancel(k)
  {
    match a
    case Do(w) =>
      assert w.RemoveArchive? ==> ReleaseOk(s.files, w.name);
      Safety.FilesOkSubject(s.files, w);
      Safety.DurableEffect(s.files, w);
      if w.PrepareArchive? {
        assert Reservation(s.files, w.x) == Some(s.files.records[w.x].size);
      }
    case WriteIntent =>
      var g := s.txn.value.grant;
      Safety.ExpandOkAt(s.files, g.x);
      Runs.IntentReserves(s.files, g);
    case _ =>
  }

  lemma OnlyRemovalReleases(total: int, path: seq<System>, plan: seq<Action>, i: nat, k: Id)
    requires IsHistory(total, path, plan) && i < |plan|
    requires k in Durable(path[i].files) && k !in Durable(path[i + 1].files)
    ensures Releases(path[i].files, plan[i], k, path[i + 1].files)
    ensures plan[i].WriteIntent? ==> path[i].txn.Some? && path[i].txn.value.grant == Cancel(k)
  {
    Runs.HistoryIsConsistent(total, path, plan, i);
    Runs.HistoryStep(total, path, plan, i);
    StepReleases(path[i], plan[i], k);
  }

  /** A rebuild at any moment of a delete keeps the row while the payload exists, and never brings
      it back once the payload is gone. */
  lemma RebuildDuringDelete(total: int, path: seq<System>, plan: seq<Action>, i: nat, x: Id)
    requires IsHistory(total, path, plan) && i <= |plan| && At(path[i].files, x, Deleting)
    ensures var s := path[i];
            Parses(s.files) && RowFollows(x in s.files.payload, Working(s.files, s.stats), x, s.files.records[x].size)
  {
    Runs.HistoryIsConsistent(total, path, plan, i);
    ReservedOrReleased(path[i], x);
  }

  /** The same for the reclaim of an archive. */
  lemma RebuildDuringReclaim(total: int, path: seq<System>, plan: seq<Action>, i: nat, name: Id)
    requires IsHistory(total, path, plan) && i <= |plan| && At(path[i].files, name, Reclaiming)
    ensures var s := path[i];
            && Parses(s.files)
            && RowFollows(name in s.files.archive, Working(s.files, s.stats), name, s.files.records[name].size)
  {
    Runs.HistoryIsConsistent(total, path, plan, i);
    ReservedOrReleased(path[i], name);
  }

  /** The row is there, at full size, exactly while the payload is. */
  predicate RowFollows(present: bool, rows: map<Id, int>, k: Id, size: int) {
    (present <==> k in rows) && (present ==> rows[k] == size)
  }

  lemma ReservedOrReleased(s: System, i: Id)
    requires Inv(s) && i in s.files.records && (At(s.files, i, Deleting) || At(s.files, i, Reclaiming))
    ensures Parses(s.files)
    ensures if ReleasedAt(s.files, i) then i !in Working(s.files, s.stats)
            else i in Working(s.files, s.stats) && Working(s.files, s.stats)[i] == s.files.records[i].size
  {
    var f := s.files;
    Admission.WorkingCoversDurable(f, s.stats);
    Admission.ConsistentFilesParse(f);
    Safety.CreateOkAt(f, i);
    Safety.ExpandOkAt(f, i);
    B.RebuiltRows(s.stats, CapacityRecordsOf(f).value, i);
    assert i in Durable(f) <==> Reservation(f, i).Some?;
    assert ReleasedAt(f, i) ==> i in Tombstones(f);
  }

  // ---- A reserved id keeps its accounting row ----

  /** An open transaction is not about to drop the row of an id that still reserves. */
  ghost predicate RowsKept(s: System)
  {
    s.txn.Some? ==> forall k :: k in Durable(s.files) && k in s.stats ==> WillKeep(s.txn.value, k)
  }

  predicate WillKeep(t: Txn, k: Id) {
    k in FinalRows(t) || (t.grant == Cancel(k) && !t.written)
  }

  lemma MovedNameReservesNothing(f: Files, name: Id)
    requires FilesOk(f) && (At(f, name, ArchivingAtHome) || At(f, name, ArchivingMoved))
    ensures f.records[name].original !in Durable(f)
  {
    var x := f.records[name].original;
    assert Holds(f.records[name], x);
    Safety.CreateOkAt(f, x);
    Safety.ExpandOkAt(f, x);
    if x in f.records {
      assert RecordOk(f, x);
      assert Holds(f.records[x], x) ==> SameName(f.records[x], f.records[name]);
    }
    assert Reservation(f, x) == None;
  }

  lemma ReleasedNameKeepsRow(s: System, name: Id, k: Id)
    requires Inv(s) && Parses(s.files) && At(s.files, name, Reclaiming) && name !in s.files.archive
    requires k in Durable(s.files)
    ensures k in Working(s.files, s.stats) - {name}
  {
    Admission.WorkingCoversDurable(s.files, s.stats);
    assert ReleaseOk(s.files, name);
    assert Reservation(s.files, name) == None;
  }

  lemma StepKeepsRow(s: System, a: Action, k: Id)
    requires Inv(s) && RowsKept(s) && Enabled(s, a) && Assumed(s, a)
    requires k in s.stats && k in Durable(s.files) && k in Durable(Next(s, a).files)
    ensures k in Next(s, a).stats
  {
    match a
    case ReleaseRow(x) =>
      assert ReleaseOk(s.files, x);
      assert Reservation(s.files, x) == None;
    case MoveRow(name) => MovedNameReservesNothing(s.files, name);
    case RebuildIndex => Admission.WorkingCoversDurable(s.files, s.stats);
    case ReleaseArchive(name) => ReleasedNameKeepsRow(s, name, k);
    case CommitIndex => assert WillKeep(s.txn.value, k);
    case _ =>
  }

  lemma WriteKeepsRowsKept(s: System, w: Write)
    requires Inv(s) && RowsKept(s) && Enabled(s, Do(w)) && Assumed(s, Do(w))
    ensures RowsKept(Next(s, Do(w)))
  {
    assert w.RemoveArchive? ==> ReleaseOk(s.files, w.name);
    Safety.FilesOkSubject(s.files, w);
    Safety.DurableEffect(s.files, w);
    var g := Apply(s.files, w);
    if s.txn.Some? {
      forall k | k in Durable(g) && k in s.stats ensures WillKeep(s.txn.value, k) {
        assert k in Durable(s.files);
      }
    }
  }

  lemma IntentKeepsRowsKept(s: System)
    requires Inv(s) && RowsKept(s) && Enabled(s, WriteIntent)
    ensures RowsKept(Next(s, WriteIntent))
  {
    var g := s.txn.value.grant;
    Safety.ExpandOkAt(s.files, g.x);
    Runs.IntentReserves(s.files, g);
    var h, t := Intended(s.files, g), s.txn.value.(written := true);
    forall k | k in Durable(h) && k in s.stats ensures WillKeep(t, k) {
      assert k != g.x ==> WillKeep(s.txn.value, k);
    }
  }

  lemma FreshGrantKeeps(reserved: map<Id, int>, working: map<Id, int>, g: Grant)
    requires forall k :: k in reserved ==> k in working
    ensures forall k :: k in reserved ==>
              WillKeep(Txn(if g.Cancel? then working - {g.x} else working, g, false), k)
  {
  }

  lemma StepKeepsRowsKept(s: System, a: Action)
    requires Inv(s) && RowsKept(s) && Enabled(s, a) && Assumed(s, a)
    ensures RowsKept(Next(s, a))
  {
    if a.Do? {
      WriteKeepsRowsKept(s, a.w);
    } else if a.WriteIntent? {
      IntentKeepsRowsKept(s);
    } else if a.BeginCreate? || a.BeginExpand? || a.BeginCancel? {
      Admission.WorkingCoversDurable(s.files, s.stats);
      FreshGrantKeeps(Durable(s.files), Working(s.files, s.stats), Next(s, a).txn.value.grant);
    } else if !a.Pass? {
      assert Next(s, a).txn.None?;
    }
  }

  lemma HistoryStepKeepsRows(total: int, path: seq<System>, plan: seq<Action>, i: nat, next: nat)
    requires IsHistory(total, path, plan) && i < |plan| && next == i + 1
    ensures RowsKept(path[i]) ==> RowsKept(path[next])
  {
    Runs.HistoryIsConsistent(total, path, plan, i);
    Runs.HistoryStep(total, path, plan, i);
    if RowsKept(path[i]) {
      StepKeepsRowsKept(path[i], plan[i]);
    }
  }

  lemma {:induction false} HistoryKeepsRows(total: int, path: seq<System>, plan: seq<Action>, i: nat)
    requires IsHistory(total, path, plan) && i <= |plan|
    ensures RowsKept(path[i])
  {
    if i > 0 {
      HistoryStepKeepsRows(total, path, plan, i - 1, i);
      HistoryKeepsRows(total, path, plan, i - 1);
    }
  }

  /** The id reserves capacity all the way from `j` to `k`. */
  ghost predicate ReservesThroughout(path: seq<System>, j: nat, k: nat, x: Id)
    requires j <= k < |path|
  {
    forall m :: j <= m <= k ==> x in Durable(path[m].files)
  }

  lemma HistoryStepKeepsRow(total: int, path: seq<System>, plan: seq<Action>, i: nat, x: Id)
    requires IsHistory(total, path, plan) && i < |plan|
    requires x in path[i].stats && x in Durable(path[i].files) && x in Durable(path[i + 1].files)
    ensures x in path[i + 1].stats
  {
    Runs.HistoryIsConsistent(total, path, plan, i);
    HistoryKeepsRows(total, path, plan, i);
    Runs.HistoryStep(total, path, plan, i);
    StepKeepsRow(path[i], plan[i], x);
  }

  /** As long as an id reserves, no delete, archive, reclaim, rebuild, crash or retry of anything
      else takes its accounting row away. */
  lemma {:induction false} ReservedRowsStay(total: int, path: seq<System>, plan: seq<Action>, j: nat, k: nat, x: Id)
    requires IsHistory(total, path, plan) && j <= k <= |plan|
    requires x in path[j].stats && ReservesThroughout(path, j, k, x)
    ensures x in path[k].stats
    decreases k
  {
    if j < k {
      ReservedRowsStay(total, path, plan, j, k - 1, x);
      HistoryStepKeepsRow(total, path, plan, k - 1, x);
    }
  }

  predicate ReclaimStep(a: Action, name: Id) {
    || a == Do(MarkReclaiming(name)) || a == Do(RemoveArchive(name)) || a == ReleaseArchive(name)
    || a == Do(UnlinkArchive(name)) || a == RebuildIndex
  }

  lemma ReclaimSparesVolume(f: Files, w: Write, x: Id)
    requires CanWrite(f, w) && At(f, x, Committed)
    requires w.MarkReclaiming? || w.RemoveArchive? || w.UnlinkArchive?
    ensures At(Apply(f, w), x, Committed) && Apply(f, w).records[x] == f.records[x]
    ensures Reservation(Apply(f, w), x) == Reservation(f, x) && Reservation(f, x).Some?
  {
  }

  lemma ReclaimKeepsVolume(s: System, a: Action, name: Id, x: Id)
    requires Enabled(s, a) && ReclaimStep(a, name) && At(s.files, x, Committed)
    ensures At(Next(s, a).files, x, Committed) && Next(s, a).files.records[x] == s.files.records[x]
    ensures x in Durable(s.files) && x in Durable(Next(s, a).files)
  {
    if a.Do? {
      ReclaimSparesVolume(s.files, a.w, x);
    }
    assert Reservation(s.files, x).Some? && Reservation(Next(s, a).files, x).Some?;
  }

  /** A recreated volume keeps its record and its row through every step of reclaiming the archive
      that once carried its name. */
  lemma RecreatedVolumeKeepsRow(total: int, path: seq<System>, plan: seq<Action>, i: nat, name: Id, x: Id)
    requires IsHistory(total, path, plan) && i < |plan| && ReclaimStep(plan[i], name)
    requires name in path[i].files.records && path[i].files.records[name].original == x
    requires At(path[i].files, x, Committed) && x in path[i].stats
    ensures At(path[i + 1].files, x, Committed) && path[i + 1].files.records[x] == path[i].files.records[x]
    ensures x in path[i + 1].stats
  {
    Runs.HistoryStep(total, path, plan, i);
    ReclaimKeepsVolume(path[i], plan[i], name, x);
    HistoryStepKeepsRow(total, path, plan, i, x);
  }
}
