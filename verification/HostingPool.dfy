/**
 One pool as a single controller process works on it: the lifecycle operations of
 csi/volumeutils.py, each a fixed order of durable writes. Every write is recorded in `trace` as
 the action it is, so an operation is proved to perform exactly its plan, and dying inside one
 leaves a prefix of that plan.
 */
module HostingPool {
  import opened Base
  import opened Accounting
  import opened Lifecycle
  import opened Operations
  import opened Paths
  import opened Outcomes
  import R = Records
  import B = Rebuild
  import Admission
  import Archiving
  import Removal
  import Runs
  import Safety

  datatype Policy = Delete | Archive | Retain

  class Pool {
    const total: int
    const accounting: SizeAccounting
    var records: map<Id, Record>
    var creating: map<Id, R.CreationIntent>
    var expanding: map<Id, R.ExpansionIntent>
    var payload: map<Id, Quota>
    var archive: map<Id, Quota>
    ghost var trace: seq<Action>

    constructor (total: int)
      requires 0 < total
      ensures Consistent() && Now() == EmptyPool(total) && trace == [] && fresh(accounting)
    {
      this.total := total;
      accounting := new SizeAccounting();
      records, creating, expanding, payload, archive := map[], map[], map[], map[], map[];
      trace := [];
      new;
      Runs.EmptyPoolIsConsistent(total);
    }

    function FilesNow(): Files
      reads this
    {
      Files(records, creating, expanding, payload, archive)
    }

    ghost function Now(): System
      reads this, accounting
    {
      System(total, FilesNow(), accounting.committedRows, None)
    }

    ghost predicate Idle()
      reads this, accounting
    {
      0 < total && accounting.Valid() && !accounting.transactionActive
    }

    ghost predicate Consistent()
      reads this, accounting
    {
      Idle() && Inv(Now())
    }

    /** What is left of a plan leads from here to `goal`. */
    ghost predicate Follows(rest: seq<Action>, goal: System)
      reads this, accounting
    {
      Idle() && Leads(Now(), rest, goal)
    }

    /** The next action of the plan has been taken. */
    twostate predicate Took(rest: seq<Action>, goal: System)
      requires rest != []
      reads this, accounting
    {
      Follows(rest[1..], goal) && trace + rest[1..] == old(trace) + rest
    }

    /** Exactly these actions have happened, in this order. */
    twostate predicate Performed(plan: seq<Action>)
      reads this, accounting
    {
      Leads(old(Now()), plan, Now()) && trace == old(trace) + plan
    }

    // ---- Single durable writes, each the next action of a plan ----

    method MakeDirectory(x: Id, ghost rest: seq<Action>, ghost goal: System)
      requires Follows(rest, goal) && rest != [] && rest[0] == Do(MakePayload(x))
      modifies `payload, `trace
      ensures Took(rest, goal) && payload == if x in old(payload) then old(payload) else old(payload)[x := Unlimited]
    {
      Peel(Now(), rest, goal);
      if x !in payload {
        payload := payload[x := Unlimited];
      }
      trace := trace + [Do(MakePayload(x))];
    }

    method LimitNewPayload(x: Id, size: int, ghost rest: seq<Action>, ghost goal: System)
      requires Follows(rest, goal) && rest != [] && rest[0] == Do(LimitPayload(x))
      requires x in creating && size == creating[x].size
      modifies `payload, `trace
      ensures Took(rest, goal) && payload == old(payload)[x := Limit(size)]
    {
      Peel(Now(), rest, goal);
      payload := payload[x := Limit(size)];
      trace := trace + [Do(LimitPayload(x))];
    }

    method SavePvMetadata(x: Id, size: int, incarnation: nat, ghost rest: seq<Action>, ghost goal: System)
      requires Follows(rest, goal) && rest != [] && rest[0] == Do(CommitRecord(x))
      requires x in creating && size == creating[x].size && incarnation == creating[x].incarnation
      modifies `records, `trace
      ensures Took(rest, goal) && records == old(records)[x := Record(size, Committed, x, incarnation)]
    {
      Peel(Now(), rest, goal);
      records := records[x := Record(size, Committed, x, incarnation)];
      trace := trace + [Do(CommitRecord(x))];
    }

    method FinishVolumeCreation(x: Id, ghost rest: seq<Action>, ghost goal: System)
      requires Follows(rest, goal) && rest != [] && rest[0] == Do(FinishCreate(x))
      modifies `creating, `trace
      ensures Took(rest, goal) && creating == old(creating) - {x}
    {
      Peel(Now(), rest, goal);
      creating := creating - {x};
      trace := trace + [Do(FinishCreate(x))];
    }

    /** `update_free_size` with a charge, and `reconcile_committed_capacity`. */
    method ChargeRow(x: Id, size: int, ghost rest: seq<Action>, ghost goal: System)
      requires Follows(rest, goal) && rest != [] && rest[0] == Charge(x, size)
      requires 0 < size
      modifies accounting, `trace
      ensures Took(rest, goal) && accounting.rows == old(accounting.rows)[x := size]
    {
      Peel(Now(), rest, goal);
      var accounted := accounting.GetPvSize(x);
      if accounted != size {
        var _ := accounting.UpdatePvRecord(x, size);
      }
      assert accounting.rows == old(accounting.rows)[x := size];
      trace := trace + [Charge(x, size)];
    }

    /** The quota step of `update_subdir_volume`. */
    method SetSimpleQuota(x: Id, size: int, ghost rest: seq<Action>, ghost goal: System)
      requires Follows(rest, goal) && rest != [] && rest[0] == Do(ApplyQuota(x, size))
      modifies `payload, `trace
      ensures Took(rest, goal) && payload == old(payload)[x := Limit(size)]
    {
      Peel(Now(), rest, goal);
      payload := payload[x := Limit(size)];
      trace := trace + [Do(ApplyQuota(x, size))];
    }

    method UpdatePvMetadata(x: Id, size: int, ghost rest: seq<Action>, ghost goal: System)
      requires Follows(rest, goal) && rest != [] && rest[0] == Do(GrowRecord(x, size))
      modifies `records, `trace
      ensures Took(rest, goal) && x in old(records) && records == old(records)[x := old(records)[x].(size := size)]
    {
      Peel(Now(), rest, goal);
      records := records[x := records[x].(size := size)];
      trace := trace + [Do(GrowRecord(x, size))];
    }

    /** Delete makes the metadata reserve the whole target of a pending expansion. */
    method AbsorbTarget(x: Id, size: int, ghost rest: seq<Action>, ghost goal: System)
      requires Follows(rest, goal) && rest != [] && rest[0] == Do(AbsorbExpand(x))
      requires x in expanding && size == expanding[x].toSize
      modifies `records, `trace
      ensures Took(rest, goal) && x in old(records) && records == old(records)[x := old(records)[x].(size := size)]
    {
      Peel(Now(), rest, goal);
      records := records[x := records[x].(size := size)];
      trace := trace + [Do(AbsorbExpand(x))];
    }

    method FinishVolumeExpansion(x: Id, ghost rest: seq<Action>, ghost goal: System)
      requires Follows(rest, goal) && rest != [] && rest[0] == Do(FinishExpand(x))
      modifies `expanding, `trace
      ensures Took(rest, goal) && expanding == old(expanding) - {x}
    {
      Peel(Now(), rest, goal);
      expanding := expanding - {x};
      trace := trace + [Do(FinishExpand(x))];
    }

    method WriteDeleteTombstone(x: Id, ghost rest: seq<Action>, ghost goal: System)
      requires Follows(rest, goal) && rest != [] && rest[0] == Do(MarkDeleting(x))
      modifies `records, `trace
      ensures Took(rest, goal) && x in old(records) && records == old(records)[x := old(records)[x].(phase := Deleting)]
    {
      Peel(Now(), rest, goal);
      records := records[x := records[x].(phase := Deleting)];
      trace := trace + [Do(MarkDeleting(x))];
    }

    method RemoveTree(x: Id, ghost rest: seq<Action>, ghost goal: System)
      requires Follows(rest, goal) && rest != [] && rest[0] == Do(RemovePayload(x))
      modifies `payload, `trace
      ensures Took(rest, goal) && payload == old(payload) - {x}
    {
      Peel(Now(), rest, goal);
      payload := payload - {x};
      trace := trace + [Do(RemovePayload(x))];
    }

    /** `update_free_size` with a release. */
    method ReleaseVolumeRow(x: Id, ghost rest: seq<Action>, ghost goal: System)
      requires Follows(rest, goal) && rest != [] && rest[0] == ReleaseRow(x)
      modifies accounting, `trace
      ensures Took(rest, goal) && accounting.rows == old(accounting.rows) - {x}
    {
      Peel(Now(), rest, goal);
      accounting.RemovePvRecord(x);
      trace := trace + [ReleaseRow(x)];
    }

    method UnlinkMetadata(x: Id, ghost rest: seq<Action>, ghost goal: System)
      requires Follows(rest, goal) && rest != [] && rest[0] == Do(UnlinkRecord(x))
      modifies `records, `trace
      ensures Took(rest, goal) && records == old(records) - {x}
    {
      Peel(Now(), rest, goal);
      records := records - {x};
      trace := trace + [Do(UnlinkRecord(x))];
    }

    /** `_prepare_archive`: the archive name is persisted before anything moves. */
    method PersistArchiveName(x: Id, name: Id, ghost rest: seq<Action>, ghost goal: System)
      requires Follows(rest, goal) && rest != [] && rest[0] == Do(PrepareArchive(x, name))
      modifies `records, `trace
      ensures Took(rest, goal) && x in old(records)
              && records == (old(records) - {x})[name := old(records)[x].(phase := ArchivingAtHome)]
    {
      Peel(Now(), rest, goal);
      records := (records - {x})[name := records[x].(phase := ArchivingAtHome)];
      trace := trace + [Do(PrepareArchive(x, name))];
    }

    method RenamePayload(x: Id, name: Id, ghost rest: seq<Action>, ghost goal: System)
      requires Follows(rest, goal) && rest != [] && rest[0] == Do(MovePayload(name))
      requires name in records && records[name].original == x
      modifies `payload, `archive, `trace
      ensures Took(rest, goal) && x in old(payload) && archive == old(archive)[name := old(payload)[x]]
              && payload == old(payload) - {x}
    {
      Peel(Now(), rest, goal);
      archive := archive[name := payload[x]];
      payload := payload - {x};
      trace := trace + [Do(MovePayload(name))];
    }

    /** `archive_pv_reservation`. */
    method ArchivePvReservation(x: Id, name: Id, size: int, ghost rest: seq<Action>, ghost goal: System)
      requires Follows(rest, goal) && rest != [] && rest[0] == MoveRow(name)
      requires 0 < size && name in records && records[name].original == x && records[name].size == size
      modifies accounting, `trace
      ensures Took(rest, goal) && accounting.rows == (old(accounting.rows) - {x, name})[name := size]
    {
      Peel(Now(), rest, goal);
      var _ := accounting.RenamePvRecord(x, name, size);
      trace := trace + [MoveRow(name)];
    }

    method RenameMetadata(name: Id, ghost rest: seq<Action>, ghost goal: System)
      requires Follows(rest, goal) && rest != [] && rest[0] == Do(MoveRecord(name))
      modifies `records, `trace
      ensures Took(rest, goal) && name in old(records)
              && records == old(records)[name := old(records)[name].(phase := ArchivingMoved)]
    {
      Peel(Now(), rest, goal);
      records := records[name := records[name].(phase := ArchivingMoved)];
      trace := trace + [Do(MoveRecord(name))];
    }

    method SealMetadata(name: Id, ghost rest: seq<Action>, ghost goal: System)
      requires Follows(rest, goal) && rest != [] && rest[0] == Do(SealArchive(name))
      modifies `records, `trace
      ensures Took(rest, goal) && name in old(records)
              && records == old(records)[name := old(records)[name].(phase := Archived)]
    {
      Peel(Now(), rest, goal);
      records := records[name := records[name].(phase := Archived)];
      trace := trace + [Do(SealArchive(name))];
    }

    method WriteReclaimTombstone(name: Id, ghost rest: seq<Action>, ghost goal: System)
      requires Follows(rest, goal) && rest != [] && rest[0] == Do(MarkReclaiming(name))
      modifies `records, `trace
      ensures Took(rest, goal) && name in old(records)
              && records == old(records)[name := old(records)[name].(phase := Reclaiming)]
    {
      Peel(Now(), rest, goal);
      records := records[name := records[name].(phase := Reclaiming)];
      trace := trace + [Do(MarkReclaiming(name))];
    }

    method RemoveArchivedTree(name: Id, ghost rest: seq<Action>, ghost goal: System)
      requires Follows(rest, goal) && rest != [] && rest[0] == Do(RemoveArchive(name))
      modifies `archive, `trace
      ensures Took(rest, goal) && archive == old(archive) - {name}
    {
      Peel(Now(), rest, goal);
      archive := archive - {name};
      trace := trace + [Do(RemoveArchive(name))];
    }

    method UnlinkArchivedMetadata(name: Id, ghost rest: seq<Action>, ghost goal: System)
      requires Follows(rest, goal) && rest != [] && rest[0] == Do(UnlinkArchive(name))
      modifies `records, `trace
      ensures Took(rest, goal) && records == old(records) - {name}
    {
      Peel(Now(), rest, goal);
      records := records - {name};
      trace := trace + [Do(UnlinkArchive(name))];
    }

    // ---- Reading the pool ----

    /** What `os.walk` finds below `info`, in an order the caller cannot choose. */
    method WalkInfo() returns (es: seq<R.Entry>)
      requires Admission.EntriesValid(FilesNow())
      ensures R.Parse(es) == CapacityRecordsOf(FilesNow())
    {
      var f := FilesNow();
      var left: set<Admission.FileRef> :=
        (set i | i in f.records :: Admission.RecordFile(i))
        + (set x | x in f.creating :: Admission.CreateIntentFile(x))
        + (set x | x in f.expanding :: Admission.ExpandIntentFile(x));
      ghost var all := left;
      var order: seq<Admission.FileRef> := [];
      while left != {}
        invariant left <= all && (forall r :: r in all <==> r in left || r in order)
        invariant forall r :: r in order ==> r !in left
        invariant forall i, j :: 0 <= i < j < |order| ==> order[i] != order[j]
      {
        var r :| r in left;
        order := order + [r];
        left := left - {r};
      }
      assert Admission.IsWalk(f, order);
      Admission.WalkOrderIsIrrelevant(f, order);
      es := Admission.EntriesOf(f, order);
    }

    /** The pool-local part of `search_volume`: the metadata that holds a volume's name. */
    method FindHolder(x: Id) returns (holder: Option<Id>)
      ensures holder.None? <==> !Busy(records, x)
      ensures holder.Some? ==> holder.value in records && Holds(records[holder.value], x)
    {
      var left := records.Keys;
      while left != {}
        invariant left <= records.Keys
        invariant forall i :: i in records && i !in left ==> !Holds(records[i], x)
      {
        var i :| i in left;
        if Holds(records[i], x) {
          return Some(i);
        }
        left := left - {i};
      }
      return None;
    }

    // ---- Index transactions ----

    ghost predicate Readable()
      reads this
    {
      Admission.EntriesValid(FilesNow()) && Parses(FilesNow())
    }

    /** Inside `BEGIN IMMEDIATE`, with these rows in the index. */
    ghost predicate Open(working: map<Id, int>)
      reads this, accounting
    {
      && 0 < total && accounting.Valid() && accounting.transactionActive
      && accounting.summary == Some(total) && accounting.rows == working
    }

    /** Every transaction starts by rebuilding the index from the files. */
    method OpenRebuilt() returns (ghost working: map<Id, int>)
      requires Idle() && Readable()
      modifies accounting
      ensures working == Working(FilesNow(), old(accounting.committedRows)) && Open(working)
      ensures accounting.committedRows == old(accounting.committedRows)
    {
      var _ := accounting.BeginImmediate();
      var _ := accounting.UpdateSummary(total);
      var es := WalkInfo();
      var _ := B.RebuildCommittedCapacity(accounting, es);
      working := accounting.rows;
    }

    /** The transaction ends without another change: the rebuilt index stays. */
    method KeepRebuilt(ghost working: map<Id, int>)
      requires Open(working)
      modifies accounting, `trace
      ensures Idle() && accounting.committedRows == working && trace == old(trace) + [RebuildIndex]
    {
      accounting.CommitTransaction();
      trace := trace + [RebuildIndex];
    }

    method KeepRebuiltAndCharge(x: Id, size: int, ghost working: map<Id, int>)
      requires Open(working) && 0 < size
      modifies accounting, `trace
      ensures Idle() && accounting.committedRows == working[x := size]
      ensures trace == old(trace) + [RebuildIndex, Charge(x, size)]
    {
      var _ := accounting.UpdatePvRecord(x, size);
      accounting.CommitTransaction();
      trace := trace + [RebuildIndex, Charge(x, size)];
    }

    /** The transaction ends through an exception. */
    method Abandon(ghost working: map<Id, int>)
      requires Open(working)
      modifies accounting
      ensures Idle() && accounting.committedRows == old(accounting.committedRows)
    {
      accounting.RollbackTransaction();
    }

    /** The 10% reserve, on the rows of the open transaction. */
    method HasSpace(extra: int, ghost working: map<Id, int>) returns (ok: bool)
      requires Open(working)
      ensures ok == (10 * extra < 9 * (total - Sum(working)))
    {
      var stats := accounting.GetStats();
      ok := 10 * extra < 9 * stats.freeBytes;
    }

    /** The intent becomes durable before the index commits. */
    method CommitCreation(x: Id, size: int, incarnation: nat, ghost working: map<Id, int>)
      requires Open(working) && 0 < size
      modifies accounting, `creating, `trace
      ensures Idle() && creating == old(creating)[x := R.CreationIntent(x, size, incarnation)]
      ensures accounting.committedRows == working[x := size]
      ensures trace == old(trace) + [BeginCreate(x, size, incarnation), WriteIntent, CommitIndex]
    {
      creating := creating[x := R.CreationIntent(x, size, incarnation)];
      var _ := accounting.UpdatePvRecord(x, size);
      accounting.CommitTransaction();
      trace := trace + [BeginCreate(x, size, incarnation), WriteIntent, CommitIndex];
    }

    method CommitExpansion(x: Id, fromSize: int, toSize: int, ghost working: map<Id, int>)
      requires Open(working) && 0 < toSize
      modifies accounting, `expanding, `trace
      ensures Idle() && expanding == old(expanding)[x := R.ExpansionIntent(x, fromSize, toSize)]
      ensures accounting.committedRows == working[x := toSize]
      ensures trace == old(trace) + [BeginExpand(x, fromSize, toSize), WriteIntent, CommitIndex]
    {
      expanding := expanding[x := R.ExpansionIntent(x, fromSize, toSize)];
      var _ := accounting.UpdatePvRecord(x, toSize);
      accounting.CommitTransaction();
      trace := trace + [BeginExpand(x, fromSize, toSize), WriteIntent, CommitIndex];
    }

    // ---- Admission ----

    /** `_admit_volume_creation`: a matching intent is enough, a row without one refuses, and otherwise
        the rebuilt index must have room. `Outcomes.AdmissionDecides` says when, and `Outcomes.AdmissionEnds`
        what is left. */
    method AdmitVolumeCreation(x: Id, size: int, incarnation: nat) returns (r: Result<bool>)
      requires Idle() && Readable() && 0 < size
      modifies accounting, `creating, `trace
      ensures Idle()
      ensures r == old(CreateVerdict(total, creating, Working(FilesNow(), accounting.committedRows), x, size))
      ensures Now() == old(AdmissionOutcome(Now(), x, size, incarnation, r))
      ensures trace == old(trace) + AdmissionPlan(old(FilesNow()), x, size, incarnation, r)
    {
      ghost var working := OpenRebuilt();
      r := AdmitRebuilt(x, size, incarnation, working);
    }

    method AdmitRebuilt(x: Id, size: int, incarnation: nat, ghost working: map<Id, int>) returns (r: Result<bool>)
      requires Open(working) && 0 < size
      modifies accounting, `creating, `trace
      ensures Idle() && r == CreateVerdict(total, old(creating), working, x, size)
      ensures r == Success(true) && x !in old(creating) ==>
                && creating == old(creating)[x := R.CreationIntent(x, size, incarnation)]
                && accounting.committedRows == working[x := size]
                && trace == old(trace) + [BeginCreate(x, size, incarnation), WriteIntent, CommitIndex]
      ensures r != Success(true) || x in old(creating) ==> creating == old(creating)
      ensures r.Success? && (!r.value || x in old(creating)) ==>
                accounting.committedRows == working && trace == old(trace) + [RebuildIndex]
      ensures r == Failure ==> accounting.committedRows == old(accounting.committedRows) && trace == old(trace)
    {
      if x in creating {
        if creating[x].size != size {
          Abandon(working);
          return Failure;
        }
        KeepRebuilt(working);
        return Success(true);
      }
      r := AdmitNewName(x, size, incarnation, working);
    }

    method AdmitNewName(x: Id, size: int, incarnation: nat, ghost working: map<Id, int>) returns (r: Result<bool>)
      requires Open(working) && 0 < size
      modifies accounting, `creating, `trace
      ensures Idle() && r == if x in working then Failure else Success(HasRoom(total, working, size))
      ensures r == Success(true) ==>
                && creating == old(creating)[x := R.CreationIntent(x, size, incarnation)]
                && accounting.committedRows == working[x := size]
                && trace == old(trace) + [BeginCreate(x, size, incarnation), WriteIntent, CommitIndex]
      ensures r != Success(true) ==> creating == old(creating)
      ensures r == Success(false) ==> accounting.committedRows == working && trace == old(trace) + [RebuildIndex]
      ensures r == Failure ==> accounting.committedRows == old(accounting.committedRows) && trace == old(trace)
    {
      var reserved := accounting.GetPvSize(x);
      if reserved != 0 {
        Abandon(working);
        return Failure;
      }
      var ok := HasSpace(size, working);
      if ok {
        CommitCreation(x, size, incarnation, working);
      } else {
        KeepRebuilt(working);
      }
      return Success(ok);
    }

    // ---- CreateVolume, under the volume's lifecycle lock ----

    /** `verify_creation_reservation`, which needs this create or this volume with this size, then
        `create_subdir_volume`, and the charge after it. */
    method CreateVolume(x: Id, size: int) returns (r: Result<int>)
      requires Consistent()
      modifies this, accounting
      ensures Consistent()
      ensures r == old(if (x in records && records[x].phase == Committed && records[x].size == size)
                          || (x !in records && x in creating && creating[x].size == size)
                       then Success(size) else Failure)
      ensures Performed(if r.Success? then CreatePlan(old(FilesNow()), x) else [])
      ensures Now() == if r.Failure? then old(Now())
                       else if x in old(records) then Recommitted(old(Now()), x)
                       else Created(old(Now()), x, size, old(creating)[x].incarnation)
    {
      ghost var before := Now();
      Stay(before);
      var holder := FindHolder(x);
      if holder.None? {
        NobodyHolds(FilesNow(), x);
        if x !in creating || creating[x].size != size {
          return Failure;
        }
        PendingRetry(before, x);
        Runs.PlanKeepsInv(before, CreatePlan(FilesNow(), x), Created(before, x, size, creating[x].incarnation));
        CreatePending(x, size, Created(before, x, size, creating[x].incarnation));
      } else {
        HolderOf(FilesNow(), x, holder.value);
        if records[holder.value].phase != Committed || records[holder.value].size != size {
          return Failure;
        }
        CommittedRetry(before, x);
        Runs.PlanKeepsInv(before, CreatePlan(FilesNow(), x), Recommitted(before, x));
        ReconcileCommitted(x, size, Recommitted(before, x));
      }
      return Success(size);
    }

    method CreatePending(x: Id, size: int, ghost goal: System)
      requires Idle() && Pends(FilesNow(), x) && size == creating[x].size && 0 < size
      requires Leads(Now(), CreatePlan(FilesNow(), x), goal)
      modifies this, accounting
      ensures Idle() && Now() == goal && trace == old(trace) + CreatePlan(old(FilesNow()), x)
    {
      var incarnation := creating[x].incarnation;
      ghost var rest := CreatePlan(FilesNow(), x);
      MakeDirectory(x, rest, goal);
      rest := rest[1..];
      LimitNewPayload(x, size, rest, goal);
      rest := rest[1..];
      SavePvMetadata(x, size, incarnation, rest, goal);
      rest := rest[1..];
      FinishVolumeCreation(x, rest, goal);
      rest := rest[1..];
      ChargeRow(x, size, rest, goal);
      Arrived(Now(), goal);
    }

    method ReconcileCommitted(x: Id, size: int, ghost goal: System)
      requires Idle() && At(FilesNow(), x, Committed) && size == records[x].size && 0 < size
      requires Leads(Now(), CreatePlan(FilesNow(), x), goal)
      modifies this, accounting
      ensures Idle() && Now() == goal && trace == old(trace) + CreatePlan(old(FilesNow()), x)
    {
      ghost var rest := CreatePlan(FilesNow(), x);
      if x in creating {
        FinishVolumeCreation(x, rest, goal);
        rest := rest[1..];
      }
      ChargeRow(x, size, rest, goal);
      Arrived(Now(), goal);
    }

    // ---- ControllerExpandVolume, under the volume's lifecycle lock ----

    /** `reserve_volume_expansion` without a pending intent: a row already at the target needs no room,
        and otherwise the rebuilt index must have room for the difference. */
    method ReserveNewTarget(x: Id, fromSize: int, toSize: int, ghost working: map<Id, int>) returns (r: Result<bool>)
      requires Open(working) && 0 < fromSize < toSize
      modifies accounting, `expanding, `trace
      ensures Idle() && r == TargetVerdict(total, working, x, fromSize, toSize)
      ensures r == Success(true) ==>
                && expanding == old(expanding)[x := R.ExpansionIntent(x, fromSize, toSize)]
                && accounting.committedRows == working[x := toSize]
                && trace == old(trace) + [BeginExpand(x, fromSize, toSize), WriteIntent, CommitIndex]
      ensures r != Success(true) ==> expanding == old(expanding)
      ensures r == Success(false) ==> accounting.committedRows == working && trace == old(trace) + [RebuildIndex]
      ensures r == Failure ==> accounting.committedRows == old(accounting.committedRows) && trace == old(trace)
    {
      var committed := accounting.GetPvSize(x);
      if committed == toSize {
        CommitExpansion(x, fromSize, toSize, working);
        return Success(true);
      }
      if committed != fromSize {
        Abandon(working);
        return Failure;
      }
      var ok := HasSpace(toSize - fromSize, working);
      if ok {
        CommitExpansion(x, fromSize, toSize, working);
      } else {
        KeepRebuilt(working);
      }
      return Success(ok);
    }

    /** `reserve_volume_expansion` and what follows a reservation: its own intent needs no second
        admission. */
    method ReserveAndGrow(x: Id, fromSize: int, toSize: int, ghost working: map<Id, int>) returns (r: Result<bool>)
      requires Open(working) && At(FilesNow(), x, Committed) && 0 < fromSize < toSize
      requires records[x].size == fromSize || records[x].size == toSize
      modifies accounting, `records, `expanding, `payload, `trace
      ensures Idle()
      ensures r == if x in old(expanding) then
                     if old(expanding)[x] == R.ExpansionIntent(x, fromSize, toSize) then Success(true) else Failure
                   else TargetVerdict(total, working, x, fromSize, toSize)
      ensures r == Success(true) ==>
                && FilesNow() == Expanded(old(FilesNow()), x, toSize)
                && accounting.committedRows == working[x := toSize]
                && trace == old(trace) + (if x in old(expanding) then [RebuildIndex, Charge(x, toSize)]
                                          else [BeginExpand(x, fromSize, toSize), WriteIntent, CommitIndex])
                                       + GrowPlan(x, toSize)
      ensures r != Success(true) ==> FilesNow() == old(FilesNow())
      ensures r == Success(false) ==> accounting.committedRows == working && trace == old(trace) + [RebuildIndex]
      ensures r == Failure ==> accounting.committedRows == old(accounting.committedRows) && trace == old(trace)
    {
      if x in expanding {
        if expanding[x] != R.ExpansionIntent(x, fromSize, toSize) {
          Abandon(working);
          return Failure;
        }
        KeepRebuiltAndCharge(x, toSize, working);
        r := Success(true);
      } else {
        r := ReserveNewTarget(x, fromSize, toSize, working);
      }
      if r == Success(true) {
        ExpandGrows(Now(), x, toSize);
        GrowTo(x, toSize, Now().(files := Expanded(FilesNow(), x, toSize)));
        assert old(expanding)[x := R.ExpansionIntent(x, fromSize, toSize)] - {x} == old(expanding) - {x};
      }
    }

    /** The quota, then the metadata, then the intent. */
    method GrowTo(x: Id, toSize: int, ghost goal: System)
      requires Idle() && Leads(Now(), GrowPlan(x, toSize), goal) && x in records && x in expanding
               && expanding[x].toSize == toSize
      modifies `records, `expanding, `payload, `trace
      ensures Idle() && Now() == goal && trace == old(trace) + GrowPlan(x, toSize)
    {
      ghost var rest := GrowPlan(x, toSize);
      SetSimpleQuota(x, toSize, rest, goal);
      rest := rest[1..];
      UpdatePvMetadata(x, toSize, rest, goal);
      rest := rest[1..];
      FinishVolumeExpansion(x, rest, goal);
      Arrived(Now(), goal);
    }

    /** A request at or below the committed size repairs row and quota at that size. */
    method Reconcile(x: Id, size: int, ghost goal: System)
      requires Idle() && x in records && records[x].size == size && 0 < size && x !in expanding
      requires Leads(Now(), ReconcilePlan(x, size), goal)
      modifies accounting, `payload, `trace
      ensures Idle() && Now() == goal && trace == old(trace) + ReconcilePlan(x, size)
    {
      ghost var rest := ReconcilePlan(x, size);
      ChargeRow(x, size, rest, goal);
      rest := rest[1..];
      SetSimpleQuota(x, size, rest, goal);
      Arrived(Now(), goal);
    }

    /** The reconciled row, the reservation, and on success the growth. */
    method ExpandFrom(x: Id, fromSize: int, toSize: int) returns (granted: bool)
      requires Idle() && Readable() && At(FilesNow(), x, Committed) && 0 < fromSize < toSize
      requires x in creating ==> creating[x].size == records[x].size
      requires if x in expanding then
                 expanding[x] == R.ExpansionIntent(x, fromSize, toSize)
                 && (records[x].size == fromSize || records[x].size == toSize)
               else fromSize == records[x].size
      modifies this, accounting
      ensures Idle()
      ensures granted ==
              (x in old(expanding)
               || old(HasRoom(total, Working(FilesNow(), accounting.committedRows), toSize - fromSize)))
      ensures Now() == old(ExpansionResult(Now(), x, Reserved(FilesNow(), x), toSize, granted))
    {
      var row := if x in expanding then toSize else fromSize;
      ghost var before := Now();
      ghost var charged := before.(stats := before.stats[x := row]);
      LeadsOne(before, Charge(x, row));
      ChargeRow(x, row, [Charge(x, row)], charged);
      Arrived(Now(), charged);
      if x !in expanding {
        QuietRow(before, x, fromSize);
        QuietRow(charged, x, fromSize);
      }
      ghost var working := OpenRebuilt();
      var r := ReserveAndGrow(x, fromSize, toSize, working);
      granted := r.value;
    }

    /** ControllerExpandVolume, under the volume's lifecycle lock. `Outcomes.ExpandAnswersIff` says what it
        answers to whom, and `Outcomes.ExpandLeaves` what it leaves. */
    method ExpandVolume(x: Id, required: int, limit: int) returns (answer: Answer)
      requires Idle() && FilesOk(FilesNow())
      modifies this, accounting
      ensures Idle() && old(Parses(FilesNow()))
      ensures (answer, Now()) == old(ExpandCall(Now(), x, required, limit))
    {
      FilesAreReadable(FilesNow());
      var requested := RequestedCapacity(required, limit);
      if requested.None? {
        return InvalidArgument;
      }
      var holder := FindHolder(x);
      if holder.None? {
        NobodyHolds(FilesNow(), x);
        return if x in creating then FailedPrecondition else Missing;
      }
      HolderOf(FilesNow(), x, holder.value);
      if records[holder.value].phase != Committed {
        return FailedPrecondition;
      }
      if 0 < limit < records[x].size {
        return OutOfRange;
      }
      answer := ExpandCommitted(x, requested.value);
    }

    method ExpandCommitted(x: Id, requested: int) returns (answer: Answer)
      requires Idle() && FilesOk(FilesNow()) && Readable() && At(FilesNow(), x, Committed)
      modifies this, accounting
      ensures Idle() && (answer, Now()) == old(ExpandFound(Now(), x, requested))
    {
      var existing := records[x].size;
      ghost var before := Now();
      if x !in expanding && requested <= existing {
        ReconcileLeads(before, x);
        QuietIsPositive(FilesNow(), x);
        Reconcile(x, existing, Reconciled(before, x));
        return Ok(existing);
      }
      if x in expanding && requested != expanding[x].toSize {
        return FailedPrecondition;
      }
      var fromSize := if x in expanding then expanding[x].fromSize else existing;
      ExpansionStarts(before, x, fromSize, requested);
      Safety.CreateOkAt(FilesNow(), x);
      var granted := ExpandFrom(x, fromSize, requested);
      return if granted then Ok(requested) else Exhausted;
    }

    // ---- DeleteVolume, under the volume's lifecycle lock ----

    /** Whatever a pending intent reserved, the metadata reserves before the intent goes. */
    method SettleIntents(x: Id, ghost rest: seq<Action>, ghost goal: System) returns (ghost left: seq<Action>)
      requires Follows(rest, goal) && Removal.SettlePlan(FilesNow(), x) <= rest && x in records
      requires x in creating ==> x !in expanding
      modifies `records, `creating, `expanding, `trace
      ensures Follows(left, goal) && trace + left == old(trace) + rest
      ensures left == rest[|Removal.SettlePlan(old(FilesNow()), x)|..]
      ensures FilesNow() == Removal.Settled(old(FilesNow()), x)
    {
      left := rest;
      if x in expanding {
        AbsorbTarget(x, expanding[x].toSize, left, goal);
        left := left[1..];
        FinishVolumeExpansion(x, left, goal);
        left := left[1..];
      }
      if x in creating {
        FinishVolumeCreation(x, left, goal);
        left := left[1..];
      }
      assert FilesNow().records == Removal.Settled(old(FilesNow()), x).records;
    }

    /** The delete policy for a volume at its own path: tombstone, payload, row, metadata. */
    method EraseVolume(x: Id, ghost goal: System)
      requires Idle() && x in records && (records[x].phase == Committed || records[x].phase == Deleting)
      requires x in creating ==> x !in expanding && records[x].phase == Committed
      requires x in expanding ==> records[x].phase == Committed
      requires Leads(Now(), Removal.DeletePlan(FilesNow(), x), goal)
      modifies this, accounting
      ensures Idle() && Now() == goal && trace == old(trace) + Removal.DeletePlan(old(FilesNow()), x)
    {
      ghost var rest := Removal.DeletePlan(FilesNow(), x);
      if records[x].phase == Committed {
        rest := SettleIntents(x, rest, goal);
        WriteDeleteTombstone(x, rest, goal);
        rest := rest[1..];
      }
      RemoveTree(x, rest, goal);
      rest := rest[1..];
      ReleaseVolumeRow(x, rest, goal);
      rest := rest[1..];
      UnlinkMetadata(x, rest, goal);
      rest := rest[1..];
      Arrived(Now(), goal);
    }

    /** The archive policy, up to the persisted archive name. */
    method PrepareArchiveOf(x: Id, name: Id, ghost goal: System)
      requires Idle() && x in records && records[x].phase == Committed && records[x].original == x
               && 0 < records[x].size
      requires (x in creating ==> x !in expanding) && (x in expanding ==> 0 < expanding[x].toSize) && x != name
      requires Leads(Now(), Removal.SettlePlan(FilesNow(), x) + Archiving.FromHomePlan(x, name), goal)
      modifies this, accounting
      ensures Idle() && Now() == goal
      ensures trace == old(trace) + (Removal.SettlePlan(old(FilesNow()), x) + Archiving.FromHomePlan(x, name))
    {
      ghost var rest := Removal.SettlePlan(FilesNow(), x) + Archiving.FromHomePlan(x, name);
      rest := SettleIntents(x, rest, goal);
      var size := records[x].size;
      PersistArchiveName(x, name, rest, goal);
      rest := rest[1..];
      RenamePayload(x, name, rest, goal);
      rest := rest[1..];
      RelocateRecord(x, name, size, rest, goal);
    }

    /** Row, metadata, and its final state, once the payload is below `archive`. */
    method RelocateRecord(x: Id, name: Id, size: int, ghost rest: seq<Action>, ghost goal: System)
      requires Follows(rest, goal) && rest == Archiving.RecordPlan(name)
      requires 0 < size && name in records && records[name].original == x && records[name].size == size
      modifies accounting, `records, `trace
      ensures Idle() && Now() == goal && trace == old(trace) + rest
    {
      ghost var left := rest;
      ArchivePvReservation(x, name, size, left, goal);
      left := left[1..];
      RenameMetadata(name, left, goal);
      left := left[1..];
      SealMetadata(name, left, goal);
      Arrived(Now(), goal);
    }

    /** The archive policy for a volume whose metadata already names its archive. */
    method ResumeArchive(x: Id, name: Id, ghost goal: System)
      requires Idle() && name in records && records[name].original == x && 0 < records[name].size
      requires records[name].phase == ArchivingAtHome || records[name].phase == ArchivingMoved
      requires Leads(Now(), Archiving.ArchivePlan(FilesNow(), x, name), goal)
      modifies this, accounting
      ensures Idle() && Now() == goal && trace == old(trace) + Archiving.ArchivePlan(old(FilesNow()), x, name)
    {
      ghost var rest := Archiving.ArchivePlan(FilesNow(), x, name);
      var size := records[name].size;
      if records[name].phase == ArchivingMoved {
        ArchivePvReservation(x, name, size, rest, goal);
        rest := rest[1..];
        SealMetadata(name, rest, goal);
        Arrived(Now(), goal);
        return;
      }
      if name !in archive {
        RenamePayload(x, name, rest, goal);
        rest := rest[1..];
      }
      assert rest == Archiving.RecordPlan(name);
      RelocateRecord(x, name, size, rest, goal);
    }

    /** `_delete_pending_creation`: the payload first, then row and intent in one transaction. */
    method CancelCreation(x: Id)
      requires Idle() && Parses(Removal.Unpaid(FilesNow(), x)) && Admission.EntriesValid(Removal.Unpaid(FilesNow(), x))
      modifies accounting, `payload, `creating, `trace
      ensures Idle() && payload == old(payload) - {x} && creating == old(creating) - {x}
      ensures accounting.committedRows == old(Working(Removal.Unpaid(FilesNow(), x), accounting.committedRows)) - {x}
      ensures trace == old(trace) + (Removal.CancelPlan(x) + [CommitIndex])
    {
      payload := payload - {x};
      CancelReservation(x);
      trace := trace + (Removal.CancelPlan(x) + [CommitIndex]);
    }

    /** Row and intent go in one transaction, the intent before the commit. */
    method CancelReservation(x: Id)
      requires Idle() && Readable()
      modifies accounting, `creating
      ensures Idle() && creating == old(creating) - {x}
      ensures accounting.committedRows == old(Working(FilesNow(), accounting.committedRows)) - {x}
    {
      ghost var working := OpenRebuilt();
      accounting.RemovePvRecord(x);
      creating := creating - {x};
      accounting.CommitTransaction();
    }

    // ---- Reclaiming archives ----

    /** `release_archived_pv_reservation`. */
    method ReleaseArchivedRow(name: Id, ghost rest: seq<Action>, ghost goal: System)
      requires Follows(rest, goal) && rest != [] && rest[0] == ReleaseArchive(name) && Readable()
      modifies accounting, `trace
      ensures Took(rest, goal)
    {
      Peel(Now(), rest, goal);
      ghost var working := OpenRebuilt();
      accounting.RemovePvRecord(name);
      accounting.CommitTransaction();
      trace := trace + [ReleaseArchive(name)];
    }

    /** One round of `delete_archived_pvs`. */
    method ReclaimArchive(name: Id, ghost goal: System)
      requires Idle() && (At(FilesNow(), name, Archived) || At(FilesNow(), name, Reclaiming))
      requires Parses(Archiving.Emptied(FilesNow(), name))
               && Admission.EntriesValid(Archiving.Emptied(FilesNow(), name))
      requires Leads(Now(), Archiving.ReclaimPlan(FilesNow(), name), goal)
      modifies this, accounting
      ensures Idle() && Now() == goal && trace == old(trace) + Archiving.ReclaimPlan(old(FilesNow()), name)
    {
      ghost var rest := Archiving.ReclaimPlan(FilesNow(), name);
      if records[name].phase != Reclaiming {
        WriteReclaimTombstone(name, rest, goal);
        rest := rest[1..];
      }
      assert FilesNow().records == Archiving.Emptied(old(FilesNow()), name).records;
      PurgeReclaimed(name, goal);
    }

    /** Payload, row and tombstone, in that order. */
    method PurgeReclaimed(name: Id, ghost goal: System)
      requires Idle() && At(FilesNow(), name, Reclaiming)
      requires var emptied := FilesNow().(archive := archive - {name});
               Parses(emptied) && Admission.EntriesValid(emptied)
      requires Leads(Now(), Archiving.PurgePlan(name), goal)
      modifies accounting, `records, `archive, `trace
      ensures Idle() && Now() == goal && trace == old(trace) + Archiving.PurgePlan(name)
    {
      RemoveArchivedTree(name, Archiving.PurgePlan(name), goal);
      ReleaseReclaimed(name, goal);
    }

    /** The row, then the tombstone, of an archive whose payload is gone. */
    method ReleaseReclaimed(name: Id, ghost goal: System)
      requires Idle() && Readable() && name in records
      requires Leads(Now(), [ReleaseArchive(name), Do(UnlinkArchive(name))], goal)
      modifies accounting, `records, `trace
      ensures Idle() && Now() == goal
      ensures trace == old(trace) + [ReleaseArchive(name), Do(UnlinkArchive(name))]
    {
      ghost var rest := [ReleaseArchive(name), Do(UnlinkArchive(name))];
      ReleaseArchivedRow(name, rest, goal);
      rest := rest[1..];
      UnlinkArchivedMetadata(name, rest, goal);
      Arrived(Now(), goal);
    }

    method ReclaimListed(name: Id)
      requires Consistent() && Archiving.Retired(FilesNow(), name)
      modifies this, accounting
      ensures Consistent() && old(Parses(Archiving.Emptied(FilesNow(), name)))
      ensures Now() == old(Archiving.Reclaimed(Now(), name))
    {
      ReclaimedKeepsInv(Now(), name);
      Archiving.EmptiedParses(FilesNow(), name);
      Archiving.ReclaimLeads(Now(), name);
      EmptiedIsReadable(FilesNow(), name);
      ReclaimArchive(name, Archiving.Reclaimed(Now(), name));
    }

    /** One archive of the list, after those before it. */
    method ReclaimNext(names: seq<Id>, i: nat, ghost found: Files)
      requires Consistent() && i < |names| && AllRetired(found, names) && Differ(names)
      requires FilesNow() == Without(found, Listed(names[..i]))
      modifies this, accounting
      ensures Consistent() && FilesNow() == Without(found, Listed(names[..i + 1]))
    {
      ListedNext(names, i);
      StillReclaimable(found, Listed(names[..i]), names[i]);
      ReclaimListed(names[i]);
    }

    /** `delete_archived_pvs`: the listed archives are gone, and every other file, payload and intent is as
        it was. */
    method DeleteArchivedPvs(names: seq<Id>)
      requires Consistent() && AllRetired(FilesNow(), names) && Differ(names)
      modifies this, accounting
      ensures Consistent()
      ensures records == old(records) - (set n | n in names) && archive == old(archive) - (set n | n in names)
      ensures creating == old(creating) && expanding == old(expanding) && payload == old(payload)
    {
      ghost var found := FilesNow();
      WithoutNone(found);
      for i := 0 to |names|
        invariant Consistent() && FilesNow() == Without(found, Listed(names[..i]))
      {
        ReclaimNext(names, i, found);
      }
      assert names[..|names|] == names;
    }

    /** DeleteVolume. The reclaim policy is the one every earlier attempt on this volume had: no delete
        tombstone meets the archive policy. `name` is a fresh archive name; `holder` is the metadata the
        search found. */
    method DeleteVolume(x: Id, policy: Policy, name: Id) returns (ok: bool, holder: Option<Id>)
      requires Consistent() && Unused(FilesNow(), name) && name !in accounting.committedRows
      requires policy == Archive ==> !At(FilesNow(), x, Deleting)
      modifies this, accounting
      ensures Consistent()
      ensures holder.None? <==> !Busy(old(records), x)
      ensures holder.Some? ==> holder.value in old(records) && Holds(old(records)[holder.value], x)
      ensures policy == Retain || (holder.None? && x !in old(creating)) ==> ok && Now() == old(Now())
      ensures policy != Retain && holder.None? && x in old(creating) ==>
                old(Parses(Removal.Unpaid(FilesNow(), x))) && ok && Now() == old(Cancelled(Now(), x))
      ensures policy == Delete && holder.Some? ==>
                && ok == AliasOf(old(records)[holder.value]).None?
                && Now() == if ok then Removal.Deleted(old(Now()), x) else old(Now())
      ensures policy == Archive && holder.Some? && AliasOf(old(records)[holder.value]).None? ==>
                && ok && x in old(records) && x in old(payload)
                && Now() == Archiving.ArchivedAs(old(Now()), x, name, Archiving.HomeRecord(old(FilesNow()), x),
                                                 old(payload)[x])
      ensures policy == Archive && holder.Some? && AliasOf(old(records)[holder.value]).Some? ==>
                && ok && (x in old(payload) || holder.value in old(archive))
                && Now() == Archiving.ArchivedAs(old(Now()), x, holder.value, old(records)[holder.value],
                                                 Archiving.LimitOf(old(FilesNow()), x, holder.value))
    {
      ok := true;
      holder := FindHolder(x);
      if policy != Retain {
        if holder.None? {
          DeleteUnheld(x);
        } else {
          HolderOf(FilesNow(), x, holder.value);
          ok := DeleteManaged(x, holder.value, policy, name);
        }
      }
    }

    /** No metadata holds the name: at most a pending create is cancelled. */
    method DeleteUnheld(x: Id)
      requires Consistent() && !Busy(records, x)
      modifies this, accounting
      ensures Consistent() && (x !in old(creating) ==> Now() == old(Now()))
      ensures x in old(creating) ==>
                old(Parses(Removal.Unpaid(FilesNow(), x))) && Now() == old(Cancelled(Now(), x))
    {
      NobodyHolds(FilesNow(), x);
      if x in creating {
        CancelPendingCreation(x);
      }
    }

    method CancelPendingCreation(x: Id)
      requires Consistent() && Pends(FilesNow(), x)
      modifies this, accounting
      ensures Consistent()
      ensures old(Parses(Removal.Unpaid(FilesNow(), x))) && Now() == old(Cancelled(Now(), x))
    {
      ghost var before := Now();
      CancelKeepsInv(before, x);
      CancelCreation(x);
      assert Now() == Cancelled(before, x);
    }

    method DeleteManaged(x: Id, i: Id, policy: Policy, name: Id) returns (ok: bool)
      requires Consistent() && i in records && Holds(records[i], x) && Unused(FilesNow(), name)
               && name !in accounting.committedRows
      requires AliasOf(records[i]).None? ==> i == x
      requires policy != Retain && (policy == Archive ==> records[i].phase != Deleting)
      modifies this, accounting
      ensures Consistent()
      ensures policy == Delete ==>
                && ok == AliasOf(old(records)[i]).None?
                && Now() == if ok then Removal.Deleted(old(Now()), x) else old(Now())
      ensures policy == Archive && AliasOf(old(records)[i]).None? ==> ok && ArchivedFresh(old(Now()), x, name, Now())
      ensures policy == Archive && AliasOf(old(records)[i]).Some? ==> ok && ResumedAs(old(Now()), x, i, Now())
    {
      ghost var before := Now();
      if AliasOf(records[i]).Some? {
        if policy == Delete {
          return false;
        }
        ResumeLeads(before, x, i);
        ResumedKeepsInv(before, x, i);
        ResumeArchive(x, i, Archiving.ArchivedAs(before, x, i, records[i], Archiving.LimitOf(FilesNow(), x, i)));
        return true;
      }
      if policy == Delete {
        DeleteLeads(before, x);
        DeletedKeepsInv(before, x);
        EraseVolume(x, Removal.Deleted(before, x));
      } else {
        PrepareLeads(before, x, name);
        ArchivedKeepsInv(before, x, name);
        PrepareArchiveOf(x, name,
            Archiving.ArchivedAs(before, x, name, Archiving.HomeRecord(FilesNow(), x), payload[x]));
      }
      return true;
    }
  }

  /** The pool once `x` has been archived under a name nothing mentioned before. */
  predicate ArchivedFresh(s: System, x: Id, name: Id, t: System) {
    && x in s.files.records && x in s.files.payload
    && t == Archiving.ArchivedAs(s, x, name, Archiving.HomeRecord(s.files, x), s.files.payload[x])
  }

  /** The pool once the interrupted archive `name` of `x` has been resumed. */
  predicate ResumedAs(s: System, x: Id, name: Id, t: System) {
    && name in s.files.records && (x in s.files.payload || name in s.files.archive)
    && t == Archiving.ArchivedAs(s, x, name, s.files.records[name], Archiving.LimitOf(s.files, x, name))
  }

  predicate AllRetired(f: Files, names: seq<Id>) {
    forall i :: 0 <= i < |names| ==> Archiving.Retired(f, names[i])
  }

  predicate Differ(names: seq<Id>) {
    forall i, j :: 0 <= i < j < |names| ==> names[i] != names[j]
  }

  function Listed(names: seq<Id>): set<Id> {
    set n | n in names
  }

  lemma ListedNext(names: seq<Id>, i: nat)
    requires i < |names| && Differ(names)
    ensures Listed(names[..i + 1]) == Listed(names[..i]) + {names[i]} && names[i] !in Listed(names[..i])
  {
    assert names[..i + 1] == names[..i] + [names[i]];
  }

  lemma EmptiedIsReadable(f: Files, name: Id)
    requires FilesOk(f) && name in f.records
    ensures Admission.EntriesValid(Archiving.Emptied(f, name))
  {
    Admission.FilesOkValid(f);
  }

  function Without(f: Files, names: set<Id>): Files {
    f.(records := f.records - names, archive := f.archive - names)
  }

  lemma WithoutNone(f: Files)
    ensures Without(f, Listed([])) == f
  {
    assert f.records - Listed([]) == f.records && f.archive - Listed([]) == f.archive;
  }

  lemma StillReclaimable(f: Files, gone: set<Id>, name: Id)
    requires Archiving.Retired(f, name) && name !in gone
    ensures Archiving.Retired(Without(f, gone), name)
    ensures Archiving.Purged(Without(f, gone), name) == Without(f, gone + {name})
  {
  }
}
