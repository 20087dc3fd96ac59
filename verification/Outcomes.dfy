/** What each call leaves behind: its answer and the exact state, as functions of the state it found. */
module Outcomes {
  import opened Base
  import opened Accounting
  import opened Lifecycle
  import opened Operations
  import opened Paths
  import R = Records
  import B = Rebuild
  import Admission
  import Archiving
  import Removal
  import opened Runs
  import Safety

  /** The answer to ControllerExpandVolume: its gRPC code, and the capacity when it is OK. */
  datatype Answer = Ok(bytes: int) | InvalidArgument | Missing | FailedPrecondition | OutOfRange | Exhausted

  // ---- Index transactions around an intent ----

  /** The pool once the grant's intent and row are durable. */
  function Granted(s: System, g: Grant): System
    requires Parses(s.files)
  {
    System(s.total, Intended(s.files, g), FinalRows(Txn(Working(s.files, s.stats), g, true)), None)
  }

  lemma AdmissionRuns(s: System, begin: Action)
    requires s.txn.None? && Enabled(s, begin) && (begin.BeginCreate? || begin.BeginExpand?)
    ensures Leads(s, [begin, WriteIntent, CommitIndex], Granted(s, Next(s, begin).txn.value.grant))
  {
    LeadsThree(s, begin, WriteIntent, CommitIndex);
  }

  lemma AdmissionKeepsInv(s: System, begin: Action)
    requires Inv(s) && s.txn.None? && Enabled(s, begin) && Assumed(s, begin)
             && (begin.BeginCreate? || begin.BeginExpand?)
    ensures Inv(Granted(s, Next(s, begin).txn.value.grant))
  {
    var s1 := Next(s, begin);
    StepKeepsInv(s, begin);
    IntentCommits(s1);
  }

  lemma IntentCommits(s: System)
    requires Inv(s) && s.txn.Some? && !s.txn.value.written
    ensures Inv(System(s.total, Intended(s.files, s.txn.value.grant), FinalRows(s.txn.value), None))
  {
    var s1 := Next(s, WriteIntent);
    StepKeepsInv(s, WriteIntent);
    StepKeepsInv(s1, CommitIndex);
  }

  /** What `_admit_volume_creation` decides: granted, no room, or an error. */
  ghost function CreateVerdict(total: int, creating: map<Id, R.CreationIntent>, working: map<Id, int>, x: Id, size: int)
    : Result<bool>
  {
    if x in creating then
      if creating[x].size == size then Success(true) else Failure
    else if x in working then Failure
    else Success(HasRoom(total, working, size))
  }

  /** The actions of an admission that ended this way. */
  function AdmissionPlan(f: Files, x: Id, size: int, incarnation: nat, r: Result<bool>): seq<Action> {
    if r == Failure then []
    else if r == Success(true) && x !in f.creating then [BeginCreate(x, size, incarnation), WriteIntent, CommitIndex]
    else [RebuildIndex]
  }

  function AdmissionOutcome(s: System, x: Id, size: int, incarnation: nat, r: Result<bool>): System
    requires Parses(s.files)
  {
    if r == Failure then s
    else if r == Success(true) && x !in s.files.creating then Granted(s, GrantCreate(x, size, incarnation))
    else s.(stats := Working(s.files, s.stats))
  }

  /** The decision in full. A pending intent of this size is granted whatever the rows and the free bytes
      are; without one the name must have no row, and the size must be less than nine tenths of the free
      bytes. */
  lemma AdmissionDecides(total: int, creating: map<Id, R.CreationIntent>, working: map<Id, int>, x: Id, size: int)
    ensures var r := CreateVerdict(total, creating, working, x, size);
            && (r == Failure <==>
                  if x in creating then creating[x].size != size else x in working)
            && (r == Success(false) <==>
                  x !in creating && x !in working && 9 * (total - Sum(working)) <= 10 * size)
            && (r == Success(true) <==>
                  || (x in creating && creating[x].size == size)
                  || (x !in creating && x !in working && 10 * size < 9 * (total - Sum(working))))
  {
  }

  /** The code compares with the free bytes less ten percent of them. */
  lemma RoomIsNineTenths(total: int, working: map<Id, int>, extra: int)
    ensures var free := (total - Sum(working)) as real;
            HasRoom(total, working, extra) <==> !(extra as real >= free - free * 10.0 / 100.0)
  {
  }

  /** What an admission leaves: with a pending intent of this size, or without room, nothing but the rebuilt
      index; on a fresh grant the intent and its row; on an error nothing at all. Each is reached by the
      admission's own actions and keeps the invariant. */
  lemma AdmissionEnds(s: System, x: Id, size: int, incarnation: nat, r: Result<bool>)
    requires Inv(s) && s.txn.None? && Parses(s.files) && 0 < size && Clear(s.files, x)
    requires NotFound(s.files, x) || Pends(s.files, x)
    requires r == CreateVerdict(s.total, s.files.creating, Working(s.files, s.stats), x, size)
    ensures var t := AdmissionOutcome(s, x, size, incarnation, r);
            && Inv(t) && Leads(s, AdmissionPlan(s.files, x, size, incarnation, r), t)
            && t.files == s.files.(creating := t.files.creating) && t.txn.None?
            && if r == Success(true) && x !in s.files.creating then
                 && t.files.creating == s.files.creating[x := R.CreationIntent(x, size, incarnation)]
                 && t.stats == Working(s.files, s.stats)[x := size]
               else
                 && t.files.creating == s.files.creating
                 && t.stats == if r == Failure then s.stats else Working(s.files, s.stats)
  {
    if r == Failure {
      Stay(s);
    } else if r == Success(true) && x !in s.files.creating {
      AdmissionRuns(s, BeginCreate(x, size, incarnation));
      AdmissionKeepsInv(s, BeginCreate(x, size, incarnation));
    } else {
      LeadsOne(s, RebuildIndex);
      StepKeepsInv(s, RebuildIndex);
    }
  }

  /** What `reserve_volume_expansion` decides without a pending intent: granted, no room, or an error. */
  ghost function TargetVerdict(total: int, working: map<Id, int>, x: Id, fromSize: int, toSize: int): Result<bool>
  {
    if x in working && working[x] == toSize then Success(true)
    else if x in working && working[x] == fromSize then Success(HasRoom(total, working, toSize - fromSize))
    else Failure
  }

  /** A row already at the target is granted without room, one still at the source needs room for the
      difference, and any other row, or none, is an error. */
  lemma TargetDecides(total: int, working: map<Id, int>, x: Id, fromSize: int, toSize: int)
    requires fromSize < toSize
    ensures var r := TargetVerdict(total, working, x, fromSize, toSize);
            && (r == Failure <==> x !in working || (working[x] != fromSize && working[x] != toSize))
            && (r == Success(false) <==>
                  x in working && working[x] == fromSize && 9 * (total - Sum(working)) <= 10 * (toSize - fromSize))
            && (r == Success(true) <==>
                  && x in working
                  && (working[x] == toSize
                      || (working[x] == fromSize && 10 * (toSize - fromSize) < 9 * (total - Sum(working)))))
  {
  }

  // ---- What the search tells an operation ----

  lemma NobodyHolds(f: Files, x: Id)
    requires FilesOk(f) && !Busy(f.records, x)
    ensures x in f.records ==> f.records[x].phase != Committed
    ensures x in f.creating ==> Pends(f, x)
  {
    if x in f.records { assert RecordOk(f, x); }
    Safety.CreateOkAt(f, x);
  }

  lemma HolderOf(f: Files, x: Id, i: Id)
    requires FilesOk(f) && i in f.records && Holds(f.records[i], x)
    ensures AliasOf(f.records[i]).None? ==> i == x
    ensures f.records[i].phase != Committed ==> x !in f.creating && !At(f, x, Committed)
    ensures 0 < f.records[i].size
  {
    assert RecordOk(f, i);
    Safety.CreateOkAt(f, x);
    if x in f.records { assert RecordOk(f, x); assert At(f, x, Committed) ==> SameName(f.records[i], f.records[x]); }
  }

  /** A committed volume without its leftover create intent, charged with its size. */
  function Recommitted(s: System, x: Id): System
    requires x in s.files.records
  {
    s.(files := s.files.(creating := s.files.creating - {x}), stats := s.stats[x := s.files.records[x].size])
  }

  lemma CommittedRetry(s: System, x: Id)
    requires CreatesOk(s.files) && s.txn.None? && At(s.files, x, Committed) && 0 < s.files.records[x].size
    ensures IsPlain(CreatePlan(s.files, x)) && Leads(s, CreatePlan(s.files, x), Recommitted(s, x))
    ensures var t := Recommitted(s, x);
            && t == s.(files := t.files, stats := s.stats[x := s.files.records[x].size])
            && t.files == s.files.(creating := t.files.creating) && x !in t.files.creating
  {
    Safety.CreateOkAt(s.files, x);
    var charge := Charge(x, s.files.records[x].size);
    if x in s.files.creating {
      LeadsTwo(s, Do(FinishCreate(x)), charge);
      assert [Do(FinishCreate(x))] + [charge] == [Do(FinishCreate(x)), charge];
    } else {
      LeadsOne(s, charge);
      assert s.files.creating - {x} == s.files.creating;
    }
  }

  lemma PendingRetry(s: System, x: Id)
    requires CreatesOk(s.files) && ExpandsOk(s.files) && s.txn.None? && Pends(s.files, x)
    ensures var c := s.files.creating[x];
            && 0 < c.size && IsPlain(CreatePlan(s.files, x))
            && Leads(s, CreatePlan(s.files, x), Created(s, x, c.size, c.incarnation))
  {
    Safety.CreateOkAt(s.files, x);
    Safety.ExpandOkAt(s.files, x);
    CreateCompletes(s, x, s.files.creating[x].size, s.files.creating[x].incarnation);
  }

  lemma FilesAreReadable(f: Files)
    requires FilesOk(f)
    ensures Admission.EntriesValid(f) && Parses(f)
  {
    Admission.FilesOkValid(f);
    Admission.ConsistentFilesParse(f);
  }

  // ---- Expansion ----

  lemma QuietIsPositive(f: Files, x: Id)
    requires FilesOk(f) && At(f, x, Committed)
    ensures 0 < f.records[x].size && Parses(f)
  {
    assert RecordOk(f, x);
    Admission.ConsistentFilesParse(f);
  }

  lemma ReservedRowIsRebuilt(rows: map<Id, int>, r: R.CapacityRecords, x: Id, size: int)
    requires x in r.reservations
    ensures B.Rebuilt(rows[x := size], r) == B.Rebuilt(rows, r)
  {
  }

  /** A rebuild charges a volume that is not expanding with its committed size, whatever its row said. */
  lemma QuietRow(s: System, x: Id, size: int)
    requires Parses(s.files) && At(s.files, x, Committed) && x !in s.files.expanding && s.files.records[x].size == size
    requires x in s.files.creating ==> s.files.creating[x].size == size
    ensures Working(s.files, s.stats[x := size]) == Working(s.files, s.stats)
    ensures x in Working(s.files, s.stats) && Working(s.files, s.stats)[x] == size
  {
    var r := CapacityRecordsOf(s.files).value;
    assert x in r.reservations && r.reservations[x] == size by {
      Admission.CodeReserves(s.files, x);
    }
    ReservedRowIsRebuilt(s.stats, r, x, size);
    B.RebuiltRows(s.stats, r, x);
  }

  lemma ReconcileKeepsInv(s: System, x: Id)
    requires Inv(s) && s.txn.None? && At(s.files, x, Committed) && x !in s.files.expanding
    ensures 0 < s.files.records[x].size
    ensures Leads(s, ReconcilePlan(x, s.files.records[x].size), Reconciled(s, x))
    ensures ExpandEnds(s, Reconciled(s, x), x, s.files.records[x].size)
    ensures Inv(Reconciled(s, x))
  {
    var size := s.files.records[x].size;
    QuietIsPositive(s.files, x);
    ReconcileLeads(s, x);
    StepKeepsInv(s, Charge(x, size));
    StepKeepsInv(Next(s, Charge(x, size)), Do(ApplyQuota(x, size)));
  }

  /** The pool once an expansion of `x` has run to its end, from the state its transaction opened in. */
  function ExpansionOutcome(s: System, x: Id, toSize: int): System
    requires Parses(s.files) && x in s.files.records
  {
    s.(files := Expanded(s.files, x, toSize), stats := Working(s.files, s.stats)[x := toSize])
  }

  lemma GrowKeepsInv(s: System, x: Id, toSize: int)
    requires Inv(s) && s.txn.None? && At(s.files, x, Committed)
    requires x in s.files.expanding && s.files.expanding[x].toSize == toSize
    ensures Inv(s.(files := Expanded(s.files, x, toSize)))
  {
    var limited := Next(s, Do(ApplyQuota(x, toSize)));
    var grown := Next(limited, Do(GrowRecord(x, toSize)));
    StepKeepsInv(s, Do(ApplyQuota(x, toSize)));
    StepKeepsInv(limited, Do(GrowRecord(x, toSize)));
    StepKeepsInv(grown, Do(FinishExpand(x)));
  }

  // A finished expansion, seen from the files it found.

  lemma ExpandedRecords(f: Files, x: Id, toSize: int)
    requires RecordsOk(f) && NamesOk(f.records) && ReleasesOk(f) && At(f, x, Committed) && 0 < toSize
    ensures var g := Expanded(f, x, toSize); RecordsOk(g) && NamesOk(g.records) && ReleasesOk(g)
  {
    var g := Expanded(f, x, toSize);
    assert RecordOk(f, x);
    forall i | i in g.records ensures RecordOk(g, i) {
      assert RecordOk(f, i);
      assert i != x && g.records[i].original == x ==> !Pending(g.records[i].phase) by {
        assert SameName(f.records[i], f.records[x]) ==> i == x;
      }
    }
    forall i, j | i in g.records && j in g.records && SameName(g.records[i], g.records[j]) ensures i == j {
      assert SameName(f.records[i], f.records[j]);
    }
    forall i | i in g.records && ReleasedAt(g, i) ensures ReleaseOk(g, i) {
      assert ReleasedAt(f, i);
    }
  }

  lemma ExpandedIntents(f: Files, x: Id, toSize: int)
    requires CreatesOk(f) && ExpandsOk(f) && At(f, x, Committed) && x !in f.creating
    ensures CreatesOk(Expanded(f, x, toSize)) && ExpandsOk(Expanded(f, x, toSize))
  {
    var g := Expanded(f, x, toSize);
    forall y | y in g.creating ensures CreateOk(g, y) {
      assert CreateOk(f, y);
      assert Busy(g.records, y) ==> Busy(f.records, y);
    }
    forall y | y in g.expanding ensures ExpandOk(g, y) { assert ExpandOk(f, y); }
  }

  lemma ExpandedPayloads(f: Files, x: Id, toSize: int)
    requires RecordsOk(f) && PayloadsOk(f) && At(f, x, Committed)
    ensures PayloadsOk(Expanded(f, x, toSize))
  {
    var g := Expanded(f, x, toSize);
    assert RecordOk(f, x);
    assert Holds(g.records[x], x);
    forall y | y in g.payload ensures Pends(g, y) || Busy(g.records, y) {
      if y != x && Busy(f.records, y) {
        var i :| i in f.records && Holds(f.records[i], y);
        assert Holds(g.records[i], y);
      }
    }
  }

  lemma ExpandedStaysOk(f: Files, x: Id, toSize: int)
    requires FilesOk(f) && Quiet(f, x) && 0 < toSize
    ensures FilesOk(Expanded(f, x, toSize))
  {
    ExpandedRecords(f, x, toSize);
    ExpandedIntents(f, x, toSize);
    ExpandedPayloads(f, x, toSize);
  }

  /** A create intent left behind contradicts the new size. */
  lemma ExpandedContradicts(f: Files, x: Id, toSize: int)
    requires CreatesOk(f) && At(f, x, Committed) && x in f.creating && f.records[x].size < toSize
    ensures !FilesOk(Expanded(f, x, toSize))
  {
    assert CreateOk(f, x);
    assert !CreateOk(Expanded(f, x, toSize), x);
  }

  lemma ExpandedReserves(f: Files, x: Id, toSize: int)
    requires Quiet(f, x)
    ensures Durable(Expanded(f, x, toSize)) == Durable(f)[x := toSize]
    ensures x in Durable(f) && Durable(f)[x] == f.records[x].size
  {
    var g := Expanded(f, x, toSize);
    forall k
      ensures k in Durable(g) <==> k in Durable(f)[x := toSize]
      ensures k in Durable(g) ==> Durable(g)[k] == Durable(f)[x := toSize][k]
    {
      assert k in Durable(f) <==> Reservation(f, k).Some?;
      assert k in Durable(g) <==> Reservation(g, k).Some?;
      assert k != x ==> Reservation(g, k) == Reservation(f, k);
    }
    assert Reservation(f, x) == Some(f.records[x].size);
  }

  lemma ExpandedFits(s: System, x: Id, toSize: int)
    requires FilesOk(s.files) && ValidRows(s.stats) && Parses(s.files) && Quiet(s.files, x)
    requires s.files.records[x].size < toSize
             && HasRoom(s.total, Working(s.files, s.stats), toSize - s.files.records[x].size)
    ensures Sum(Durable(Expanded(s.files, x, toSize))) <= s.total
    ensures ValidRows(Working(s.files, s.stats))
  {
    Admission.WorkingCoversDurable(s.files, s.stats);
    ExpandedReserves(s.files, x, toSize);
    SumReplace(Durable(s.files), x, toSize);
  }

  lemma RestingOutcome(s: System, x: Id, toSize: int)
    requires s.txn.None? && Parses(s.files) && x in s.files.records && 0 < toSize
    requires FilesOk(Expanded(s.files, x, toSize)) && Sum(Durable(Expanded(s.files, x, toSize))) <= s.total
    requires ValidRows(Working(s.files, s.stats))
    ensures Inv(ExpansionOutcome(s, x, toSize))
  {
  }

  lemma NewTargetKeepsInv(s: System, x: Id, toSize: int)
    requires Inv(s) && s.txn.None? && Parses(s.files) && Quiet(s.files, x) && 0 < s.files.records[x].size < toSize
    requires HasRoom(s.total, Working(s.files, s.stats), toSize - s.files.records[x].size)
    ensures Inv(ExpansionOutcome(s, x, toSize))
  {
    ExpandedStaysOk(s.files, x, toSize);
    ExpandedFits(s, x, toSize);
    RestingOutcome(s, x, toSize);
  }

  /** A new target that the rebuilt index has room for leaves the pool consistent if and only if no create
      intent of the volume is left. */
  lemma NewTargetKeepsInvIff(s: System, x: Id, toSize: int)
    requires Inv(s) && s.txn.None? && Parses(s.files) && At(s.files, x, Committed) && x !in s.files.expanding
    requires 0 < s.files.records[x].size < toSize
             && HasRoom(s.total, Working(s.files, s.stats), toSize - s.files.records[x].size)
    ensures Inv(ExpansionOutcome(s, x, toSize)) <==> x !in s.files.creating
  {
    if x in s.files.creating {
      ExpandedContradicts(s.files, x, toSize);
    } else {
      NewTargetKeepsInv(s, x, toSize);
    }
  }

  /** A retry: the index is rebuilt, the row restated, and the expansion goes on. */
  lemma RenewedExpansionKeepsInv(s: System, x: Id, toSize: int)
    requires Inv(s) && s.txn.None? && Parses(s.files) && At(s.files, x, Committed)
    requires x in s.files.expanding && s.files.expanding[x].toSize == toSize
    ensures Inv(ExpansionOutcome(s, x, toSize))
  {
    var u := s.(stats := Working(s.files, s.stats)[x := toSize]);
    StepKeepsInv(s, RebuildIndex);
    StepKeepsInv(Next(s, RebuildIndex), Charge(x, toSize));
    GrowKeepsInv(u, x, toSize);
  }

  /** The whole of an expansion after validation: what it leaves, whether or not it was granted. */
  function ExpansionResult(s: System, x: Id, row: int, toSize: int, granted: bool): System
    requires Parses(s.files) && x in s.files.records
  {
    var charged := s.(stats := s.stats[x := row]);
    if granted then ExpansionOutcome(charged, x, toSize) else charged.(stats := Working(s.files, charged.stats))
  }

  lemma ExpansionStarts(s: System, x: Id, fromSize: int, toSize: int)
    requires FilesOk(s.files) && At(s.files, x, Committed)
    requires if x in s.files.expanding then
               fromSize == s.files.expanding[x].fromSize && toSize == s.files.expanding[x].toSize
             else fromSize == s.files.records[x].size < toSize
    ensures Admission.EntriesValid(s.files) && Parses(s.files)
    ensures 0 < fromSize < toSize && (s.files.records[x].size == fromSize || s.files.records[x].size == toSize)
    ensures x in s.files.expanding ==> s.files.expanding[x] == R.ExpansionIntent(x, fromSize, toSize)
  {
    FilesAreReadable(s.files);
    QuietIsPositive(s.files, x);
    Safety.ExpandOkAt(s.files, x);
  }

  // ---- The call as a whole ----

  /** ControllerExpandVolume once the volume is found, committed and within the limit. */
  ghost function ExpandFound(s: System, x: Id, requested: int): (Answer, System)
    requires Parses(s.files) && x in s.files.records
  {
    var size := s.files.records[x].size;
    if x in s.files.expanding then
      if requested != s.files.expanding[x].toSize then (FailedPrecondition, s)
      else (Ok(requested), ExpansionResult(s, x, requested, requested, true))
    else if requested <= size then (Ok(size), Reconciled(s, x))
    else
      var granted := HasRoom(s.total, Working(s.files, s.stats), requested - size);
      (if granted then Ok(requested) else Exhausted, ExpansionResult(s, x, size, requested, granted))
  }

  /** ControllerExpandVolume on a shared pool. */
  ghost function ExpandCall(s: System, x: Id, required: int, limit: int): (Answer, System)
    requires Parses(s.files)
  {
    var requested := RequestedCapacity(required, limit);
    if requested.None? then (InvalidArgument, s)
    else if !Busy(s.files.records, x) then (if x in s.files.creating then FailedPrecondition else Missing, s)
    else if !At(s.files, x, Committed) then (FailedPrecondition, s)
    else if 0 < limit < s.files.records[x].size then (OutOfRange, s)
    else ExpandFound(s, x, requested.value)
  }

  // When each answer is given, and what it leaves.

  lemma CommittedIsHeld(f: Files, x: Id)
    requires FilesOk(f)
    ensures At(f, x, Committed) <==>
              && Busy(f.records, x)
              && forall i :: i in f.records && Holds(f.records[i], x) ==> f.records[i].phase == Committed
  {
    if At(f, x, Committed) {
      assert RecordOk(f, x);
      assert Holds(f.records[x], x);
      forall i | i in f.records && Holds(f.records[i], x) ensures i == x {
        assert RecordOk(f, i);
        assert SameName(f.records[i], f.records[x]);
      }
    } else if i :| i in f.records && Holds(f.records[i], x) {
      HolderOf(f, x, i);
    }
  }

  lemma CallAnswers(s: System, x: Id, required: int, limit: int)
    requires Parses(s.files) && (At(s.files, x, Committed) ==> Busy(s.files.records, x))
    ensures var f, call := s.files, ExpandCall(s, x, required, limit);
            var refused := required < 0 || limit < 0 || (required == 0 && limit == 0) || 0 < limit < required;
            && (call.0 == InvalidArgument <==> refused)
            && (call.0 == Missing <==> !refused && x !in f.creating && !Busy(f.records, x))
            && (call.0 == OutOfRange <==> !refused && At(f, x, Committed) && 0 < limit < f.records[x].size)
            && (!refused && !At(f, x, Committed) && (x in f.creating || Busy(f.records, x)) ==>
                  call.0 == FailedPrecondition)
            && (!refused && At(f, x, Committed) && (limit == 0 || f.records[x].size <= limit) ==>
                  call == ExpandFound(s, x, if required == 0 then limit else required))
            && (call.0 == InvalidArgument || call.0 == Missing || call.0 == OutOfRange ==> call.1 == s)
            && (!At(f, x, Committed) ==> call.1 == s)
  {
  }

  lemma FoundAnswers(s: System, x: Id, requested: int)
    requires Parses(s.files) && At(s.files, x, Committed)
    ensures var f, answer := s.files, ExpandFound(s, x, requested).0;
            var size := f.records[x].size;
            && (answer == FailedPrecondition <==> x in f.expanding && requested != f.expanding[x].toSize)
            && (answer == Exhausted <==>
                  && x !in f.expanding && size < requested
                  && 9 * (s.total - Sum(Working(f, s.stats))) <= 10 * (requested - size))
            && (answer.Ok? || answer == FailedPrecondition || answer == Exhausted)
            && (answer.Ok? ==> answer.bytes == if x !in f.expanding && requested <= size then size else requested)
  {
  }

  /** A rebuild charges a pending target whatever the row said. */
  lemma PendingRow(s: System, x: Id)
    requires Parses(s.files) && x in s.files.expanding
    requires x in s.files.records && s.files.records[x].phase == Committed
    ensures Working(s.files, s.stats[x := s.files.expanding[x].toSize]) == Working(s.files, s.stats)
  {
    var r := CapacityRecordsOf(s.files).value;
    assert x in r.reservations by {
      Admission.CodeReserves(s.files, x);
    }
    ReservedRowIsRebuilt(s.stats, r, x, s.files.expanding[x].toSize);
  }

  /** Files and rows after an OK, or after any other answer. */
  predicate Leaves(s: System, x: Id, answer: Answer, rows: map<Id, int>, t: System) {
    t.total == s.total && t.txn.None? &&
    if answer.Ok? then
      && x in s.files.records && t.files == Expanded(s.files, x, answer.bytes)
      && t.stats == rows[x := answer.bytes]
    else t.files == s.files && t.stats == rows
  }

  lemma RetryLeaves(s: System, x: Id, requested: int)
    requires s.txn.None? && Parses(s.files) && At(s.files, x, Committed) && x in s.files.expanding
    ensures var (answer, t) := ExpandFound(s, x, requested);
            Leaves(s, x, answer, if answer.Ok? then Working(s.files, s.stats) else s.stats, t)
  {
    PendingRow(s, x);
  }

  lemma SmallerLeaves(s: System, x: Id, requested: int)
    requires s.txn.None? && Parses(s.files) && At(s.files, x, Committed) && x !in s.files.expanding
    requires requested <= s.files.records[x].size
    ensures var (answer, t) := ExpandFound(s, x, requested); Leaves(s, x, answer, s.stats, t)
  {
    assert s.files.expanding - {x} == s.files.expanding;
    assert s.files.records[x := s.files.records[x].(size := s.files.records[x].size)] == s.files.records;
  }

  lemma TargetLeaves(s: System, x: Id, requested: int)
    requires s.txn.None? && Parses(s.files) && At(s.files, x, Committed) && x !in s.files.expanding
    requires x in s.files.creating ==> s.files.creating[x].size == s.files.records[x].size
    requires s.files.records[x].size < requested
    ensures var (answer, t) := ExpandFound(s, x, requested);
            Leaves(s, x, answer, Working(s.files, s.stats), t)
  {
    QuietRow(s, x, s.files.records[x].size);
  }

  lemma FoundLeaves(s: System, x: Id, requested: int)
    requires CreatesOk(s.files) && s.txn.None? && Parses(s.files) && At(s.files, x, Committed)
    ensures var (answer, t) := ExpandFound(s, x, requested);
            && (answer.Ok? ==> Leaves(s, x, answer, s.stats, t) || Leaves(s, x, answer, Working(s.files, s.stats), t))
            && (!answer.Ok? ==>
                  Leaves(s, x, answer, if answer == Exhausted then Working(s.files, s.stats) else s.stats, t))
  {
    FoundAnswers(s, x, requested);
    if x in s.files.expanding {
      RetryLeaves(s, x, requested);
    } else if requested <= s.files.records[x].size {
      SmallerLeaves(s, x, requested);
    } else {
      Safety.CreateOkAt(s.files, x);
      TargetLeaves(s, x, requested);
    }
  }

  lemma GrantedGrows(s: System, x: Id, fromSize: int, toSize: int)
    requires s.txn.None? && Parses(s.files) && x in s.files.records
    ensures var granted := Granted(s, GrantExpand(x, fromSize, toSize));
            granted.(files := Expanded(granted.files, x, toSize)) == ExpansionOutcome(s, x, toSize)
  {
    var granted := Granted(s, GrantExpand(x, fromSize, toSize));
    assert granted.files.expanding - {x} == s.files.expanding - {x};
  }

  lemma TargetIsAdmitted(s: System, x: Id, fromSize: int, toSize: int)
    requires s.txn.None? && Parses(s.files) && At(s.files, x, Committed) && x !in s.files.expanding
    requires s.files.records[x].size == fromSize && 0 < fromSize < toSize
    requires x in Working(s.files, s.stats) && Working(s.files, s.stats)[x] == fromSize
    requires 10 * (toSize - fromSize) < 9 * (s.total - Sum(Working(s.files, s.stats)))
    ensures Leads(s, [BeginExpand(x, fromSize, toSize), WriteIntent, CommitIndex] + GrowPlan(x, toSize),
                  ExpansionOutcome(s, x, toSize))
  {
    var begin := BeginExpand(x, fromSize, toSize);
    var granted := Granted(s, GrantExpand(x, fromSize, toSize));
    AdmissionRuns(s, begin);
    ExpandGrows(granted, x, toSize);
    GrantedGrows(s, x, fromSize, toSize);
    LeadsOn(s, [begin, WriteIntent, CommitIndex], granted, GrowPlan(x, toSize), ExpansionOutcome(s, x, toSize));
  }

  /** A new target the rebuilt index has room for is reached by the call's own actions: the row is restated,
      intent and row are reserved together, then quota, metadata and intent change in that order. */
  lemma NewTargetLeads(s: System, x: Id, requested: int)
    requires FilesOk(s.files) && s.txn.None? && Parses(s.files) && At(s.files, x, Committed)
    requires x !in s.files.expanding && s.files.records[x].size < requested
    requires 10 * (requested - s.files.records[x].size) < 9 * (s.total - Sum(Working(s.files, s.stats)))
    ensures var size := s.files.records[x].size;
            Leads(s, [Charge(x, size)] + ([BeginExpand(x, size, requested), WriteIntent, CommitIndex]
                                          + GrowPlan(x, requested)),
                  ExpandFound(s, x, requested).1)
  {
    var size := s.files.records[x].size;
    QuietIsPositive(s.files, x);
    Safety.CreateOkAt(s.files, x);
    QuietRow(s, x, size);
    var charged := s.(stats := s.stats[x := size]);
    TargetIsAdmitted(charged, x, size, requested);
    LeadsFirst(s, Charge(x, size), [BeginExpand(x, size, requested), WriteIntent, CommitIndex] + GrowPlan(x, requested),
               ExpansionOutcome(charged, x, requested));
  }

  /** The answer to every request, whatever the pool holds. A pending target is granted again without a look
      at the free bytes and a smaller request repairs the volume at its size; a new target is granted exactly
      when the difference is less than nine tenths of the free bytes. */
  lemma ExpandAnswersIff(s: System, x: Id, required: int, limit: int)
    requires FilesOk(s.files) && Parses(s.files)
    ensures var f, answer := s.files, ExpandCall(s, x, required, limit).0;
            var requested := if required == 0 then limit else required;
            if required < 0 || limit < 0 || (required == 0 && limit == 0) || 0 < limit < required then
              answer == InvalidArgument
            else if forall i :: i in f.records ==> !Holds(f.records[i], x) then
              answer == if x in f.creating then FailedPrecondition else Missing
            else if exists i :: i in f.records && Holds(f.records[i], x) && f.records[i].phase != Committed then
              answer == FailedPrecondition
            else
              && x in f.records
              && var size := f.records[x].size;
                 if 0 < limit < size then answer == OutOfRange
                 else if x in f.expanding then
                   answer == if requested == f.expanding[x].toSize then Ok(requested) else FailedPrecondition
                 else if requested <= size then answer == Ok(size)
                 else
                   answer == if 10 * (requested - size) < 9 * (s.total - Sum(Working(f, s.stats))) then Ok(requested)
                             else Exhausted
  {
    CommittedIsHeld(s.files, x);
    CallAnswers(s, x, required, limit);
    if At(s.files, x, Committed) {
      FoundAnswers(s, x, if required == 0 then limit else required);
    }
  }

  /** What the call leaves: with an OK, metadata, quota and row at the answered size, no intent, and of
      everything else only the index rebuilt; exhausted, the rebuilt index; refused, nothing. */
  lemma ExpandLeaves(s: System, x: Id, required: int, limit: int)
    requires FilesOk(s.files) && s.txn.None? && Parses(s.files)
    ensures var f, (answer, t) := s.files, ExpandCall(s, x, required, limit);
            && t.total == s.total && t.txn.None?
            && if answer.Ok? then
                 && x in f.records
                 && t.files == f.(records := f.records[x := f.records[x].(size := answer.bytes)],
                                  expanding := f.expanding - {x}, payload := f.payload[x := Limit(answer.bytes)])
                 && (t.stats == s.stats[x := answer.bytes] || t.stats == Working(f, s.stats)[x := answer.bytes])
               else t.files == f && t.stats == if answer == Exhausted then Working(f, s.stats) else s.stats
  {
    CommittedIsHeld(s.files, x);
    CallAnswers(s, x, required, limit);
    if At(s.files, x, Committed) {
      FoundLeaves(s, x, if required == 0 then limit else required);
    }
  }

  /** Every OK answer lies in the requested range, never below the committed size, and metadata, quota
      and accounting all end at it with no intent left. Any other answer leaves the files alone. */
  lemma ExpandAnswers(s: System, x: Id, required: int, limit: int)
    requires FilesOk(s.files) && s.txn.None? && Parses(s.files)
    ensures var (answer, t) := ExpandCall(s, x, required, limit);
            if answer.Ok? then
              && required <= answer.bytes && (0 < limit ==> answer.bytes <= limit)
              && x in s.files.records && s.files.records[x].size <= answer.bytes
              && ExpandEnds(s, t, x, answer.bytes)
            else t.files == s.files
  {
    if At(s.files, x, Committed) && RequestedCapacity(required, limit).Some? {
      QuietIsPositive(s.files, x);
      ExpandFoundAnswers(s, x, RequestedCapacity(required, limit).value);
    }
  }

  lemma ExpandFoundAnswers(s: System, x: Id, requested: int)
    requires ExpandsOk(s.files) && s.txn.None? && Parses(s.files) && At(s.files, x, Committed)
    requires 0 < s.files.records[x].size
    ensures var (answer, t) := ExpandFound(s, x, requested);
            if answer.Ok? then
              && (answer.bytes == requested || requested <= answer.bytes == s.files.records[x].size)
              && s.files.records[x].size <= answer.bytes && ExpandEnds(s, t, x, answer.bytes)
            else t.files == s.files
  {
    Safety.ExpandOkAt(s.files, x);
    if x !in s.files.expanding {
      ReconcileLeads(s, x);
    }
  }

  /** A retry with the pending target is granted whatever else the pool has admitted since; a new
      target is refused exactly when the rebuilt index has no room for the difference. */
  lemma ExpandIsExhaustedIff(s: System, x: Id, required: int, limit: int)
    requires FilesOk(s.files) && Parses(s.files) && At(s.files, x, Committed)
             && RequestedCapacity(required, limit).Some?
    requires 0 < limit ==> s.files.records[x].size <= limit
    ensures var answer, requested := ExpandCall(s, x, required, limit).0, RequestedCapacity(required, limit).value;
            && (x in s.files.expanding && requested == s.files.expanding[x].toSize ==> answer == Ok(requested))
            && (answer == Exhausted <==>
                  && x !in s.files.expanding && s.files.records[x].size < requested
                  && !HasRoom(s.total, Working(s.files, s.stats), requested - s.files.records[x].size))
  {
    assert RecordOk(s.files, x);
    assert Holds(s.files.records[x], x);
  }

  /** The whole call keeps the pool consistent if and only if it does not grow a volume whose create intent
      is still there. */
  lemma ExpandCallKeepsInvIff(s: System, x: Id, required: int, limit: int)
    requires Inv(s) && s.txn.None? && Parses(s.files)
    ensures var (answer, t) := ExpandCall(s, x, required, limit);
            Inv(t) <==>
            !(answer.Ok? && x in s.files.creating && x in s.files.records && s.files.records[x].size < answer.bytes)
  {
    if At(s.files, x, Committed) && RequestedCapacity(required, limit).Some? {
      ExpandFoundKeepsInvIff(s, x, RequestedCapacity(required, limit).value);
    }
  }

  /** What `ExpandFound` leaves is consistent, unless it grows a volume beside its create intent. */
  ghost predicate ConsistentIff(s: System, x: Id, requested: int)
    requires Parses(s.files) && x in s.files.records
  {
    var (answer, t) := ExpandFound(s, x, requested);
    Inv(t) <==> !(answer.Ok? && x in s.files.creating && s.files.records[x].size < answer.bytes)
  }

  lemma ExpandFoundKeepsInvIff(s: System, x: Id, requested: int)
    requires Inv(s) && s.txn.None? && Parses(s.files) && At(s.files, x, Committed)
    ensures ConsistentIff(s, x, requested)
  {
    if x in s.files.expanding {
      RetryFoundKeepsInv(s, x, requested);
    } else if requested <= s.files.records[x].size {
      ReconcileFoundKeepsInv(s, x, requested);
    } else {
      TargetFoundKeepsInvIff(s, x, requested);
    }
  }

  lemma RetryFoundKeepsInv(s: System, x: Id, requested: int)
    requires Inv(s) && s.txn.None? && Parses(s.files) && At(s.files, x, Committed) && x in s.files.expanding
    ensures Inv(ExpandFound(s, x, requested).1) && ConsistentIff(s, x, requested)
  {
    Safety.ExpandOkAt(s.files, x);
    if requested == s.files.expanding[x].toSize {
      StepKeepsInv(s, Charge(x, requested));
      RenewedExpansionKeepsInv(Next(s, Charge(x, requested)), x, requested);
    }
  }

  lemma ReconcileFoundKeepsInv(s: System, x: Id, requested: int)
    requires Inv(s) && s.txn.None? && Parses(s.files) && At(s.files, x, Committed)
    requires x !in s.files.expanding && requested <= s.files.records[x].size
    ensures Inv(ExpandFound(s, x, requested).1) && ConsistentIff(s, x, requested)
  {
    ReconcileKeepsInv(s, x);
  }

  lemma TargetFoundKeepsInvIff(s: System, x: Id, requested: int)
    requires Inv(s) && s.txn.None? && Parses(s.files) && At(s.files, x, Committed)
    requires x !in s.files.expanding && s.files.records[x].size < requested
    ensures ConsistentIff(s, x, requested)
  {
    var size := s.files.records[x].size;
    var charged := Next(s, Charge(x, size));
    QuietIsPositive(s.files, x);
    Safety.CreateOkAt(s.files, x);
    StepKeepsInv(s, Charge(x, size));
    QuietRow(s, x, size);
    if HasRoom(s.total, Working(s.files, s.stats), requested - size) {
      NewTargetKeepsInvIff(charged, x, requested);
    } else {
      StepKeepsInv(charged, RebuildIndex);
    }
  }

  // ---- Removal ----

  lemma HomeView(f: Files, x: Id)
    requires FilesOk(f) && At(f, x, Committed)
    ensures Removal.AtHome(ViewOf(f, x), x) && 0 < f.records[x].size && x in f.payload
  {
    assert RecordOk(f, x);
    Safety.CreateOkAt(f, x);
    Safety.ExpandOkAt(f, x);
  }

  lemma DeleteLeads(s: System, x: Id)
    requires FilesOk(s.files) && s.txn.None? && (At(s.files, x, Committed) || At(s.files, x, Deleting))
    ensures Leads(s, Removal.DeletePlan(s.files, x), Removal.Deleted(s, x))
  {
    if At(s.files, x, Committed) {
      HomeView(s.files, x);
    } else {
      TombstoneIntents(s.files, x);
    }
    Removal.DeleteCompletes(s, x);
  }

  lemma TombstoneIntents(f: Files, x: Id)
    requires FilesOk(f) && At(f, x, Deleting)
    ensures x !in f.creating && x !in f.expanding && f.records[x].original == x
  {
    assert RecordOk(f, x);
    Safety.CreateOkAt(f, x);
    Safety.ExpandOkAt(f, x);
  }

  /** The pool after a pending create has been cancelled. */
  function Cancelled(s: System, x: Id): System
    requires Parses(Removal.Unpaid(s.files, x))
  {
    var f := Removal.Unpaid(s.files, x);
    s.(files := f.(creating := f.creating - {x}), stats := Working(f, s.stats) - {x})
  }

  lemma CancelCommits(s: System, x: Id)
    requires s.txn.None? && Parses(Removal.Unpaid(s.files, x))
    ensures Leads(Removal.CancelUnlinked(s, x), [CommitIndex], Cancelled(s, x))
  {
    LeadsOne(Removal.CancelUnlinked(s, x), CommitIndex);
    var working := Working(Removal.Unpaid(s.files, x), s.stats);
    assert working - {x} - {x} == working - {x};
  }

  lemma CancelLeads(s: System, x: Id)
    requires s.txn.None? && Pends(s.files, x) && Parses(Removal.Unpaid(s.files, x))
    ensures Leads(s, Removal.CancelPlan(x) + [CommitIndex], Cancelled(s, x))
  {
    Removal.CancelLeads(s, x);
    CancelCommits(s, x);
    LeadsOn(s, Removal.CancelPlan(x), Removal.CancelUnlinked(s, x), [CommitIndex], Cancelled(s, x));
  }

  lemma CancelKeepsInv(s: System, x: Id)
    requires Inv(s) && s.txn.None? && Pends(s.files, x)
    ensures Parses(Removal.Unpaid(s.files, x)) && Admission.EntriesValid(Removal.Unpaid(s.files, x))
    ensures Inv(Cancelled(s, x))
  {
    UnpaidKeepsInv(s, x);
    FilesAreReadable(Removal.Unpaid(s.files, x));
    UnpaidIsCancelled(s.(files := Removal.Unpaid(s.files, x)), x);
    CancelledFiles(s, x);
  }

  lemma UnpaidKeepsInv(s: System, x: Id)
    requires Inv(s) && s.txn.None? && Pends(s.files, x)
    ensures Inv(s.(files := Removal.Unpaid(s.files, x))) && Pends(Removal.Unpaid(s.files, x), x)
  {
    StepKeepsInv(s, Do(RemovePending(x)));
  }

  lemma CancelledFiles(s: System, x: Id)
    requires s.txn.None? && Parses(Removal.Unpaid(s.files, x))
    ensures var f := Removal.Unpaid(s.files, x);
            Cancelled(s, x) == System(s.total, Intended(f, Cancel(x)), Working(f, s.stats) - {x}, None)
  {
  }

  lemma UnpaidIsCancelled(s: System, x: Id)
    requires Inv(s) && s.txn.None? && Pends(s.files, x) && x !in s.files.payload && Parses(s.files)
    ensures Inv(System(s.total, Intended(s.files, Cancel(x)), Working(s.files, s.stats) - {x}, None))
  {
    StepKeepsInv(s, BeginCancel(x));
    UnlinkCommits(Next(s, BeginCancel(x)), x);
  }

  lemma UnlinkCommits(s: System, x: Id)
    requires Inv(s) && s.txn.Some? && s.txn.value.grant == Cancel(x) && !s.txn.value.written
    requires s.txn.value.working - {x} == s.txn.value.working
    ensures Inv(System(s.total, Intended(s.files, Cancel(x)), s.txn.value.working, None))
  {
    IntentCommits(s);
  }

  // ---- Archives ----

  lemma PrepareLeads(s: System, x: Id, name: Id)
    requires FilesOk(s.files) && s.txn.None? && At(s.files, x, Committed) && Unused(s.files, name) && name !in s.stats
    ensures x in s.files.payload
    ensures Leads(s, Removal.SettlePlan(s.files, x) + Archiving.FromHomePlan(x, name),
                  Archiving.ArchivedAs(s, x, name, Archiving.HomeRecord(s.files, x), s.files.payload[x]))
  {
    HomeView(s.files, x);
    Archiving.ArchiveFromHome(s, x, name);
  }

  /** Metadata that persists an archive name is an archive to resume. */
  lemma HalfArchived(s: System, x: Id, name: Id)
    requires FilesOk(s.files) && s.txn.None? && name in s.files.records && Holds(s.files.records[name], x)
    requires AliasOf(s.files.records[name]).Some?
    ensures Archiving.ArchiveShape(s, x, name, s.files.records[name])
  {
    var f := s.files;
    assert RecordOk(f, name);
    Safety.CreateOkAt(f, x);
    Safety.ExpandOkAt(f, x);
    Safety.CreateOkAt(f, name);
    Safety.ExpandOkAt(f, name);
    if x in f.records {
      assert RecordOk(f, x);
      assert AliasOf(f.records[x]).None? ==> SameName(f.records[x], f.records[name]);
    }
  }

  lemma ResumeLeads(s: System, x: Id, name: Id)
    requires FilesOk(s.files) && s.txn.None? && name in s.files.records && Holds(s.files.records[name], x)
    requires AliasOf(s.files.records[name]).Some?
    ensures x in s.files.payload || name in s.files.archive
    ensures Leads(s, Archiving.ArchivePlan(s.files, x, name),
                  Archiving.ArchivedAs(s, x, name, s.files.records[name], Archiving.LimitOf(s.files, x, name)))
  {
    HalfArchived(s, x, name);
    Archiving.ArchiveResumes(s, x, name, s.files.records[name]);
  }

  lemma ArchiveIsPlain(f: Files, x: Id, name: Id)
    ensures IsPlain(Archiving.FromHomePlan(x, name))
    ensures IsPlain(Archiving.ArchivePlan(f, x, name))
  {
  }

  lemma DeletedKeepsInv(s: System, x: Id)
    requires Inv(s) && s.txn.None? && (At(s.files, x, Committed) || At(s.files, x, Deleting))
    ensures Inv(Removal.Deleted(s, x))
  {
    if At(s.files, x, Committed) {
      var t := s.(files := Removal.Settled(s.files, x));
      SettledKeepsInv(s, x);
      EraseIsPlain(x);
      Removal.QuietVolumeIsErased(t, x);
      Removal.DeletedAfterSettle(s, x);
      PlanKeepsInv(t, [Do(MarkDeleting(x))] + Removal.ErasePlan(x), Removal.Deleted(t, x));
    } else {
      DeleteLeads(s, x);
      EraseIsPlain(x);
      PlanKeepsInv(s, Removal.ErasePlan(x), Removal.Deleted(s, x));
    }
  }

  lemma EraseIsPlain(x: Id)
    ensures IsPlain(Removal.ErasePlan(x)) && IsPlain([Do(MarkDeleting(x))] + Removal.ErasePlan(x))
  {
  }

  lemma SettledKeepsInv(s: System, x: Id)
    requires Inv(s) && s.txn.None? && At(s.files, x, Committed)
    ensures Quiet(Removal.Settled(s.files, x), x)
    ensures Inv(s.(files := Removal.Settled(s.files, x)))
  {
    HomeView(s.files, x);
    Removal.SettleLeads(s, x);
    if x in s.files.expanding {
      AbsorbedKeepsInv(s, x);
    } else {
      PlanKeepsInv(s, Removal.SettlePlan(s.files, x), s.(files := Removal.Settled(s.files, x)));
    }
  }

  lemma AbsorbedKeepsInv(s: System, x: Id)
    requires Inv(s) && s.txn.None? && At(s.files, x, Committed) && x in s.files.expanding
    ensures Inv(s.(files := Removal.Settled(s.files, x)))
  {
    AbsorbedSizeKeepsInv(s, x);
    AbsorbedIntentGoes(s.(files := WithSize(s.files, x, s.files.expanding[x].toSize)), x);
    SettledFiles(s.files, x);
  }

  lemma AbsorbedSizeKeepsInv(s: System, x: Id)
    requires Inv(s) && s.txn.None? && At(s.files, x, Committed) && x in s.files.expanding
    ensures x !in s.files.creating
    ensures Inv(s.(files := WithSize(s.files, x, s.files.expanding[x].toSize)))
  {
    Safety.ExpandOkAt(s.files, x);
    StepKeepsInv(s, Do(AbsorbExpand(x)));
  }

  lemma SettledFiles(f: Files, x: Id)
    requires x in f.records && x in f.expanding && x !in f.creating
    ensures var g := WithSize(f, x, f.expanding[x].toSize);
            Removal.Settled(f, x) == g.(expanding := g.expanding - {x})
  {
    assert f.creating - {x} == f.creating;
  }

  lemma AbsorbedIntentGoes(s: System, x: Id)
    requires Inv(s) && s.txn.None? && At(s.files, x, Committed)
    requires x in s.files.expanding && s.files.records[x].size == s.files.expanding[x].toSize
    ensures Inv(s.(files := s.files.(expanding := s.files.expanding - {x})))
  {
    StepKeepsInv(s, Do(FinishExpand(x)));
  }

  lemma ArchivedKeepsInv(s: System, x: Id, name: Id)
    requires Inv(s) && s.txn.None? && At(s.files, x, Committed) && Unused(s.files, name) && name !in s.stats
    ensures x in s.files.payload
    ensures Inv(Archiving.ArchivedAs(s, x, name, Archiving.HomeRecord(s.files, x), s.files.payload[x]))
  {
    var t := s.(files := Removal.Settled(s.files, x));
    HomeView(s.files, x);
    SettledKeepsInv(s, x);
    Archiving.SettledKeepsUnused(s.files, x, name);
    Archiving.SettledStaysPositive(s.files, x);
    Archiving.QuietVolumeIsArchived(t, x, name);
    Archiving.ArchivedAfterSettle(s, x, name, Archiving.HomeRecord(s.files, x), s.files.payload[x]);
    ArchiveIsPlain(s.files, x, name);
    PlanKeepsInv(t, Archiving.FromHomePlan(x, name),
                 Archiving.ArchivedAs(t, x, name, t.files.records[x], t.files.payload[x]));
  }

  lemma ResumedKeepsInv(s: System, x: Id, name: Id)
    requires Inv(s) && s.txn.None? && name in s.files.records && Holds(s.files.records[name], x)
    requires AliasOf(s.files.records[name]).Some?
    ensures x in s.files.payload || name in s.files.archive
    ensures Inv(Archiving.ArchivedAs(s, x, name, s.files.records[name], Archiving.LimitOf(s.files, x, name)))
  {
    ResumeLeads(s, x, name);
    ArchiveIsPlain(s.files, x, name);
    PlanKeepsInv(s, Archiving.ArchivePlan(s.files, x, name),
                 Archiving.ArchivedAs(s, x, name, s.files.records[name], Archiving.LimitOf(s.files, x, name)));
  }

  lemma RetiredHasNoIntent(f: Files, name: Id)
    requires FilesOk(f) && Archiving.Retired(f, name)
    ensures name !in f.creating && name !in f.expanding
  {
    Safety.CreateOkAt(f, name);
    Safety.ExpandOkAt(f, name);
  }

  lemma PurgedFits(f: Files, name: Id, total: int)
    requires FilesOk(f) && Archiving.Retired(f, name) && Sum(Durable(f)) <= total
    ensures Sum(Durable(Archiving.Purged(f, name))) <= total
  {
    var g := Archiving.Purged(f, name);
    RetiredHasNoIntent(f, name);
    Safety.DurableIsPositive(f);
    forall k | k in Durable(g) ensures k in Durable(f) && Durable(g)[k] == Durable(f)[k] {
      PurgedReserves(f, name, k);
    }
    SumCovers(Durable(g), Durable(f));
  }

  lemma PurgedReserves(f: Files, name: Id, k: Id)
    requires name !in f.creating && name !in f.expanding
    ensures Reservation(Archiving.Purged(f, name), k) == if k == name then None else Reservation(f, k)
  {
  }

  lemma EmptiedRowsAreValid(f: Files, rows: map<Id, int>, name: Id)
    requires FilesOk(f) && Archiving.Retired(f, name) && ValidRows(rows)
    ensures Parses(Archiving.Emptied(f, name)) && ValidRows(Working(Archiving.Emptied(f, name), rows))
  {
    var g := Archiving.Emptied(f, name);
    Archiving.EmptiedParses(f, name);
    Admission.FilesOkValid(f);
    assert Admission.EntriesValid(g);
    Admission.ReservationsArePositive(g);
    B.RebuiltCovers(rows, CapacityRecordsOf(g).value);
  }

  /** A finished reclaim leaves the pool consistent, whatever was pending under the name of the volume the
      archive came from. */
  lemma ReclaimedKeepsInv(s: System, name: Id)
    requires Inv(s) && s.txn.None? && (At(s.files, name, Archived) || At(s.files, name, Reclaiming))
    ensures Parses(Archiving.Emptied(s.files, name)) && Inv(Archiving.Reclaimed(s, name))
  {
    EmptiedRowsAreValid(s.files, s.stats, name);
    Archiving.PurgedStaysOk(s.files, name);
    PurgedFits(s.files, name, s.total);
  }
}
