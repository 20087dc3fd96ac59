/**
 Runs the code's own checks allow although they break a promise, and exactly when that happens.
 Each is a run that leaves the assumptions of `Assumed`, or a crash at an unlucky place.
 */
module Hazards {
  import opened Base
  import opened Lifecycle
  import R = Records
  import Admission
  import Archiving
  import Leaks
  import Operations
  import opened Paths
  import Outcomes

  // ---- A reclaim tombstone hides a pending create of the same name ----

  /** Archive "a" of volume "x" is being reclaimed and its payload is already gone. */
  function ReclaimWindow(): System {
    System(100, Files(map["a" := Record(10, Reclaiming, "x", 1)], map[], map[], map[], map[]),
           map["a" := 10], None)
  }

  function TwoCreates(): seq<Action> {
    [BeginCreate("x", 80, 2), WriteIntent, CommitIndex, BeginCreate("y", 80, 3), WriteIntent]
  }

  lemma WindowFilesOk(f: Files)
    requires f == ReclaimWindow().files
    ensures FilesOk(f) && forall k :: Reservation(f, k) == None
  {
    assert !Busy(f.records, "x");
  }

  lemma ReclaimWindowIsConsistent()
    ensures Inv(ReclaimWindow())
  {
    var f := ReclaimWindow().files;
    WindowFilesOk(f);
    assert Durable(f) == map[];
  }

  // The states of that run.

  function WindowFiles(creating: map<Id, R.CreationIntent>): Files {
    ReclaimWindow().files.(creating := creating)
  }

  const X_PENDING: map<Id, R.CreationIntent> := map["x" := R.CreationIntent("x", 80, 2)]
  const BOTH_PENDING: map<Id, R.CreationIntent> := X_PENDING["y" := R.CreationIntent("y", 80, 3)]

  function Reserving(creating: map<Id, R.CreationIntent>, stats: map<Id, int>, g: Grant, written: bool): System {
    System(100, WindowFiles(creating), stats, Some(Txn(map[], g, written)))
  }

  function XCreated(): System {
    System(100, WindowFiles(X_PENDING), map["x" := 80], None)
  }

  /** While "x" is at most a pending intent, the code sees an empty, fully free pool. */
  lemma WindowLooksEmpty(creating: map<Id, R.CreationIntent>, stats: map<Id, int>)
    requires creating.Keys <= {"x"} && stats.Keys <= {"x", "a"}
    ensures var f := WindowFiles(creating); Parses(f) && Working(f, stats) == map[]
  {
    var f := WindowFiles(creating);
    assert ReleasedAt(f, "a") && AliasOf(f.records["a"]) == Some("x");
    assert "x" in Tombstones(f) && "a" in Tombstones(f);
    forall k ensures k !in CapacityRecordsOf(f).value.reservations {
      Admission.CodeReserves(f, k);
    }
  }

  lemma AdmitX()
    ensures var s, t := ReclaimWindow(), Reserving(map[], map["a" := 10], GrantCreate("x", 80, 2), false);
            Enabled(s, BeginCreate("x", 80, 2)) && Next(s, BeginCreate("x", 80, 2)) == t
  {
    WindowLooksEmpty(map[], map["a" := 10]);
    assert ReclaimWindow().files == WindowFiles(map[]);
    assert !Busy(ReclaimWindow().files.records, "x");
  }

  lemma AdmitY()
    ensures var s, t := XCreated(), Reserving(X_PENDING, map["x" := 80], GrantCreate("y", 80, 3), false);
            Enabled(s, BeginCreate("y", 80, 3)) && Next(s, BeginCreate("y", 80, 3)) == t
  {
    WindowLooksEmpty(X_PENDING, map["x" := 80]);
    assert !Busy(XCreated().files.records, "y");
  }

  lemma BothReserved()
    ensures Sum(Durable(WindowFiles(BOTH_PENDING))) == 160
  {
    var f := WindowFiles(BOTH_PENDING);
    var d := Durable(f);
    assert Reservation(f, "x") == Some(80) && Reservation(f, "y") == Some(80);
    assert forall k :: k in d <==> Reservation(f, k).Some?;
    assert d == map["y" := 80]["x" := 80];
    assert map["y" := 80] == map[]["y" := 80];
    SumInsert(map[], "y", 80);
    SumInsert(map["y" := 80], "x", 80);
  }

  /** The bytes are granted to "x" and its create is charged. */
  lemma XIsCreated()
    ensures Leads(ReclaimWindow(), [BeginCreate("x", 80, 2), WriteIntent, CommitIndex], XCreated())
  {
    var s1 := Reserving(map[], map["a" := 10], GrantCreate("x", 80, 2), false);
    var s2 := Reserving(X_PENDING, map["a" := 10], GrantCreate("x", 80, 2), true);
    AdmitX();
    assert map[]["x" := R.CreationIntent("x", 80, 2)] == X_PENDING;
    assert Next(s1, WriteIntent) == s2;
    assert Next(s2, CommitIndex) == XCreated();
    LeadsThree(ReclaimWindow(), BeginCreate("x", 80, 2), WriteIntent, CommitIndex);
  }

  function Overcommitted(): System {
    Reserving(BOTH_PENDING, map["x" := 80], GrantCreate("y", 80, 3), true)
  }

  lemma YIsAdmitted()
    ensures Leads(XCreated(), [BeginCreate("y", 80, 3), WriteIntent], Overcommitted())
  {
    var s4 := Reserving(X_PENDING, map["x" := 80], GrantCreate("y", 80, 3), false);
    AdmitY();
    assert Next(s4, WriteIntent) == Overcommitted();
    LeadsTwo(XCreated(), BeginCreate("y", 80, 3), WriteIntent);
  }

  // How an empty pool gets there.

  /** Volume "x" of ten bytes, created and at rest. */
  function AtRest(): System {
    Operations.Created(Leaks.Admitted(), "x", 10, 1)
  }

  const CREATE: seq<Action> :=
    [Do(MakePayload("x")), Do(LimitPayload("x")), Do(CommitRecord("x")), Do(FinishCreate("x")), Charge("x", 10)]

  lemma VolumeIsCreated()
    ensures Leads(Leaks.Admitted(), CREATE, AtRest())
    ensures AtRest().files
            == Files(map["x" := Record(10, Committed, "x", 1)], map[], map[], map["x" := Limit(10)], map[])
    ensures AtRest().stats == map["x" := 10] && AtRest().total == 100 && AtRest().txn.None?
  {
    var s := Leaks.Admitted();
    Leaks.EmptyPoolAdmits();
    Operations.CreateCompletes(s, "x", 10, 1);
    assert Operations.CreatePlan(s.files, "x") == CREATE;
  }

  function InArchive(): System {
    System(100, Files(map["a" := Record(10, Archived, "x", 1)], map[], map[], map[], map["a" := Limit(10)]),
           map["a" := 10], None)
  }

  lemma VolumeIsArchived()
    ensures Leads(AtRest(), Archiving.FromHomePlan("x", "a"), InArchive())
  {
    var s := AtRest();
    VolumeIsCreated();
    Archiving.QuietVolumeIsArchived(s, "x", "a");
    var t := Archiving.ArchivedAs(s, "x", "a", s.files.records["x"], Limit(10));
    assert t.files.records == InArchive().files.records;
    assert t.files.creating == map[] && t.files.expanding == map[] && t.files.payload == map[];
    assert t.files.archive == map["a" := Limit(10)] && t.stats == map["a" := 10];
  }

  lemma ArchiveIsEmptied()
    ensures Leads(InArchive(), [Do(MarkReclaiming("a")), Do(RemoveArchive("a"))], ReclaimWindow())
  {
    var s := InArchive();
    var s1 := Next(s, Do(MarkReclaiming("a")));
    assert Next(s1, Do(RemoveArchive("a"))).files == ReclaimWindow().files;
    LeadsTwo(s, Do(MarkReclaiming("a")), Do(RemoveArchive("a")));
  }

  /** Create "x", archive it, begin to reclaim the archive. */
  function WindowPlan(): seq<Action> {
    Leaks.ADMIT + (CREATE + (Archiving.FromHomePlan("x", "a") + [Do(MarkReclaiming("a")), Do(RemoveArchive("a"))]))
  }

  lemma WindowIsReached()
    ensures Leads(EmptyPool(100), WindowPlan(), ReclaimWindow())
  {
    var ends := [Do(MarkReclaiming("a")), Do(RemoveArchive("a"))];
    Leaks.EmptyPoolAdmits();
    VolumeIsCreated();
    VolumeIsArchived();
    ArchiveIsEmptied();
    LeadsOn(AtRest(), Archiving.FromHomePlan("x", "a"), InArchive(), ends, ReclaimWindow());
    LeadsOn(Leaks.Admitted(), CREATE, AtRest(), Archiving.FromHomePlan("x", "a") + ends, ReclaimWindow());
    LeadsOn(EmptyPool(100), Leaks.ADMIT, Leaks.Admitted(), CREATE + (Archiving.FromHomePlan("x", "a") + ends),
            ReclaimWindow());
  }

  /** Volume "x" is created again inside the window. Its intent is invisible to the next admission,
      which grants the same bytes to "y": 160 bytes are reserved in a pool of 100. */
  lemma ReclaimHidesPendingCreate()
    ensures Inv(ReclaimWindow()) && Leads(EmptyPool(100), WindowPlan() + TwoCreates(), Overcommitted())
    ensures Sum(Durable(Overcommitted().files)) > Overcommitted().total
  {
    ReclaimWindowIsConsistent();
    WindowIsReached();
    XIsCreated();
    YIsAdmitted();
    BothReserved();
    LeadsOn(ReclaimWindow(), [BeginCreate("x", 80, 2), WriteIntent, CommitIndex], XCreated(),
            [BeginCreate("y", 80, 3), WriteIntent], Overcommitted());
    assert [BeginCreate("x", 80, 2), WriteIntent, CommitIndex] + [BeginCreate("y", 80, 3), WriteIntent] == TwoCreates();
    LeadsOn(EmptyPool(100), WindowPlan(), ReclaimWindow(), TwoCreates(), Overcommitted());
  }

  // ---- An expansion overtakes an unfinished create ----

  /** Committing an expansion's size keeps the pool readable if and only if the volume has no create
      intent left, or one that a tombstone hides. */
  lemma GrowKeepsParsingIff(f: Files, x: Id)
    requires Admission.EntriesValid(f) && Parses(f) && x in f.expanding && At(f, x, Committed)
    requires f.records[x].size == f.expanding[x].fromSize
    ensures Parses(WithSize(f, x, f.expanding[x].toSize)) <==> x !in f.creating || x in Tombstones(f)
  {
    var g := WithSize(f, x, f.expanding[x].toSize);
    var s, t := PoolScan(f), PoolScan(g);
    GrowChangesOneSize(f, x);
    assert x in f.creating ==> R.CreationAgrees(s.committed, s.tombstones, x, s.creations[x]);
    if x !in f.creating || x in Tombstones(f) {
      GrownIntentsAgree(f, x);
    } else {
      assert !R.CreationAgrees(t.committed, t.tombstones, x, t.creations[x]);
    }
  }

  lemma GrowChangesOneSize(f: Files, x: Id)
    requires x in f.expanding && At(f, x, Committed)
    ensures var g := WithSize(f, x, f.expanding[x].toSize);
            Tombstones(g) == Tombstones(f) && CommittedSizes(g) == CommittedSizes(f)[x := f.expanding[x].toSize]
  {
    var g := WithSize(f, x, f.expanding[x].toSize);
    assert forall i :: i in f.records ==> (ReleasedAt(g, i) <==> ReleasedAt(f, i));
    assert forall i :: i in f.records ==> AliasOf(g.records[i]) == AliasOf(f.records[i]);
    assert Tombstones(g) == Tombstones(f);
    assert CommittedSizes(g) == CommittedSizes(f)[x := f.expanding[x].toSize];
  }

  lemma GrownIntentsAgree(f: Files, x: Id)
    requires Parses(f) && x in f.expanding && At(f, x, Committed)
    requires x !in f.creating || x in Tombstones(f)
    ensures Parses(WithSize(f, x, f.expanding[x].toSize))
  {
    var s, t := PoolScan(f), PoolScan(WithSize(f, x, f.expanding[x].toSize));
    GrowChangesOneSize(f, x);
    forall y | y in t.creations ensures R.CreationAgrees(t.committed, t.tombstones, y, t.creations[y]) {
      assert R.CreationAgrees(s.committed, s.tombstones, y, s.creations[y]);
    }
    var before, after := R.WithCreations(s), R.WithCreations(t);
    forall y | y in t.expansions ensures R.ExpansionAgrees(after, t.tombstones, y, t.expansions[y]) {
      assert R.ExpansionAgrees(before, s.tombstones, y, s.expansions[y]);
      GrownReservation(s, x, f.expanding[x].toSize, y);
    }
  }

  lemma GrownReservation(s: R.Scan, x: Id, size: int, y: Id)
    ensures var t := s.(committed := s.committed[x := size]);
            && (y != x ==> (y in R.WithCreations(t) <==> y in R.WithCreations(s))
                           && (y in R.WithCreations(s) ==> R.WithCreations(t)[y] == R.WithCreations(s)[y]))
            && (y == x && (x !in s.creations || x in s.tombstones) ==> R.WithCreations(t)[x] == size)
  {
  }

  /** A volume whose metadata has outgrown its leftover create intent, and no archive of it. */
  ghost predicate OutgrownIn(f: Files, x: Id)
  {
    && At(f, x, Committed) && x in f.creating && f.creating[x].size < f.records[x].size
    && (forall i :: i in f.records && i != x ==> f.records[i].original != x)
    && (x in f.expanding ==> f.creating[x].size < f.expanding[x].toSize)
  }

  ghost predicate Outgrown(s: System, x: Id)
  {
    OutgrownIn(s.files, x) && s.txn.None?
  }

  /** The code admits an expansion although the volume's create intent is still there, and its first
      attempt then commits a size the intent contradicts. */
  lemma ExpandOvertakesCreate(s: System, x: Id, fromSize: int, toSize: int)
    requires Enabled(s, BeginExpand(x, fromSize, toSize)) && s.files.records[x].size == fromSize
    requires x in s.files.creating && s.files.creating[x].size == fromSize
    requires forall i :: i in s.files.records && i != x ==> s.files.records[i].original != x
    ensures exists t ::
              && Leads(s, [BeginExpand(x, fromSize, toSize), WriteIntent, CommitIndex]
                          + [Do(ApplyQuota(x, toSize)), Do(GrowRecord(x, toSize))], t)
              && Outgrown(t, x)
  {
    var begin := [BeginExpand(x, fromSize, toSize), WriteIntent, CommitIndex];
    Outcomes.AdmissionRuns(s, begin[0]);
    var u := Outcomes.Granted(s, GrantExpand(x, fromSize, toSize));
    GrowthOutgrows(u, x, fromSize, toSize);
    var t := Next(Next(u, Do(ApplyQuota(x, toSize))), Do(GrowRecord(x, toSize)));
    LeadsOn(s, begin, u, [Do(ApplyQuota(x, toSize)), Do(GrowRecord(x, toSize))], t);
  }

  lemma GrowthOutgrows(s: System, x: Id, fromSize: int, toSize: int)
    requires s.txn.None? && At(s.files, x, Committed) && 0 < fromSize < toSize
    requires x in s.files.expanding && s.files.expanding[x] == R.ExpansionIntent(x, fromSize, toSize)
    requires x in s.files.creating && s.files.creating[x].size == fromSize
    requires forall i :: i in s.files.records && i != x ==> s.files.records[i].original != x
    ensures Enabled(s, Do(ApplyQuota(x, toSize)))
    ensures Enabled(Next(s, Do(ApplyQuota(x, toSize))), Do(GrowRecord(x, toSize)))
    ensures var t := Next(Next(s, Do(ApplyQuota(x, toSize))), Do(GrowRecord(x, toSize)));
            Leads(s, [Do(ApplyQuota(x, toSize)), Do(GrowRecord(x, toSize))], t) && Outgrown(t, x)
  {
    LeadsTwo(s, Do(ApplyQuota(x, toSize)), Do(GrowRecord(x, toSize)));
  }

  lemma OutgrownWrite(f: Files, x: Id, w: Write)
    requires OutgrownIn(f, x) && CanWrite(f, w) && Current(f, w)
    ensures OutgrownIn(Apply(f, w), x)
  {
    var g := Apply(f, w);
    forall i | i in g.records && i != x ensures g.records[i].original != x {
      if w.PrepareArchive? && i == w.name {
        assert w.x in f.records && w.x != x;
      } else if i in f.records {
        assert f.records[i].original != x;
      }
    }
  }

  lemma OutgrownDoesNotParse(s: System, x: Id)
    requires Outgrown(s, x)
    ensures !Parses(s.files)
  {
    var scan := PoolScan(s.files);
    assert x !in Tombstones(s.files);
    assert !R.CreationAgrees(scan.committed, scan.tombstones, x, scan.creations[x]);
  }

  lemma OutgrownStays(s: System, x: Id, a: Action)
    requires Outgrown(s, x) && Enabled(s, a) && (a.Do? ==> Guarded(s, a.w))
    ensures Outgrown(Next(s, a), x)
  {
    OutgrownDoesNotParse(s, x);
    if a.Do? {
      OutgrownWrite(s.files, x, a.w);
    }
  }

  lemma OutgrownStep(path: seq<System>, plan: seq<Action>, i: nat, next: nat, x: Id)
    requires IsGuardedPath(path, plan) && i < |plan| && next == i + 1 && Outgrown(path[i], x)
    ensures Outgrown(path[next], x)
  {
    assert StepAt(path, plan, i) && GuardedAt(path, plan, i);
    OutgrownStays(path[i], x, plan[i]);
  }

  lemma {:induction false} OutgrownForever(path: seq<System>, plan: seq<Action>, i: nat, x: Id)
    requires IsGuardedPath(path, plan) && i <= |plan| && Outgrown(path[0], x)
    ensures Outgrown(path[i], x)
  {
    if i > 0 {
      OutgrownForever(path, plan, i - 1, x);
      OutgrownStep(path, plan, i - 1, i, x);
    }
  }

  /** From then on no run of any length, in which nobody works on a volume without its lock, admits anything
      into the pool: every admission first reads all the files, and fails. */
  lemma OutgrownBlocksThePool(path: seq<System>, plan: seq<Action>, i: nat, x: Id)
    requires IsGuardedPath(path, plan) && i < |plan| && Outgrown(path[0], x)
    ensures !Parses(path[i].files) && !plan[i].BeginCreate? && !plan[i].BeginExpand? && !plan[i].RebuildIndex?
  {
    OutgrownForever(path, plan, i, x);
    OutgrownDoesNotParse(path[i], x);
    assert StepAt(path, plan, i);
  }

  // From an empty pool.

  function Leftover(): System {
    Operations.Committing(Leaks.Admitted(), "x", 10, 1)
  }

  const COMMIT: seq<Action> := [Do(MakePayload("x")), Do(LimitPayload("x")), Do(CommitRecord("x"))]

  /** The create is committed but its intent is still there, and the code admits an expansion. */
  lemma LeftoverIntentIsIgnored()
    ensures Leads(EmptyPool(100), Leaks.ADMIT + COMMIT, Leftover())
    ensures Enabled(Leftover(), BeginExpand("x", 10, 20))
  {
    var s, t := Leaks.Admitted(), Leftover();
    Leaks.EmptyPoolAdmits();
    Operations.CreateCommits(s, "x", 10, 1);
    LeadsOn(EmptyPool(100), Leaks.ADMIT, s, COMMIT, t);
    LeftoverIsFull(t.files, t.stats);
  }

  lemma LeftoverIsFull(f: Files, stats: map<Id, int>)
    requires f.records == map["x" := Record(10, Committed, "x", 1)] && f.expanding == map[]
    requires f.creating == map["x" := R.CreationIntent("x", 10, 1)] && stats == map["x" := 10]
    ensures Parses(f) && Working(f, stats) == map["x" := 10] && Sum(Working(f, stats)) == 10
  {
    assert Parses(f);
    var reserved := CapacityRecordsOf(f).value.reservations;
    forall k ensures (k in reserved <==> k == "x") && (k in reserved ==> reserved[k] == 10) {
      Admission.CodeReserves(f, k);
    }
    assert map["x" := 10] == map[]["x" := 10];
    SumInsert(map[], "x", 10);
  }

  /** Create "x" in an empty pool, crash before its intent is removed, and expand it: the pool can never be
      read again. */
  lemma LeftoverIntentBlocksThePool()
    ensures exists t ::
              && Leads(EmptyPool(100), Leaks.ADMIT + COMMIT
                                       + ([BeginExpand("x", 10, 20), WriteIntent, CommitIndex]
                                          + [Do(ApplyQuota("x", 20)), Do(GrowRecord("x", 20))]), t)
              && Outgrown(t, "x") && !Parses(t.files)
  {
    var expand := [BeginExpand("x", 10, 20), WriteIntent, CommitIndex]
                  + [Do(ApplyQuota("x", 20)), Do(GrowRecord("x", 20))];
    LeftoverIntentIsIgnored();
    ExpandOvertakesCreate(Leftover(), "x", 10, 20);
    var t :| Leads(Leftover(), expand, t) && Outgrown(t, "x");
    LeadsOn(EmptyPool(100), Leaks.ADMIT + COMMIT, Leftover(), expand, t);
    OutgrownDoesNotParse(t, "x");
  }
}
