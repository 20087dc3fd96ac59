/**
 What an expansion can do to a pool that works without the volume's lifecycle lock, because a search of
 its decorator met nothing. Each is a run from an empty pool in which everything else is as the code
 relies on.
 */
module Unlocked {
  import opened Base
  import opened Lifecycle
  import opened Paths
  import opened Expanders
  import R = Records
  import Admission
  import Guarantees
  import Operations
  import Outcomes
  import Removal

  /** Nothing but the lock is missing. */
  ghost predicate Tolerated(w: World, s: Step)
  {
    if s.Meet? then s.x !in w.pool.files.creating else Trusted(w, s)
  }

  ghost predicate Execution(w: World, steps: seq<Step>)
    decreases |steps|
  {
    steps == [] || (Possible(w, steps[0]) && Tolerated(w, steps[0]) && Execution(After(w, steps[0]), steps[1..]))
  }

  ghost function Run(w: World, steps: seq<Step>): World
    requires Execution(w, steps)
    decreases |steps|
  {
    if steps == [] then w else Run(After(w, steps[0]), steps[1..])
  }

  ghost predicate Reaches(w: World, t: World)
  {
    exists steps :: Execution(w, steps) && Run(w, steps) == t
  }

  lemma Here(w: World)
    ensures Reaches(w, w)
  {
    assert Execution(w, []) && Run(w, []) == w;
  }

  lemma {:induction false} RunOn(w: World, steps: seq<Step>, s: Step)
    requires Execution(w, steps) && Possible(Run(w, steps), s) && Tolerated(Run(w, steps), s)
    ensures Execution(w, steps + [s]) && Run(w, steps + [s]) == After(Run(w, steps), s)
    decreases |steps|
  {
    var all := steps + [s];
    if steps == [] {
      assert all[1..] == [];
    } else {
      assert all[0] == steps[0] && all[1..] == steps[1..] + [s];
      RunOn(After(w, steps[0]), steps[1..], s);
    }
  }

  ghost predicate Moves(w: World, s: Step, t: World)
  {
    Possible(w, s) && Tolerated(w, s) && After(w, s) == t
  }

  /** One step further. */
  lemma Then(w: World, t: World, s: Step, u: World)
    requires Reaches(w, t) && Moves(t, s, u)
    ensures Reaches(w, u)
  {
    var steps :| Execution(w, steps) && Run(w, steps) == t;
    RunOn(w, steps, s);
  }

  // ---- Other operations beside an expansion without the lock ----

  predicate NobodyLocks(workers: map<nat, Worker>) {
    forall pid :: pid in workers ==> !workers[pid].bothMet
  }

  predicate Ordinary(a: Action) {
    match a
    case Do(w) => !w.ApplyQuota? && !w.GrowRecord? && !w.FinishExpand? && !w.RemoveArchive?
    case BeginCreate(_, _, _) => false
    case BeginExpand(_, _, _) => false
    case BeginCancel(_) => false
    case _ => true
  }

  predicate OnlyCreating(s: System) {
    s.txn.Some? ==> s.txn.value.grant.GrantCreate?
  }

  lemma OrdinaryMoves(s: System, workers: map<nat, Worker>, a: Action)
    requires Enabled(s, a) && Ordinary(a) && OnlyCreating(s) && NobodyLocks(workers)
    ensures Moves(World(s, workers), Other(a), World(Next(s, a), workers)) && OnlyCreating(Next(s, a))
  {
  }

  /** What the others do goes on beside it. */
  lemma {:induction false} Beside(w: World, s: System, workers: map<nat, Worker>, plan: seq<Action>, t: System)
    requires Reaches(w, World(s, workers)) && Leads(s, plan, t) && OnlyCreating(s) && NobodyLocks(workers)
    requires forall i :: 0 <= i < |plan| ==> Ordinary(plan[i])
    ensures Reaches(w, World(t, workers))
    decreases |plan|
  {
    if plan == [] {
      Arrived(s, t);
    } else {
      Peel(s, plan, t);
      OrdinaryMoves(s, workers, plan[0]);
      Then(w, World(s, workers), Other(plan[0]), World(Next(s, plan[0]), workers));
      Beside(w, Next(s, plan[0]), workers, plan[1..], t);
    }
  }

  /** The pool with one more volume, made, bounded, committed and charged. */
  function WithVolume(s: System, x: Id, size: int, incarnation: nat): System {
    System(s.total, s.files.(records := s.files.records[x := Record(size, Committed, x, incarnation)],
                             payload := s.files.payload[x := Limit(size)]),
           s.stats[x := size], None)
  }

  /** Volumes at rest, each charged with its size. */
  ghost predicate Resting(s: System)
  {
    && s.txn.None? && s.files.creating == map[] && s.files.expanding == map[]
    && (forall i :: i in s.files.records ==>
          At(s.files, i, Committed) && s.files.records[i].original == i && 0 < s.files.records[i].size)
    && s.stats == map i | i in s.files.records :: s.files.records[i].size
  }

  lemma RestingRows(s: System)
    requires Resting(s)
    ensures Parses(s.files) && Working(s.files, s.stats) == s.stats && forall x :: Clear(s.files, x)
    ensures Durable(s.files) == s.stats
  {
    var r := CapacityRecordsOf(s.files).value;
    forall k
      ensures k in r.reservations <==> k in s.stats
      ensures k in r.reservations ==> r.reservations[k] == s.stats[k]
    {
      Admission.CodeReserves(s.files, k);
    }
    assert forall k :: k in Durable(s.files) <==> Reservation(s.files, k).Some?;
  }

  ghost predicate Fits(s: System, x: Id, size: int)
  {
    Resting(s) && x !in s.files.records && 0 < size && 10 * size < 9 * (s.total - Sum(s.stats))
  }

  lemma CreateBegins(s: System, workers: map<nat, Worker>, x: Id, size: int, incarnation: nat)
    requires Fits(s, x, size) && NobodyLocks(workers)
    ensures Parses(s.files) && Working(s.files, s.stats) == s.stats
    ensures Enabled(s, BeginCreate(x, size, incarnation))
    ensures Moves(World(s, workers), Other(BeginCreate(x, size, incarnation)),
                  World(Next(s, BeginCreate(x, size, incarnation)), workers))
  {
    RestingRows(s);
    assert !Busy(s.files.records, x);
  }

  lemma CreateEnds(s: System, x: Id, size: int, incarnation: nat)
    requires Fits(s, x, size) && Parses(s.files) && Working(s.files, s.stats) == s.stats
    requires Enabled(s, BeginCreate(x, size, incarnation))
    ensures var t := Outcomes.Granted(s, GrantCreate(x, size, incarnation));
            && Leads(Next(s, BeginCreate(x, size, incarnation)), [WriteIntent, CommitIndex], t)
            && Leads(t, Operations.CreatePlan(t.files, x), WithVolume(s, x, size, incarnation))
  {
    var begin := BeginCreate(x, size, incarnation);
    var t := Outcomes.Granted(s, GrantCreate(x, size, incarnation));
    Outcomes.AdmissionRuns(s, begin);
    Peel(s, [begin, WriteIntent, CommitIndex], t);
    assert [begin, WriteIntent, CommitIndex][1..] == [WriteIntent, CommitIndex];
    Operations.CreateCompletes(t, x, size, incarnation);
    CreatedIs(s, t, x, size, incarnation);
  }

  lemma CreatedIs(s: System, t: System, x: Id, size: int, incarnation: nat)
    requires t == s.(files := s.files.(creating := s.files.creating[x := R.CreationIntent(x, size, incarnation)]),
                     stats := s.stats[x := size], txn := None)
    requires x !in s.files.creating
    ensures Operations.Created(t, x, size, incarnation) == WithVolume(s, x, size, incarnation)
  {
    assert t.files.creating - {x} == s.files.creating;
    assert t.stats[x := size] == s.stats[x := size];
  }

  lemma StillResting(s: System, x: Id, size: int, incarnation: nat)
    requires Fits(s, x, size)
    ensures Resting(WithVolume(s, x, size, incarnation))
    ensures Sum(WithVolume(s, x, size, incarnation).stats) == Sum(s.stats) + size
  {
    SumInsert(s.stats, x, size);
  }

  lemma IntentAndCommit(w: World, s: System, workers: map<nat, Worker>, t: System)
    requires Reaches(w, World(s, workers)) && Leads(s, [WriteIntent, CommitIndex], t)
    requires OnlyCreating(s) && NobodyLocks(workers)
    ensures Reaches(w, World(t, workers))
  {
    Beside(w, s, workers, [WriteIntent, CommitIndex], t);
  }

  lemma CreateIsOrdinary(f: Files, x: Id)
    ensures var plan := Operations.CreatePlan(f, x); forall i :: 0 <= i < |plan| ==> Ordinary(plan[i])
  {
  }

  lemma VolumeComes(w: World, s: System, workers: map<nat, Worker>, x: Id, size: int, incarnation: nat)
    requires Reaches(w, World(s, workers)) && Fits(s, x, size) && NobodyLocks(workers)
    ensures Reaches(w, World(WithVolume(s, x, size, incarnation), workers))
    ensures Resting(WithVolume(s, x, size, incarnation))
    ensures Sum(WithVolume(s, x, size, incarnation).stats) == Sum(s.stats) + size
  {
    var begin := BeginCreate(x, size, incarnation);
    CreateBegins(s, workers, x, size, incarnation);
    CreateEnds(s, x, size, incarnation);
    var t := Outcomes.Granted(s, GrantCreate(x, size, incarnation));
    Then(w, World(s, workers), Other(begin), World(Next(s, begin), workers));
    IntentAndCommit(w, Next(s, begin), workers, t);
    CreateIsOrdinary(t.files, x);
    Beside(w, t, workers, Operations.CreatePlan(t.files, x), WithVolume(s, x, size, incarnation));
    StillResting(s, x, size, incarnation);
  }

  // ---- A target that has outlived its volume ----

  const START: World := World(EmptyPool(100), map[])

  /** Process 1 has met "x" with ten bytes and is to grow it to fifty. */
  function Stale(at: Point): map<nat, Worker> {
    map[1 := Worker("x", 50, 10, None, false, at)]
  }

  function Ten(): System {
    WithVolume(EmptyPool(100), "x", 10, 1)
  }

  lemma TenComes()
    ensures Reaches(START, World(Ten(), map[])) && Resting(Ten()) && Sum(Ten().stats) == 10
    ensures Parses(Ten().files) && Working(Ten().files, Ten().stats) == Ten().stats == map["x" := 10]
    ensures Clear(Ten().files, "x")
  {
    Here(START);
    assert Resting(EmptyPool(100));
    VolumeComes(START, EmptyPool(100), map[], "x", 10, 1);
    RestingRows(Ten());
  }

  lemma ExpansionMeets()
    ensures Moves(World(Ten(), map[]), Meet(1, "x", 50, false), World(Ten(), Stale(Met)))
    ensures Moves(World(Ten(), Stale(Met)), Note(1), World(Ten(), Stale(Noted)))
    ensures Moves(World(Ten(), Stale(Noted)), Repair(1), World(Ten(), Stale(Repaired)))
  {
    assert Ten().stats["x" := 10] == Ten().stats;
    assert Stale(Met)[1 := Stale(Noted)[1]] == Stale(Noted);
    assert Stale(Noted)[1 := Stale(Repaired)[1]] == Stale(Repaired);
  }

  /** Its intent is durable, and it has yet to set the quota. */
  function Admitted(): System {
    System(100, Ten().files.(expanding := map["x" := R.ExpansionIntent("x", 10, 50)]), map["x" := 50], None)
  }

  function Admitting(written: bool): System {
    System(100, if written then Admitted().files else Ten().files, map["x" := 10],
           Some(Txn(map["x" := 10], GrantExpand("x", 10, 50), written)))
  }

  lemma ExpansionBegins()
    requires Parses(Ten().files) && Working(Ten().files, Ten().stats) == Ten().stats == map["x" := 10]
    requires Sum(Ten().stats) == 10 && Clear(Ten().files, "x")
    ensures Moves(World(Ten(), Stale(Repaired)), Begin(1), World(Admitting(false), Stale(Deciding)))
  {
    assert Stale(Repaired)[1 := Stale(Deciding)[1]] == Stale(Deciding);
  }

  lemma IntentIsWritten()
    ensures Moves(World(Admitting(false), Stale(Deciding)), Write(1), World(Admitting(true), Stale(Written)))
  {
    assert Stale(Deciding)[1 := Stale(Written)[1]] == Stale(Written);
    assert map[]["x" := R.ExpansionIntent("x", 10, 50)] == Admitted().files.expanding;
  }

  lemma IndexIsCommitted()
    ensures Moves(World(Admitting(true), Stale(Written)), Commit(1), World(Admitted(), Stale(Reserved)))
  {
    assert Stale(Written)[1 := Stale(Reserved)[1]] == Stale(Reserved);
    assert map["x" := 10]["x" := 50] == map["x" := 50];
  }

  lemma ExpansionIsAdmitted()
    ensures Reaches(START, World(Admitted(), Stale(Reserved)))
  {
    TenComes();
    ExpansionMeets();
    Then(START, World(Ten(), map[]), Meet(1, "x", 50, false), World(Ten(), Stale(Met)));
    Then(START, World(Ten(), Stale(Met)), Note(1), World(Ten(), Stale(Noted)));
    Then(START, World(Ten(), Stale(Noted)), Repair(1), World(Ten(), Stale(Repaired)));
    ExpansionBegins();
    Then(START, World(Ten(), Stale(Repaired)), Begin(1), World(Admitting(false), Stale(Deciding)));
    IntentIsWritten();
    IndexIsCommitted();
    Then(START, World(Admitting(false), Stale(Deciding)), Write(1), World(Admitting(true), Stale(Written)));
    Then(START, World(Admitting(true), Stale(Written)), Commit(1), World(Admitted(), Stale(Reserved)));
  }

  // The delete takes over the target, unlinks the intent, and removes the volume.

  function Absorbed(): System {
    Admitted().(files := WithSize(Admitted().files, "x", 50))
  }

  function Unlinked(): System {
    Absorbed().(files := Absorbed().files.(expanding := map[]))
  }

  lemma DeleteSettles()
    ensures Moves(World(Admitted(), Stale(Reserved)), Other(Do(AbsorbExpand("x"))), World(Absorbed(), Stale(Reserved)))
    ensures Moves(World(Absorbed(), Stale(Reserved)), Other(Do(FinishExpand("x"))), World(Unlinked(), Stale(Reserved)))
  {
    assert Absorbed().files.expanding - {"x"} == map[];
  }

  lemma DeleteErases()
    ensures Leads(Unlinked(), [Do(MarkDeleting("x"))] + Removal.ErasePlan("x"), EmptyPool(100))
  {
    Removal.QuietVolumeIsErased(Unlinked(), "x");
    var gone := Removal.Deleted(Unlinked(), "x");
    assert gone.files.records == map[] && gone.files.payload == map[] && gone.stats == map[];
    assert gone.files.creating == map[] && gone.files.expanding == map[];
  }

  lemma IntentIsAbsorbed()
    ensures Reaches(START, World(Unlinked(), Stale(Reserved)))
  {
    ExpansionIsAdmitted();
    DeleteSettles();
    Then(START, World(Admitted(), Stale(Reserved)), Other(Do(AbsorbExpand("x"))), World(Absorbed(), Stale(Reserved)));
    Then(START, World(Absorbed(), Stale(Reserved)), Other(Do(FinishExpand("x"))), World(Unlinked(), Stale(Reserved)));
  }

  lemma EraseIsOrdinary(x: Id)
    ensures var plan := [Do(MarkDeleting(x))] + Removal.ErasePlan(x); forall i :: 0 <= i < |plan| ==> Ordinary(plan[i])
  {
  }

  /** The volume is deleted, and the expansion still has its target. */
  lemma TargetOutlivesVolume()
    ensures Reaches(START, World(EmptyPool(100), Stale(Reserved)))
  {
    IntentIsAbsorbed();
    DeleteErases();
    EraseIsOrdinary("x");
    Beside(START, Unlinked(), Stale(Reserved), [Do(MarkDeleting("x"))] + Removal.ErasePlan("x"), EmptyPool(100));
  }

  // ---- Three ends ----

  function Enforced(s: System): System {
    s.(files := s.files.(payload := s.files.payload["x" := Limit(50)]))
  }

  lemma QuotaComes(s: System)
    ensures Moves(World(s, Stale(Reserved)), Enforce(1), World(Enforced(s), Stale(Limited)))
  {
    assert Stale(Reserved)[1 := Stale(Limited)[1]] == Stale(Limited);
  }

  lemma SizeComes(s: System)
    requires At(s.files, "x", Committed) && s.files.records["x"].original == "x"
    ensures Moves(World(s, Stale(Limited)), Grow(1, "x"), World(s.(files := WithSize(s.files, "x", 50)), Stale(Grown)))
  {
    assert Stale(Limited)[1 := Stale(Grown)[1]] == Stale(Grown);
  }

  /** Nothing comes after the delete: the quota makes the directory again, a payload nothing pays for. */
  lemma LateQuotaLeavesOrphan()
    ensures var t := World(Enforced(EmptyPool(100)), Stale(Limited));
            && Reaches(START, t) && "x" in t.pool.files.payload && Durable(t.pool.files) == map[]
            && !exists paidBy :: Guarantees.Pays(t.pool.files, paidBy)
  {
    var s := EmptyPool(100);
    TargetOutlivesVolume();
    QuotaComes(s);
    Then(START, World(s, Stale(Reserved)), Enforce(1), World(Enforced(s), Stale(Limited)));
    assert forall k :: Reservation(Enforced(s).files, k) == None;
    assert Guarantees.Home("x") in Guarantees.Places(Enforced(s).files);
  }

  function Sixty(): System {
    WithVolume(EmptyPool(100), "x", 60, 2)
  }

  /** The volume is created again with sixty bytes: the expansion to fifty shrinks it. */
  lemma LateSizeShrinks()
    ensures var big, t := World(Sixty(), Stale(Reserved)), World(Enforced(Sixty()), Stale(Limited));
            && Reaches(START, big) && big.pool.files.records["x"].size == 60
            && Moves(big, Enforce(1), t) && Possible(t, Grow(1, "x"))
            && After(t, Grow(1, "x")).pool.files.records["x"].size == 50
  {
    TargetOutlivesVolume();
    assert Resting(EmptyPool(100)) && Sum(EmptyPool(100).stats) == 0;
    VolumeComes(START, EmptyPool(100), Stale(Reserved), "x", 60, 2);
    QuotaComes(Sixty());
    SizeComes(Enforced(Sixty()));
  }

  function Eighty(): System {
    WithVolume(EmptyPool(100), "y", 80, 2)
  }

  function EightyFive(): System {
    WithVolume(Eighty(), "x", 5, 3)
  }

  function Overcommitted(): System {
    var s := Enforced(EightyFive());
    s.(files := WithSize(s.files, "x", 50))
  }

  lemma BothSums()
    ensures Sum(Durable(Overcommitted().files)) == 130
    ensures Sum(Guarantees.EnforcedLimits(Overcommitted().files)) == 130
  {
    var f := Overcommitted().files;
    assert Reservation(f, "x") == Some(50) && Reservation(f, "y") == Some(80);
    assert forall k :: k in Durable(f) <==> Reservation(f, k).Some?;
    assert Durable(f) == map["y" := 80]["x" := 50];
    assert map["y" := 80] == map[]["y" := 80];
    SumInsert(map[], "y", 80);
    SumInsert(map["y" := 80], "x", 50);
    LimitSum(f);
  }

  lemma LimitSum(f: Files)
    requires f.payload == map["y" := Limit(80), "x" := Limit(50)] && f.archive == map[]
    ensures Sum(Guarantees.EnforcedLimits(f)) == 130
  {
    var x, y := Guarantees.Home("x"), Guarantees.Home("y");
    assert forall at :: at in Guarantees.Places(f) <==> at == x || at == y;
    var none: map<Guarantees.Place, int> := map[];
    assert Guarantees.EnforcedLimits(f) == none[y := 80][x := 50];
    SumInsert(none, y, 80);
    SumInsert(none[y := 80], x, 50);
  }

  /** Another volume of eighty bytes and the same one of five come: the late quota and size reserve and
      enforce 130 bytes in a pool of 100. */
  lemma LateTargetOvercommits()
    ensures Reaches(START, World(Overcommitted(), Stale(Grown))) && Overcommitted().total == 100
    ensures Sum(Durable(Overcommitted().files)) == 130
    ensures Sum(Guarantees.EnforcedLimits(Overcommitted().files)) == 130
  {
    var s := EightyFive();
    TargetOutlivesVolume();
    assert Resting(EmptyPool(100)) && Sum(EmptyPool(100).stats) == 0;
    VolumeComes(START, EmptyPool(100), Stale(Reserved), "y", 80, 2);
    VolumeComes(START, Eighty(), Stale(Reserved), "x", 5, 3);
    QuotaComes(s);
    Then(START, World(s, Stale(Reserved)), Enforce(1), World(Enforced(s), Stale(Limited)));
    SizeComes(Enforced(s));
    Then(START, World(Enforced(s), Stale(Limited)), Grow(1, "x"), World(Overcommitted(), Stale(Grown)));
    BothSums();
  }
}
