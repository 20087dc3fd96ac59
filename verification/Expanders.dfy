/**
 Expansions as the processes they are. ControllerExpandVolume captures the size and the intent it finds,
 works out its target, and writes that target later; the lifecycle lock is what keeps the capture true,
 and an expansion holds it only if both searches of its decorator met the volume.
 */
module Expanders {
  import opened Base
  import opened Lifecycle
  import opened Operations
  import opened Paths
  import R = Records
  import Guarantees
  import LateWrites
  import Runs
  import Safety

  datatype Point =
    | Met            // its own search found the volume committed
    | Noted          // it has read the volume's intent
    | Repaired       // the row is restated
    | Deciding       // inside BEGIN IMMEDIATE, granted
    | Written        // the intent is there
    | Renewing       // inside BEGIN IMMEDIATE, its own intent found
    | Reserved       // committed
    | Limited        // the quota is set
    | Grown          // the metadata is rewritten

  /** `size` and `pending` are what it captured. With `bothMet` it holds the volume's lifecycle lock, from
      before its own search to its end (`Controllers.GenerationSafety`). */
  datatype Worker = Worker(x: Id, requested: int, size: int, pending: Option<R.ExpansionIntent>, bothMet: bool,
                           at: Point)

  datatype World = World(pool: System, workers: map<nat, Worker>)

  datatype Step =
    | Other(a: Action)     // of a create, a delete, an archive, a reclaim or a rebuild
    | Meet(pid: nat, x: Id, requested: int, bothMet: bool)
    | Note(pid: nat)
    | Repair(pid: nat)
    | Settle(pid: nat)     // nothing to grow: the quota is restated
    | Begin(pid: nat)
    | Write(pid: nat)
    | Commit(pid: nat)
    | Renew(pid: nat)
    | Recharge(pid: nat)
    | Enforce(pid: nat)
    | Grow(pid: nat, key: Id)
    | Finish(pid: nat)
    | Leave(pid: nat)      // an answer, an exception or a crash

  function From(k: Worker): int {
    if k.pending.Some? then k.pending.value.fromSize else k.size
  }

  function Target(k: Worker): int {
    if k.pending.Some? then k.pending.value.toSize else k.requested
  }

  function Intent(k: Worker): R.ExpansionIntent {
    R.ExpansionIntent(k.x, From(k), Target(k))
  }

  /** The request matches what is pending, and what is pending matches the metadata. */
  predicate Resumes(k: Worker) {
    k.pending.Some? ==> k.pending.value.toSize == k.requested && (k.size == From(k) || k.size == Target(k))
  }

  predicate Grows(k: Worker) {
    k.pending.Some? || k.size < k.requested
  }

  predicate Owns(txn: Option<Txn>, k: Worker) {
    txn.Some? && txn.value.grant == GrantExpand(k.x, From(k), Target(k))
  }

  // ---- What the steps do to the pool ----

  /** The action of a step on the pool. */
  function ActionOf(w: World, s: Step): Action {
    if s.Other? then s.a
    else if s.Meet? || s.pid !in w.workers then Pass
    else
      var k := w.workers[s.pid];
      match s
      case Repair(_) => Charge(k.x, if k.pending.Some? then Target(k) else k.size)
      case Settle(_) => Do(ApplyQuota(k.x, k.size))
      case Begin(_) => BeginExpand(k.x, From(k), Target(k))
      case Write(_) => WriteIntent
      case Commit(_) => CommitIndex
      case Renew(_) => RebuildIndex
      case Recharge(_) => Charge(k.x, Target(k))
      case Enforce(_) => Do(ApplyQuota(k.x, Target(k)))
      case Grow(_, key) => Do(GrowRecord(key, Target(k)))
      case Finish(_) => Do(FinishExpand(k.x))
      case Leave(_) => if k.at == Deciding || k.at == Written then AbortIndex else Pass
      case _ => Pass
  }

  /** No expansion takes part in this action; a delete unlinks an intent only after it has taken over its
      target. */
  predicate IsOther(s: System, a: Action) {
    match a
    case BeginExpand(_, _, _) => false
    case WriteIntent => s.txn.Some? && !s.txn.value.grant.GrantExpand?
    case CommitIndex => s.txn.Some? && !s.txn.value.grant.GrantExpand?
    case AbortIndex => s.txn.Some? && !s.txn.value.grant.GrantExpand?
    case Do(w) => !w.ApplyQuota? && !w.GrowRecord? && Current(s.files, w)
    case _ => true
  }

  /** No expansion holds the lifecycle lock of a volume this action concerns, and no cancellation. */
  ghost predicate LockFree(w: World, a: Action)
  {
    && (forall pid :: pid in w.workers && w.workers[pid].bothMet ==> !Concerns(w.pool, a, w.workers[pid].x))
    && (a.Do? && w.pool.txn.Some? && w.pool.txn.value.grant.Cancel? ==> !Touches(a.w, w.pool.txn.value.grant.x))
  }

  /** What the process at `pid` has reached and finds. */
  ghost predicate Ready(w: World, s: Step)
    requires !s.Other? && !s.Meet? && s.pid in w.workers
  {
    var f, k := w.pool.files, w.workers[s.pid];
    match s
    case Note(_) => k.at == Met
    case Repair(_) => k.at == Noted
    case Settle(_) => k.at == Repaired && !Grows(k)
    case Begin(_) => k.at == Repaired && Grows(k)
    case Write(_) => k.at == Deciding && Owns(w.pool.txn, k)
    case Commit(_) => k.at == Written && Owns(w.pool.txn, k)
    case Renew(_) => k.at == Repaired && Grows(k) && Get(f.expanding, k.x) == Some(Intent(k))
    case Recharge(_) => k.at == Renewing
    case Enforce(_) => k.at == Reserved
    case Grow(_, key) => k.at == Limited && key in f.records && f.records[key].original == k.x
    case Finish(_) => k.at == Grown && Get(f.expanding, k.x) == Some(Intent(k))
    case Leave(_) => k.at == Deciding || k.at == Written ==> Owns(w.pool.txn, k)
    case _ => false
  }

  ghost predicate Possible(w: World, s: Step)
  {
    && Enabled(w.pool, ActionOf(w, s))
    && match s
       case Other(a) => IsOther(w.pool, a) && LockFree(w, a)
       case Meet(pid, x, requested, bothMet) =>
         && pid !in w.workers && At(w.pool.files, x, Committed) && 0 < requested
         && (bothMet ==> !InTransaction(w.pool, x)
                         && forall q :: q in w.workers && w.workers[q].bothMet ==> w.workers[q].x != x)
       case _ => s.pid in w.workers && Ready(w, s)
  }

  function Moved(w: World, pid: nat, at: Point): map<nat, Worker>
    requires pid in w.workers
  {
    w.workers[pid := w.workers[pid].(at := at)]
  }

  function Workers(w: World, s: Step): map<nat, Worker>
    requires s.Other? || s.Meet? || s.pid in w.workers
  {
    match s
    case Other(_) => w.workers
    case Meet(pid, x, requested, bothMet) =>
      if x in w.pool.files.records then
        w.workers[pid := Worker(x, requested, w.pool.files.records[x].size, None, bothMet, Met)]
      else w.workers
    case Note(pid) =>
      var k := w.workers[pid].(pending := Get(w.pool.files.expanding, w.workers[pid].x), at := Noted);
      if Resumes(k) then w.workers[pid := k] else w.workers - {pid}
    case Repair(pid) => Moved(w, pid, Repaired)
    case Settle(pid) => w.workers - {pid}
    case Begin(pid) => Moved(w, pid, Deciding)
    case Write(pid) => Moved(w, pid, Written)
    case Commit(pid) => Moved(w, pid, Reserved)
    case Renew(pid) => Moved(w, pid, Renewing)
    case Recharge(pid) => Moved(w, pid, Reserved)
    case Enforce(pid) => Moved(w, pid, Limited)
    case Grow(pid, _) => Moved(w, pid, Grown)
    case Finish(pid) => w.workers - {pid}
    case Leave(pid) => w.workers - {pid}
  }

  ghost function After(w: World, s: Step): World
    requires Possible(w, s)
  {
    World(Next(w.pool, ActionOf(w, s)), Workers(w, s))
  }

  /** What is taken for granted of a step: an expansion gets to work only if both searches of its decorator
      met the volume, whose create has answered OK, and no reclaim tombstone hides a pending intent. */
  ghost predicate Trusted(w: World, s: Step)
  {
    match s
    case Meet(_, x, _, bothMet) => bothMet && x !in w.pool.files.creating
    case Begin(pid) => pid in w.workers ==> Clear(w.pool.files, w.workers[pid].x)
    case Other(BeginCreate(x, _, _)) => Clear(w.pool.files, x)
    case Other(Do(RemoveArchive(name))) => Unclaimed(w.pool, name)
    case _ => true
  }

  // ---- What the lock keeps ----

  predicate Outside(txn: Option<Txn>, x: Id) {
    txn.Some? && !txn.value.grant.GrantCreate? ==> txn.value.grant.x != x
  }

  /** Under the lock, what a process captured or wrote is still so. */
  predicate WorkerOk(v: View, txn: Option<Txn>, k: Worker) {
    && k.bothMet && v.record.Some? && v.record.value.phase == Committed && v.record.value.original == k.x
    && v.create.None?
    && match k.at
       case Met => v.record.value.size == k.size && Outside(txn, k.x)
       case Noted => v.record.value.size == k.size && v.expand == k.pending && Resumes(k) && Outside(txn, k.x)
       case Repaired => v.record.value.size == k.size && v.expand == k.pending && Resumes(k) && Outside(txn, k.x)
       case Deciding => v.expand.None? && Owns(txn, k) && !txn.value.written
       case Written => v.expand == Some(Intent(k)) && Owns(txn, k) && txn.value.written
       case Renewing => v.expand == Some(Intent(k)) && Outside(txn, k.x)
       case Reserved => v.expand == Some(Intent(k)) && Outside(txn, k.x)
       case Limited =>
         v.expand == Some(Intent(k)) && v.payload == Some(Limit(Target(k))) && Outside(txn, k.x)
       case Grown => v.expand == Some(Intent(k)) && v.record.value.size == Target(k) && Outside(txn, k.x)
  }

  predicate HoldsAt(w: World, pid: nat)
    requires pid in w.workers
  {
    WorkerOk(ViewOf(w.pool.files, w.workers[pid].x), w.pool.txn, w.workers[pid])
  }

  predicate Alone(workers: map<nat, Worker>) {
    forall p, q :: p in workers && q in workers && workers[p].x == workers[q].x ==> p == q
  }

  /** An admission of an expansion is some process's. */
  ghost predicate Accounted(w: World)
  {
    w.pool.txn.Some? && w.pool.txn.value.grant.GrantExpand? ==>
      exists pid :: pid in w.workers && w.workers[pid].x == w.pool.txn.value.grant.x
  }

  ghost predicate WInv(w: World)
  {
    Inv(w.pool) && Alone(w.workers) && Accounted(w) && forall pid :: pid in w.workers ==> HoldsAt(w, pid)
  }

  // ---- Preservation ----

  /** Whoever acts elsewhere leaves a worker what it knows. */
  lemma ElsewhereKeeps(s: System, a: Action, k: Worker)
    requires Enabled(s, a) && !Concerns(s, a, k.x) && WorkerOk(ViewOf(s.files, k.x), s.txn, k)
    requires Owns(s.txn, k) ==> !a.WriteIntent? && !a.CommitIndex? && !a.AbortIndex?
    ensures WorkerOk(ViewOf(Next(s, a).files, k.x), Next(s, a).txn, k)
  {
    OthersKeepView(s, a, k.x);
  }

  lemma OtherKeeps(w: World, a: Action)
    requires WInv(w) && Possible(w, Other(a))
    ensures forall pid :: pid in w.workers ==> HoldsAt(After(w, Other(a)), pid)
    ensures Accounted(After(w, Other(a))) && Alone(After(w, Other(a)).workers)
  {
    forall pid | pid in w.workers ensures HoldsAt(After(w, Other(a)), pid) {
      assert HoldsAt(w, pid);
      ElsewhereKeeps(w.pool, a, w.workers[pid]);
    }
  }

  /** A worker's action concerns no volume but its own. */
  predicate OwnAction(f: Files, a: Action, k: Worker) {
    match a
    case Do(ApplyQuota(x, _)) => x == k.x
    case Do(GrowRecord(key, _)) => key in f.records && f.records[key].original == k.x
    case Do(FinishExpand(x)) => x == k.x
    case Do(_) => false
    case Charge(x, _) => x == k.x
    case BeginExpand(x, _, _) => x == k.x
    case RebuildIndex => true
    case WriteIntent => true
    case CommitIndex => true
    case AbortIndex => true
    case Pass => true
    case _ => false
  }

  predicate Closes(a: Action) {
    a.WriteIntent? || a.CommitIndex? || a.AbortIndex?
  }

  lemma IsOwnAction(w: World, s: Step)
    requires Possible(w, s) && !s.Other? && !s.Meet?
    ensures OwnAction(w.pool.files, ActionOf(w, s), w.workers[s.pid])
    ensures Closes(ActionOf(w, s)) ==> Owns(w.pool.txn, w.workers[s.pid])
  {
  }

  lemma OwnActionElsewhere(s: System, a: Action, k: Worker, q: Worker)
    requires OwnAction(s.files, a, k) && k.x != q.x && (Closes(a) ==> Owns(s.txn, k))
    requires WorkerOk(ViewOf(s.files, q.x), s.txn, q)
    ensures !Concerns(s, a, q.x) && (Owns(s.txn, q) ==> !Closes(a))
  {
  }

  lemma NoteHolds(w: World, pid: nat)
    requires Possible(w, Note(pid)) && HoldsAt(w, pid)
    ensures pid in After(w, Note(pid)).workers ==> HoldsAt(After(w, Note(pid)), pid)
  {
  }

  lemma ChargeHolds(w: World, s: Step)
    requires Possible(w, s) && (s.Repair? || s.Recharge?) && HoldsAt(w, s.pid)
    ensures HoldsAt(After(w, s), s.pid)
  {
  }

  lemma BeginHolds(w: World, pid: nat)
    requires Possible(w, Begin(pid)) && HoldsAt(w, pid)
    ensures HoldsAt(After(w, Begin(pid)), pid)
  {
  }

  lemma WriteHolds(w: World, pid: nat)
    requires Possible(w, Write(pid)) && HoldsAt(w, pid)
    ensures HoldsAt(After(w, Write(pid)), pid)
  {
  }

  lemma CommitHolds(w: World, s: Step)
    requires Possible(w, s) && (s.Commit? || s.Renew?) && HoldsAt(w, s.pid)
    ensures HoldsAt(After(w, s), s.pid)
  {
  }

  lemma LimitHolds(w: World, pid: nat)
    requires Possible(w, Enforce(pid)) && HoldsAt(w, pid)
    ensures HoldsAt(After(w, Enforce(pid)), pid)
  {
  }

  lemma GrowHolds(w: World, pid: nat, key: Id)
    requires Possible(w, Grow(pid, key)) && HoldsAt(w, pid) && key == w.workers[pid].x
    ensures HoldsAt(After(w, Grow(pid, key)), pid)
  {
  }

  lemma AdmissionStepHolds(w: World, s: Step)
    requires Possible(w, s) && (s.Begin? || s.Write? || s.Commit? || s.Renew? || s.Recharge?) && HoldsAt(w, s.pid)
    ensures HoldsAt(After(w, s), s.pid)
  {
    if s.Begin? {
      BeginHolds(w, s.pid);
    } else if s.Write? {
      WriteHolds(w, s.pid);
    } else if s.Recharge? {
      ChargeHolds(w, s);
    } else {
      CommitHolds(w, s);
    }
  }

  lemma OwnStepHolds(w: World, s: Step)
    requires Possible(w, s) && !s.Other? && !s.Meet? && HoldsAt(w, s.pid) && s.pid in Workers(w, s)
    requires RecordsOk(w.pool.files) && NamesOk(w.pool.files.records)
    ensures HoldsAt(After(w, s), s.pid)
  {
    if s.Note? {
      NoteHolds(w, s.pid);
    } else if s.Repair? {
      ChargeHolds(w, s);
    } else if s.Enforce? {
      LimitHolds(w, s.pid);
    } else if s.Grow? {
      KeyIsVolume(w.pool.files, w.workers[s.pid].x, s.key);
      GrowHolds(w, s.pid, s.key);
    } else {
      AdmissionStepHolds(w, s);
    }
  }

  /** Next to committed metadata at the volume's own path there is no other. */
  lemma KeyIsVolume(f: Files, x: Id, key: Id)
    requires RecordsOk(f) && NamesOk(f.records) && At(f, x, Committed)
    requires key in f.records && f.records[key].original == x && OwnPath(f.records[key].phase)
    ensures key == x
  {
    assert RecordOk(f, x);
    assert SameName(f.records[key], f.records[x]);
  }

  lemma MeetHolds(w: World, s: Step)
    requires Possible(w, s) && s.Meet? && Trusted(w, s) && RecordsOk(w.pool.files)
    ensures HoldsAt(After(w, s), s.pid)
  {
    assert RecordOk(w.pool.files, s.x);
  }

  lemma MeetLeavesOthers(w: World, s: Step, q: nat)
    requires Possible(w, s) && s.Meet? && q in w.workers && HoldsAt(w, q)
    ensures q in Workers(w, s) && HoldsAt(After(w, s), q)
  {
  }

  lemma OwnLeavesOthers(w: World, s: Step, q: nat)
    requires Possible(w, s) && !s.Other? && !s.Meet? && q in Workers(w, s) && q != s.pid
    requires q in w.workers && HoldsAt(w, q) && w.workers[q].x != w.workers[s.pid].x
    ensures HoldsAt(After(w, s), q)
  {
    IsOwnAction(w, s);
    OwnActionElsewhere(w.pool, ActionOf(w, s), w.workers[s.pid], w.workers[q]);
    ElsewhereKeeps(w.pool, ActionOf(w, s), w.workers[q]);
  }

  lemma WorkersOf(w: World, s: Step, q: nat)
    requires Possible(w, s) && !s.Other? && q in Workers(w, s) && q != s.pid
    ensures q in w.workers && Workers(w, s)[q] == w.workers[q]
  {
  }

  lemma OwnKeeps(w: World, s: Step)
    requires WInv(w) && Possible(w, s) && Trusted(w, s) && !s.Other?
    ensures forall pid :: pid in After(w, s).workers ==> HoldsAt(After(w, s), pid)
  {
    var t := After(w, s);
    forall q | q in t.workers ensures HoldsAt(t, q) {
      if q != s.pid {
        WorkersOf(w, s, q);
        assert HoldsAt(w, q);
        if s.Meet? { MeetLeavesOthers(w, s, q); } else { OwnLeavesOthers(w, s, q); }
      } else if s.Meet? {
        MeetHolds(w, s);
      } else {
        assert HoldsAt(w, q);
        OwnStepHolds(w, s);
      }
    }
  }

  lemma VolumeOf(w: World, s: Step, q: nat)
    requires Possible(w, s) && !s.Other? && q in Workers(w, s) && q in w.workers
    ensures Workers(w, s)[q].x == w.workers[q].x
  {
  }

  lemma NewVolume(w: World, s: Step, q: nat)
    requires Possible(w, s) && !s.Other? && q in Workers(w, s) && q !in w.workers
    ensures s.Meet? && q == s.pid && Workers(w, s)[q].x == s.x
    ensures s.bothMet ==> forall o :: o in w.workers && w.workers[o].bothMet ==> w.workers[o].x != s.x
  {
  }

  lemma StaysAlone(w: World, s: Step)
    requires WInv(w) && Possible(w, s) && Trusted(w, s) && !s.Other?
    ensures Alone(Workers(w, s))
  {
    var after := Workers(w, s);
    forall p, q | p in after && q in after && after[p].x == after[q].x ensures p == q {
      if p in w.workers { VolumeOf(w, s, p); assert HoldsAt(w, p); } else { NewVolume(w, s, p); }
      if q in w.workers { VolumeOf(w, s, q); assert HoldsAt(w, q); } else { NewVolume(w, s, q); }
    }
  }

  /** A worker whose volume's admission is open does not go without closing it. */
  lemma AdmissionEndsWithIt(w: World, s: Step, q: nat)
    requires Possible(w, s) && !s.Other? && q in w.workers && HoldsAt(w, q)
    requires w.pool.txn.Some? && w.pool.txn.value.grant.GrantExpand? && w.workers[q].x == w.pool.txn.value.grant.x
    ensures q in Workers(w, s) || After(w, s).pool.txn.None?
  {
  }

  lemma AdmissionStays(w: World, s: Step)
    requires Possible(w, s) && !s.Other? && !s.Begin?
    ensures var before, after := w.pool.txn, After(w, s).pool.txn;
            after.Some? ==> before.Some? && after.value.grant == before.value.grant
  {
  }

  lemma BeginAccounts(w: World, pid: nat)
    requires Possible(w, Begin(pid))
    ensures Accounted(After(w, Begin(pid)))
  {
    assert After(w, Begin(pid)).workers[pid].x == w.workers[pid].x;
  }

  lemma OwnerStays(w: World, s: Step, q: nat)
    requires Possible(w, s) && !s.Other? && !s.Begin? && q in w.workers && HoldsAt(w, q)
    requires w.pool.txn.Some? && w.pool.txn.value.grant.GrantExpand? && w.workers[q].x == w.pool.txn.value.grant.x
    ensures Accounted(After(w, s))
  {
    AdmissionStays(w, s);
    AdmissionEndsWithIt(w, s, q);
    if q in Workers(w, s) {
      VolumeOf(w, s, q);
      assert After(w, s).workers[q].x == w.workers[q].x;
    }
  }

  lemma StaysAccounted(w: World, s: Step)
    requires Accounted(w) && (forall pid :: pid in w.workers ==> HoldsAt(w, pid)) && Possible(w, s) && !s.Other?
    ensures Accounted(After(w, s))
  {
    if s.Begin? {
      BeginAccounts(w, s.pid);
    } else if w.pool.txn.Some? && w.pool.txn.value.grant.GrantExpand? {
      var q :| q in w.workers && w.workers[q].x == w.pool.txn.value.grant.x;
      OwnerStays(w, s, q);
    } else {
      AdmissionStays(w, s);
    }
  }

  // ---- Every action is one the pool's histories allow ----

  lemma QuotaIsAssumed(w: World, s: Step)
    requires Possible(w, s) && (s.Enforce? || s.Settle?) && HoldsAt(w, s.pid)
    ensures Assumed(w.pool, ActionOf(w, s))
  {
  }

  lemma LimitedIsCurrent(f: Files, txn: Option<Txn>, k: Worker)
    requires WorkerOk(ViewOf(f, k.x), txn, k) && k.at == Limited
    ensures Current(f, GrowRecord(k.x, Target(k))) && Outside(txn, k.x)
  {
  }

  lemma GrownIsCurrent(f: Files, txn: Option<Txn>, k: Worker)
    requires WorkerOk(ViewOf(f, k.x), txn, k) && k.at == Grown
    ensures Current(f, FinishExpand(k.x)) && Outside(txn, k.x)
  {
  }

  lemma OutsideIsGuarded(s: System, w: Write, x: Id)
    requires Current(s.files, w) && Outside(s.txn, x) && (forall y :: Touches(w, y) <==> y == x) && !w.RemoveArchive?
    ensures Assumed(s, Do(w))
  {
  }

  lemma GrowIsAssumed(w: World, pid: nat, key: Id)
    requires Possible(w, Grow(pid, key)) && HoldsAt(w, pid) && key == w.workers[pid].x
    ensures Assumed(w.pool, ActionOf(w, Grow(pid, key)))
  {
    LimitedIsCurrent(w.pool.files, w.pool.txn, w.workers[pid]);
    OutsideIsGuarded(w.pool, GrowRecord(key, Target(w.workers[pid])), key);
  }

  lemma FinishIsAssumed(w: World, pid: nat)
    requires Possible(w, Finish(pid)) && HoldsAt(w, pid)
    ensures Assumed(w.pool, ActionOf(w, Finish(pid)))
  {
    GrownIsCurrent(w.pool.files, w.pool.txn, w.workers[pid]);
    OutsideIsGuarded(w.pool, FinishExpand(w.workers[pid].x), w.workers[pid].x);
  }

  lemma BeginIsAssumed(w: World, pid: nat)
    requires Possible(w, Begin(pid)) && HoldsAt(w, pid) && Trusted(w, Begin(pid))
    ensures Assumed(w.pool, ActionOf(w, Begin(pid)))
  {
  }

  lemma RestIsAssumed(w: World, s: Step)
    requires Possible(w, s) && !s.Other? && !s.Enforce? && !s.Settle? && !s.Grow? && !s.Finish? && !s.Begin?
    ensures Assumed(w.pool, ActionOf(w, s))
  {
  }

  lemma WriteIsAssumed(w: World, s: Step)
    requires Possible(w, s) && Trusted(w, s) && (s.Enforce? || s.Settle? || s.Grow? || s.Finish? || s.Begin?)
    requires HoldsAt(w, s.pid) && RecordsOk(w.pool.files) && NamesOk(w.pool.files.records)
    ensures Assumed(w.pool, ActionOf(w, s))
  {
    if s.Grow? {
      KeyIsVolume(w.pool.files, w.workers[s.pid].x, s.key);
      GrowIsAssumed(w, s.pid, s.key);
    } else if s.Finish? {
      FinishIsAssumed(w, s.pid);
    } else if s.Begin? {
      BeginIsAssumed(w, s.pid);
    } else {
      QuotaIsAssumed(w, s);
    }
  }

  lemma OwnIsAssumed(w: World, s: Step)
    requires WInv(w) && Possible(w, s) && Trusted(w, s) && !s.Other?
    ensures Assumed(w.pool, ActionOf(w, s))
  {
    if s.Enforce? || s.Settle? || s.Grow? || s.Finish? || s.Begin? {
      assert HoldsAt(w, s.pid);
      WriteIsAssumed(w, s);
    } else {
      RestIsAssumed(w, s);
    }
  }

  lemma OtherIsAssumed(w: World, a: Action)
    requires WInv(w) && Possible(w, Other(a)) && Trusted(w, Other(a))
    ensures Assumed(w.pool, a)
  {
    if a.Do? && w.pool.txn.Some? && w.pool.txn.value.grant.GrantExpand? {
      var q :| q in w.workers && w.workers[q].x == w.pool.txn.value.grant.x;
      assert HoldsAt(w, q);
      var x := w.workers[q].x;
      assert !Concerns(w.pool, a, x);
    }
  }

  lemma StepIsAssumed(w: World, s: Step)
    requires WInv(w) && Possible(w, s) && Trusted(w, s)
    ensures Assumed(w.pool, ActionOf(w, s)) && WInv(After(w, s))
  {
    if s.Other? {
      OtherIsAssumed(w, s.a);
      OtherKeeps(w, s.a);
    } else {
      OwnIsAssumed(w, s);
      OwnKeeps(w, s);
      StaysAlone(w, s);
      StaysAccounted(w, s);
    }
    Runs.StepKeepsInv(w.pool, ActionOf(w, s));
  }

  // ---- Runs ----

  ghost predicate RunStepAt(worlds: seq<World>, steps: seq<Step>, i: nat)
    requires i < |steps| && |worlds| == |steps| + 1
  {
    Possible(worlds[i], steps[i]) && After(worlds[i], steps[i]) == worlds[i + 1] && Trusted(worlds[i], steps[i])
  }

  /** Any number of expansions and of other operations on one pool, from its creation on. */
  ghost predicate IsRun(total: int, worlds: seq<World>, steps: seq<Step>)
  {
    && 0 <= total && |worlds| == |steps| + 1 && worlds[0] == World(EmptyPool(total), map[])
    && forall i :: 0 <= i < |steps| ==> RunStepAt(worlds, steps, i)
  }

  lemma RunStepKeeps(worlds: seq<World>, steps: seq<Step>, i: nat, next: nat)
    requires |worlds| == |steps| + 1 && i < |steps| && next == i + 1 && RunStepAt(worlds, steps, i) && WInv(worlds[i])
    ensures WInv(worlds[next])
  {
    StepIsAssumed(worlds[i], steps[i]);
  }

  lemma {:induction false} RunGoesOn(total: int, worlds: seq<World>, steps: seq<Step>, i: nat, next: nat)
    requires IsRun(total, worlds, steps) && i < |steps| && next == i + 1
    ensures WInv(worlds[next])
    decreases i, 1
  {
    RunIsConsistent(total, worlds, steps, i);
    assert RunStepAt(worlds, steps, i);
    RunStepKeeps(worlds, steps, i, next);
  }

  lemma RunStarts(total: int)
    requires 0 <= total
    ensures WInv(World(EmptyPool(total), map[]))
  {
    Runs.EmptyPoolIsConsistent(total);
  }

  lemma {:induction false} RunIsConsistent(total: int, worlds: seq<World>, steps: seq<Step>, i: nat)
    requires IsRun(total, worlds, steps) && i <= |steps|
    ensures WInv(worlds[i])
    decreases i, 0
  {
    if i == 0 {
      RunStarts(total);
    } else {
      RunGoesOn(total, worlds, steps, i - 1, i);
    }
  }

  function Pools(worlds: seq<World>): (path: seq<System>)
    ensures |path| == |worlds| && forall i :: 0 <= i < |path| ==> path[i] == worlds[i].pool
  {
    seq(|worlds|, i requires 0 <= i < |worlds| => worlds[i].pool)
  }

  function Actions(worlds: seq<World>, steps: seq<Step>): (plan: seq<Action>)
    requires |worlds| == |steps| + 1
    ensures |plan| == |steps| && forall i :: 0 <= i < |plan| ==> plan[i] == ActionOf(worlds[i], steps[i])
  {
    seq(|steps|, i requires 0 <= i < |steps| => ActionOf(worlds[i], steps[i]))
  }

  lemma RunStepIsHistoric(total: int, worlds: seq<World>, steps: seq<Step>, i: nat)
    requires IsRun(total, worlds, steps) && i < |steps|
    ensures var path, plan := Pools(worlds), Actions(worlds, steps); StepAt(path, plan, i) && AssumedAt(path, plan, i)
  {
    RunIsConsistent(total, worlds, steps, i);
    assert RunStepAt(worlds, steps, i);
    StepIsAssumed(worlds[i], steps[i]);
  }

  /** As long as every expansion gets to work only after both searches of its decorator met the volume, the
      targets they captured stay current, and every run is one of the pool's histories: all that is proved
      about those holds of the writes the code really makes. */
  lemma RunIsHistory(total: int, worlds: seq<World>, steps: seq<Step>)
    requires IsRun(total, worlds, steps)
    ensures IsHistory(total, Pools(worlds), Actions(worlds, steps))
  {
    forall i | 0 <= i < |steps|
      ensures StepAt(Pools(worlds), Actions(worlds, steps), i) && AssumedAt(Pools(worlds), Actions(worlds, steps), i)
    {
      RunStepIsHistoric(total, worlds, steps, i);
    }
  }

  /** So at every moment of such a run the pool is readable, what it reserves and what it enforces both fit,
      and every payload is paid for. */
  lemma GuardedRunsFit(total: int, worlds: seq<World>, steps: seq<Step>, i: nat)
    requires IsRun(total, worlds, steps) && i <= |steps|
    ensures var f := worlds[i].pool.files;
            && Parses(f) && Sum(Durable(f)) <= total && Sum(Guarantees.EnforcedLimits(f)) <= total
            && exists paidBy :: Guarantees.Pays(f, paidBy)
  {
    RunIsHistory(total, worlds, steps);
    Guarantees.NoOvercommit(total, Pools(worlds), Actions(worlds, steps), i);
    Guarantees.LimitsFitThePool(total, Pools(worlds), Actions(worlds, steps), i);
    Guarantees.EveryPayloadIsPaid(total, Pools(worlds), Actions(worlds, steps), i);
  }

  /** And each quota and size an expansion writes is one the pool can carry. */
  lemma GuardedWritesAreCurrent(total: int, worlds: seq<World>, steps: seq<Step>, i: nat)
    requires IsRun(total, worlds, steps) && i < |steps|
    ensures var a := ActionOf(worlds[i], steps[i]); a.Do? ==> Current(worlds[i].pool.files, a.w)
  {
    RunIsConsistent(total, worlds, steps, i);
    assert RunStepAt(worlds, steps, i);
    StepIsAssumed(worlds[i], steps[i]);
  }

  /** No sequence of requests shrinks a volume. */
  lemma GuardedRunsNeverShrink(total: int, worlds: seq<World>, steps: seq<Step>, j: nat, k: nat, x: Id)
    requires IsRun(total, worlds, steps) && j <= k <= |steps|
    requires forall m :: j <= m <= k ==> x in worlds[m].pool.files.records
    ensures worlds[j].pool.files.records[x].size <= worlds[k].pool.files.records[x].size
  {
    RunIsHistory(total, worlds, steps);
    Guarantees.NeverShrinks(total, Pools(worlds), Actions(worlds, steps), j, k, x);
  }
}
