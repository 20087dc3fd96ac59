/**
 An expansion process that nobody disturbs takes its steps to exactly where the method of `HostingPool` gets:
 the two forms of ControllerExpandVolume are one.
 */
module SoloExpansion {
  import opened Base
  import opened Lifecycle
  import opened Operations
  import opened Expanders
  import R = Records
  import Outcomes
  import Safety
  import Unlocked

  /** The process alone beside the pool. */
  function Solo(s: System, pid: nat, k: Worker): World {
    World(s, map[pid := k])
  }

  function Starting(x: Id, requested: int, size: int, pending: Option<R.ExpansionIntent>, at: Point): Worker {
    Worker(x, requested, size, pending, true, at)
  }

  /** The next step, and what it does to the pool. */
  lemma Steps(w: World, s: System, pid: nat, k: Worker, step: Step, t: System, at: Point)
    requires Unlocked.Reaches(w, Solo(s, pid, k)) && !step.Other? && !step.Meet? && step.pid == pid
    requires Ready(Solo(s, pid, k), step) && Enabled(s, ActionOf(Solo(s, pid, k), step))
    requires t == Next(s, ActionOf(Solo(s, pid, k), step)) && Unlocked.Tolerated(Solo(s, pid, k), step)
    requires Workers(Solo(s, pid, k), step) == map[pid := k][pid := k.(at := at)]
    ensures Unlocked.Reaches(w, Solo(t, pid, k.(at := at)))
  {
    assert map[pid := k][pid := k.(at := at)] == map[pid := k.(at := at)];
    Unlocked.Then(w, Solo(s, pid, k), step, Solo(t, pid, k.(at := at)));
  }

  lemma Ends(w: World, s: System, pid: nat, k: Worker, step: Step, t: System)
    requires Unlocked.Reaches(w, Solo(s, pid, k)) && (step.Settle? || step.Finish?) && step.pid == pid
    requires Ready(Solo(s, pid, k), step) && Enabled(s, ActionOf(Solo(s, pid, k), step))
    requires t == Next(s, ActionOf(Solo(s, pid, k), step))
    ensures Unlocked.Reaches(w, World(t, map[]))
  {
    assert map[pid := k] - {pid} == map[];
    Unlocked.Then(w, Solo(s, pid, k), step, World(t, map[]));
  }

  /** Its search finds the volume, and it reads what is pending. */
  lemma Captures(s: System, pid: nat, x: Id, requested: int, pending: Option<R.ExpansionIntent>)
    requires s.txn.None? && At(s.files, x, Committed) && x !in s.files.creating && 0 < requested
    requires pending == Get(s.files.expanding, x)
    requires pending.Some? ==>
               && pending.value.toSize == requested
               && (s.files.records[x].size == pending.value.fromSize || s.files.records[x].size == requested)
    ensures Unlocked.Reaches(World(s, map[]),
                             Solo(s, pid, Starting(x, requested, s.files.records[x].size, pending, Noted)))
  {
    var w := World(s, map[]);
    var met := Starting(x, requested, s.files.records[x].size, None, Met);
    var noted := Starting(x, requested, s.files.records[x].size, pending, Noted);
    Unlocked.Here(w);
    assert map[][pid := met] == map[pid := met] && map[pid := met][pid := noted] == map[pid := noted];
    Unlocked.Then(w, w, Meet(pid, x, requested, true), Solo(s, pid, met));
    Unlocked.Then(w, Solo(s, pid, met), Note(pid), Solo(s, pid, noted));
  }

  lemma Repairs(w: World, s: System, pid: nat, k: Worker)
    requires Unlocked.Reaches(w, Solo(s, pid, k.(at := Noted))) && k.at == Repaired && s.txn.None?
    requires 0 < k.size && (k.pending.Some? ==> 0 < Target(k))
    ensures var row := if k.pending.Some? then Target(k) else k.size;
            Unlocked.Reaches(w, Solo(s.(stats := s.stats[k.x := row]), pid, k))
  {
    var row := if k.pending.Some? then Target(k) else k.size;
    Steps(w, s, pid, k.(at := Noted), Repair(pid), s.(stats := s.stats[k.x := row]), Repaired);
  }

  lemma Enforces(w: World, s: System, pid: nat, k: Worker)
    requires Unlocked.Reaches(w, Solo(s, pid, k)) && k.at == Reserved
    ensures Unlocked.Reaches(w, Solo(s.(files := s.files.(payload := s.files.payload[k.x := Limit(Target(k))])), pid,
                                     k.(at := Limited)))
  {
    Steps(w, s, pid, k, Enforce(pid), s.(files := s.files.(payload := s.files.payload[k.x := Limit(Target(k))])),
          Limited);
  }

  lemma GrowsMetadata(w: World, s: System, pid: nat, k: Worker)
    requires Unlocked.Reaches(w, Solo(s, pid, k)) && k.at == Limited
    requires At(s.files, k.x, Committed) && s.files.records[k.x].original == k.x
    ensures Unlocked.Reaches(w, Solo(s.(files := WithSize(s.files, k.x, Target(k))), pid, k.(at := Grown)))
  {
    Steps(w, s, pid, k, Grow(pid, k.x), s.(files := WithSize(s.files, k.x, Target(k))), Grown);
  }

  lemma Finishes(w: World, s: System, pid: nat, k: Worker)
    requires Unlocked.Reaches(w, Solo(s, pid, k)) && k.at == Grown && Get(s.files.expanding, k.x) == Some(Intent(k))
    ensures Unlocked.Reaches(w, World(s.(files := s.files.(expanding := s.files.expanding - {k.x})), map[]))
  {
    Ends(w, s, pid, k, Finish(pid), s.(files := s.files.(expanding := s.files.expanding - {k.x})));
  }

  /** Quota, metadata, intent. */
  lemma GrowsToTheEnd(w: World, s: System, pid: nat, k: Worker)
    requires Unlocked.Reaches(w, Solo(s, pid, k)) && k.at == Reserved
    requires At(s.files, k.x, Committed) && s.files.records[k.x].original == k.x
    requires Get(s.files.expanding, k.x) == Some(Intent(k))
    ensures Unlocked.Reaches(w, World(s.(files := Expanded(s.files, k.x, Target(k))), map[]))
  {
    var limited := s.(files := s.files.(payload := s.files.payload[k.x := Limit(Target(k))]));
    Enforces(w, s, pid, k);
    GrowsMetadata(w, limited, pid, k.(at := Limited));
    Finishes(w, s.(files := WithSize(limited.files, k.x, Target(k))), pid, k.(at := Grown));
  }

  lemma Begins(w: World, s: System, pid: nat, k: Worker)
    requires Unlocked.Reaches(w, Solo(s, pid, k)) && k.at == Repaired && k.pending.None? && k.size < k.requested
    requires Clear(s.files, k.x) && Enabled(s, BeginExpand(k.x, k.size, k.requested))
    ensures Unlocked.Reaches(w, Solo(Next(s, BeginExpand(k.x, k.size, k.requested)), pid, k.(at := Deciding)))
  {
    Steps(w, s, pid, k, Begin(pid), Next(s, BeginExpand(k.x, k.size, k.requested)), Deciding);
  }

  lemma Writes(w: World, s: System, pid: nat, k: Worker)
    requires Unlocked.Reaches(w, Solo(s, pid, k)) && k.at == Deciding && Owns(s.txn, k) && !s.txn.value.written
    ensures Unlocked.Reaches(w, Solo(Next(s, WriteIntent), pid, k.(at := Expanders.Written)))
  {
    Steps(w, s, pid, k, Write(pid), Next(s, WriteIntent), Expanders.Written);
  }

  lemma Commits(w: World, s: System, pid: nat, k: Worker)
    requires Unlocked.Reaches(w, Solo(s, pid, k)) && k.at == Expanders.Written && Owns(s.txn, k) && s.txn.value.written
    ensures Unlocked.Reaches(w, Solo(Next(s, CommitIndex), pid, k.(at := Reserved)))
  {
    Steps(w, s, pid, k, Commit(pid), Next(s, CommitIndex), Reserved);
  }

  lemma BeginIsEnabled(s: System, x: Id, size: int, requested: int)
    requires s.txn.None? && Parses(s.files) && At(s.files, x, Committed)
    requires x !in s.files.expanding && s.files.records[x].size == size && 0 < size < requested
    requires AdmitsExpansion(s, x, size, requested)
    ensures Enabled(s, BeginExpand(x, size, requested))
    ensures Next(s, BeginExpand(x, size, requested))
            == s.(txn := Some(Txn(Working(s.files, s.stats), GrantExpand(x, size, requested), false)))
  {
  }

  lemma IntentIsCommitted(s: System)
    requires s.txn.Some? && !s.txn.value.written
    ensures Enabled(s, WriteIntent) && Enabled(Next(s, WriteIntent), CommitIndex)
    ensures Next(s, WriteIntent).txn == Some(s.txn.value.(written := true))
    ensures Next(Next(s, WriteIntent), CommitIndex)
            == System(s.total, Intended(s.files, s.txn.value.grant), FinalRows(s.txn.value), None)
  {
  }

  /** A new target the rebuilt index has room for. */
  lemma ReservesNew(w: World, s: System, pid: nat, k: Worker)
    requires Unlocked.Reaches(w, Solo(s, pid, k)) && k.at == Repaired && k.pending.None? && k.size < k.requested
    requires Parses(s.files) && Clear(s.files, k.x) && Enabled(s, BeginExpand(k.x, k.size, k.requested))
    requires Next(s, BeginExpand(k.x, k.size, k.requested))
             == s.(txn := Some(Txn(Working(s.files, s.stats), GrantExpand(k.x, k.size, k.requested), false)))
    ensures Unlocked.Reaches(w, Solo(Outcomes.Granted(s, GrantExpand(k.x, k.size, k.requested)), pid,
                                     k.(at := Reserved)))
  {
    var begun := Next(s, BeginExpand(k.x, k.size, k.requested));
    Begins(w, s, pid, k);
    IntentIsCommitted(begun);
    Writes(w, begun, pid, k.(at := Deciding));
    Commits(w, Next(begun, WriteIntent), pid, k.(at := Expanders.Written));
  }

  lemma Renews(w: World, s: System, pid: nat, k: Worker)
    requires Unlocked.Reaches(w, Solo(s, pid, k)) && k.at == Repaired && Grows(k)
    requires s.txn.None? && Parses(s.files) && Get(s.files.expanding, k.x) == Some(Intent(k))
    ensures Unlocked.Reaches(w, Solo(s.(stats := Working(s.files, s.stats)), pid, k.(at := Renewing)))
  {
    Steps(w, s, pid, k, Renew(pid), s.(stats := Working(s.files, s.stats)), Renewing);
  }

  lemma Recharges(w: World, s: System, pid: nat, k: Worker)
    requires Unlocked.Reaches(w, Solo(s, pid, k)) && k.at == Renewing && s.txn.None? && 0 < Target(k)
    ensures Unlocked.Reaches(w, Solo(s.(stats := s.stats[k.x := Target(k)]), pid, k.(at := Reserved)))
  {
    Steps(w, s, pid, k, Recharge(pid), s.(stats := s.stats[k.x := Target(k)]), Reserved);
  }

  lemma SmallerAgrees(s: System, pid: nat, x: Id, requested: int)
    requires FilesOk(s.files) && s.txn.None? && At(s.files, x, Committed) && x !in s.files.creating
    requires x !in s.files.expanding && 0 < requested <= s.files.records[x].size
    ensures Unlocked.Reaches(World(s, map[]), World(Reconciled(s, x), map[]))
  {
    var size := s.files.records[x].size;
    var k := Starting(x, requested, size, None, Repaired);
    Captures(s, pid, x, requested, None);
    Repairs(World(s, map[]), s, pid, k);
    Ends(World(s, map[]), s.(stats := s.stats[x := size]), pid, k, Settle(pid), Reconciled(s, x));
  }

  lemma RetryAgrees(s: System, pid: nat, x: Id)
    requires FilesOk(s.files) && s.txn.None? && Parses(s.files) && At(s.files, x, Committed)
    requires x !in s.files.creating && x in s.files.expanding
    ensures var toSize := s.files.expanding[x].toSize;
            Unlocked.Reaches(World(s, map[]), World(Outcomes.ExpansionResult(s, x, toSize, toSize, true), map[]))
  {
    var w, i := World(s, map[]), s.files.expanding[x];
    var k := Starting(x, i.toSize, s.files.records[x].size, Some(i), Reserved);
    var charged := s.(stats := s.stats[x := i.toSize]);
    var reserved := charged.(stats := Working(s.files, charged.stats)[x := i.toSize]);
    Outcomes.ExpansionStarts(s, x, i.fromSize, i.toSize);
    Captures(s, pid, x, i.toSize, Some(i));
    Repairs(w, s, pid, k.(at := Repaired));
    Renews(w, charged, pid, k.(at := Repaired));
    Recharges(w, charged.(stats := Working(s.files, charged.stats)), pid, k.(at := Renewing));
    assert RecordOk(s.files, x);
    GrowsToTheEnd(w, reserved, pid, k);
  }

  lemma TargetAgrees(s: System, pid: nat, x: Id, requested: int)
    requires FilesOk(s.files) && s.txn.None? && Parses(s.files) && At(s.files, x, Committed) && Clear(s.files, x)
    requires x !in s.files.creating && x !in s.files.expanding && s.files.records[x].size < requested
    requires 10 * (requested - s.files.records[x].size) < 9 * (s.total - Sum(Working(s.files, s.stats)))
    ensures Unlocked.Reaches(World(s, map[]),
                             World(Outcomes.ExpansionResult(s, x, s.files.records[x].size, requested, true), map[]))
  {
    var w, size := World(s, map[]), s.files.records[x].size;
    var k := Starting(x, requested, size, None, Reserved);
    var charged := s.(stats := s.stats[x := size]);
    Outcomes.QuietIsPositive(s.files, x);
    Outcomes.QuietRow(s, x, size);
    Captures(s, pid, x, requested, None);
    Repairs(w, s, pid, k.(at := Repaired));
    BeginIsEnabled(charged, x, size, requested);
    ReservesNew(w, charged, pid, k.(at := Repaired));
    assert RecordOk(s.files, x);
    GrowsToTheEnd(w, Outcomes.Granted(charged, GrantExpand(x, size, requested)), pid, k);
    Outcomes.GrantedGrows(charged, x, size, requested);
  }

  /** Whatever the request, if the call answers OK then the process, left alone, ends where the call does. */
  lemma ProcessAgreesWithCall(s: System, pid: nat, x: Id, requested: int)
    requires FilesOk(s.files) && s.txn.None? && Parses(s.files) && At(s.files, x, Committed) && 0 < requested
    requires x !in s.files.creating && Clear(s.files, x)
    ensures var (answer, t) := Outcomes.ExpandFound(s, x, requested);
            answer.Ok? ==> Unlocked.Reaches(World(s, map[]), World(t, map[]))
  {
    Outcomes.FoundAnswers(s, x, requested);
    if x in s.files.expanding {
      if requested == s.files.expanding[x].toSize {
        RetryAgrees(s, pid, x);
      }
    } else if requested <= s.files.records[x].size {
      SmallerAgrees(s, pid, x, requested);
    } else if 10 * (requested - s.files.records[x].size) < 9 * (s.total - Sum(Working(s.files, s.stats))) {
      TargetAgrees(s, pid, x, requested);
    }
  }
}
