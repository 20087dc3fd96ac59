/**
 A pool dedicated to one volume: the ownership claim in an extended attribute of its root, the lock
 on that root, and every interleaving of claims, legacy adoption, publishes, deletes, crashes and
 foreign writers.
 */
module SinglePv {
  import opened Base

  datatype ClaimState = Active | Deleting | Retired

  datatype Claim = Claim(owner: Id, state: ClaimState)

  datatype Task = ClaimPool(x: Id) | Publish(x: Id) | Delete(x: Id)

  datatype Point =
    | Waiting                       // for the pool lock
    | Locked
    | FoundEmpty                    // claiming: no claim and no data
    | Ensured                       // publishing: the claim matched, and the lock was released again
    | Guarded                       // publishing: under the lock once more
    | Pinned                        // publishing: the claim matched there and the source is pinned
    | Mounting                      // publishing: it matched again
    | Owned                         // deleting: the claim is this volume's
    | Begun                         // deleting: publishes are blocked
    | Purging(left: set<nat>)       // deleting: entries of the first listing not yet removed
    | Emptied                       // deleting: the second listing was empty

  datatype Process = Process(task: Task, at: Point)

  /** `entries` are the names below the root; `mounts` logs the volume id of every successful publish;
      `emptied` says whether some purge of this pool has seen it empty. */
  datatype Pool = Pool(
    claim: Option<Claim>,
    entries: set<nat>,
    legacy: Option<Id>,             // the volume an operator recorded for a pool older than claims
    lock: Option<nat>,
    processes: map<nat, Process>,
    mounts: seq<Id>,
    emptied: bool)

  datatype Step =
    | Start(pid: nat, task: Task)
    | Acquire(pid: nat)
    | Advance(pid: nat)             // the next action of this process
    | Remove(pid: nat, entry: nat)  // a purge removes one of the listed entries
    | Leave(pid: nat)               // return, exception or crash: the lock is released
    | ForeignWrite(entry: nat)
    | ForeignRemove(entry: nat)

  /** `single_pv_claim_matches` */
  predicate Matches(claim: Option<Claim>, x: Id) {
    claim == Some(Claim(x, Active))
  }

  predicate Unlocked(at: Point) {
    at == Waiting || at == Ensured
  }

  predicate Enabled(p: Pool, s: Step) {
    match s
    case Start(pid, _) => pid !in p.processes
    case Acquire(pid) => pid in p.processes && Unlocked(p.processes[pid].at) && p.lock.None?
    case Advance(pid) => pid in p.processes && !Unlocked(p.processes[pid].at)
    case Remove(pid, entry) => pid in p.processes && p.processes[pid].at.Purging? && entry in p.processes[pid].at.left
    case Leave(pid) => pid in p.processes
    case ForeignWrite(_) => true
    case ForeignRemove(_) => true
  }

  function Left(p: Pool, pid: nat): Pool {
    p.(processes := p.processes - {pid}, lock := if p.lock == Some(pid) then None else p.lock)
  }

  function At(p: Pool, pid: nat, at: Point): Pool
    requires pid in p.processes
  {
    p.(processes := p.processes[pid := p.processes[pid].(at := at)])
  }

  /** `_claim_single_pv_volume`: an existing claim is returned or refused, never replaced; without one
      the pool must look empty. */
  function ClaimNext(p: Pool, pid: nat): Pool
    requires pid in p.processes
  {
    if p.processes[pid].at == FoundEmpty then
      // XATTR_CREATE
      if p.claim.None? then Left(p, pid).(claim := Some(Claim(p.processes[pid].task.x, Active))) else Left(p, pid)
    else if p.claim.Some? || p.entries != {} then Left(p, pid)
    else At(p, pid, FoundEmpty)
  }

  /** NodePublishVolume: `ensure_single_pv_claim`, which adopts a legacy volume, and then the claim-guarded
      part under its own acquisition of the lock. */
  function PublishNext(p: Pool, pid: nat): Pool
    requires pid in p.processes
  {
    var x := p.processes[pid].task.x;
    match p.processes[pid].at
    case Locked =>
      if p.claim.None? && p.legacy == Some(x) then At(p, pid, Ensured).(claim := Some(Claim(x, Active)), lock := None)
      else if Matches(p.claim, x) then At(p, pid, Ensured).(lock := None)
      else Left(p, pid)
    case Guarded => if Matches(p.claim, x) then At(p, pid, Pinned) else Left(p, pid)
    case Pinned => if Matches(p.claim, x) then At(p, pid, Mounting) else Left(p, pid)
    case _ => Left(p, pid).(mounts := p.mounts + [x])
  }

  /** `_delete_single_pv_volume_locked`: own, begin, purge, check, retire. */
  function DeleteNext(p: Pool, pid: nat): Pool
    requires pid in p.processes
  {
    var x := p.processes[pid].task.x;
    match p.processes[pid].at
    case Locked =>
      if p.claim.None? then
        if p.legacy == Some(x) then At(p, pid, Owned).(claim := Some(Claim(x, Active))) else Left(p, pid)
      else if p.claim.value.owner != x then Left(p, pid)
      else At(p, pid, Owned)
    case Owned =>
      if p.claim.None? || p.claim.value.owner != x then Left(p, pid)
      else if p.claim.value.state == Active then At(p, pid, Begun).(claim := Some(Claim(x, Deleting)))
      else At(p, pid, Begun)
    case Begun => At(p, pid, Purging(p.entries))
    case Purging(left) =>
      if left != {} then p
      else if p.entries == {} then At(p, pid, Emptied).(emptied := true) else Left(p, pid)
    case _ =>
      if p.claim.None? || p.claim.value.owner != x || p.claim.value.state == Active then Left(p, pid)
      else Left(p, pid).(claim := Some(Claim(x, Retired)))
  }

  function Next(p: Pool, s: Step): Pool
    requires Enabled(p, s)
  {
    match s
    case Start(pid, task) => p.(processes := p.processes[pid := Process(task, Waiting)])
    case Acquire(pid) =>
      At(p, pid, if p.processes[pid].at == Ensured then Guarded else Locked).(lock := Some(pid))
    case Advance(pid) =>
      match p.processes[pid].task {
        case ClaimPool(_) => ClaimNext(p, pid)
        case Publish(_) => PublishNext(p, pid)
        case Delete(_) => DeleteNext(p, pid)
      }
    case Remove(pid, entry) =>
      At(p, pid, Purging(p.processes[pid].at.left - {entry})).(entries := p.entries - {entry})
    case Leave(pid) => Left(p, pid)
    case ForeignWrite(entry) => p.(entries := p.entries + {entry})
    case ForeignRemove(entry) => p.(entries := p.entries - {entry})
  }

  // ---- What every interleaving keeps ----

  function Rank(claim: Option<Claim>): nat {
    match claim
    case None => 0
    case Some(c) => match c.state case Active => 1 case Deleting => 2 case Retired => 3
  }

  /** What a process knows at its point, because it holds the lock. */
  predicate PointOk(p: Pool, q: Process) {
    match q.at
    case Waiting => true
    case Locked => true
    case Ensured => q.task.Publish?
    case Guarded => q.task.Publish?
    case FoundEmpty => q.task.ClaimPool? && p.claim.None?
    case Pinned => q.task.Publish? && Matches(p.claim, q.task.x)
    case Mounting => q.task.Publish? && Matches(p.claim, q.task.x)
    case Owned => q.task.Delete? && p.claim.Some? && p.claim.value.owner == q.task.x
    case Begun => q.task.Delete? && p.claim.Some? && p.claim.value.owner == q.task.x && p.claim.value.state != Active
    case Purging(_) =>
      q.task.Delete? && p.claim.Some? && p.claim.value.owner == q.task.x && p.claim.value.state != Active
    case Emptied =>
      q.task.Delete? && p.claim.Some? && p.claim.value.owner == q.task.x && p.claim.value.state != Active && p.emptied
  }

  predicate ProcessOk(p: Pool, pid: nat)
    requires pid in p.processes
  {
    (!Unlocked(p.processes[pid].at) ==> p.lock == Some(pid)) && PointOk(p, p.processes[pid])
  }

  predicate ClaimOk(p: Pool) {
    && (forall x :: x in p.mounts ==> p.claim.Some? && p.claim.value.owner == x)
    && (p.claim.Some? && p.claim.value.state == Retired ==> p.emptied)
  }

  ghost predicate Inv(p: Pool)
  {
    && (forall pid :: pid in p.processes ==> ProcessOk(p, pid))
    && ClaimOk(p)
  }

  /** The claim moved along none, active, deleting, retired, and never to another owner. */
  predicate Advances(before: Option<Claim>, after: Option<Claim>) {
    Rank(before) <= Rank(after) && (before.Some? ==> after.Some? && after.value.owner == before.value.owner)
  }

  /** A step of somebody who held the lock, or touched neither lock nor claim, as far as another process
      can tell. */
  lemma OthersStayOk(p: Pool, t: Pool, pid: nat)
    requires pid in p.processes && pid in t.processes && t.processes[pid] == p.processes[pid] && ProcessOk(p, pid)
    requires p.lock == Some(pid) ==> t.lock == p.lock && t.claim == p.claim && (p.emptied ==> t.emptied)
    ensures ProcessOk(t, pid)
  {
  }

  lemma ClaimKeeps(p: Pool, pid: nat)
    requires pid in p.processes && ProcessOk(p, pid) && p.processes[pid].task.ClaimPool?
    requires !Unlocked(p.processes[pid].at) && ClaimOk(p)
    ensures var t := ClaimNext(p, pid);
            ClaimOk(t) && Advances(p.claim, t.claim) && (pid in t.processes ==> ProcessOk(t, pid))
  {
  }

  lemma PublishKeeps(p: Pool, pid: nat)
    requires pid in p.processes && ProcessOk(p, pid) && p.processes[pid].task.Publish?
    requires !Unlocked(p.processes[pid].at) && ClaimOk(p)
    ensures var t := PublishNext(p, pid);
            ClaimOk(t) && Advances(p.claim, t.claim) && (pid in t.processes ==> ProcessOk(t, pid))
  {
  }

  lemma DeleteKeeps(p: Pool, pid: nat)
    requires pid in p.processes && ProcessOk(p, pid) && p.processes[pid].task.Delete?
    requires !Unlocked(p.processes[pid].at) && ClaimOk(p)
    ensures var t := DeleteNext(p, pid);
            ClaimOk(t) && Advances(p.claim, t.claim) && (pid in t.processes ==> ProcessOk(t, pid))
  {
  }

  lemma AdvanceKeeps(p: Pool, pid: nat)
    requires Inv(p) && Enabled(p, Advance(pid))
    ensures Inv(Next(p, Advance(pid))) && Advances(p.claim, Next(p, Advance(pid)).claim)
  {
    var t := Next(p, Advance(pid));
    assert ProcessOk(p, pid);
    match p.processes[pid].task
    case ClaimPool(_) => ClaimKeeps(p, pid);
    case Publish(_) => PublishKeeps(p, pid);
    case Delete(_) => DeleteKeeps(p, pid);
    forall o | o in t.processes && o != pid ensures ProcessOk(t, o) {
      assert ProcessOk(p, o);
      OthersStayOk(p, t, o);
    }
  }

  lemma StepKeepsInv(p: Pool, s: Step)
    requires Inv(p) && Enabled(p, s)
    ensures Inv(Next(p, s)) && Advances(p.claim, Next(p, s).claim)
  {
    var t := Next(p, s);
    if s.Advance? {
      AdvanceKeeps(p, s.pid);
    } else {
      forall pid | pid in t.processes ensures ProcessOk(t, pid) {
        assert pid in p.processes ==> ProcessOk(p, pid);
      }
    }
  }

  // ---- Runs ----

  ghost predicate Execution(p: Pool, steps: seq<Step>)
    decreases |steps|
  {
    steps == [] || (Enabled(p, steps[0]) && Execution(Next(p, steps[0]), steps[1..]))
  }

  ghost function Run(p: Pool, steps: seq<Step>): Pool
    requires Execution(p, steps)
    decreases |steps|
  {
    if steps == [] then p else Run(Next(p, steps[0]), steps[1..])
  }

  /** The owner never changes once set and the claim never goes back, over any run. */
  lemma {:induction false} ClaimOnlyAdvances(p: Pool, steps: seq<Step>)
    requires Inv(p) && Execution(p, steps)
    ensures Inv(Run(p, steps)) && Advances(p.claim, Run(p, steps).claim)
    decreases |steps|
  {
    if steps != [] {
      StepKeepsInv(p, steps[0]);
      ClaimOnlyAdvances(Next(p, steps[0]), steps[1..]);
    }
  }

  /** A pool nobody has used through this driver yet, whatever data it holds. */
  predicate Unclaimed(p: Pool) {
    p.claim.None? && p.lock.None? && p.processes == map[] && p.mounts == [] && !p.emptied
  }

  /** No two tenants: over the whole life of a pool, every publish that ever succeeds is for one and the
      same volume. */
  lemma OneTenant(p: Pool, steps: seq<Step>, x: Id, y: Id)
    requires Unclaimed(p) && Execution(p, steps)
    requires x in Run(p, steps).mounts && y in Run(p, steps).mounts
    ensures x == y
  {
    ClaimOnlyAdvances(p, steps);
  }

  /** Every mount, of a first publish or a later one, happens under the pool lock, while the claim is
      active and the publisher's. */
  lemma MountsOnlyWhileOwned(p: Pool, steps: seq<Step>, s: Step)
    requires Unclaimed(p) && Execution(p, steps) && Enabled(Run(p, steps), s)
    requires Next(Run(p, steps), s).mounts != Run(p, steps).mounts
    ensures var q := Run(p, steps);
            && s.Advance? && q.processes[s.pid].task.Publish? && q.processes[s.pid].at == Mounting
            && Next(q, s).mounts == q.mounts + [q.processes[s.pid].task.x]
            && q.claim == Some(Claim(q.processes[s.pid].task.x, Active)) && q.lock == Some(s.pid)
            && Next(q, s).claim == q.claim
  {
    ClaimOnlyAdvances(p, steps);
    var q := Run(p, steps);
    assert s.Advance? ==> ProcessOk(q, s.pid);
  }

  lemma NoMountOnceDeleting(p: Pool, s: Step)
    requires Inv(p) && Enabled(p, s) && 2 <= Rank(p.claim)
    ensures Next(p, s).mounts == p.mounts
  {
    assert s.Advance? ==> ProcessOk(p, s.pid);
  }

  lemma {:induction false} MountsStayStopped(p: Pool, steps: seq<Step>)
    requires Inv(p) && 2 <= Rank(p.claim) && Execution(p, steps)
    ensures Run(p, steps).mounts == p.mounts
    decreases |steps|
  {
    if steps != [] {
      NoMountOnceDeleting(p, steps[0]);
      StepKeepsInv(p, steps[0]);
      MountsStayStopped(Next(p, steps[0]), steps[1..]);
    }
  }

  /** Once a delete has begun no publish succeeds any more, neither one that has already passed its first
      look at the claim nor any later one. */
  lemma DeletingStopsMounts(p: Pool, steps: seq<Step>, more: seq<Step>)
    requires Unclaimed(p) && Execution(p, steps) && 2 <= Rank(Run(p, steps).claim)
    requires Execution(Run(p, steps), more)
    ensures Run(Run(p, steps), more).mounts == Run(p, steps).mounts
  {
    ClaimOnlyAdvances(p, steps);
    MountsStayStopped(Run(p, steps), more);
  }

  /** A pool retires only after a purge that then found it empty, and from deleting, never straight
      from active. */
  lemma RetiresOnlyAfterPurge(p: Pool, steps: seq<Step>, s: Step)
    requires Unclaimed(p) && Execution(p, steps) && Enabled(Run(p, steps), s)
    requires Rank(Run(p, steps).claim) < 3 && Rank(Next(Run(p, steps), s).claim) == 3
    ensures var q := Run(p, steps);
            q.emptied && Rank(q.claim) == 2 && s.Advance? && q.processes[s.pid].at == Emptied
  {
    ClaimOnlyAdvances(p, steps);
    var q := Run(p, steps);
    assert s.Advance? ==> ProcessOk(q, s.pid);
  }

  /** A fresh claim is set only by a process that saw no claim and no data; data is adopted only for the
      volume the operator named. */
  lemma ClaimsOnlyEmptyOrLegacy(p: Pool, steps: seq<Step>, s: Step)
    requires Unclaimed(p) && Execution(p, steps) && Enabled(Run(p, steps), s)
    requires Run(p, steps).claim.None? && Next(Run(p, steps), s).claim.Some?
    ensures var q, c := Run(p, steps), Next(Run(p, steps), s).claim.value;
            && c.state == Active && s.Advance? && q.processes[s.pid].task.x == c.owner
            && (q.processes[s.pid].at == FoundEmpty || q.legacy == Some(c.owner))
  {
    ClaimOnlyAdvances(p, steps);
    assert s.Advance? ==> ProcessOk(Run(p, steps), s.pid);
  }

  // ---- What a process gets done that nobody disturbs ----

  /** Only this process acts. */
  predicate Alone(pid: nat, steps: seq<Step>) {
    forall s :: s in steps ==> !s.ForeignWrite? && !s.ForeignRemove? && s.pid == pid
  }

  lemma Do(p: Pool, s: Step, rest: seq<Step>)
    requires Enabled(p, s) && Execution(Next(p, s), rest)
    ensures Execution(p, [s] + rest) && Run(p, [s] + rest) == Run(Next(p, s), rest)
  {
    assert ([s] + rest)[1..] == rest;
  }

  lemma DoTwo(p: Pool, s: Step, t: Step)
    requires Enabled(p, s) && Enabled(Next(p, s), t)
    ensures Execution(p, [s, t]) && Run(p, [s, t]) == Next(Next(p, s), t)
  {
    var q := Next(p, s);
    Do(q, t, []);
    assert [t] + [] == [t] && [s] + [t] == [s, t];
    Do(p, s, [t]);
  }

  lemma DoThree(p: Pool, s: Step, t: Step, u: Step)
    requires Enabled(p, s) && Enabled(Next(p, s), t) && Enabled(Next(Next(p, s), t), u)
    ensures Execution(p, [s, t, u]) && Run(p, [s, t, u]) == Next(Next(Next(p, s), t), u)
  {
    DoTwo(Next(p, s), t, u);
    Do(p, s, [t, u]);
    assert [s] + [t, u] == [s, t, u];
  }

  lemma {:induction false} RunOn(p: Pool, steps: seq<Step>, more: seq<Step>)
    requires Execution(p, steps) && Execution(Run(p, steps), more)
    ensures Execution(p, steps + more) && Run(p, steps + more) == Run(Run(p, steps), more)
    decreases |steps|
  {
    if steps == [] {
      assert steps + more == more;
    } else {
      RunOn(Next(p, steps[0]), steps[1..], more);
      assert (steps + more)[1..] == steps[1..] + more;
    }
  }

  function Running(p: Pool, pid: nat, task: Task, at: Point): Pool {
    p.(processes := p.processes[pid := Process(task, at)], lock := if Unlocked(at) then None else Some(pid))
  }

  lemma Ends(p: Pool, pid: nat, task: Task, at: Point)
    requires pid !in p.processes && p.lock.None?
    ensures Left(Running(p, pid, task, at), pid) == p
  {
    assert p.processes[pid := Process(task, at)] - {pid} == p.processes;
  }

  lemma Starts(p: Pool, pid: nat, task: Task)
    requires pid !in p.processes && p.lock.None?
    ensures Execution(p, [Start(pid, task), Acquire(pid)])
    ensures Run(p, [Start(pid, task), Acquire(pid)]) == Running(p, pid, task, Locked)
  {
    DoTwo(p, Start(pid, task), Acquire(pid));
  }

  lemma Refused(p: Pool, pid: nat, task: Task)
    requires pid !in p.processes && p.lock.None? && Enabled(Running(p, pid, task, Locked), Advance(pid))
    requires Next(Running(p, pid, task, Locked), Advance(pid)) == Left(Running(p, pid, task, Locked), pid)
    ensures Execution(p, [Start(pid, task), Acquire(pid), Advance(pid)])
    ensures Run(p, [Start(pid, task), Acquire(pid), Advance(pid)]) == p
  {
    DoThree(p, Start(pid, task), Acquire(pid), Advance(pid));
    Ends(p, pid, task, Locked);
  }

  lemma OwnerIsEnsured(p: Pool, pid: nat, x: Id)
    requires pid !in p.processes && p.lock.None?
    requires p.claim == Some(Claim(x, Active)) || (p.claim.None? && p.legacy == Some(x))
    ensures var steps := [Start(pid, Publish(x)), Acquire(pid), Advance(pid)];
            && Execution(p, steps)
            && Run(p, steps) == Running(p.(claim := Some(Claim(x, Active))), pid, Publish(x), Ensured)
  {
    DoThree(p, Start(pid, Publish(x)), Acquire(pid), Advance(pid));
  }

  lemma EnsuredOwnerMounts(p: Pool, pid: nat, x: Id)
    requires pid !in p.processes && p.lock.None? && p.claim == Some(Claim(x, Active))
    ensures var q := Running(p, pid, Publish(x), Ensured);
            var steps := [Acquire(pid), Advance(pid), Advance(pid)] + [Advance(pid)];
            Execution(q, steps) && Run(q, steps) == p.(mounts := p.mounts + [x])
  {
    var q := Running(p, pid, Publish(x), Ensured);
    var r := Running(p, pid, Publish(x), Mounting);
    DoThree(q, Acquire(pid), Advance(pid), Advance(pid));
    assert Run(q, [Acquire(pid), Advance(pid), Advance(pid)]) == r;
    Do(r, Advance(pid), []);
    Ends(p, pid, Publish(x), Mounting);
    assert [Advance(pid)] + [] == [Advance(pid)];
    RunOn(q, [Acquire(pid), Advance(pid), Advance(pid)], [Advance(pid)]);
  }

  /** The owner can always publish: left alone, a publish of the volume with the active claim, or of the one
      the operator named for an unclaimed pool, mounts once, and the claim is then its own. */
  lemma OwnerMounts(p: Pool, pid: nat, x: Id)
    requires pid !in p.processes && p.lock.None?
    requires p.claim == Some(Claim(x, Active)) || (p.claim.None? && p.legacy == Some(x))
    ensures var steps := [Start(pid, Publish(x)), Acquire(pid), Advance(pid),
                          Acquire(pid), Advance(pid), Advance(pid), Advance(pid)];
            && Execution(p, steps)
            && Run(p, steps) == p.(claim := Some(Claim(x, Active)), mounts := p.mounts + [x])
  {
    var owned := p.(claim := Some(Claim(x, Active)));
    OwnerIsEnsured(p, pid, x);
    EnsuredOwnerMounts(owned, pid, x);
    RunOn(p, [Start(pid, Publish(x)), Acquire(pid), Advance(pid)],
          [Acquire(pid), Advance(pid), Advance(pid)] + [Advance(pid)]);
    assert [Start(pid, Publish(x)), Acquire(pid), Advance(pid)]
           + ([Acquire(pid), Advance(pid), Advance(pid)] + [Advance(pid)])
           == [Start(pid, Publish(x)), Acquire(pid), Advance(pid),
               Acquire(pid), Advance(pid), Advance(pid), Advance(pid)];
  }

  /** Anybody else is turned away at the first look, and nothing has changed. */
  lemma StrangerIsTurnedAway(p: Pool, pid: nat, x: Id)
    requires pid !in p.processes && p.lock.None?
    requires p.claim != Some(Claim(x, Active)) && !(p.claim.None? && p.legacy == Some(x))
    ensures var steps := [Start(pid, Publish(x)), Acquire(pid), Advance(pid)];
            Execution(p, steps) && Run(p, steps) == p
  {
    Refused(p, pid, Publish(x));
  }

  /** A pool without claim or data can be claimed. */
  lemma EmptyPoolIsClaimed(p: Pool, pid: nat, x: Id)
    requires pid !in p.processes && p.lock.None? && p.claim.None? && p.entries == {}
    ensures var steps := [Start(pid, ClaimPool(x)), Acquire(pid), Advance(pid)] + [Advance(pid)];
            Execution(p, steps) && Run(p, steps) == p.(claim := Some(Claim(x, Active)))
  {
    var q := Running(p, pid, ClaimPool(x), FoundEmpty);
    DoThree(p, Start(pid, ClaimPool(x)), Acquire(pid), Advance(pid));
    Do(q, Advance(pid), []);
    Ends(p, pid, ClaimPool(x), FoundEmpty);
    assert [Advance(pid)] + [] == [Advance(pid)];
    RunOn(p, [Start(pid, ClaimPool(x)), Acquire(pid), Advance(pid)], [Advance(pid)]);
  }

  /** A pool with either is left as it is. */
  lemma UsedPoolIsNotClaimed(p: Pool, pid: nat, x: Id)
    requires pid !in p.processes && p.lock.None? && (p.claim.Some? || p.entries != {})
    ensures var steps := [Start(pid, ClaimPool(x)), Acquire(pid), Advance(pid)];
            Execution(p, steps) && Run(p, steps) == p
  {
    Refused(p, pid, ClaimPool(x));
  }

  // A delete that nobody disturbs.

  lemma OwnerIsFound(p: Pool, pid: nat, x: Id) returns (owned: Pool)
    requires pid !in p.processes && p.lock.None?
    requires (p.claim.Some? && p.claim.value.owner == x) || (p.claim.None? && p.legacy == Some(x))
    ensures owned == p.(claim := Some(Claim(x, if p.claim.Some? then p.claim.value.state else Active)))
    ensures var q := Running(p, pid, Delete(x), Locked);
            Enabled(q, Advance(pid)) && Next(q, Advance(pid)) == Running(owned, pid, Delete(x), Owned)
  {
    owned := p.(claim := Some(Claim(x, if p.claim.Some? then p.claim.value.state else Active)));
  }

  lemma PublishesAreBlocked(p: Pool, pid: nat, x: Id, state: ClaimState)
    requires pid !in p.processes && p.claim == Some(Claim(x, state))
    ensures var q, t := Running(p, pid, Delete(x), Owned), if state == Active then Deleting else state;
            && Enabled(q, Advance(pid))
            && Next(q, Advance(pid)) == Running(p.(claim := Some(Claim(x, t))), pid, Delete(x), Begun)
  {
  }

  lemma PoolIsListed(p: Pool, pid: nat, x: Id)
    requires pid !in p.processes
    ensures var q := Running(p, pid, Delete(x), Begun);
            Enabled(q, Advance(pid)) && Next(q, Advance(pid)) == Running(p, pid, Delete(x), Purging(p.entries))
  {
  }

  lemma OwnerBegins(p: Pool, pid: nat, x: Id) returns (state: ClaimState)
    requires pid !in p.processes && p.lock.None?
    requires (p.claim.Some? && p.claim.value.owner == x) || (p.claim.None? && p.legacy == Some(x))
    ensures state != Active
    ensures var steps := [Start(pid, Delete(x)), Acquire(pid)] + [Advance(pid), Advance(pid), Advance(pid)];
            && Execution(p, steps)
            && Run(p, steps) == Running(p.(claim := Some(Claim(x, state))), pid, Delete(x), Purging(p.entries))
  {
    var owned := OwnerIsFound(p, pid, x);
    var before := owned.claim.value.state;
    state := if before == Active then Deleting else before;
    PublishesAreBlocked(owned, pid, x, before);
    PoolIsListed(p.(claim := Some(Claim(x, state))), pid, x);
    DoThree(Running(p, pid, Delete(x), Locked), Advance(pid), Advance(pid), Advance(pid));
    Starts(p, pid, Delete(x));
    RunOn(p, [Start(pid, Delete(x)), Acquire(pid)], [Advance(pid), Advance(pid), Advance(pid)]);
  }

  lemma EntryIsRemoved(p: Pool, pid: nat, x: Id, e: nat)
    requires pid !in p.processes && e in p.entries
    ensures var q, rest := Running(p, pid, Delete(x), Purging(p.entries)), p.entries - {e};
            && Enabled(q, Remove(pid, e))
            && Next(q, Remove(pid, e)) == Running(p.(entries := rest), pid, Delete(x), Purging(rest))
  {
  }

  lemma {:induction false} ListingIsPurged(p: Pool, pid: nat, x: Id) returns (steps: seq<Step>)
    requires pid !in p.processes && p.lock.None?
    ensures var q := Running(p, pid, Delete(x), Purging(p.entries));
            && Alone(pid, steps) && Execution(q, steps)
            && Run(q, steps) == Running(p.(entries := {}), pid, Delete(x), Purging({}))
    decreases |p.entries|
  {
    if p.entries == {} {
      steps := [];
    } else {
      var e :| e in p.entries;
      var q := Running(p, pid, Delete(x), Purging(p.entries));
      var rest := ListingIsPurged(p.(entries := p.entries - {e}), pid, x);
      EntryIsRemoved(p, pid, x, e);
      Do(q, Remove(pid, e), rest);
      steps := [Remove(pid, e)] + rest;
    }
  }

  lemma PurgedPoolRetires(p: Pool, pid: nat, x: Id)
    requires pid !in p.processes && p.lock.None? && p.entries == {}
    requires p.claim.Some? && p.claim.value.owner == x && p.claim.value.state != Active
    ensures var q := Running(p, pid, Delete(x), Purging({}));
            && Execution(q, [Advance(pid), Advance(pid)])
            && Run(q, [Advance(pid), Advance(pid)]) == p.(claim := Some(Claim(x, Retired)), emptied := true)
  {
    DoTwo(Running(p, pid, Delete(x), Purging({})), Advance(pid), Advance(pid));
    Ends(p, pid, Delete(x), Emptied);
  }

  /** The owner can always delete, from wherever an earlier delete stopped: left alone it purges whatever is
      in the pool and retires the claim. */
  lemma OwnerRetires(p: Pool, pid: nat, x: Id) returns (steps: seq<Step>)
    requires pid !in p.processes && p.lock.None?
    requires (p.claim.Some? && p.claim.value.owner == x) || (p.claim.None? && p.legacy == Some(x))
    ensures Alone(pid, steps) && Execution(p, steps)
    ensures Run(p, steps) == p.(claim := Some(Claim(x, Retired)), entries := {}, emptied := true)
  {
    var state := OwnerBegins(p, pid, x);
    var begun := p.(claim := Some(Claim(x, state)));
    var begin := [Start(pid, Delete(x)), Acquire(pid)] + [Advance(pid), Advance(pid), Advance(pid)];
    var purge := ListingIsPurged(begun, pid, x);
    PurgedPoolRetires(begun.(entries := {}), pid, x);
    RunOn(p, begin, purge);
    RunOn(p, begin + purge, [Advance(pid), Advance(pid)]);
    steps := begin + purge + [Advance(pid), Advance(pid)];
  }

  /** Nobody else's delete touches the pool. */
  lemma StrangerDeletesNothing(p: Pool, pid: nat, x: Id)
    requires pid !in p.processes && p.lock.None?
    requires if p.claim.Some? then p.claim.value.owner != x else p.legacy != Some(x)
    ensures var steps := [Start(pid, Delete(x)), Acquire(pid), Advance(pid)];
            Execution(p, steps) && Run(p, steps) == p
  {
    Refused(p, pid, Delete(x));
  }
}
