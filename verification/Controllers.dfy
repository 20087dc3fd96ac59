/**
 Any number of controller processes working on one volume name across every mounted pool: the
 identity lock of CreateVolume, the lifecycle lock a pool keeps per volume, and `search_volume`,
 which looks at one pool after the other, and in each for metadata and then for a create intent, while
 the others go on.
 */
module Controllers {
  import opened Base

  datatype Phase = Creating | Live | Removing

  /** What a pool holds under the name. `version` stands for the rest of the metadata's bytes. */
  datatype Volume = Volume(incarnation: nat, phase: Phase, version: nat)

  /** What a search saw, and where. */
  datatype Found = Found(pool: nat, volume: Volume)

  datatype Role = Creator | Expander | Deleter

  datatype Point =
    | FirstSearch        // the decorator's search, before any lifecycle lock
    | AwaitLock          // for the lock of the pool the first search found
    | LockedSearch       // compared with the first search
    | OwnSearch          // the method's own search, under the lock if there is one
    | UnlockedSearch     // CreateVolume's own search when the first one found nothing
    | Admission
    | AwaitAdmitted      // for the lock of the pool that admitted the create
    | Verification       // verify_creation_reservation
    | Working

  /** `target` is what the process observed before it waited for a lifecycle lock, or what it admitted;
      `locked` is what the search met that compares with it under the lock; `found` is what its latest
      search has seen below `next`, and what it works on in the end; `peeked` says that it has found no
      metadata in pool `next` and has yet to look for an intent there. */
  datatype Process = Process(role: Role, at: Point, target: Option<Found>, locked: Option<Found>,
                             next: nat, found: Option<Found>, peeked: bool)

  datatype World = World(
    poolCount: nat,
    pools: map<nat, Volume>,
    identity: Option<nat>,     // who holds the identity lock
    locks: map<nat, nat>,      // who holds the lifecycle lock of each pool
    processes: map<nat, Process>,
    nextIncarnation: nat)

  datatype Change = Commit | Rewrite | Tombstone | Vanish

  datatype Step =
    | Start(pid: nat, role: Role)
    | Peek(pid: nat)                 // for metadata in one more pool of the current search
    | Look(pid: nat)                 // for a create intent there
    | Decide(pid: nat)               // the current search has seen every pool
    | TakeLock(pid: nat)
    | Admit(pid: nat, pool: nat)
    | Mutate(pid: nat, change: Change)
    | Leave(pid: nat)                // answer, exception or crash: every lock is released

  predicate Searching(at: Point) {
    at == FirstSearch || at == LockedSearch || at == OwnSearch || at == UnlockedSearch || at == Verification
  }

  /** The pool whose lifecycle lock a process at this point holds. */
  function Held(p: Process): Option<nat> {
    if p.target.Some? && (p.at == LockedSearch || p.at == OwnSearch || p.at == Verification || p.at == Working)
    then Some(p.target.value.pool) else None
  }

  /** A search that meets the volume in a second pool raises. */
  predicate SeesDuplicate(w: World, pid: nat)
    requires pid in w.processes
  {
    w.processes[pid].found.Some? && Meets(w, w.processes[pid])
  }

  /** The next look meets the volume: its metadata, or after that its intent. */
  predicate Meets(w: World, p: Process) {
    p.next in w.pools && (w.pools[p.next].phase == Creating <==> p.peeked)
  }

  predicate Enabled(w: World, s: Step) {
    match s
    case Start(pid, role) => pid !in w.processes && (role == Creator ==> w.identity.None?)
    case Admit(pid, pool) => pid in w.processes && w.processes[pid].at == Admission && pool < w.poolCount
    case Peek(pid) =>
      && pid in w.processes && Searching(w.processes[pid].at) && w.processes[pid].next < w.poolCount
      && !w.processes[pid].peeked && !SeesDuplicate(w, pid)
    case Look(pid) =>
      && pid in w.processes && Searching(w.processes[pid].at) && w.processes[pid].next < w.poolCount
      && w.processes[pid].peeked && !SeesDuplicate(w, pid)
    case Decide(pid) => pid in w.processes && Searching(w.processes[pid].at) && w.processes[pid].next == w.poolCount
    case TakeLock(pid) =>
      && pid in w.processes && (w.processes[pid].at == AwaitLock || w.processes[pid].at == AwaitAdmitted)
      && w.processes[pid].target.Some? && w.processes[pid].target.value.pool !in w.locks
    case Mutate(pid, change) =>
      && pid in w.processes && w.processes[pid].at == Working && MayChange(w.processes[pid].role, change)
      && w.processes[pid].found.Some? && w.processes[pid].found.value.pool in w.pools
      // an expansion opens the metadata file again, whatever is in it by then
      && (w.processes[pid].role == Expander ==> w.pools[w.processes[pid].found.value.pool].phase != Creating)
      // a pending create is cancelled without a tombstone
      && (change == Tombstone ==> w.pools[w.processes[pid].found.value.pool].phase != Creating)
    case Leave(pid) => pid in w.processes
  }

  function Goto(w: World, pid: nat, p: Process): World {
    w.(processes := w.processes[pid := p])
  }

  function Search(p: Process, at: Point): Process {
    p.(at := at, next := 0, found := None, peeked := false)
  }

  /** The process is gone, and its locks with it. */
  function Left(w: World, pid: nat): World
    requires pid in w.processes
  {
    w.(processes := w.processes - {pid},
       identity := if w.identity == Some(pid) then None else w.identity,
       locks := map k | k in w.locks && w.locks[k] != pid :: w.locks[k])
  }

  /** An unfinished removal is refused, and a volume that is not there yet cannot grow. */
  predicate Serves(role: Role, phase: Phase) {
    match role
    case Creator => phase != Removing
    case Expander => phase == Live
    case Deleter => true
  }

  predicate MayChange(role: Role, change: Change) {
    match role
    case Creator => change == Commit || change == Rewrite
    case Expander => change == Rewrite
    case Deleter => change == Rewrite || change == Tombstone || change == Vanish
  }

  /** What a process does with a complete search; `None` is an answer or an exception. */
  function Decision(p: Process): Option<Process> {
    match p.at
    case FirstSearch =>
      if p.found.Some? then Some(p.(at := AwaitLock, target := p.found))
      else if p.role == Creator then Some(Search(p, UnlockedSearch))
      // ControllerExpandVolume runs all the same, without a lock
      else if p.role == Expander then Some(Search(p, OwnSearch))
      else None
    case LockedSearch =>
      // another pool or other metadata is a conflict for everybody, nothing at all not for an expansion
      if p.found.Some? && p.found != p.target then None
      else if p.found.None? && p.role != Expander then None
      else if p.role == Deleter then Some(p.(at := Working, locked := p.found))
      else Some(Search(p.(locked := p.found), OwnSearch))
    case OwnSearch =>
      if p.found.Some? && Serves(p.role, p.found.value.volume.phase) then Some(p.(at := Working)) else None
    case UnlockedSearch => Some(p.(at := if p.found.None? then Admission else Working))
    case Verification =>
      if p.found.Some? && p.target.Some? && p.found.value.pool == p.target.value.pool
          && p.found.value.volume.phase != Removing
      then Some(p.(at := Working)) else None
    case _ => Some(p)
  }

  function Changed(v: Volume, change: Change): Volume {
    match change
    case Commit => v.(phase := Live, version := v.version + 1)
    case Rewrite => if v.phase == Creating then v else v.(version := v.version + 1)
    case Tombstone => v.(phase := Removing, version := v.version + 1)
    case Vanish => v
  }

  /** On to the next pool. */
  function Passed(w: World, p: Process): Process {
    p.(next := p.next + 1, found := if Meets(w, p) then Some(Found(p.next, w.pools[p.next])) else p.found,
       peeked := false)
  }

  function Next(w: World, s: Step): World
    requires Enabled(w, s)
  {
    match s
    case Start(pid, role) =>
      Goto(w, pid, Process(role, FirstSearch, None, None, 0, None, false))
        .(identity := if role == Creator then Some(pid) else w.identity)
    case Peek(pid) =>
      var p := w.processes[pid];
      Goto(w, pid, if Meets(w, p) then Passed(w, p) else p.(peeked := true))
    case Look(pid) => Goto(w, pid, Passed(w, w.processes[pid]))
    case Decide(pid) =>
      var d := Decision(w.processes[pid]);
      if d.Some? then Goto(w, pid, d.value) else Left(w, pid)
    case TakeLock(pid) =>
      var p := w.processes[pid];
      Goto(w, pid, Search(p, if p.at == AwaitLock then LockedSearch else Verification))
        .(locks := w.locks[p.target.value.pool := pid])
    case Admit(pid, pool) =>
      // a fresh UUID, and a pool that already holds the name refuses it
      var newborn := Volume(w.nextIncarnation, Creating, 0);
      if pool in w.pools then w else
        Goto(w, pid, w.processes[pid].(at := AwaitAdmitted, target := Some(Found(pool, newborn))))
          .(pools := w.pools[pool := newborn], nextIncarnation := w.nextIncarnation + 1)
    case Mutate(pid, change) =>
      var pool := w.processes[pid].found.value.pool;
      if change == Vanish then Left(w, pid).(pools := w.pools - {pool})
      else w.(pools := w.pools[pool := Changed(w.pools[pool], change)])
    case Leave(pid) => Left(w, pid)
  }

  // ---- What every interleaving keeps ----

  /** At most one pool holds the name. */
  predicate OneHome(pools: map<nat, Volume>) {
    forall p, q :: p in pools && q in pools ==> p == q
  }

  predicate LockOk(w: World, pid: nat)
    requires pid in w.processes
  {
    var p := w.processes[pid];
    && (p.role == Creator ==> w.identity == Some(pid))
    && (Held(p).Some? ==> Held(p).value in w.locks && w.locks[Held(p).value] == pid)
  }

  /** Nothing but this generation, at this pool, exists anywhere. */
  predicate OnlyHere(pools: map<nat, Volume>, f: Found) {
    forall q :: q in pools ==> q == f.pool && pools[q].incarnation == f.volume.incarnation
  }

  /** This generation is nowhere any more. */
  predicate Gone(pools: map<nat, Volume>, f: Found) {
    forall q :: q in pools ==> pools[q].incarnation != f.volume.incarnation
  }

  /** A generation once seen is never met in another pool. */
  predicate Seen(w: World, f: Found) {
    && f.volume.incarnation < w.nextIncarnation
    && forall q :: q in w.pools && w.pools[q].incarnation == f.volume.incarnation ==> q == f.pool
  }

  /** Both searches around the lock met the volume. Only an expansion can get to work without that. */
  predicate BothMet(p: Process) {
    p.target.Some? && p.locked.Some?
  }

  predicate Bound(p: Process) {
    p.role == Expander ==> BothMet(p)
  }

  predicate InPlace(w: World, f: Found) {
    f.pool in w.pools && w.pools[f.pool].incarnation == f.volume.incarnation
  }

  predicate NotCommitted(pools: map<nat, Volume>, q: nat) {
    q in pools ==> pools[q].phase == Creating
  }

  /** A search knows what it passed. */
  predicate SearchOk(w: World, p: Process) {
    && p.next <= w.poolCount
    && (p.found.Some? ==> p.found.value.pool < p.next && Seen(w, p.found.value))
    && (p.target.Some? ==> Seen(w, p.target.value))
    // nobody commits a create against the identity lock or the pool's lifecycle lock
    && (p.peeked && Searching(p.at) && (p.role == Creator || Held(p) == Some(p.next)) ==> NotCommitted(w.pools, p.next))
    // under the lock, the generation it saw in the locked pool is still there
    && (p.found.Some? && Searching(p.at) && Held(p) == Some(p.found.value.pool) ==> InPlace(w, p.found.value))
  }

  /** While a create holds the identity lock nobody else can bring the name into a pool. */
  predicate CreatorOk(w: World, p: Process) {
    match p.at
    case FirstSearch =>
      if p.found.Some? then OnlyHere(w.pools, p.found.value) else forall q :: q < p.next ==> q !in w.pools
    case UnlockedSearch => w.pools == map[] && p.found.None?
    case Admission => w.pools == map[] && p.found.None?
    case _ => p.target.Some? && OnlyHere(w.pools, p.target.value)
              && (p.found.Some? ==> OnlyHere(w.pools, p.found.value))
  }

  predicate PointOk(w: World, p: Process) {
    match p.at
    case FirstSearch => p.target.None? && p.locked.None?
    case UnlockedSearch => p.role == Creator && p.target.None? && p.locked.None?
    case Admission => p.role == Creator && p.target.None? && p.locked.None?
    case LockedSearch =>
      && p.target.Some? && p.locked.None?
      // past the locked pool with nothing met: the generation is gone
      && (p.found.None? && p.target.value.pool < p.next ==> Gone(w.pools, p.target.value))
    case OwnSearch =>
      if Bound(p) then
        // the comparison has succeeded, so the generation is the one first seen
        && p.target.Some? && InPlace(w, p.target.value)
        && (p.found.Some? ==> p.found.value.pool == p.target.value.pool)
      else p.target.Some? ==> Gone(w.pools, p.target.value)
    case Working =>
      && p.found.Some?
      && if Bound(p) then
        && p.target.Some? && p.found.value.pool == p.target.value.pool && InPlace(w, p.target.value)
      else p.target.Some? ==> Gone(w.pools, p.target.value)
    case _ => p.target.Some? && p.locked.None? && (p.at == AwaitAdmitted || p.at == Verification ==> p.role == Creator)
  }

  predicate ProcessOk(w: World, pid: nat)
    requires pid in w.processes
  {
    var p := w.processes[pid];
    LockOk(w, pid) && SearchOk(w, p) && PointOk(w, p) && (p.role == Creator ==> CreatorOk(w, p))
  }

  predicate PoolsOk(w: World) {
    && OneHome(w.pools)
    && forall q :: q in w.pools ==> q < w.poolCount && w.pools[q].incarnation < w.nextIncarnation
  }

  ghost predicate Inv(w: World)
  {
    && PoolsOk(w)
    && forall pid :: pid in w.processes ==> ProcessOk(w, pid)
  }

  // ---- Preservation ----

  /** A step of somebody else, as far as one process can tell: the pools change only where the name
      was absent and nobody held the identity lock against it, or under another lock. */
  lemma OthersStayOk(w: World, t: World, pid: nat)
    requires Inv(w) && pid in w.processes && pid in t.processes && t.processes[pid] == w.processes[pid]
    requires t.poolCount == w.poolCount && Grows(w, t)
    requires w.processes[pid].role == Creator ==> t.identity == w.identity && ShrinksOrKeeps(w.pools, t.pools)
    requires Held(w.processes[pid]).Some? ==> KeepsLocked(w, t, Held(w.processes[pid]).value)
    ensures ProcessOk(t, pid)
  {
    assert ProcessOk(w, pid);
  }

  predicate ShrinksOrKeeps(before: map<nat, Volume>, after: map<nat, Volume>) {
    forall q :: q in after ==>
                  && q in before && after[q].incarnation == before[q].incarnation
                  && (before[q].phase == Creating ==> after[q].phase == Creating)
  }

  predicate KeepsLocked(w: World, t: World, pool: nat) {
    && (pool in w.locks ==> pool in t.locks && t.locks[pool] == w.locks[pool])
    && (pool in w.pools ==> pool in t.pools && t.pools[pool].incarnation == w.pools[pool].incarnation)
    && (NotCommitted(w.pools, pool) ==> NotCommitted(t.pools, pool))
  }

  /** Whatever is new in a pool carries a fresh UUID. */
  predicate Grows(w: World, t: World) {
    && w.nextIncarnation <= t.nextIncarnation
    && forall q :: q in t.pools ==>
                     || (q in w.pools && t.pools[q].incarnation == w.pools[q].incarnation)
                     || w.nextIncarnation <= t.pools[q].incarnation
  }

  lemma StartKeeps(w: World, pid: nat, role: Role)
    requires Inv(w) && Enabled(w, Start(pid, role))
    ensures Inv(Next(w, Start(pid, role)))
  {
    var t := Next(w, Start(pid, role));
    assert ProcessOk(t, pid);
    forall o | o in t.processes && o != pid ensures ProcessOk(t, o) {
      assert ProcessOk(w, o);
      OthersStayOk(w, t, o);
    }
  }

  lemma PassedOk(w: World, pid: nat)
    requires PoolsOk(w) && pid in w.processes && ProcessOk(w, pid) && Searching(w.processes[pid].at)
    requires w.processes[pid].next < w.poolCount && !SeesDuplicate(w, pid)
    requires w.processes[pid].peeked || Meets(w, w.processes[pid])
    ensures ProcessOk(Goto(w, pid, Passed(w, w.processes[pid])), pid)
  {
  }

  lemma PeekedOk(w: World, pid: nat)
    requires PoolsOk(w) && pid in w.processes && ProcessOk(w, pid) && Searching(w.processes[pid].at)
    requires !w.processes[pid].peeked && !Meets(w, w.processes[pid])
    ensures ProcessOk(Goto(w, pid, w.processes[pid].(peeked := true)), pid)
  {
  }

  lemma LookKeeps(w: World, s: Step)
    requires Inv(w) && Enabled(w, s) && (s.Peek? || s.Look?)
    ensures Inv(Next(w, s))
  {
    var p := w.processes[s.pid];
    assert ProcessOk(w, s.pid);
    if s.Look? || Meets(w, p) {
      PassedOk(w, s.pid);
      GotoKeeps(w, s.pid, Passed(w, p));
    } else {
      PeekedOk(w, s.pid);
      GotoKeeps(w, s.pid, p.(peeked := true));
    }
  }

  lemma LeaveKeeps(w: World, pid: nat)
    requires Inv(w) && pid in w.processes
    ensures Inv(Left(w, pid))
  {
    var t := Left(w, pid);
    forall o | o in t.processes ensures ProcessOk(t, o) {
      assert ProcessOk(w, o);
      OthersStayOk(w, t, o);
    }
  }

  lemma GotoKeeps(w: World, pid: nat, p: Process)
    requires Inv(w) && pid in w.processes && ProcessOk(Goto(w, pid, p), pid)
    ensures Inv(Goto(w, pid, p))
  {
    var t := Goto(w, pid, p);
    forall o | o in t.processes && o != pid ensures ProcessOk(t, o) {
      OthersStayOk(w, t, o);
    }
  }

  lemma EmptyPools(w: World)
    requires forall q :: q in w.pools ==> q < w.poolCount
    requires forall q :: q < w.poolCount ==> q !in w.pools
    ensures w.pools == map[]
  {
  }

  lemma DecisionOk(w: World, pid: nat)
    requires PoolsOk(w) && pid in w.processes && ProcessOk(w, pid)
    requires Searching(w.processes[pid].at) && w.processes[pid].next == w.poolCount
    ensures var d := Decision(w.processes[pid]); d.Some? ==> ProcessOk(Goto(w, pid, d.value), pid)
  {
    var p := w.processes[pid];
    match p.at
    case FirstSearch =>
      if p.role == Creator && p.found.None? {
        EmptyPools(w);
      }
    case LockedSearch => LockedDecisionOk(w, pid);
    case _ =>
  }

  lemma LockedDecisionOk(w: World, pid: nat)
    requires PoolsOk(w) && pid in w.processes && ProcessOk(w, pid)
    requires w.processes[pid].at == LockedSearch && w.processes[pid].next == w.poolCount
    ensures var d := Decision(w.processes[pid]); d.Some? ==> ProcessOk(Goto(w, pid, d.value), pid)
  {
  }

  lemma DecideKeeps(w: World, pid: nat)
    requires Inv(w) && Enabled(w, Decide(pid))
    ensures Inv(Next(w, Decide(pid)))
  {
    var d := Decision(w.processes[pid]);
    DecisionOk(w, pid);
    if d.Some? {
      GotoKeeps(w, pid, d.value);
    } else {
      LeaveKeeps(w, pid);
    }
  }

  lemma TakeLockKeeps(w: World, pid: nat)
    requires Inv(w) && Enabled(w, TakeLock(pid))
    ensures Inv(Next(w, TakeLock(pid)))
  {
    var t := Next(w, TakeLock(pid));
    assert ProcessOk(w, pid);
    assert ProcessOk(t, pid);
    forall o | o in t.processes && o != pid ensures ProcessOk(t, o) {
      assert ProcessOk(w, o);
      OthersStayOk(w, t, o);
    }
  }

  lemma AdmitKeeps(w: World, pid: nat, pool: nat)
    requires Inv(w) && Enabled(w, Admit(pid, pool))
    ensures Inv(Next(w, Admit(pid, pool)))
  {
    var t := Next(w, Admit(pid, pool));
    assert ProcessOk(w, pid);
    assert ProcessOk(t, pid);
    forall o | o in t.processes && o != pid ensures ProcessOk(t, o) {
      assert ProcessOk(w, o);
      OthersStayOk(w, t, o);
    }
  }

  lemma MutatorStaysOk(w: World, pid: nat, change: Change)
    requires PoolsOk(w) && Enabled(w, Mutate(pid, change)) && ProcessOk(w, pid) && change != Vanish
    ensures ProcessOk(Next(w, Mutate(pid, change)), pid)
  {
  }

  lemma MutateLeavesOthers(w: World, pid: nat, change: Change, o: nat)
    requires Inv(w) && Enabled(w, Mutate(pid, change)) && o in w.processes && o != pid
    ensures ProcessOk(Next(w, Mutate(pid, change)), o)
  {
    assert ProcessOk(w, pid) && ProcessOk(w, o);
    OthersStayOk(w, Next(w, Mutate(pid, change)), o);
  }

  lemma MutateKeeps(w: World, pid: nat, change: Change)
    requires Inv(w) && Enabled(w, Mutate(pid, change))
    ensures Inv(Next(w, Mutate(pid, change)))
  {
    var t := Next(w, Mutate(pid, change));
    assert ProcessOk(w, pid);
    forall o | o in t.processes ensures ProcessOk(t, o) {
      if o == pid { MutatorStaysOk(w, pid, change); } else { MutateLeavesOthers(w, pid, change, o); }
    }
  }

  lemma StepKeepsInv(w: World, s: Step)
    requires Inv(w) && Enabled(w, s)
    ensures Inv(Next(w, s))
  {
    match s
    case Start(pid, role) => StartKeeps(w, pid, role);
    case Peek(_) => LookKeeps(w, s);
    case Look(_) => LookKeeps(w, s);
    case Decide(pid) => DecideKeeps(w, pid);
    case TakeLock(pid) => TakeLockKeeps(w, pid);
    case Admit(pid, pool) => AdmitKeeps(w, pid, pool);
    case Mutate(pid, change) => MutateKeeps(w, pid, change);
    case Leave(pid) => LeaveKeeps(w, pid);
  }

  // ---- Runs ----

  ghost predicate Execution(w: World, steps: seq<Step>)
    decreases |steps|
  {
    steps == [] || (Enabled(w, steps[0]) && Execution(Next(w, steps[0]), steps[1..]))
  }

  ghost function Run(w: World, steps: seq<Step>): World
    requires Execution(w, steps)
    decreases |steps|
  {
    if steps == [] then w else Run(Next(w, steps[0]), steps[1..])
  }

  lemma {:induction false} RunKeepsInv(w: World, steps: seq<Step>)
    requires Inv(w) && Execution(w, steps)
    ensures Inv(Run(w, steps))
    decreases |steps|
  {
    if steps != [] {
      StepKeepsInv(w, steps[0]);
      RunKeepsInv(Next(w, steps[0]), steps[1..]);
    }
  }

  /** No process at work, and at most one pool with the name. */
  predicate Quiescent(w: World) {
    w.processes == map[] && PoolsOk(w)
  }

  /** One home per identity: however searches, creates, expansions, deletes and crashes interleave, at
      most one pool ever holds the name, so an interrupted create never moves to another pool. */
  lemma OneHomeAlways(w: World, steps: seq<Step>)
    requires Quiescent(w) && Execution(w, steps)
    ensures OneHome(Run(w, steps).pools)
  {
    RunKeepsInv(w, steps);
  }

  /** What a process works on is the generation it observed before it waited, in the pool it observed
      it in, under that pool's lock. */
  predicate OnObserved(w: World, pid: nat)
    requires pid in w.processes
  {
    var p := w.processes[pid];
    && p.target.Some? && p.found.Some? && p.found.value.pool == p.target.value.pool
    && p.target.value.pool in w.locks && w.locks[p.target.value.pool] == pid
    && InPlace(w, p.target.value)
  }

  /** Generation safety: whatever a create or a delete changes is what it observed. An expansion changes
      what it observed if and only if both searches around the lock met the volume. */
  lemma GenerationSafety(w: World, steps: seq<Step>, pid: nat, change: Change)
    requires Quiescent(w) && Execution(w, steps) && Enabled(Run(w, steps), Mutate(pid, change))
    ensures var t := Run(w, steps);
            var p := t.processes[pid];
            OnObserved(t, pid) <==> (p.role == Expander ==> p.target.Some? && p.locked.Some?)
  {
    RunKeepsInv(w, steps);
    assert ProcessOk(Run(w, steps), pid);
  }

  /** An expansion that missed the volume, and works on one all the same, rewrites another generation:
      the one it observed, if any, is gone from every pool. */
  lemma MissedMeansAnother(w: World, steps: seq<Step>, pid: nat, change: Change)
    requires Quiescent(w) && Execution(w, steps) && Enabled(Run(w, steps), Mutate(pid, change))
    requires !OnObserved(Run(w, steps), pid)
    ensures var t := Run(w, steps);
            var p := t.processes[pid];
            change == Rewrite && (p.target.Some? ==> p.locked.None? && Gone(t.pools, p.target.value))
  {
    RunKeepsInv(w, steps);
    assert ProcessOk(Run(w, steps), pid);
  }

  /** A create is admitted only while no pool holds the name. */
  lemma AdmittedOnlyWhenAbsent(w: World, steps: seq<Step>, pid: nat, pool: nat)
    requires Quiescent(w) && Execution(w, steps) && Enabled(Run(w, steps), Admit(pid, pool))
    ensures Run(w, steps).pools == map[]
  {
    RunKeepsInv(w, steps);
    assert ProcessOk(Run(w, steps), pid);
  }

  /** `search_volume` reports a duplicate only to a process without the identity lock, and only after
      the volume it had met has already been removed. */
  lemma DuplicateMeansGone(w: World, steps: seq<Step>, pid: nat)
    requires Quiescent(w) && Execution(w, steps) && pid in Run(w, steps).processes
    requires var t := Run(w, steps); Searching(t.processes[pid].at) && SeesDuplicate(t, pid)
    ensures var t := Run(w, steps);
            && t.processes[pid].role != Creator
            && t.processes[pid].found.value.pool !in t.pools
            && Held(t.processes[pid]) != Some(t.processes[pid].found.value.pool)
  {
    RunKeepsInv(w, steps);
    assert ProcessOk(Run(w, steps), pid);
  }

  // ---- Concrete runs ----

  ghost predicate Reaches(w: World, t: World)
  {
    exists steps :: Execution(w, steps) && Run(w, steps) == t
  }

  lemma Here(w: World)
    ensures Reaches(w, w)
  {
    assert Execution(w, []) && Run(w, []) == w;
  }

  lemma {:induction false} RunOn(w: World, steps: seq<Step>, s: Step)
    requires Execution(w, steps) && Enabled(Run(w, steps), s)
    ensures Execution(w, steps + [s]) && Run(w, steps + [s]) == Next(Run(w, steps), s)
    decreases |steps|
  {
    var all := steps + [s];
    if steps == [] {
      assert all[1..] == [];
    } else {
      assert all[0] == steps[0] && all[1..] == steps[1..] + [s];
      RunOn(Next(w, steps[0]), steps[1..], s);
    }
  }

  predicate Moves(w: World, s: Step, t: World) {
    Enabled(w, s) && Next(w, s) == t
  }

  /** One step further. */
  lemma Then(w: World, t: World, s: Step, u: World)
    requires Reaches(w, t) && Moves(t, s, u)
    ensures Reaches(w, u)
  {
    var steps :| Execution(w, steps) && Run(w, steps) == t;
    RunOn(w, steps, s);
  }

  /** A search passes a pool without the volume. */
  lemma Passes(w: World, t: World, pid: nat, u: World)
    requires Reaches(w, t) && pid in t.processes && Searching(t.processes[pid].at) && !t.processes[pid].peeked
    requires t.processes[pid].next < t.poolCount && t.processes[pid].next !in t.pools
    requires u == Goto(t, pid, t.processes[pid].(next := t.processes[pid].next + 1))
    ensures Reaches(w, u)
  {
    var peeked := Goto(t, pid, t.processes[pid].(peeked := true));
    Then(w, t, Peek(pid), peeked);
    assert Next(peeked, Look(pid)).processes == u.processes;
    Then(w, peeked, Look(pid), u);
  }

  const OLD: Volume := Volume(0, Live, 0)
  const MET: Option<Found> := Some(Found(0, OLD))

  /** Two pools, and nobody at work. */
  function AtRest(pools: map<nat, Volume>): World {
    World(2, pools, None, map[], map[], 1)
  }

  /** An expansion as process 1, holding what `locks` says. */
  function Beside(p: Process, pools: map<nat, Volume>, locks: map<nat, nat>): World {
    World(2, pools, None, locks, map[1 := p], 1)
  }

  function Expanding(at: Point, target: Option<Found>, next: nat, found: Option<Found>): Process {
    Process(Expander, at, target, None, next, found, false)
  }

  /** While process 1 waits, process 2 deletes the volume in pool 0. */
  function WithDeleter(p: Process, at: Point, target: Option<Found>, next: nat, found: Option<Found>,
                       locks: map<nat, nat>): World {
    var w := Beside(p, map[0 := OLD], locks);
    w.(processes := w.processes[2 := Process(Deleter, at, target, None, next, found, false)])
  }

  lemma DeleterSearches(w: World, p: Process)
    requires Reaches(w, Beside(p, map[0 := OLD], map[]))
    ensures Reaches(w, WithDeleter(p, AwaitLock, MET, 2, MET, map[]))
  {
    var s1 := WithDeleter(p, FirstSearch, None, 0, None, map[]);
    var s2 := WithDeleter(p, FirstSearch, None, 1, MET, map[]);
    var s3 := WithDeleter(p, FirstSearch, None, 2, MET, map[]);
    Then(w, Beside(p, map[0 := OLD], map[]), Start(2, Deleter), s1);
    Then(w, s1, Peek(2), s2);
    Passes(w, s2, 2, s3);
    Then(w, s3, Decide(2), WithDeleter(p, AwaitLock, MET, 2, MET, map[]));
  }

  lemma DeleterLocks(w: World, p: Process)
    requires Reaches(w, WithDeleter(p, AwaitLock, MET, 2, MET, map[]))
    ensures Reaches(w, WithDeleter(p, LockedSearch, MET, 2, MET, map[0 := 2]))
  {
    var s1 := WithDeleter(p, LockedSearch, MET, 0, None, map[0 := 2]);
    var s2 := WithDeleter(p, LockedSearch, MET, 1, MET, map[0 := 2]);
    Then(w, WithDeleter(p, AwaitLock, MET, 2, MET, map[]), TakeLock(2), s1);
    Then(w, s1, Peek(2), s2);
    Passes(w, s2, 2, WithDeleter(p, LockedSearch, MET, 2, MET, map[0 := 2]));
  }

  lemma DeleterRemoves(w: World, p: Process)
    requires Reaches(w, WithDeleter(p, LockedSearch, MET, 2, MET, map[0 := 2]))
    ensures Reaches(w, Beside(p, map[], map[]))
  {
    var s1 := WithDeleter(p, LockedSearch, MET, 2, MET, map[0 := 2]);
    var s2 := Next(s1, Decide(2));
    var end := Next(s2, Mutate(2, Vanish));
    Then(w, s1, Decide(2), s2);
    assert end.processes == map[1 := p] && end.locks == map[] && end.pools == map[];
    Then(w, s2, Mutate(2, Vanish), Beside(p, map[], map[]));
  }

  lemma VolumeIsDeleted(w: World, p: Process)
    requires Reaches(w, Beside(p, map[0 := OLD], map[]))
    ensures Reaches(w, Beside(p, map[], map[]))
  {
    DeleterSearches(w, p);
    DeleterLocks(w, p);
    DeleterRemoves(w, p);
  }

  /** Process 3 creates it again, in pool 1. */
  function WithCreator(p: Process, locks: map<nat, nat>, at: Point, next: nat): World {
    var w := Beside(p, map[], locks);
    w.(processes := w.processes[3 := Process(Creator, at, None, None, next, None, false)], identity := Some(3))
  }

  lemma CreatorSearches(w: World, p: Process, locks: map<nat, nat>)
    requires Reaches(w, Beside(p, map[], locks))
    ensures Reaches(w, WithCreator(p, locks, UnlockedSearch, 0))
  {
    var s1 := WithCreator(p, locks, FirstSearch, 0);
    var s2 := WithCreator(p, locks, FirstSearch, 1);
    var s3 := WithCreator(p, locks, FirstSearch, 2);
    Then(w, Beside(p, map[], locks), Start(3, Creator), s1);
    Passes(w, s1, 3, s2);
    Passes(w, s2, 3, s3);
    Then(w, s3, Decide(3), WithCreator(p, locks, UnlockedSearch, 0));
  }

  const NEWBORN: Volume := Volume(1, Creating, 0)
  const REBORN: Volume := Volume(1, Live, 1)

  function WithAdmitted(p: Process, volume: Volume, locks: map<nat, nat>, at: Point, next: nat,
                        found: Option<Found>): World {
    var creator := Process(Creator, at, Some(Found(1, NEWBORN)), None, next, found, false);
    World(2, map[1 := volume], Some(3), locks, map[1 := p, 3 := creator], 2)
  }

  lemma CreatorIsAdmitted(w: World, p: Process, locks: map<nat, nat>)
    requires Reaches(w, WithCreator(p, locks, UnlockedSearch, 0))
    ensures Reaches(w, WithAdmitted(p, NEWBORN, locks, AwaitAdmitted, 2, None))
  {
    var s1 := WithCreator(p, locks, UnlockedSearch, 1);
    var s2 := WithCreator(p, locks, UnlockedSearch, 2);
    var s3 := WithCreator(p, locks, Admission, 2);
    Passes(w, WithCreator(p, locks, UnlockedSearch, 0), 3, s1);
    Passes(w, s1, 3, s2);
    Then(w, s2, Decide(3), s3);
    Then(w, s3, Admit(3, 1), WithAdmitted(p, NEWBORN, locks, AwaitAdmitted, 2, None));
  }

  lemma CreatorVerifies(w: World, p: Process, locks: map<nat, nat>)
    requires Reaches(w, WithAdmitted(p, NEWBORN, locks, AwaitAdmitted, 2, None)) && 1 !in locks
    ensures Reaches(w, WithAdmitted(p, NEWBORN, locks[1 := 3], Verification, 2, Some(Found(1, NEWBORN))))
  {
    var s1 := WithAdmitted(p, NEWBORN, locks[1 := 3], Verification, 0, None);
    var s2 := WithAdmitted(p, NEWBORN, locks[1 := 3], Verification, 1, None);
    Then(w, WithAdmitted(p, NEWBORN, locks, AwaitAdmitted, 2, None), TakeLock(3), s1);
    Passes(w, s1, 3, s2);
    IntentIsMet(w, s2, p, locks);
  }

  lemma IntentIsMet(w: World, t: World, p: Process, locks: map<nat, nat>)
    requires Reaches(w, t) && t == WithAdmitted(p, NEWBORN, locks[1 := 3], Verification, 1, None)
    ensures Reaches(w, WithAdmitted(p, NEWBORN, locks[1 := 3], Verification, 2, Some(Found(1, NEWBORN))))
  {
    var peeked := Goto(t, 3, t.processes[3].(peeked := true));
    var u := WithAdmitted(p, NEWBORN, locks[1 := 3], Verification, 2, Some(Found(1, NEWBORN)));
    Then(w, t, Peek(3), peeked);
    assert Next(peeked, Look(3)).processes == u.processes;
    Then(w, peeked, Look(3), u);
  }

  /** Process 3 has seen its own intent again, under the lock. */
  function Verified(p: Process, locks: map<nat, nat>, at: Point): World {
    WithAdmitted(p, NEWBORN, locks[1 := 3], at, 2, Some(Found(1, NEWBORN)))
  }

  lemma CreatorWorks(p: Process, locks: map<nat, nat>)
    ensures Moves(Verified(p, locks, Verification), Decide(3), Verified(p, locks, Working))
  {
    assert Next(Verified(p, locks, Verification), Decide(3)).processes == Verified(p, locks, Working).processes;
  }

  lemma CreateIsAtWork(w: World, p: Process, locks: map<nat, nat>)
    requires Reaches(w, Beside(p, map[], locks)) && 1 !in locks
    ensures Reaches(w, Verified(p, locks, Working))
  {
    CreatorSearches(w, p, locks);
    CreatorIsAdmitted(w, p, locks);
    CreatorVerifies(w, p, locks);
    CreatorWorks(p, locks);
    Then(w, Verified(p, locks, Verification), Decide(3), Verified(p, locks, Working));
  }

  lemma CreatorCommits(p: Process, locks: map<nat, nat>)
    ensures Moves(Verified(p, locks, Working), Mutate(3, Commit), Recreated(p, locks))
  {
    assert Next(Verified(p, locks, Working), Mutate(3, Commit)).pools == Recreated(p, locks).pools;
  }

  /** The metadata is there, and process 3 still at work under the lock of pool 1. */
  function Recreated(p: Process, locks: map<nat, nat>): World {
    WithAdmitted(p, REBORN, locks[1 := 3], Working, 2, Some(Found(1, NEWBORN)))
  }

  lemma VolumeIsRecreated(w: World, p: Process, locks: map<nat, nat>)
    requires Reaches(w, Beside(p, map[], locks)) && 1 !in locks
    ensures Reaches(w, Recreated(p, locks))
  {
    CreateIsAtWork(w, p, locks);
    CreatorCommits(p, locks);
    Then(w, Verified(p, locks, Working), Mutate(3, Commit), Recreated(p, locks));
  }

  // ---- A search without the identity lock can report a duplicate that never existed ----

  /** Process 1 has met the volume in pool 0 and has yet to look at pool 1. */
  const MID_SEARCH: Process := Expanding(FirstSearch, None, 1, MET)

  lemma SearchBegins()
    ensures Reaches(AtRest(map[0 := OLD]), Beside(MID_SEARCH, map[0 := OLD], map[]))
  {
    var w := AtRest(map[0 := OLD]);
    var s1 := Beside(Expanding(FirstSearch, None, 0, None), map[0 := OLD], map[]);
    Here(w);
    Then(w, w, Start(1, Expander), s1);
    Then(w, s1, Peek(1), Beside(MID_SEARCH, map[0 := OLD], map[]));
  }

  /** An expansion's search meets the volume in pool 0; it is deleted and created again in pool 1; the
      search goes on, meets it there, and raises although no two pools ever held the name at once. */
  lemma StaleSearchReportsDuplicate()
    ensures Quiescent(AtRest(map[0 := OLD]))
    ensures exists t ::
              && Reaches(AtRest(map[0 := OLD]), t)
              && 1 in t.processes && Searching(t.processes[1].at) && SeesDuplicate(t, 1)
  {
    var w := AtRest(map[0 := OLD]);
    SearchBegins();
    VolumeIsDeleted(w, MID_SEARCH);
    VolumeIsRecreated(w, MID_SEARCH, map[]);
    assert SeesDuplicate(Recreated(MID_SEARCH, map[]), 1);
  }

  // ---- An expansion whose decorator missed the volume works on another one ----

  /** Process 1 runs the method's own search although the search before it met nothing. */
  function Unguarded(target: Option<Found>, next: nat, found: Option<Found>): Process {
    Expanding(OwnSearch, target, next, found)
  }

  const WAITING: Process := Expanding(AwaitLock, MET, 2, MET)

  lemma ExpansionWaits()
    ensures Reaches(AtRest(map[0 := OLD]), Beside(WAITING, map[0 := OLD], map[]))
  {
    var w := AtRest(map[0 := OLD]);
    var s1 := Beside(Expanding(FirstSearch, None, 2, MET), map[0 := OLD], map[]);
    SearchBegins();
    Passes(w, Beside(MID_SEARCH, map[0 := OLD], map[]), 1, s1);
    Then(w, s1, Decide(1), Beside(WAITING, map[0 := OLD], map[]));
  }

  lemma LockedSearchMisses(w: World)
    requires Reaches(w, Beside(WAITING, map[], map[]))
    ensures Reaches(w, Beside(Unguarded(MET, 0, None), map[], map[0 := 1]))
  {
    var s1 := Beside(Expanding(LockedSearch, MET, 0, None), map[], map[0 := 1]);
    var s2 := Beside(Expanding(LockedSearch, MET, 1, None), map[], map[0 := 1]);
    var s3 := Beside(Expanding(LockedSearch, MET, 2, None), map[], map[0 := 1]);
    Then(w, Beside(WAITING, map[], map[]), TakeLock(1), s1);
    Passes(w, s1, 1, s2);
    Passes(w, s2, 1, s3);
    Then(w, s3, Decide(1), Beside(Unguarded(MET, 0, None), map[], map[0 := 1]));
  }

  lemma FirstSearchMisses()
    ensures Reaches(AtRest(map[]), Beside(Unguarded(None, 0, None), map[], map[]))
  {
    var w := AtRest(map[]);
    var s1 := Beside(Expanding(FirstSearch, None, 0, None), map[], map[]);
    var s2 := Beside(Expanding(FirstSearch, None, 1, None), map[], map[]);
    var s3 := Beside(Expanding(FirstSearch, None, 2, None), map[], map[]);
    Here(w);
    Then(w, w, Start(1, Expander), s1);
    Passes(w, s1, 1, s2);
    Passes(w, s2, 1, s3);
    Then(w, s3, Decide(1), Beside(Unguarded(None, 0, None), map[], map[]));
  }

  /** Process 1 is about to rewrite the new volume in pool 1, while process 3 works on it under the lock
      of that pool. */
  function Trespassing(target: Option<Found>, locks: map<nat, nat>): World {
    Recreated(Expanding(Working, target, 2, Some(Found(1, REBORN))), locks)
  }

  lemma OwnSearchPeeks(target: Option<Found>, locks: map<nat, nat>)
    ensures Moves(Recreated(Unguarded(target, 1, None), locks), Peek(1),
                  Recreated(Unguarded(target, 2, Some(Found(1, REBORN))), locks))
  {
    var s := Recreated(Unguarded(target, 1, None), locks);
    var t := Recreated(Unguarded(target, 2, Some(Found(1, REBORN))), locks);
    assert Next(s, Peek(1)).processes == t.processes;
  }

  lemma OwnSearchDecides(target: Option<Found>, locks: map<nat, nat>)
    ensures Moves(Recreated(Unguarded(target, 2, Some(Found(1, REBORN))), locks), Decide(1), Trespassing(target, locks))
  {
    var s := Recreated(Unguarded(target, 2, Some(Found(1, REBORN))), locks);
    assert Next(s, Decide(1)).processes == Trespassing(target, locks).processes;
  }

  lemma OwnSearchMeetsIt(w: World, target: Option<Found>, locks: map<nat, nat>)
    requires Reaches(w, Recreated(Unguarded(target, 0, None), locks))
    ensures Reaches(w, Trespassing(target, locks))
  {
    var s0 := Recreated(Unguarded(target, 0, None), locks);
    var s1 := Recreated(Unguarded(target, 1, None), locks);
    var s2 := Recreated(Unguarded(target, 2, Some(Found(1, REBORN))), locks);
    assert s1.processes == Goto(s0, 1, Unguarded(target, 1, None)).processes;
    Passes(w, s0, 1, s1);
    OwnSearchPeeks(target, locks);
    Then(w, s1, Peek(1), s2);
    OwnSearchDecides(target, locks);
    Then(w, s2, Decide(1), Trespassing(target, locks));
  }

  /** The volume is deleted while an expansion waits for the lock of pool 0, and created again in pool 1
      once the expansion has searched under that lock and met nothing. The expansion rewrites the new
      volume there, holding the lock of the wrong pool. */
  lemma LockedMissRewritesAnother()
    ensures var t := Trespassing(MET, map[0 := 1]);
            && Quiescent(AtRest(map[0 := OLD])) && Reaches(AtRest(map[0 := OLD]), t)
            && Enabled(t, Mutate(1, Rewrite)) && !OnObserved(t, 1)
            && t.processes[1].target == MET && t.processes[1].found == Some(Found(1, REBORN))
            && t.locks == map[0 := 1, 1 := 3] && t.processes[3].at == Working
  {
    var w := AtRest(map[0 := OLD]);
    ExpansionWaits();
    VolumeIsDeleted(w, WAITING);
    LockedSearchMisses(w);
    VolumeIsRecreated(w, Unguarded(MET, 0, None), map[0 := 1]);
    OwnSearchMeetsIt(w, MET, map[0 := 1]);
  }

  /** And when its very first search met nothing it rewrites what it then finds under no lock at all. */
  lemma FirstMissRewritesUnlocked()
    ensures var t := Trespassing(None, map[]);
            && Quiescent(AtRest(map[])) && Reaches(AtRest(map[]), t)
            && Enabled(t, Mutate(1, Rewrite)) && !OnObserved(t, 1) && Held(t.processes[1]).None?
            && t.locks == map[1 := 3] && t.processes[3].at == Working
  {
    var w := AtRest(map[]);
    FirstSearchMisses();
    VolumeIsRecreated(w, Unguarded(None, 0, None), map[]);
    OwnSearchMeetsIt(w, None, map[]);
  }

  // ---- A search can miss a volume that is being committed ----

  /** The search found no metadata in this pool, and by the time it looks for an intent the create has been
      committed. */
  predicate Misses(w: World, pid: nat)
    requires pid in w.processes
  {
    var p := w.processes[pid];
    p.peeked && Searching(p.at) && p.next in w.pools && w.pools[p.next].phase != Creating
  }

  /** Neither a create nor a search under that pool's lifecycle lock ever misses one. */
  lemma MissesOnlyUnlocked(w: World, steps: seq<Step>, pid: nat)
    requires Quiescent(w) && Execution(w, steps) && pid in Run(w, steps).processes && Misses(Run(w, steps), pid)
    ensures var p := Run(w, steps).processes[pid];
            p.role != Creator && Held(p) != Some(p.next)
  {
    RunKeepsInv(w, steps);
    assert ProcessOk(Run(w, steps), pid);
  }

  /** Process 1 is a delete that has passed pool 0. */
  function Deleting(next: nat, peeked: bool): Process {
    Process(Deleter, FirstSearch, None, None, next, None, peeked)
  }

  lemma DeleteBegins()
    ensures Reaches(AtRest(map[]), Beside(Deleting(1, false), map[], map[]))
  {
    var w := AtRest(map[]);
    var s1 := Beside(Deleting(0, false), map[], map[]);
    Here(w);
    Then(w, w, Start(1, Deleter), s1);
    Passes(w, s1, 1, Beside(Deleting(1, false), map[], map[]));
  }

  lemma DeletePeeks()
    ensures Moves(Verified(Deleting(1, false), map[], Working), Peek(1), Verified(Deleting(1, true), map[], Working))
  {
    var s, t := Verified(Deleting(1, false), map[], Working), Verified(Deleting(1, true), map[], Working);
    assert Next(s, Peek(1)).processes == t.processes;
  }

  lemma DeleteLooks()
    ensures Moves(Recreated(Deleting(1, true), map[]), Look(1), Recreated(Deleting(2, false), map[]))
  {
    var s, t := Recreated(Deleting(1, true), map[]), Recreated(Deleting(2, false), map[]);
    assert Next(s, Look(1)).processes == t.processes;
  }

  /** A delete's search passes pool 1 although the volume is there all along, first as an intent and then as
      metadata; having seen every pool it is about to answer that there is nothing to delete. */
  lemma DeleteMissesVolume()
    ensures var t := Recreated(Deleting(2, false), map[]);
            && Quiescent(AtRest(map[])) && Reaches(AtRest(map[]), t)
            && t.pools == map[1 := REBORN] && Enabled(t, Decide(1)) && 1 !in Next(t, Decide(1)).processes
  {
    var w := AtRest(map[]);
    DeleteBegins();
    CreateIsAtWork(w, Deleting(1, false), map[]);
    DeletePeeks();
    Then(w, Verified(Deleting(1, false), map[], Working), Peek(1), Verified(Deleting(1, true), map[], Working));
    CreatorCommits(Deleting(1, true), map[]);
    Then(w, Verified(Deleting(1, true), map[], Working), Mutate(3, Commit), Recreated(Deleting(1, true), map[]));
    DeleteLooks();
    Then(w, Recreated(Deleting(1, true), map[]), Look(1), Recreated(Deleting(2, false), map[]));
  }
}
