/**
 What one process gets done when nobody disturbs it, whichever pool the volume is in and however many there
 are: the searches and locks of `Controllers` keep nobody from working.
 */
module Solitary {
  import opened Base
  import opened Controllers

  /** Nobody is at work. */
  predicate Idle(w: World) {
    w.processes == map[] && w.identity.None? && w.locks == map[]
  }

  function Solo(w: World, pid: nat, p: Process, locks: map<nat, nat>): World {
    w.(processes := map[pid := p], locks := locks, identity := if p.role == Creator then Some(pid) else None)
  }

  function Homes(home: Option<Found>): map<nat, Volume> {
    if home.Some? then map[home.value.pool := home.value.volume] else map[]
  }

  /** A search that has seen the pools below `next`. */
  function Seeking(p: Process, next: nat, home: Option<Found>): Process {
    p.(next := next, found := if home.Some? && home.value.pool < next then home else None, peeked := false)
  }

  /** Between its two looks at one pool. */
  function Peeking(p: Process, next: nat, home: Option<Found>): Process {
    Seeking(p, next, home).(peeked := true)
  }

  lemma MetAtOnce(t: World, pid: nat, p: Process, locks: map<nat, nat>, next: nat, home: Option<Found>)
    requires Idle(t) && t.pools == Homes(home) && Searching(p.at) && next < t.poolCount
    requires home.Some? && home.value.pool == next && home.value.volume.phase != Creating
    ensures Moves(Solo(t, pid, Seeking(p, next, home), locks), Peek(pid),
                  Solo(t, pid, Seeking(p, next + 1, home), locks))
  {
    assert map[pid := Seeking(p, next, home)][pid := Seeking(p, next + 1, home)]
           == map[pid := Seeking(p, next + 1, home)];
  }

  lemma NoMetadata(t: World, pid: nat, p: Process, locks: map<nat, nat>, next: nat, home: Option<Found>)
    requires Idle(t) && t.pools == Homes(home) && Searching(p.at) && next < t.poolCount
    requires home.Some? && home.value.pool == next ==> home.value.volume.phase == Creating
    ensures Moves(Solo(t, pid, Seeking(p, next, home), locks), Peek(pid),
                  Solo(t, pid, Peeking(p, next, home), locks))
  {
    assert map[pid := Seeking(p, next, home)][pid := Peeking(p, next, home)] == map[pid := Peeking(p, next, home)];
  }

  lemma LookedForIntent(t: World, pid: nat, p: Process, locks: map<nat, nat>, next: nat, home: Option<Found>)
    requires Idle(t) && t.pools == Homes(home) && Searching(p.at) && next < t.poolCount
    requires home.Some? && home.value.pool == next ==> home.value.volume.phase == Creating
    ensures Moves(Solo(t, pid, Peeking(p, next, home), locks), Look(pid),
                  Solo(t, pid, Seeking(p, next + 1, home), locks))
  {
    assert map[pid := Peeking(p, next, home)][pid := Seeking(p, next + 1, home)]
           == map[pid := Seeking(p, next + 1, home)];
  }

  lemma SeeksNext(w: World, t: World, pid: nat, p: Process, locks: map<nat, nat>, next: nat, home: Option<Found>)
    requires Idle(t) && t.pools == Homes(home) && Searching(p.at) && next < t.poolCount
    requires Reaches(w, Solo(t, pid, Seeking(p, next, home), locks))
    ensures Reaches(w, Solo(t, pid, Seeking(p, next + 1, home), locks))
  {
    var here, after := Solo(t, pid, Seeking(p, next, home), locks), Solo(t, pid, Seeking(p, next + 1, home), locks);
    if home.Some? && home.value.pool == next && home.value.volume.phase != Creating {
      MetAtOnce(t, pid, p, locks, next, home);
      Then(w, here, Peek(pid), after);
    } else {
      NoMetadata(t, pid, p, locks, next, home);
      LookedForIntent(t, pid, p, locks, next, home);
      Then(w, here, Peek(pid), Solo(t, pid, Peeking(p, next, home), locks));
      Then(w, Solo(t, pid, Peeking(p, next, home), locks), Look(pid), after);
    }
  }

  lemma {:induction false} SeeksAll(w: World, t: World, pid: nat, p: Process, locks: map<nat, nat>, next: nat,
      home: Option<Found>)
    requires Idle(t) && t.pools == Homes(home) && Searching(p.at) && next <= t.poolCount
    requires Reaches(w, Solo(t, pid, Seeking(p, next, home), locks))
    ensures Reaches(w, Solo(t, pid, Seeking(p, t.poolCount, home), locks))
    decreases t.poolCount - next
  {
    if next < t.poolCount {
      SeeksNext(w, t, pid, p, locks, next, home);
      SeeksAll(w, t, pid, p, locks, next + 1, home);
    }
  }

  lemma Goes(t: World, pid: nat, p: Process, q: Process, locks: map<nat, nat>)
    requires p.role == q.role
    ensures Goto(Solo(t, pid, p, locks), pid, q) == Solo(t, pid, q, locks)
  {
    assert map[pid := p][pid := q] == map[pid := q];
  }

  lemma GoesHome(t: World, pid: nat, p: Process, locks: map<nat, nat>)
    requires Idle(t) && forall k :: k in locks ==> locks[k] == pid
    ensures Left(Solo(t, pid, p, locks), pid) == t
  {
    assert map[pid := p] - {pid} == map[];
  }

  /** A search from its beginning to its end. */
  lemma Searches(w: World, t: World, pid: nat, p: Process, locks: map<nat, nat>, home: Option<Found>)
    requires Idle(t) && t.pools == Homes(home) && Searching(p.at)
    requires Reaches(w, Solo(t, pid, Search(p, p.at), locks))
    ensures Reaches(w, Solo(t, pid, Seeking(p, t.poolCount, home), locks))
  {
    assert Search(p, p.at) == Seeking(p, 0, home);
    SeeksAll(w, t, pid, p, locks, 0, home);
  }

  lemma Decides(w: World, t: World, pid: nat, p: Process, locks: map<nat, nat>, home: Option<Found>, q: Process)
    requires Idle(t) && t.pools == Homes(home) && Searching(p.at)
    requires Reaches(w, Solo(t, pid, Search(p, p.at), locks))
    requires Decision(Seeking(p, t.poolCount, home)) == Some(q) && q.role == p.role
    ensures Reaches(w, Solo(t, pid, q, locks))
  {
    Searches(w, t, pid, p, locks, home);
    Goes(t, pid, Seeking(p, t.poolCount, home), q, locks);
    Then(w, Solo(t, pid, Seeking(p, t.poolCount, home), locks), Decide(pid), Solo(t, pid, q, locks));
  }

  lemma GivesUp(w: World, t: World, pid: nat, p: Process, locks: map<nat, nat>, home: Option<Found>)
    requires Idle(t) && t.pools == Homes(home) && Searching(p.at)
    requires Reaches(w, Solo(t, pid, Search(p, p.at), locks)) && forall k :: k in locks ==> locks[k] == pid
    requires Decision(Seeking(p, t.poolCount, home)).None?
    ensures Reaches(w, t)
  {
    Searches(w, t, pid, p, locks, home);
    GoesHome(t, pid, Seeking(p, t.poolCount, home), locks);
    Then(w, Solo(t, pid, Seeking(p, t.poolCount, home), locks), Decide(pid), t);
  }

  function Starting(role: Role): Process {
    Process(role, FirstSearch, None, None, 0, None, false)
  }

  lemma Starts(t: World, pid: nat, role: Role)
    requires Idle(t)
    ensures Reaches(t, Solo(t, pid, Search(Starting(role), FirstSearch), map[]))
  {
    Here(t);
    assert Search(Starting(role), FirstSearch) == Starting(role);
    assert map[][pid := Starting(role)] == map[pid := Starting(role)];
    Then(t, t, Start(pid, role), Solo(t, pid, Starting(role), map[]));
  }

  /** The volume has been met, and met again under its pool's lifecycle lock. */
  function Relocated(role: Role, at: Point, locked: Option<Found>, n: nat, f: Found): Process {
    Process(role, at, Some(f), locked, n, Some(f), false)
  }

  function UnderLock(role: Role, f: Found): Process {
    Search(Relocated(role, LockedSearch, None, 0, f), LockedSearch)
  }

  lemma TakesLock(w: World, t: World, pid: nat, role: Role, f: Found)
    requires Idle(t) && t.pools == Homes(Some(f)) && f.pool < t.poolCount
    requires Reaches(w, Solo(t, pid, Relocated(role, AwaitLock, None, t.poolCount, f), map[]))
    ensures Reaches(w, Solo(t, pid, UnderLock(role, f), map[f.pool := pid]))
  {
    var p, q := Relocated(role, AwaitLock, None, t.poolCount, f), UnderLock(role, f);
    Goes(t, pid, p, q, map[]);
    assert map[][f.pool := pid] == map[f.pool := pid];
    Then(w, Solo(t, pid, p, map[]), TakeLock(pid), Solo(t, pid, q, map[f.pool := pid]));
  }

  /** Left alone, a delete or an expansion of a volume some pool holds, or a create of it again, gets to hold that
      pool's lifecycle lock and meets the volume under it. */
  lemma GetsTheLock(t: World, pid: nat, role: Role, f: Found)
    requires Idle(t) && t.pools == Homes(Some(f)) && f.pool < t.poolCount
    ensures Reaches(t, Solo(t, pid, UnderLock(role, f), map[f.pool := pid]))
  {
    Starts(t, pid, role);
    Decides(t, t, pid, Starting(role), map[], Some(f), Relocated(role, AwaitLock, None, t.poolCount, f));
    TakesLock(t, t, pid, role, f);
  }

  /** A create or an expansion gets to its own search. */
  lemma GetsToOwnSearch(t: World, pid: nat, role: Role, f: Found)
    requires Idle(t) && t.pools == Homes(Some(f)) && f.pool < t.poolCount && role != Deleter
    ensures Reaches(t, Solo(t, pid, Search(Relocated(role, OwnSearch, Some(f), 0, f), OwnSearch), map[f.pool := pid]))
  {
    GetsTheLock(t, pid, role, f);
    Decides(t, t, pid, Relocated(role, LockedSearch, None, 0, f), map[f.pool := pid], Some(f),
            Search(Relocated(role, OwnSearch, Some(f), 0, f), OwnSearch));
  }

  /** It works on what it met, and leaves. */
  lemma WorksAndLeaves(w: World, t: World, pid: nat, p: Process, f: Found, change: Change)
    requires Idle(t) && t.pools == Homes(Some(f)) && p.at == Working && p.found == Some(f)
    requires MayChange(p.role, change) && change != Vanish && change != Tombstone
    requires p.role == Expander ==> f.volume.phase != Creating
    requires Reaches(w, Solo(t, pid, p, map[f.pool := pid]))
    ensures Reaches(w, t.(pools := map[f.pool := Changed(f.volume, change)]))
  {
    var after := t.(pools := map[f.pool := Changed(f.volume, change)]);
    assert map[f.pool := f.volume][f.pool := Changed(f.volume, change)] == after.pools;
    Then(w, Solo(t, pid, p, map[f.pool := pid]), Mutate(pid, change), Solo(after, pid, p, map[f.pool := pid]));
    GoesHome(after, pid, p, map[f.pool := pid]);
    Then(w, Solo(after, pid, p, map[f.pool := pid]), Leave(pid), after);
  }

  /** Left alone, an expansion of a live volume gets to work on it, with both searches around the lock met, in
      whatever pool the volume is, and rewrites it. */
  lemma ExpansionRewrites(t: World, pid: nat, k: nat, v: Volume)
    requires t.processes == map[] && t.identity.None? && t.locks == map[]
    requires t.pools == map[k := v] && k < t.poolCount && v.phase == Live
    ensures var f := Some(Found(k, v));
            var p := Process(Expander, Working, f, f, t.poolCount, f, false);
            Reaches(t, Solo(t, pid, p, map[k := pid]))
    ensures Reaches(t, t.(pools := map[k := v.(version := v.version + 1)]))
  {
    var f := Found(k, v);
    GetsToOwnSearch(t, pid, Expander, f);
    Decides(t, t, pid, Relocated(Expander, OwnSearch, Some(f), 0, f), map[k := pid], Some(f),
            Relocated(Expander, Working, Some(f), t.poolCount, f));
    WorksAndLeaves(t, t, pid, Relocated(Expander, Working, Some(f), t.poolCount, f), f, Rewrite);
  }

  /** A create that was interrupted is finished by the next, where its intent is. */
  lemma CreateResumes(t: World, pid: nat, k: nat, v: Volume)
    requires t.processes == map[] && t.identity.None? && t.locks == map[]
    requires t.pools == map[k := v] && k < t.poolCount && v.phase == Creating
    ensures Reaches(t, t.(pools := map[k := v.(phase := Live, version := v.version + 1)]))
  {
    var f := Found(k, v);
    GetsToOwnSearch(t, pid, Creator, f);
    Decides(t, t, pid, Relocated(Creator, OwnSearch, Some(f), 0, f), map[k := pid], Some(f),
            Relocated(Creator, Working, Some(f), t.poolCount, f));
    WorksAndLeaves(t, t, pid, Relocated(Creator, Working, Some(f), t.poolCount, f), f, Commit);
  }

  /** An unfinished removal is refused by both, and a volume that is not there yet by an expansion. */
  lemma UnfitVolumeIsRefused(t: World, pid: nat, role: Role, k: nat, v: Volume)
    requires t.processes == map[] && t.identity.None? && t.locks == map[]
    requires t.pools == map[k := v] && k < t.poolCount
    requires (role == Creator && v.phase == Removing) || (role == Expander && v.phase != Live)
    ensures var f := Some(Found(k, v));
            var p := Process(role, OwnSearch, f, f, t.poolCount, f, false);
            Reaches(t, Solo(t, pid, p, map[k := pid])) && Moves(Solo(t, pid, p, map[k := pid]), Decide(pid), t)
  {
    var f := Found(k, v);
    GetsToOwnSearch(t, pid, role, f);
    Searches(t, t, pid, Relocated(role, OwnSearch, Some(f), 0, f), map[k := pid], Some(f));
    GoesHome(t, pid, Relocated(role, OwnSearch, Some(f), t.poolCount, f), map[k := pid]);
  }

  /** A delete removes a volume in whatever state. */
  lemma DeleteRemoves(t: World, pid: nat, k: nat, v: Volume)
    requires t.processes == map[] && t.identity.None? && t.locks == map[]
    requires t.pools == map[k := v] && k < t.poolCount
    ensures Reaches(t, t.(pools := map[]))
  {
    var f, after := Found(k, v), t.(pools := map[]);
    var p := Relocated(Deleter, Working, Some(f), t.poolCount, f);
    GetsTheLock(t, pid, Deleter, f);
    Decides(t, t, pid, Relocated(Deleter, LockedSearch, None, 0, f), map[k := pid], Some(f), p);
    assert map[k := v] - {k} == map[];
    GoesHome(after, pid, p, map[k := pid]);
    Then(t, Solo(t, pid, p, map[k := pid]), Mutate(pid, Vanish), after);
  }

  function Creation(at: Point, target: Option<Found>, n: nat, found: Option<Found>): Process {
    Process(Creator, at, target, None, n, found, false)
  }

  lemma CreateIsAdmitted(t: World, pid: nat, k: nat)
    requires t.processes == map[] && t.identity.None? && t.locks == map[]
    requires t.pools == map[] && k < t.poolCount
    ensures var newborn := Volume(t.nextIncarnation, Creating, 0);
            var u := t.(pools := map[k := newborn], nextIncarnation := t.nextIncarnation + 1);
            Reaches(t, Solo(u, pid, Creation(AwaitAdmitted, Some(Found(k, newborn)), t.poolCount, None), map[]))
  {
    var newborn := Volume(t.nextIncarnation, Creating, 0);
    var u := t.(pools := map[k := newborn], nextIncarnation := t.nextIncarnation + 1);
    var p, q := Creation(Admission, None, t.poolCount, None),
                Creation(AwaitAdmitted, Some(Found(k, newborn)), t.poolCount, None);
    Starts(t, pid, Creator);
    Decides(t, t, pid, Starting(Creator), map[], None, Search(Creation(UnlockedSearch, None, 0, None), UnlockedSearch));
    Decides(t, t, pid, Creation(UnlockedSearch, None, 0, None), map[], None, p);
    assert map[pid := p][pid := q] == map[pid := q] && map[][k := newborn] == map[k := newborn];
    Then(t, Solo(t, pid, p, map[]), Admit(pid, k), Solo(u, pid, q, map[]));
  }

  lemma CreateIsVerified(w: World, u: World, pid: nat, f: Found)
    requires Idle(u) && u.pools == Homes(Some(f)) && f.pool < u.poolCount && f.volume.phase == Creating
    requires Reaches(w, Solo(u, pid, Creation(AwaitAdmitted, Some(f), u.poolCount, None), map[]))
    ensures Reaches(w, Solo(u, pid, Creation(Working, Some(f), u.poolCount, Some(f)), map[f.pool := pid]))
  {
    var p, q := Creation(AwaitAdmitted, Some(f), u.poolCount, None), Creation(Verification, Some(f), 0, None);
    Goes(u, pid, p, q, map[]);
    assert map[][f.pool := pid] == map[f.pool := pid];
    Then(w, Solo(u, pid, p, map[]), TakeLock(pid), Solo(u, pid, q, map[f.pool := pid]));
    Decides(w, u, pid, q, map[f.pool := pid], Some(f), Creation(Working, Some(f), u.poolCount, Some(f)));
  }

  /** And a create of a name no pool holds commits it in whatever pool admits it. */
  lemma CreateMakes(t: World, pid: nat, k: nat)
    requires t.processes == map[] && t.identity.None? && t.locks == map[]
    requires t.pools == map[] && k < t.poolCount
    ensures Reaches(t, t.(pools := map[k := Volume(t.nextIncarnation, Live, 1)],
                          nextIncarnation := t.nextIncarnation + 1))
  {
    var f := Found(k, Volume(t.nextIncarnation, Creating, 0));
    var u := t.(pools := map[k := f.volume], nextIncarnation := t.nextIncarnation + 1);
    CreateIsAdmitted(t, pid, k);
    CreateIsVerified(t, u, pid, f);
    WorksAndLeaves(t, u, pid, Creation(Working, Some(f), u.poolCount, Some(f)), f, Commit);
  }
}
