/**
 `handle_deleted` (kadalu_operator/main.py): a pool's servers, Service and record may go only behind
 the provisioner fence, its tombstone, its StorageClass and a zero PersistentVolume count. The
 cluster's answers are inputs: any call may fail, and every read may find what somebody else has
 written in the meantime.
 */
module PoolDeletion {
  import opened Base

  /** The pool's entry in the ConfigMap. `valid` is what the identity and brick checks say of it,
      `rest` stands for the other fields its deletion identity compares. */
  datatype Record = Record(owner: Option<string>, cleanupOnly: bool, quarantined: bool, disabled: bool,
                           external: bool, valid: bool, volumeId: string, rest: nat)

  datatype Event =
    | Fenced                        // the shared provisioner has been quiesced
    | Resumed
    | Read(record: Option<Record>)
    | Written(tombstone: Record)
    | ClassGone                     // the StorageClass is deleted or absent
    | Counted(pvs: int)
    | ServersDeleted
    | ServiceDeleted
    | RecordDeleted

  /** The deletion event and how its caller classified it. */
  datatype Request = Request(
    uid: Option<string>,
    snapshot: Record,               // the record the caller decided on
    alreadyFenced: bool,
    appsClient: bool,
    legacyUid: Option<string>, legacyQuarantine: bool,
    cleanupQuarantine: bool)

  datatype Outcome = Done(success: bool) | Raised

  predicate Destructive(e: Event) {
    e.ServersDeleted? || e.ServiceDeleted? || e.RecordDeleted?
  }

  predicate Legacy(q: Request) {
    q.legacyUid.Some? || q.legacyQuarantine
  }

  const ORPHAN: string := "orphan:"

  predicate Orphaned(r: Record) {
    r.owner.Some? && ORPHAN <= r.owner.value
  }

  /** `storage_record_cleanup_only` */
  predicate CleanupOnly(r: Record) {
    r.cleanupOnly || (r.disabled && Orphaned(r))
  }

  /** A record under which CSI admits no new volume. */
  predicate Tombstoned(r: Record) {
    r.disabled || CleanupOnly(r)
  }

  /** What `disable_pool_provisioning` makes of a record that is not cleanup-only yet. */
  function Tombstone(r: Record): Record {
    if CleanupOnly(r) then r else r.(disabled := true, cleanupOnly := true)
  }

  /** `_deletion_record_identity` */
  function Identity(r: Record): (Option<string>, bool, bool, bool, string, nat) {
    (r.owner, r.cleanupOnly, r.quarantined, r.external, r.volumeId, r.rest)
  }

  /** `_validate_deletion_record_owner` */
  predicate Owns(q: Request, r: Record) {
    r.owner.Some? && r.owner.value != "" && (q.uid.Some? && q.uid.value != "" ==> q.uid == r.owner)
  }

  /** `_validate_deletion_snapshot` */
  predicate SameSnapshot(q: Request, expected: Record, current: Record) {
    current.valid && Owns(q, current) && Identity(current) == Identity(expected)
  }

  // ---- What a log of events entitles to ----

  /** What is known after some events: the fence; whether behind it the record was found absent or
      tombstoned; the record last read or written; and whether, while that record kept its identity, the
      class went with the record cleanup-only, then a zero count was taken, then the record was read
      once more. */
  datatype Knowledge = Knowledge(fenced: bool, sealed: bool, record: Option<Record>,
                                 classGone: bool, zero: bool, confirmed: bool)

  function After(k: Knowledge, e: Event): Knowledge {
    match e
    case Fenced => Knowledge(true, false, None, false, false, false)
    case Resumed => Knowledge(false, false, None, false, false, false)
    case Read(r) =>
      var same := r.Some? && k.record.Some? && Identity(r.value) == Identity(k.record.value);
      Knowledge(k.fenced, k.sealed || r.None? || Tombstoned(r.value), r,
                k.classGone && same, k.zero && same, k.zero && same)
    case Written(r) => Knowledge(k.fenced, k.sealed || Tombstoned(r), Some(r), false, false, false)
    case ClassGone => k.(classGone := k.record.Some? && CleanupOnly(k.record.value), zero := false, confirmed := false)
    case Counted(n) => k.(zero := k.classGone && n == 0, confirmed := false)
    case _ => k
  }

  function Known(q: Request, log: seq<Event>): Knowledge {
    if log == [] then Knowledge(q.alreadyFenced, false, None, false, false, false)
    else After(Known(q, log[..|log| - 1]), log[|log| - 1])
  }

  /** What has been done so far: anything at all, and what is gone: the class, the servers, after them the
      Service, the record. */
  datatype Taken = Taken(acted: bool, retired: bool, servers: bool, service: bool, record: bool)

  const NOTHING := Taken(false, false, false, false, false)

  function Took(t: Taken, e: Event): Taken {
    match e
    case Read(_) => t
    case Counted(_) => t
    case ClassGone => t.(acted := true, retired := true)
    case ServersDeleted => t.(acted := true, servers := true)
    case ServiceDeleted => t.(acted := true, service := t.servers)
    case RecordDeleted => t.(acted := true, record := true)
    case _ => t.(acted := true)
  }

  function TakenBy(log: seq<Event>): Taken {
    if log == [] then NOTHING else Took(TakenBy(log[..|log| - 1]), log[|log| - 1])
  }

  /** Nothing is gone. */
  predicate Whole(t: Taken) {
    !t.retired && !t.servers && !t.service && !t.record
  }

  /** Nothing more is gone. */
  predicate OnlyActed(before: Taken, after: Taken) {
    after == before || after == before.(acted := true)
  }

  lemma {:induction false} TakenMeans(log: seq<Event>)
    ensures TakenBy(log).retired <==> ClassGone in log
    ensures TakenBy(log).record <==> RecordDeleted in log
    ensures !TakenBy(log).acted <==> forall e :: e in log ==> e.Read? || e.Counted?
  {
    if log != [] {
      TakenMeans(log[..|log| - 1]);
      assert log == log[..|log| - 1] + [log[|log| - 1]];
    }
  }

  lemma {:induction false} UnfencedMeansResumed(q: Request, log: seq<Event>)
    ensures Fenced in log && !Known(q, log).fenced ==> Resumed in log
  {
    var n := |log| - 1;
    if log != [] {
      UnfencedMeansResumed(q, log[..n]);
      assert log == log[..n] + [log[n]];
    }
  }

  predicate Entitled(k: Knowledge) {
    k.fenced && k.classGone && k.zero && k.confirmed
  }

  /** The operator runs the servers and the Service of a native pool, and of no other. */
  predicate InOrder(external: bool, t: Taken, e: Event) {
    match e
    case ServersDeleted => !external
    case ServiceDeleted => !external && t.servers
    case _ => if external then !t.servers && !t.service else t.servers && t.service
  }

  predicate EventOk(q: Request, k: Knowledge, t: Taken, e: Event) {
    && (Destructive(e) ==>
          && Entitled(k) && k.record.Some? && k.record.value.valid && Owns(q, k.record.value)
          && InOrder(k.record.value.external, t, e))
    && (e.Resumed? ==> k.fenced && !q.alreadyFenced && (Legacy(q) || k.sealed))
  }

  predicate Disciplined(q: Request, log: seq<Event>) {
    forall i :: 0 <= i < |log| ==> EventOk(q, Known(q, log[..i]), TakenBy(log[..i]), log[i])
  }

  lemma KnownNext(q: Request, log: seq<Event>, e: Event)
    ensures Known(q, log + [e]) == After(Known(q, log), e) && TakenBy(log + [e]) == Took(TakenBy(log), e)
    ensures Disciplined(q, log) && EventOk(q, Known(q, log), TakenBy(log), e) ==> Disciplined(q, log + [e])
  {
    assert (log + [e])[..|log|] == log;
    if Disciplined(q, log) && EventOk(q, Known(q, log), TakenBy(log), e) {
      forall i | 0 <= i < |log + [e]|
        ensures EventOk(q, Known(q, (log + [e])[..i]), TakenBy((log + [e])[..i]), (log + [e])[i])
      {
        if i < |log| { assert (log + [e])[..i] == log[..i]; }
      }
    }
  }

  // ---- The deletion as the code performs it ----

  class Operator {
    const q: Request
    const works: nat -> bool                       // whether the k-th call succeeds
    const others: nat -> Option<Option<Record>>    // what somebody else makes of the record right before it
    const countAt: nat -> int                      // what it would count
    const proven: bool                             // the StorageClass proves a legacy record's ownership
    var stored: Option<Record>                     // the record in the ConfigMap
    var calls: nat
    var log: seq<Event>
    var safeToResume: bool

    constructor (q: Request, works: nat -> bool, others: nat -> Option<Option<Record>>, countAt: nat -> int,
        proven: bool, stored: Option<Record>)
      ensures log == [] && Ok() && this.q == q && !safeToResume && this.stored == stored && calls == 0
    {
      this.q, this.works, this.others, this.countAt, this.proven := q, works, others, countAt, proven;
      this.stored, calls, log, safeToResume := stored, 0, [], false;
    }

    ghost predicate Ok()
      reads this
    {
      Disciplined(q, log)
    }

    ghost function Now(): Knowledge
      reads this
    {
      Known(q, log)
    }

    ghost function Gone(): Taken
      reads this
    {
      TakenBy(log)
    }

    /** None of the first `n` calls fails. */
    ghost predicate AllWork(n: nat) {
      n == 0 || (works(n - 1) && AllWork(n - 1))
    }

    /** And nobody else has written the record before any of them, and all count the same. */
    ghost predicate Smooth(n: nat) {
      n == 0 || (works(n - 1) && others(n - 1).None? && countAt(n - 1) == countAt(0) && Smooth(n - 1))
    }

    lemma {:induction false} AllWorks(n: nat)
      ensures AllWork(n) <==> forall k :: 0 <= k < n ==> works(k)
    {
      if n > 0 {
        AllWorks(n - 1);
      }
    }

    lemma {:induction false} AllSmooth(n: nat)
      requires forall k :: works(k) && others(k).None? && countAt(k) == countAt(0)
      ensures Smooth(n)
    {
      if n > 0 {
        AllSmooth(n - 1);
      }
    }

    /** A call with no effect worth recording. */
    method Call() returns (ok: bool)
      modifies `calls, `stored
      ensures calls == old(calls) + 1
      ensures Smooth(calls) ==> old(Smooth(calls)) && ok && stored == old(stored)
      ensures AllWork(calls) == (ok && old(AllWork(calls)))
    {
      ok := works(calls);
      if others(calls).Some? {
        stored := others(calls).value;
      }
      calls := calls + 1;
    }

    /** A call that changes the cluster if it succeeds. */
    method Ask(e: Event) returns (ok: bool)
      requires Ok() && EventOk(q, Now(), Gone(), e)
      modifies `calls, `log, `stored
      ensures Ok() && Now() == if ok then After(old(Now()), e) else old(Now())
      ensures Gone() == if ok then Took(old(Gone()), e) else old(Gone())
      ensures calls == old(calls) + 1
      ensures AllWork(calls) == (ok && old(AllWork(calls)))
      ensures Smooth(calls) ==>
                && old(Smooth(calls)) && ok
                && stored == if e.Written? then Some(e.tombstone) else if e.RecordDeleted? then None else old(stored)
    {
      ok := Call();
      if ok {
        KnownNext(q, log, e);
        log := log + [e];
        if e.Written? {
          stored := Some(e.tombstone);
        } else if e.RecordDeleted? {
          stored := None;
        }
      }
    }

    method ReadRecord() returns (ok: bool, r: Option<Record>)
      requires Ok()
      modifies `calls, `log, `stored
      ensures Ok() && Now() == (if ok then After(old(Now()), Read(r)) else old(Now())) && Gone() == old(Gone())
      ensures AllWork(calls) == (ok && old(AllWork(calls)))
      ensures Smooth(calls) ==> old(Smooth(calls)) && ok && r == stored == old(stored)
    {
      r := if others(calls).Some? then others(calls).value else stored;
      ok := Ask(Read(r));
    }

    method CountPvs() returns (ok: bool, n: int)
      requires Ok()
      modifies `calls, `log, `stored
      ensures Ok() && Now() == (if ok then After(old(Now()), Counted(n)) else old(Now())) && Gone() == old(Gone())
      ensures AllWork(calls) == (ok && old(AllWork(calls)))
      ensures Smooth(calls) ==> old(Smooth(calls)) && ok && n == countAt(0) && stored == old(stored)
    {
      n := countAt(calls);
      ok := Ask(Counted(n));
    }

    /** `disable_pool_provisioning`: the tombstone is written unless it is already there. */
    method DisablePoolProvisioning(expected: Record) returns (r: Option<Record>)
      requires Ok() && Now().fenced
      modifies `calls, `log, `stored
      ensures Ok() && Now().fenced && (old(Now().sealed) ==> Now().sealed) && OnlyActed(old(Gone()), Gone())
      ensures r.Some? ==>
                && Now().sealed && Now().record == r && r.value.cleanupOnly && r.value.disabled
                && r.value.external == expected.external
      ensures r.Some? && old(AllWork(calls)) ==> AllWork(calls)
      ensures Smooth(calls) ==> old(Smooth(calls))
      ensures Smooth(calls) && old(stored) == Some(expected) && expected.valid ==>
                r == stored == Some(expected.(disabled := true, cleanupOnly := true))
    {
      var ok, current := ReadRecord();
      if !ok || current.None? || !current.value.valid || Identity(current.value) != Identity(expected) {
        return None;
      }
      if current.value.disabled && current.value.cleanupOnly {
        return current;
      }
      r := WriteRecord(current.value.(disabled := true, cleanupOnly := true));
    }

    method WriteRecord(updated: Record) returns (r: Option<Record>)
      requires Ok() && Now().fenced && updated.disabled
      modifies `calls, `log, `stored
      ensures Ok() && Now().fenced && (old(Now().sealed) ==> Now().sealed) && OnlyActed(old(Gone()), Gone())
      ensures r.Some? ==> r == Some(updated) && Now().sealed && Now().record == r
      ensures r.Some? && old(AllWork(calls)) ==> AllWork(calls)
      ensures Smooth(calls) ==> old(Smooth(calls)) && r == stored == Some(updated)
    {
      var ok := Ask(Written(updated));
      r := if ok then Some(updated) else None;
    }

    /** The owner a legacy record may be claimed for. */
    function ExpectedOwner(r: Record): string {
      if q.uid.Some? && q.uid.value != "" then q.uid.value else ORPHAN + r.volumeId
    }

    /** The first half of `seal_legacy_deletion_record`: the record is still the caller's UID-less one,
        its PersistentVolumes can be counted, and the claim, if any, is for the right owner. */
    method ProveLegacyRecord() returns (proved: bool, cleanupOwned: bool)
      requires Ok() && Now().fenced
      modifies `calls, `log, `stored
      ensures Ok() && Now().fenced && (cleanupOwned ==> q.legacyUid.Some?) && Gone() == old(Gone())
      ensures proved ==> Now().record == Some(q.snapshot) && (q.snapshot.disabled ==> Now().sealed)
      ensures proved && old(AllWork(calls)) ==> AllWork(calls)
      ensures Smooth(calls) ==> old(Smooth(calls)) && stored == old(stored)
      ensures Smooth(calls) && old(stored) == Some(q.snapshot) && q.snapshot.valid ==>
                && (proved <==> Sealable())
                && (proved ==> cleanupOwned == (!q.legacyQuarantine && proven))
    {
      proved, cleanupOwned := false, false;
      if q.snapshot.owner.Some? && q.snapshot.owner.value != "" {
        return;
      }
      // the deleting resource is looked up once more
      var ok := Call();
      if !ok {
        return;
      }
      ok := StillLegacy();
      if !ok {
        return;
      }
      if !q.legacyQuarantine {
        if q.legacyUid != Some(ExpectedOwner(q.snapshot)) {
          return;
        }
        cleanupOwned := proven;
      }
      proved := true;
    }

    method StillLegacy() returns (same: bool)
      requires Ok() && Now().fenced
      modifies `calls, `log, `stored
      ensures Ok() && Now().fenced && Gone() == old(Gone())
      ensures same ==> Now().record == Some(q.snapshot) && (q.snapshot.disabled ==> Now().sealed)
      ensures same && old(AllWork(calls)) ==> AllWork(calls)
      ensures Smooth(calls) ==> old(Smooth(calls)) && stored == old(stored)
      ensures Smooth(calls) && old(stored) == Some(q.snapshot) && q.snapshot.valid ==> same == (countAt(0) != -1)
    {
      var ok, r := ReadRecord();
      if !ok || r.None? || !r.value.valid || r.value != q.snapshot {
        return false;
      }
      var n;
      ok, n := CountPvs();
      same := ok && n != -1;
    }

    /** What a legacy record becomes: claimed for its owner, or set aside. */
    function Sealed(cleanupOwned: bool): Record {
      if cleanupOwned then
        q.snapshot.(disabled := true, owner := q.legacyUid, cleanupOnly := true, quarantined := false)
      else q.snapshot.(disabled := true, quarantined := true)
    }

    /** `seal_legacy_deletion_record`, by compare-and-swap; the flag says whether cleanup may go on. */
    method SealLegacyRecord() returns (r: Option<Record>, cleanupOwned: bool)
      requires Ok() && Now().fenced
      modifies `calls, `log, `stored
      ensures Ok() && Now().fenced && OnlyActed(old(Gone()), Gone())
      ensures r.Some? ==> Now().sealed && Now().record == r && r.value.disabled
      ensures r.Some? && cleanupOwned ==> r.value.cleanupOnly
      ensures r.Some? && old(AllWork(calls)) ==> AllWork(calls)
      ensures Smooth(calls) ==> old(Smooth(calls))
      ensures Smooth(calls) && old(stored) == Some(q.snapshot) && q.snapshot.valid ==>
                if Sealable() then
                  cleanupOwned == (!q.legacyQuarantine && proven) && r == stored == Some(Sealed(cleanupOwned))
                else r.None? && stored == old(stored)
    {
      var proved;
      proved, cleanupOwned := ProveLegacyRecord();
      if !proved {
        return None, false;
      }
      r := Seal(Sealed(cleanupOwned));
    }

    /** Written unless it is there already, and read back. */
    method Seal(updated: Record) returns (r: Option<Record>)
      requires Ok() && Now().fenced && updated.disabled && (updated == q.snapshot ==> Now().sealed)
      modifies `calls, `log, `stored
      ensures Ok() && Now().fenced && OnlyActed(old(Gone()), Gone())
      ensures r.Some? ==> r == Some(updated) && Now().sealed && Now().record == r
      ensures r.Some? && old(AllWork(calls)) ==> AllWork(calls)
      ensures Smooth(calls) ==> old(Smooth(calls))
      ensures Smooth(calls) && old(stored) == Some(q.snapshot) ==> r == stored == Some(updated)
    {
      if updated != q.snapshot {
        r := WriteRecord(updated);
        if r.None? {
          return;
        }
      }
      var ok, confirmed := ReadRecord();
      r := if ok && confirmed == Some(updated) then confirmed else None;
    }

    // Where a smooth run gets.

    /** The pool is gone, or kept for its PersistentVolumes. */
    ghost predicate Drained(storage: Record, outcome: Outcome)
      reads this
    {
      && outcome == Done(countAt(0) != -1)
      && stored == (if countAt(0) == 0 then None else Some(storage))
      && (countAt(0) == 0 ==> Gone().record)
    }

    ghost predicate CleanedUp(storage: Record, before: Option<Record>, outcome: Outcome)
      reads this
    {
      && (before.None? ==> outcome == Done(true) && stored == None && safeToResume)
      && (before == Some(storage) && storage.valid && Owns(q, storage) ==>
            if !q.cleanupQuarantine then safeToResume && Drained(Tombstone(storage), outcome)
            else if storage.disabled then safeToResume && outcome == Done(true) && stored == Some(Tombstone(storage))
            else outcome == Raised && stored == before)
    }

    /** A legacy record is claimed and cleaned up, or set aside, or left as it is. */
    ghost predicate LegacyCleanedUp(outcome: Outcome)
      reads this
    {
      if !Sealable() then outcome == Raised && stored == Some(q.snapshot)
      else if q.legacyQuarantine || !proven then outcome == Done(true) && stored == Some(Sealed(false))
      else Drained(Sealed(true), outcome)
    }

    predicate Sealable() {
      && (q.snapshot.owner.None? || q.snapshot.owner.value == "") && countAt(0) != -1
      && (q.legacyQuarantine || q.legacyUid == Some(ExpectedOwner(q.snapshot)))
    }

    /** Everything after the fence. The log never leaves the discipline, and whenever the flag says so
        the provisioner may be resumed. */
    method Cleanup() returns (outcome: Outcome)
      requires Ok() && Now().fenced && !safeToResume && Whole(Gone())
      modifies this
      ensures Ok() && Now().fenced && (safeToResume && !Legacy(q) ==> Now().sealed)
      ensures old(AllWork(calls)) && outcome == Done(true) && Gone().retired ==> AllWork(calls)
      ensures Smooth(calls) ==> old(Smooth(calls))
      ensures Smooth(calls) && !Legacy(q) ==> CleanedUp(q.snapshot, old(stored), outcome)
      ensures Smooth(calls) && Legacy(q) && old(stored) == Some(q.snapshot) && q.snapshot.valid
              && !q.cleanupQuarantine ==>
                safeToResume && LegacyCleanedUp(outcome)
    {
      var storage := q.snapshot;
      if Legacy(q) {
        safeToResume := true;
        var sealed, owned := SealLegacyRecord();
        if sealed.None? {
          return Raised;
        }
        storage := sealed.value;
        if !owned {
          return Done(true);
        }
        if !Owns(q, storage) {
          return Raised;
        }
      }
      outcome := CleanupOwned(storage);
    }

    /** The same once the record is known to have an owner. */
    method CleanupOwned(storage: Record) returns (outcome: Outcome)
      requires Ok() && Now().fenced && (safeToResume ==> Legacy(q))
      requires Whole(Gone())
      modifies this
      ensures Ok() && Now().fenced && (safeToResume && !Legacy(q) ==> Now().sealed)
      ensures old(AllWork(calls)) && outcome == Done(true) && Gone().retired ==> AllWork(calls)
      ensures (old(safeToResume) ==> safeToResume) && (Smooth(calls) ==> old(Smooth(calls)))
      ensures Smooth(calls) ==> CleanedUp(storage, old(stored), outcome)
    {
      var ok, authoritative := ReadRecord();
      if !ok {
        return Raised;
      }
      if authoritative.None? {
        safeToResume := true;
        ok := Ask(ClassGone);
        return if ok then Done(true) else Raised;
      }
      if !SameSnapshot(q, storage, authoritative.value) {
        return Raised;
      }
      if q.cleanupQuarantine {
        outcome := Quarantine(authoritative.value);
        return;
      }
      outcome := Retire(authoritative.value);
    }

    /** A quarantined cleanup-only pool is only ever tombstoned. */
    method Quarantine(storage: Record) returns (outcome: Outcome)
      requires Ok() && Now().fenced && Now().record == Some(storage) && (Tombstoned(storage) ==> Now().sealed)
      requires (safeToResume ==> Legacy(q)) && !Gone().retired
      modifies this
      ensures Ok() && Now().fenced && (safeToResume && !Legacy(q) ==> Now().sealed)
      ensures !Gone().retired && (old(safeToResume) ==> safeToResume) && (Smooth(calls) ==> old(Smooth(calls)))
      ensures Smooth(calls) && old(stored) == Some(storage) && storage.valid ==>
                if storage.disabled then outcome == Done(true) && stored == Some(Tombstone(storage)) && safeToResume
                else outcome == Raised && stored == old(stored)
    {
      if !storage.disabled {
        return Raised;
      }
      safeToResume := true;
      if !CleanupOnly(storage) {
        var tombstone := DisablePoolProvisioning(storage);
        if tombstone.None? {
          return Raised;
        }
      }
      return Done(true);
    }

    /** Tombstone, StorageClass, count, and only then the pool itself. */
    method Retire(snapshot: Record) returns (outcome: Outcome)
      requires Ok() && Now().fenced && Now().record == Some(snapshot) && (Tombstoned(snapshot) ==> Now().sealed)
      requires safeToResume ==> Legacy(q)
      requires Whole(Gone())
      modifies this
      ensures Ok() && Now().fenced && (safeToResume && !Legacy(q) ==> Now().sealed)
      ensures old(AllWork(calls)) && outcome == Done(true) && Gone().retired ==> AllWork(calls)
      ensures (old(safeToResume) ==> safeToResume) && (Smooth(calls) ==> old(Smooth(calls)))
      ensures Smooth(calls) && old(stored) == Some(snapshot) && snapshot.valid && Owns(q, snapshot) ==>
                safeToResume && Drained(Tombstone(snapshot), outcome)
    {
      var storage := snapshot;
      if !CleanupOnly(storage) {
        var tombstone := DisablePoolProvisioning(storage);
        if tombstone.None? {
          return Raised;
        }
        storage := tombstone.value;
      }
      safeToResume := true;
      var ok := Ask(ClassGone);
      if !ok {
        // deferred for a cleanup-only record
        return if storage.cleanupOnly || Orphaned(storage) then Done(true) else Raised;
      }
      outcome := Drain(snapshot.external, storage);
    }

    /** The count behind the tombstone, and the pool itself once it is zero. */
    method Drain(external: bool, storage: Record) returns (outcome: Outcome)
      requires Ok() && Now().fenced && Now().classGone && Now().sealed && Now().record == Some(storage)
      requires external == storage.external && !Gone().servers && !Gone().service
      modifies `calls, `log, `stored
      ensures Ok() && Now().fenced && Now().sealed
      ensures old(AllWork(calls)) && outcome == Done(true) ==> AllWork(calls)
      ensures Smooth(calls) ==> old(Smooth(calls))
      ensures Smooth(calls) && old(stored) == Some(storage) && storage.valid && Owns(q, storage) ==>
                Drained(storage, outcome)
    {
      var ok, n := CountPvs();
      if !ok {
        return Raised;
      }
      if n == -1 {
        return Done(false);
      }
      if n != 0 {
        return Done(true);
      }
      var latest;
      ok, latest := ReadRecord();
      if !ok {
        return Raised;
      }
      if latest.None? {
        return Done(true);
      }
      if !SameSnapshot(q, storage, latest.value) {
        return Raised;
      }
      outcome := Remove(external, latest.value);
    }

    /** Servers and Service of a pool the operator runs, then the record, checked once more. */
    method Remove(external: bool, storage: Record) returns (outcome: Outcome)
      requires Ok() && Entitled(Now()) && Now().record == Some(storage) && Now().sealed
      requires external == storage.external && !Gone().servers && !Gone().service && storage.valid && Owns(q, storage)
      modifies `calls, `log, `stored
      ensures Ok() && Now().fenced && Now().sealed
      ensures old(AllWork(calls)) && outcome == Done(true) ==> AllWork(calls)
      ensures Smooth(calls) ==> old(Smooth(calls))
      ensures Smooth(calls) && old(stored) == Some(storage) ==>
                outcome == Done(true) && stored == None && Gone().record
    {
      if !external {
        var ok := RemoveServers(storage);
        if !ok {
          return Raised;
        }
      }
      outcome := RemoveRecord(storage);
    }

    method RemoveServers(storage: Record) returns (ok: bool)
      requires Ok() && Entitled(Now()) && Now().record == Some(storage) && Now().sealed
      requires !storage.external && storage.valid && Owns(q, storage)
      modifies `calls, `log, `stored
      ensures Ok() && Now() == old(Now()) && (ok ==> Gone().servers && Gone().service)
      ensures ok ==> AllWork(calls) == old(AllWork(calls))
      ensures Smooth(calls) ==> old(Smooth(calls)) && ok && stored == old(stored)
    {
      ok := Ask(ServersDeleted);
      if ok {
        ok := Ask(ServiceDeleted);
      }
    }

    method RemoveRecord(storage: Record) returns (outcome: Outcome)
      requires Ok() && Entitled(Now()) && Now().record == Some(storage) && Now().sealed
      requires if storage.external then !Gone().servers && !Gone().service else Gone().servers && Gone().service
      modifies `calls, `log, `stored
      ensures Ok() && Now().fenced && Now().sealed
      ensures old(AllWork(calls)) && outcome == Done(true) ==> AllWork(calls)
      ensures Smooth(calls) ==> old(Smooth(calls))
      ensures Smooth(calls) && old(stored) == Some(storage) && storage.valid && Owns(q, storage) ==>
                outcome == Done(true) && stored == None && Gone().record
    {
      var ok, current := ReadRecord();
      if !ok || current.None? || !SameSnapshot(q, storage, current.value) {
        return Raised;
      }
      ok := Ask(RecordDeleted);
      return if ok then Done(true) else Raised;
    }

    /** The unfenced preliminaries: what is decided without the fence changes nothing. */
    method Preliminary() returns (outcome: Option<Outcome>)
      requires Ok() && log == []
      modifies `calls, `log, `stored
      ensures Ok() && Now().fenced == old(Now()).fenced && Gone() == NOTHING
      ensures (!q.snapshot.valid || (!Legacy(q) && !Owns(q, q.snapshot))) ==> outcome == Some(Done(false)) && log == []
      ensures outcome.None? && old(AllWork(calls)) ==> AllWork(calls)
      ensures Smooth(calls) ==> old(Smooth(calls)) && stored == old(stored)
      ensures q.snapshot.valid && !Legacy(q) && Owns(q, q.snapshot) && old(stored).None? && Smooth(calls) ==>
                outcome == if q.alreadyFenced || !CleanupOnly(q.snapshot) then None else Some(Done(true))
      ensures Smooth(calls) && old(stored) == Some(q.snapshot) && q.snapshot.valid
              && (Legacy(q) || Owns(q, q.snapshot)) ==>
                outcome ==
                  if q.legacyQuarantine && q.snapshot.quarantined then Some(Done(true))
                  else if q.alreadyFenced || !CleanupOnly(q.snapshot) then None
                  else if !Owns(q, q.snapshot) then Some(Raised)
                  else if q.cleanupQuarantine then Some(Done(true))
                  else if countAt(0) == 0 then None
                  else Some(Done(countAt(0) != -1))
    {
      if !q.snapshot.valid || (!Legacy(q) && !Owns(q, q.snapshot)) {
        return Some(Done(false));
      }
      var ok, authoritative;
      if q.legacyQuarantine && q.snapshot.quarantined {
        ok, authoritative := ReadRecord();
        if !ok {
          return Some(Raised);
        }
        if authoritative.Some?
            && (!authoritative.value.valid || Identity(authoritative.value) != Identity(q.snapshot)) {
          return Some(Raised);
        }
        return Some(Done(true));
      }
      if !q.alreadyFenced && CleanupOnly(q.snapshot) {
        ok, authoritative := ReadRecord();
        if !ok {
          return Some(Raised);
        }
        if authoritative.None? {
          return Some(Done(true));
        }
        if !SameSnapshot(q, q.snapshot, authoritative.value) {
          return Some(Raised);
        }
        if q.cleanupQuarantine {
          return Some(Done(true));
        }
        var n;
        ok, n := CountPvs();
        if !ok {
          return Some(Raised);
        }
        if n != 0 {
          return Some(Done(n != -1));
        }
      }
      return None;
    }

    /** The fence, the cleanup behind it, and the provisioner's return. */
    method CleanBehindFence() returns (outcome: Outcome)
      requires Ok() && !safeToResume && Gone() == NOTHING && Now().fenced == q.alreadyFenced
      modifies this
      ensures Ok() && (Smooth(calls) ==> old(Smooth(calls)))
      ensures !q.alreadyFenced && !q.appsClient ==> outcome == Done(false) && Gone() == NOTHING
      ensures old(AllWork(calls)) && outcome == Done(true) && Gone().retired ==> AllWork(calls)
      ensures Smooth(calls) && (q.alreadyFenced || q.appsClient) ==>
                && (!q.alreadyFenced && safeToResume ==> !Now().fenced)
                && (!Legacy(q) ==> CleanedUp(q.snapshot, old(stored), outcome))
                && (Legacy(q) && old(stored) == Some(q.snapshot) && q.snapshot.valid && !q.cleanupQuarantine ==>
                      safeToResume && LegacyCleanedUp(outcome))
    {
      if !q.alreadyFenced {
        if !q.appsClient {
          return Done(false);
        }
        var ok := Ask(Fenced);
        if !ok {
          return Raised;
        }
      }
      outcome := Cleanup();
      if !q.alreadyFenced && safeToResume {
        var ok := ResumeProvisioner();
        if !ok {
          outcome := Raised;
        }
      }
    }

    /** The provisioner is quiesced again if it does not come back. */
    method ResumeProvisioner() returns (ok: bool)
      requires Ok() && EventOk(q, Now(), Gone(), Resumed)
      modifies `calls, `log, `stored
      ensures Ok() && OnlyActed(old(Gone()), Gone())
      ensures ok ==> !Now().fenced && AllWork(calls) == old(AllWork(calls))
      ensures Smooth(calls) ==> old(Smooth(calls)) && ok && stored == old(stored)
    {
      ok := Ask(Resumed);
      if ok {
        // the rollout wait
        ok := Call();
      }
      if !ok {
        var _ := Ask(Fenced);
      }
    }

    /** The handler, as far as the knowledge of its log tells. */
    method Handle() returns (outcome: Outcome)
      requires log == [] && Ok() && !safeToResume && calls == 0
      modifies this
      ensures Ok()
      ensures !q.snapshot.valid || (!Legacy(q) && !Owns(q, q.snapshot)) ==> outcome == Done(false) && log == []
      ensures !q.alreadyFenced && !q.appsClient ==> Gone() == NOTHING
      ensures outcome == Done(true) && Gone().retired ==> AllWork(calls)
      ensures Smooth(calls) && q.snapshot.valid && (q.alreadyFenced || q.appsClient) ==>
                && (!Legacy(q) && Owns(q, q.snapshot) && old(stored) == Some(q.snapshot) ==> Handled(outcome))
                && (!Legacy(q) && Owns(q, q.snapshot) && old(stored).None? ==> outcome == Done(true) && stored == None)
                && (Legacy(q) && old(stored) == Some(q.snapshot) && !q.cleanupQuarantine && !q.snapshot.cleanupOnly
                    && (q.snapshot.owner.None? || q.snapshot.owner.value == "")
                    ==> LegacyHandled(outcome))
    {
      var decided := Preliminary();
      if decided.Some? {
        return decided.value;
      }
      outcome := CleanBehindFence();
    }

    /** The preliminaries alone, or the cleanup and the provisioner's return. */
    ghost predicate Handled(outcome: Outcome)
      reads this
    {
      if !q.alreadyFenced && CleanupOnly(q.snapshot) && (q.cleanupQuarantine || countAt(0) != 0) then
        && stored == Some(q.snapshot) && outcome == Done(q.cleanupQuarantine || countAt(0) != -1)
        && !Now().fenced && Gone() == NOTHING
      else
        CleanedUp(q.snapshot, Some(q.snapshot), outcome) && (!q.alreadyFenced && safeToResume ==> !Now().fenced)
    }

    ghost predicate LegacyHandled(outcome: Outcome)
      reads this
    {
      if q.legacyQuarantine && q.snapshot.quarantined then
        outcome == Done(true) && stored == Some(q.snapshot) && (!q.alreadyFenced ==> !Now().fenced)
      else LegacyCleanedUp(outcome) && (!q.alreadyFenced ==> !Now().fenced)
    }

    /** The whole handler. Whatever fails and whatever the reads find, servers, Service and record are
        deleted only when entitled and in order, and a run that owns the fence resumes the provisioner only
        behind a tombstone, or when the record is gone. A record that is not valid or not owned is left
        alone; without an Apps client nothing is changed; and once the class is gone no failed call is
        reported as a success. */
    method HandleDeleted() returns (outcome: Outcome)
      requires log == [] && Ok() && !safeToResume && calls == 0
      modifies this
      ensures Disciplined(q, log)
      ensures var owned := q.snapshot.owner.Some? && q.snapshot.owner.value != ""
                           && (q.uid.Some? && q.uid.value != "" ==> q.uid == q.snapshot.owner);
              !q.snapshot.valid || (q.legacyUid.None? && !q.legacyQuarantine && !owned) ==>
                outcome == Done(false) && log == []
      ensures !q.alreadyFenced && !q.appsClient ==> forall e :: e in log ==> e.Read? || e.Counted?
      ensures outcome == Done(true) && ClassGone in log ==> forall k :: 0 <= k < calls ==> works(k)
      // a pool of its own that nobody else touches, every call succeeding: drained it is deleted, in use it is
      // tombstoned, and a quarantined one is only ever tombstoned; the provisioner is back in the end
      ensures var owned := q.snapshot.owner.Some? && q.snapshot.owner.value != ""
                           && (q.uid.Some? && q.uid.value != "" ==> q.uid == q.snapshot.owner);
              (forall k :: works(k) && others(k).None? && countAt(k) == countAt(0)) && old(stored) == Some(q.snapshot)
              && q.snapshot.valid && q.legacyUid.None? && !q.legacyQuarantine && owned
              && (q.alreadyFenced || q.appsClient) ==>
                var kept := if CleanupOnly(q.snapshot) then q.snapshot
                            else q.snapshot.(disabled := true, cleanupOnly := true);
                && (!q.cleanupQuarantine ==>
                      && outcome == Done(countAt(0) != -1)
                      && stored == (if countAt(0) == 0 then None else Some(kept))
                      && (countAt(0) == 0 ==> RecordDeleted in log))
                && (q.cleanupQuarantine && q.snapshot.disabled ==>
                      outcome == Done(true) && stored == Some(kept))
                && (!q.cleanupQuarantine || q.snapshot.disabled ==>
                      (!q.alreadyFenced && Fenced in log ==> Resumed in log))
                // a cleanup-only pool that is in use or quarantined is seen to without the fence
                && (!q.alreadyFenced && q.snapshot.cleanupOnly && (q.cleanupQuarantine || countAt(0) != 0) ==>
                      forall e :: e in log ==> e.Read? || e.Counted?)
      // a record that is already gone is a success
      ensures var owned := q.snapshot.owner.Some? && q.snapshot.owner.value != ""
                           && (q.uid.Some? && q.uid.value != "" ==> q.uid == q.snapshot.owner);
              (forall k :: works(k) && others(k).None? && countAt(k) == countAt(0)) && old(stored).None?
              && q.snapshot.valid && q.legacyUid.None? && !q.legacyQuarantine && owned
              && (q.alreadyFenced || q.appsClient) ==>
                outcome == Done(true) && stored == None
      // a record without an owner is claimed for the right one if the class proves it, and else set aside
      ensures (forall k :: works(k) && others(k).None? && countAt(k) == countAt(0)) && old(stored) == Some(q.snapshot)
              && q.snapshot.valid && q.snapshot.owner.None? && !q.snapshot.cleanupOnly && !q.cleanupQuarantine
              && (q.legacyUid.Some? || q.legacyQuarantine) && (q.alreadyFenced || q.appsClient) ==>
                var owner := if q.uid.Some? && q.uid.value != "" then q.uid.value else ORPHAN + q.snapshot.volumeId;
                (!q.alreadyFenced && Fenced in log ==> Resumed in log) &&
                if q.legacyQuarantine && q.snapshot.quarantined then outcome == Done(true) && stored == Some(q.snapshot)
                else if countAt(0) == -1 || (!q.legacyQuarantine && q.legacyUid != Some(owner)) then
                  outcome == Raised && stored == Some(q.snapshot)
                else if q.legacyQuarantine || !proven then
                  outcome == Done(true) && stored == Some(q.snapshot.(disabled := true, quarantined := true))
                else
                  && outcome == Done(true)
                  && stored == if countAt(0) == 0 then None
                               else Some(q.snapshot.(disabled := true, cleanupOnly := true, quarantined := false,
                                                     owner := Some(owner)))
    {
      outcome := Handle();
      AllWorks(calls);
      TakenMeans(log);
      UnfencedMeansResumed(q, log);
      if forall k :: works(k) && others(k).None? && countAt(k) == countAt(0) {
        AllSmooth(calls);
      }
    }
  }

  // ---- What the discipline means ----

  /** The provisioner is quiesced here: by a fence nobody has lifted since, or by the caller. */
  ghost predicate FenceUp(q: Request, log: seq<Event>, i: nat)
    requires i <= |log|
  {
    || (q.alreadyFenced && forall k :: 0 <= k < i ==> log[k] != Resumed)
    || exists f :: 0 <= f < i && log[f] == Fenced && NotResumed(log, f, i)
  }

  predicate NotResumed(log: seq<Event>, from: nat, i: nat)
    requires i <= |log|
  {
    forall k :: from <= k < i ==> log[k] != Resumed
  }

  /** The record last read or written behind the fence. */
  function LastRecord(log: seq<Event>): Option<Record> {
    if log == [] then None else
      match log[|log| - 1]
      case Read(r) => r
      case Written(r) => Some(r)
      case Fenced => None
      case Resumed => None
      case _ => LastRecord(log[..|log| - 1])
  }

  /** Nothing but the tombstone may have changed. */
  predicate SameIdentity(r: Option<Record>, s: Option<Record>) {
    && r.Some? && s.Some? && r.value.owner == s.value.owner && r.value.volumeId == s.value.volumeId
    && r.value.cleanupOnly == s.value.cleanupOnly && r.value.quarantined == s.value.quarantined
    && r.value.external == s.value.external && r.value.rest == s.value.rest
  }

  /** The class went at `c`, with the record then known cleanup-only and of the identity it still has,
      and nobody has resumed the provisioner since. */
  predicate GoneAt(log: seq<Event>, c: nat, i: nat)
    requires i <= |log|
  {
    && c < i && log[c] == ClassGone && NotResumed(log, c, i)
    && SameIdentity(LastRecord(log[..c]), LastRecord(log[..i]))
    && var r := LastRecord(log[..c]).value;
       r.cleanupOnly || (r.disabled && r.owner.Some? && ORPHAN <= r.owner.value)
  }

  /** And a zero count was taken later, at `n`. */
  predicate DrainedAt(log: seq<Event>, c: nat, n: nat, i: nat)
    requires i <= |log|
  {
    GoneAt(log, c, i) && c < n < i && log[n] == Counted(0)
  }

  /** And the record was read once more after that, at `r`, unchanged. */
  predicate ConfirmedAt(log: seq<Event>, c: nat, n: nat, r: nat, i: nat)
    requires i <= |log|
  {
    && DrainedAt(log, c, n, i) && n < r < i && log[r].Read?
    && SameIdentity(LastRecord(log[..c]), log[r].record)
  }

  lemma KnownStep(q: Request, log: seq<Event>, i: nat)
    requires 0 < i <= |log|
    ensures Known(q, log[..i]) == After(Known(q, log[..i - 1]), log[i - 1])
  {
    assert log[..i][..i - 1] == log[..i - 1];
  }

  lemma {:induction false} FenceIsUp(q: Request, log: seq<Event>, i: nat)
    requires i <= |log| && Known(q, log[..i]).fenced
    ensures FenceUp(q, log, i)
  {
    if i > 0 {
      KnownStep(q, log, i);
      if log[i - 1] == Fenced {
        assert NotResumed(log, i - 1, i);
      } else {
        FenceIsUp(q, log, i - 1);
        forall f | 0 <= f < i - 1 && NotResumed(log, f, i - 1) ensures NotResumed(log, f, i) {
        }
      }
    }
  }

  lemma {:induction false} RecordIsLast(q: Request, log: seq<Event>)
    ensures Known(q, log).record == LastRecord(log)
    decreases |log|
  {
    if log != [] {
      RecordIsLast(q, log[..|log| - 1]);
    }
  }

  /** An event that keeps the class gone keeps the record's identity. */
  lemma GoneStays(q: Request, log: seq<Event>, c: nat, i: nat)
    requires 0 < i <= |log| && GoneAt(log, c, i - 1) && Known(q, log[..i]).classGone && log[i - 1] != ClassGone
    requires Known(q, log[..i]).fenced
    ensures GoneAt(log, c, i)
  {
    KnownStep(q, log, i);
    RecordIsLast(q, log[..i]);
    RecordIsLast(q, log[..i - 1]);
  }

  lemma {:induction false} ClassIsGone(q: Request, log: seq<Event>, i: nat) returns (c: nat)
    requires i <= |log| && Known(q, log[..i]).classGone && Known(q, log[..i]).fenced
    ensures GoneAt(log, c, i)
  {
    KnownStep(q, log, i);
    if log[i - 1] == ClassGone {
      c := i - 1;
      RecordIsLast(q, log[..i]);
      RecordIsLast(q, log[..i - 1]);
    } else {
      c := ClassIsGone(q, log, i - 1);
      GoneStays(q, log, c, i);
    }
  }

  lemma {:induction false} CountIsZero(q: Request, log: seq<Event>, i: nat) returns (c: nat, n: nat)
    requires i <= |log| && Known(q, log[..i]).zero && Known(q, log[..i]).classGone && Known(q, log[..i]).fenced
    ensures DrainedAt(log, c, n, i)
  {
    KnownStep(q, log, i);
    if log[i - 1] == Counted(0) {
      c := ClassIsGone(q, log, i);
      n := i - 1;
    } else {
      c, n := CountIsZero(q, log, i - 1);
      GoneStays(q, log, c, i);
    }
  }

  lemma {:induction false} RecordIsConfirmed(q: Request, log: seq<Event>, i: nat) returns (c: nat, n: nat, r: nat)
    requires i <= |log| && Entitled(Known(q, log[..i]))
    ensures ConfirmedAt(log, c, n, r, i)
  {
    KnownStep(q, log, i);
    if log[i - 1].Read? {
      c, n := CountIsZero(q, log, i - 1);
      r := i - 1;
      GoneStays(q, log, c, i);
      RecordIsLast(q, log[..i]);
      RecordIsLast(q, log[..i - 1]);
    } else {
      c, n, r := RecordIsConfirmed(q, log, i - 1);
      GoneStays(q, log, c, i);
    }
  }

  /** Servers, Service and record go only behind an unlifted fence, after the class went while the record
      was cleanup-only, after a count taken later was zero, and after the record was then read once more
      with the identity it had when the class went. */
  lemma DestructionIsEarned(q: Request, log: seq<Event>, i: nat)
    requires Disciplined(q, log) && i < |log| && log[i] in {ServersDeleted, ServiceDeleted, RecordDeleted}
    ensures FenceUp(q, log, i)
    ensures exists c: nat, n: nat, r: nat :: ConfirmedAt(log, c, n, r, i)
  {
    assert EventOk(q, Known(q, log[..i]), TakenBy(log[..i]), log[i]);
    FenceIsUp(q, log, i);
    var c, n, r := RecordIsConfirmed(q, log, i);
  }

  lemma TakenStep(log: seq<Event>, i: nat)
    requires 0 < i <= |log|
    ensures TakenBy(log[..i]) == Took(TakenBy(log[..i - 1]), log[i - 1])
  {
    assert log[..i][..i - 1] == log[..i - 1];
  }

  lemma {:induction false} ServersWent(log: seq<Event>, i: nat) returns (s: nat)
    requires i <= |log| && TakenBy(log[..i]).servers
    ensures s < i && log[s] == ServersDeleted
  {
    TakenStep(log, i);
    if log[i - 1] == ServersDeleted {
      s := i - 1;
    } else {
      s := ServersWent(log, i - 1);
    }
  }

  lemma {:induction false} ServiceWent(log: seq<Event>, i: nat) returns (s: nat, v: nat)
    requires i <= |log| && TakenBy(log[..i]).service
    ensures s < v < i && log[s] == ServersDeleted && log[v] == ServiceDeleted
  {
    TakenStep(log, i);
    if log[i - 1] == ServiceDeleted && TakenBy(log[..i - 1]).servers {
      s := ServersWent(log, i - 1);
      v := i - 1;
    } else {
      s, v := ServiceWent(log, i - 1);
    }
  }

  lemma {:induction false} ServersStayGone(log: seq<Event>, k: nat, i: nat)
    requires k < i <= |log| && log[k] == ServersDeleted
    ensures TakenBy(log[..i]).servers
  {
    TakenStep(log, i);
    if k < i - 1 {
      ServersStayGone(log, k, i - 1);
    }
  }

  lemma NothingWent(q: Request, log: seq<Event>, i: nat, k: nat)
    requires Disciplined(q, log) && k < i <= |log| && !TakenBy(log[..i]).servers
    ensures log[k] != ServersDeleted && log[k] != ServiceDeleted
  {
    assert EventOk(q, Known(q, log[..k]), TakenBy(log[..k]), log[k]);
    if log[k] == ServersDeleted {
      ServersStayGone(log, k, i);
    }
    if log[k] == ServiceDeleted {
      var s := ServersWent(log, k);
      ServersStayGone(log, s, i);
    }
  }

  /** What goes: of a native pool the servers, then the Service, then the record; of an external pool, whose
      servers somebody else runs, the record alone. */
  lemma WhatIsDeleted(q: Request, log: seq<Event>, i: nat)
    requires Disciplined(q, log) && i < |log|
    requires log[i] in {ServersDeleted, ServiceDeleted, RecordDeleted}
    ensures var last := LastRecord(log[..i]);
            && last.Some? && last.value.valid && last.value.owner.Some? && last.value.owner.value != ""
            && (q.uid.Some? && q.uid.value != "" ==> last.value.owner == q.uid)
            && (last.value.external ==>
                  && log[i] == RecordDeleted
                  && forall k :: 0 <= k < i ==> log[k] != ServersDeleted && log[k] != ServiceDeleted)
            && (!last.value.external && log[i] == ServiceDeleted ==> exists s: nat :: s < i && log[s] == ServersDeleted)
            && (!last.value.external && log[i] == RecordDeleted ==>
                  exists s: nat, v: nat :: s < v < i && log[s] == ServersDeleted && log[v] == ServiceDeleted)
  {
    assert EventOk(q, Known(q, log[..i]), TakenBy(log[..i]), log[i]);
    RecordIsLast(q, log[..i]);
    if LastRecord(log[..i]).value.external {
      forall k | 0 <= k < i ensures log[k] != ServersDeleted && log[k] != ServiceDeleted {
        NothingWent(q, log, i, k);
      }
    } else if log[i] == ServiceDeleted {
      var s := ServersWent(log, i);
    } else if log[i] == RecordDeleted {
      var s, v := ServiceWent(log, i);
    }
  }

  predicate Seals(e: Event) {
    match e
    case Read(r) => r.None? || r.value.disabled || r.value.cleanupOnly
    case Written(r) => r.disabled || r.cleanupOnly
    case _ => false
  }

  /** The fence went up at `f` and nobody has touched it since. */
  predicate FencedAt(log: seq<Event>, f: nat, i: nat)
    requires i <= |log|
  {
    f < i && log[f] == Fenced && forall j :: f < j < i ==> log[j] != Fenced && log[j] != Resumed
  }

  lemma {:induction false} LastFence(q: Request, log: seq<Event>, i: nat) returns (f: nat)
    requires i <= |log| && !q.alreadyFenced && Known(q, log[..i]).fenced
    ensures FencedAt(log, f, i)
  {
    KnownStep(q, log, i);
    if log[i - 1] == Fenced {
      f := i - 1;
    } else {
      f := LastFence(q, log, i - 1);
    }
  }

  lemma {:induction false} SealedBehindFence(q: Request, log: seq<Event>, i: nat) returns (f: nat, k: nat)
    requires i <= |log| && !q.alreadyFenced && Known(q, log[..i]).fenced && Known(q, log[..i]).sealed
    ensures FencedAt(log, f, i) && f < k < i && Seals(log[k])
  {
    KnownStep(q, log, i);
    if Seals(log[i - 1]) {
      f := LastFence(q, log, i - 1);
      k := i - 1;
    } else {
      f, k := SealedBehindFence(q, log, i - 1);
    }
  }

  /** Outside the legacy path the provisioner is resumed only by the run that fenced it, and only after,
      behind that very fence, the record was found absent or tombstoned, or the tombstone was written. */
  lemma ResumedOnlySealed(q: Request, log: seq<Event>, i: nat)
    requires Disciplined(q, log) && !Legacy(q) && i < |log| && log[i] == Resumed
    ensures exists f: nat, k: nat :: FencedAt(log, f, i) && f < k < i && Seals(log[k])
  {
    assert EventOk(q, Known(q, log[..i]), TakenBy(log[..i]), log[i]);
    var f, k := SealedBehindFence(q, log, i);
  }

  /** The identity that is compared again leaves `provisioning_disabled` out: a record found with the
      same identity is still cleanup-only if and only if it carries the cleanup field, or is an orphan
      whose tombstone nobody has lifted. */
  lemma IdentityKeepsTombstoneIff(expected: Record, current: Record)
    requires CleanupOnly(expected) && Identity(current) == Identity(expected)
    ensures CleanupOnly(current) <==> expected.cleanupOnly || current.disabled
  {
  }

  /** At every destruction the record last read is still cleanup-only if and only if it carries the cleanup
      field or nobody has lifted `provisioning_disabled`. */
  lemma DestroyedTombstonedIff(q: Request, log: seq<Event>, i: nat)
    requires Disciplined(q, log) && i < |log| && log[i] in {ServersDeleted, ServiceDeleted, RecordDeleted}
    ensures var last := LastRecord(log[..i]);
            last.Some? && (CleanupOnly(last.value) <==> last.value.cleanupOnly || last.value.disabled)
  {
    assert EventOk(q, Known(q, log[..i]), TakenBy(log[..i]), log[i]);
    var c, n, r := RecordIsConfirmed(q, log, i);
    IdentityKeepsTombstoneIff(LastRecord(log[..c]).value, LastRecord(log[..i]).value);
  }

  /** An orphaned pool under its tombstone, and with the tombstone lifted. */
  const ORPHANED: Record := Record(Some(ORPHAN + "id"), false, false, true, false, true, "id", 0)
  const LIFTED: Record := ORPHANED.(disabled := false)
  const REQUEST: Request := Request(None, ORPHANED, true, true, None, false, false)

  /** Somebody lifts the tombstone between the count and the read that confirms the record. */
  const LIFTED_LOG: seq<Event> := [Read(Some(ORPHANED)), ClassGone, Counted(0), Read(Some(LIFTED)), ServersDeleted]

  lemma LiftedLogIsKnown()
    ensures Known(REQUEST, LIFTED_LOG[..1]) == Knowledge(true, true, Some(ORPHANED), false, false, false)
    ensures Known(REQUEST, LIFTED_LOG[..2]) == Knowledge(true, true, Some(ORPHANED), true, false, false)
    ensures Known(REQUEST, LIFTED_LOG[..3]) == Knowledge(true, true, Some(ORPHANED), true, true, false)
    ensures Known(REQUEST, LIFTED_LOG[..4]) == Knowledge(true, true, Some(LIFTED), true, true, true)
  {
    assert Orphaned(ORPHANED);
    KnownStep(REQUEST, LIFTED_LOG, 1);
    KnownStep(REQUEST, LIFTED_LOG, 2);
    KnownStep(REQUEST, LIFTED_LOG, 3);
    KnownStep(REQUEST, LIFTED_LOG, 4);
  }

  /** Destruction goes on although new volumes may be admitted again. */
  lemma LiftedTombstoneIsDestroyed()
    ensures Disciplined(REQUEST, LIFTED_LOG) && Destructive(LIFTED_LOG[4])
    ensures LastRecord(LIFTED_LOG[..4]) == Some(LIFTED) && !Tombstoned(LIFTED)
  {
    LiftedLogIsKnown();
    RecordIsLast(REQUEST, LIFTED_LOG[..4]);
  }
}
