/**
 `_capacity_metadata_records` (csi/volumeutils.py): one walk over a pool's `info` directory and
 the capacity records it yields. Path canonicality and JSON decoding are already decided in an
 `Entry`: what fails them is `None`.
 */
module Records {
  import opened Base

  datatype State = Active | Archiving | Archived | Reclaiming | Deleting

  datatype CreationIntent = CreationIntent(id: Id, size: int, incarnation: nat)
  datatype ExpansionIntent = ExpansionIntent(id: Id, fromSize: int, toSize: int)

  /** The id a metadata file reserves under, and the id an archive used to be accounted under. */
  datatype Identity = Identity(id: Id, alias: Option<Id>)

  datatype Entry =
    | CreateFile(create: Option<CreationIntent>)
    | ExpandFile(expand: Option<ExpansionIntent>)
    | MetadataFile(size: int, identity: Option<Identity>, state: State, payloadExists: Option<bool>)
    | OtherFile

  datatype CapacityRecords =
    CapacityRecords(reservations: map<Id, int>, aliases: map<Id, set<Id>>, tombstones: set<Id>)

  predicate Tombstone(state: State) {
    state == Deleting || state == Reclaiming
  }

  /** What the walk has collected so far. */
  datatype Scan = Scan(committed: map<Id, int>, aliases: map<Id, set<Id>>, tombstones: set<Id>, seen: set<Id>,
                       creations: map<Id, CreationIntent>, expansions: map<Id, ExpansionIntent>)

  const NOTHING: Scan := Scan(map[], map[], {}, {}, map[], map[])

  /** A delete or reclaim tombstone whose payload is gone no longer reserves anything. */
  predicate Released(e: Entry)
    requires e.MetadataFile?
  {
    Tombstone(e.state) && e.payloadExists == Some(false)
  }

  predicate Sound(e: Entry) {
    match e
    case CreateFile(c) => c.Some? && 0 < c.value.size
    case ExpandFile(x) => x.Some? && 0 < x.value.fromSize < x.value.toSize
    case MetadataFile(size, identity, state, payload) =>
      0 < size && identity.Some? && (Tombstone(state) ==> payload.Some?)
    case OtherFile => true
  }

  /** No file seen so far claims this file's identity. */
  predicate IsNew(s: Scan, e: Entry) {
    match e
    case CreateFile(Some(c)) => c.id !in s.creations
    case ExpandFile(Some(x)) => x.id !in s.expansions
    case MetadataFile(_, Some(i), _, _) => i.id !in s.seen
    case _ => true
  }

  function Absorb(s: Scan, e: Entry): Scan
    requires Sound(e)
  {
    match e
    case CreateFile(c) => s.(creations := s.creations[c.value.id := c.value])
    case ExpandFile(x) => s.(expansions := s.expansions[x.value.id := x.value])
    case MetadataFile(size, identity, state, payload) =>
      var Identity(id, alias) := identity.value;
      var t := s.(seen := s.seen + {id});
      if Released(e) then
        t.(tombstones := if alias.Some? then t.tombstones + {id} + {alias.value} else t.tombstones + {id})
      else
        t.(committed := t.committed[id := size],
           aliases := if alias.Some? then t.aliases[id := {alias.value}] else t.aliases)
    case OtherFile => s
  }

  function ScanOf(es: seq<Entry>): Result<Scan> {
    if es == [] then Success(NOTHING) else
      var before, e := ScanOf(es[..|es| - 1]), es[|es| - 1];
      if before.Success? && Sound(e) && IsNew(before.value, e) then Success(Absorb(before.value, e)) else Failure
  }

  /** Sizes added on top of `base`, tombstoned ids excepted. */
  function Overlay(base: map<Id, int>, tombstones: set<Id>, sizes: map<Id, int>): map<Id, int> {
    base + (sizes - tombstones)
  }

  function CreationSizes(creations: map<Id, CreationIntent>): map<Id, int> {
    map id | id in creations :: creations[id].size
  }

  function ExpansionSizes(expansions: map<Id, ExpansionIntent>): map<Id, int> {
    map id | id in expansions :: expansions[id].toSize
  }

  predicate CreationAgrees(committed: map<Id, int>, tombstones: set<Id>, id: Id, intent: CreationIntent) {
    id in tombstones || id !in committed || committed[id] == intent.size
  }

  predicate ExpansionAgrees(reserved: map<Id, int>, tombstones: set<Id>, id: Id, intent: ExpansionIntent) {
    id in tombstones || id !in reserved || reserved[id] == intent.fromSize || reserved[id] == intent.toSize
  }

  predicate CreationsAgree(s: Scan) {
    forall id :: id in s.creations ==> CreationAgrees(s.committed, s.tombstones, id, s.creations[id])
  }

  function WithCreations(s: Scan): map<Id, int> {
    Overlay(s.committed, s.tombstones, CreationSizes(s.creations))
  }

  predicate ExpansionsAgree(s: Scan) {
    forall id :: id in s.expansions ==> ExpansionAgrees(WithCreations(s), s.tombstones, id, s.expansions[id])
  }

  /** Create intents reserve their exact size, expand intents their target. */
  function Conclude(s: Scan): Result<CapacityRecords> {
    if CreationsAgree(s) && ExpansionsAgree(s) then
      Success(CapacityRecords(Overlay(WithCreations(s), s.tombstones, ExpansionSizes(s.expansions)), s.aliases,
          s.tombstones))
    else
      Failure
  }

  function Parse(es: seq<Entry>): Result<CapacityRecords> {
    var scan := ScanOf(es);
    if scan.Success? then Conclude(scan.value) else Failure
  }

  // ---- The walk as the code performs it ----

  method CapacityMetadataRecords(es: seq<Entry>) returns (r: Result<CapacityRecords>)
    ensures r == Parse(es)
  {
    var reservations: map<Id, int> := map[];
    var aliases: map<Id, set<Id>> := map[];
    var tombstones: set<Id> := {};
    var seen: set<Id> := {};
    var creations: map<Id, CreationIntent> := map[];
    var expansions: map<Id, ExpansionIntent> := map[];
    for i := 0 to |es|
      invariant ScanOf(es[..i]) == Success(Scan(reservations, aliases, tombstones, seen, creations, expansions))
    {
      var e := es[i];
      assert es[..i + 1][..i] == es[..i];
      FailureIsFinal(es, i + 1);
      match e {
        case CreateFile(create) =>
          if create.None? || create.value.size <= 0 || create.value.id in creations {
            return Failure;
          }
          creations := creations[create.value.id := create.value];
        case ExpandFile(expand) =>
          if expand.None? || !(0 < expand.value.fromSize < expand.value.toSize) || expand.value.id in expansions {
            return Failure;
          }
          expansions := expansions[expand.value.id := expand.value];
        case MetadataFile(size, identity, state, payloadExists) =>
          if size <= 0 || identity.None? {
            return Failure;
          }
          var id, alias := identity.value.id, identity.value.alias;
          if id in seen {
            return Failure;
          }
          seen := seen + {id};
          var released := false;
          if Tombstone(state) {
            if payloadExists.None? {
              return Failure;
            }
            released := !payloadExists.value;
          }
          if released {
            tombstones := tombstones + {id};
            if alias.Some? {
              tombstones := tombstones + {alias.value};
            }
          } else {
            reservations := reservations[id := size];
            if alias.Some? {
              aliases := aliases[id := {alias.value}];
            }
          }
        case OtherFile =>
      }
    }
    assert es[..|es|] == es;
    ghost var scan := Scan(reservations, aliases, tombstones, seen, creations, expansions);
    var created := OverlayCreations(reservations, tombstones, creations);
    if created.Failure? {
      assert !CreationsAgree(scan);
      return Failure;
    }
    var expanded := OverlayExpansions(created.value, tombstones, expansions);
    if expanded.Failure? {
      assert !ExpansionsAgree(scan);
      return Failure;
    }
    r := Success(CapacityRecords(expanded.value, aliases, tombstones));
  }

  method OverlayCreations(committed: map<Id, int>, tombstones: set<Id>, creations: map<Id, CreationIntent>)
    returns (r: Result<map<Id, int>>)
    ensures r.Success? <==>
            forall id :: id in creations ==> CreationAgrees(committed, tombstones, id, creations[id])
    ensures r.Success? ==> r.value == Overlay(committed, tombstones, CreationSizes(creations))
    ensures r.Success? <==>
            forall id :: id in creations && id !in tombstones && id in committed ==> committed[id] == creations[id].size
    ensures r.Success? ==> forall id ::
                && (id in r.value <==> id in committed || (id in creations && id !in tombstones))
                && (id in r.value ==>
                      r.value[id] == if id in creations && id !in tombstones then creations[id].size else committed[id])
  {
    var reservations := committed;
    var pending := creations.Keys;
    ghost var applied: map<Id, int> := map[];
    while pending != {}
      invariant AppliedSoFar(CreationSizes(creations), applied, pending)
      invariant reservations == Overlay(committed, tombstones, applied)
      invariant CreationsAgreeSoFar(committed, tombstones, creations, pending)
    {
      var id :| id in pending;
      if id !in tombstones {
        if id in reservations && reservations[id] != creations[id].size {
          assert !CreationAgrees(committed, tombstones, id, creations[id]);
          return Failure;
        }
        reservations := reservations[id := creations[id].size];
      }
      OverlayStep(committed, tombstones, applied, id, creations[id].size);
      applied := applied[id := creations[id].size];
      pending := pending - {id};
    }
    assert applied == CreationSizes(creations);
    r := Success(reservations);
  }

  method OverlayExpansions(created: map<Id, int>, tombstones: set<Id>, expansions: map<Id, ExpansionIntent>)
    returns (r: Result<map<Id, int>>)
    ensures r.Success? <==>
            forall id :: id in expansions ==> ExpansionAgrees(created, tombstones, id, expansions[id])
    ensures r.Success? ==> r.value == Overlay(created, tombstones, ExpansionSizes(expansions))
    ensures r.Success? <==>
            forall id :: id in expansions && id !in tombstones && id in created ==>
              created[id] == expansions[id].fromSize || created[id] == expansions[id].toSize
    ensures r.Success? ==> forall id ::
                && (id in r.value <==> id in created || (id in expansions && id !in tombstones))
                && (id in r.value ==>
                      r.value[id] == if id in expansions && id !in tombstones then expansions[id].toSize
                                     else created[id])
  {
    var reservations := created;
    var pending := expansions.Keys;
    ghost var applied: map<Id, int> := map[];
    while pending != {}
      invariant AppliedSoFar(ExpansionSizes(expansions), applied, pending)
      invariant reservations == Overlay(created, tombstones, applied)
      invariant ExpansionsAgreeSoFar(created, tombstones, expansions, pending)
    {
      var id :| id in pending;
      if id !in tombstones {
        if id in reservations && reservations[id] != expansions[id].fromSize
           && reservations[id] != expansions[id].toSize {
          assert !ExpansionAgrees(created, tombstones, id, expansions[id]);
          return Failure;
        }
        reservations := reservations[id := expansions[id].toSize];
      }
      OverlayStep(created, tombstones, applied, id, expansions[id].toSize);
      applied := applied[id := expansions[id].toSize];
      pending := pending - {id};
    }
    assert applied == ExpansionSizes(expansions);
    r := Success(reservations);
  }

  ghost predicate AppliedSoFar(sizes: map<Id, int>, applied: map<Id, int>, pending: set<Id>)
  {
    && pending <= sizes.Keys
    && (forall id :: id in applied <==> id in sizes && id !in pending)
    && forall id :: id in applied ==> applied[id] == sizes[id]
  }

  ghost predicate CreationsAgreeSoFar(committed: map<Id, int>, tombstones: set<Id>,
                                      creations: map<Id, CreationIntent>, pending: set<Id>)
  {
    forall id :: id in creations && id !in pending ==> CreationAgrees(committed, tombstones, id, creations[id])
  }

  ghost predicate ExpansionsAgreeSoFar(created: map<Id, int>, tombstones: set<Id>,
                                       expansions: map<Id, ExpansionIntent>, pending: set<Id>)
  {
    forall id :: id in expansions && id !in pending ==> ExpansionAgrees(created, tombstones, id, expansions[id])
  }

  lemma OverlayStep(base: map<Id, int>, tombstones: set<Id>, applied: map<Id, int>, id: Id, size: int)
    requires id !in applied
    ensures Overlay(base, tombstones, applied[id := size])
            == if id in tombstones then Overlay(base, tombstones, applied)
                else Overlay(base, tombstones, applied)[id := size]
  {
  }

  lemma {:induction false} FailureIsFinal(es: seq<Entry>, i: nat)
    requires i <= |es|
    ensures ScanOf(es[..i]).Failure? ==> ScanOf(es).Failure?
    decreases |es| - i
  {
    if i == |es| {
      assert es[..i] == es;
    } else {
      assert es[..i + 1][..i] == es[..i];
      FailureIsFinal(es, i + 1);
    }
  }

  // ---- The order of the walk ----

  /** Two files that claim one identity: the same metadata id, or an intent of one kind for the same id. */
  predicate Clash(e: Entry, f: Entry) {
    match (e, f)
    case (CreateFile(Some(c)), CreateFile(Some(d))) => c.id == d.id
    case (ExpandFile(Some(c)), ExpandFile(Some(d))) => c.id == d.id
    case (MetadataFile(_, Some(i), _, _), MetadataFile(_, Some(j), _, _)) => i.id == j.id
    case _ => false
  }

  ghost predicate AllSound(es: seq<Entry>)
  {
    forall i :: 0 <= i < |es| ==> Sound(es[i])
  }

  ghost predicate NoClash(es: seq<Entry>)
  {
    forall i, j :: 0 <= i < j < |es| ==> !Clash(es[i], es[j])
  }

  /** What one more file adds to the identities already taken. */
  lemma IsNewAfter(s: Scan, e: Entry, f: Entry)
    requires Sound(e) && Sound(f)
    ensures IsNew(Absorb(s, e), f) <==> IsNew(s, f) && !Clash(e, f)
  {
  }

  /** What makes a file bad: an intent that does not decode or has no sensible sizes, metadata without a
      positive size or an identity of its own, and a tombstone whose payload cannot be looked up. */
  lemma BadFiles(e: Entry)
    ensures !Sound(e) <==>
              || (e.CreateFile? && (e.create.None? || e.create.value.size <= 0))
              || (e.ExpandFile? && (e.expand.None? || e.expand.value.fromSize <= 0
                                    || e.expand.value.toSize <= e.expand.value.fromSize))
              || (e.MetadataFile? && (e.size <= 0 || e.identity.None?
                                      || (e.state in {Deleting, Reclaiming} && e.payloadExists.None?)))
  {
  }

  lemma {:induction false} IsNewIff(es: seq<Entry>, f: Entry)
    requires ScanOf(es).Success? && Sound(f)
    ensures IsNew(ScanOf(es).value, f) <==> forall i :: 0 <= i < |es| ==> !Clash(es[i], f)
    decreases |es|
  {
    if es != [] {
      var before, e := es[..|es| - 1], es[|es| - 1];
      IsNewIff(before, f);
      IsNewAfter(ScanOf(before).value, e, f);
      assert forall i :: 0 <= i < |before| ==> before[i] == es[i];
    }
  }

  /** The walk fails on a bad file or a duplicate and on nothing else, wherever in the walk they are. */
  lemma {:induction false} ScanSucceedsIff(es: seq<Entry>)
    ensures ScanOf(es).Success? <==> AllSound(es) && NoClash(es)
    decreases |es|
  {
    if es != [] {
      var before, e := es[..|es| - 1], es[|es| - 1];
      ScanSucceedsIff(before);
      assert es == before + [e];
      assert AllSound(es) <==> AllSound(before) && Sound(e);
      ClashAtTheEnd(before, e);
      if ScanOf(before).Success? && Sound(e) {
        IsNewIff(before, e);
      }
    }
  }

  lemma ClashAtTheEnd(before: seq<Entry>, e: Entry)
    ensures NoClash(before + [e]) <==> NoClash(before) && forall i :: 0 <= i < |before| ==> !Clash(before[i], e)
  {
    var es := before + [e];
    if NoClash(es) {
      forall i | 0 <= i < |before| ensures !Clash(before[i], e) {
        assert !Clash(es[i], es[|before|]);
      }
      forall i, j | 0 <= i < j < |before| ensures !Clash(before[i], before[j]) {
        assert !Clash(es[i], es[j]);
      }
    }
  }

  lemma AbsorbCommutes(s: Scan, e: Entry, f: Entry)
    requires Sound(e) && Sound(f) && !Clash(e, f)
    ensures Absorb(Absorb(s, e), f) == Absorb(Absorb(s, f), e)
  {
    if e.MetadataFile? && f.MetadataFile? {
      if Released(e) {
        BurialCommutes(s, e, f);
      } else if Released(f) {
        BurialCommutes(s, f, e);
      } else {
        CommitsCommute(s, e, f);
      }
    } else if e.CreateFile? && f.CreateFile? {
      var c, d := e.create.value, f.create.value;
      assert s.creations[c.id := c][d.id := d] == s.creations[d.id := d][c.id := c];
    } else if e.ExpandFile? && f.ExpandFile? {
      var c, d := e.expand.value, f.expand.value;
      assert s.expansions[c.id := c][d.id := d] == s.expansions[d.id := d][c.id := c];
    }
  }

  lemma BurialCommutes(s: Scan, e: Entry, f: Entry)
    requires Sound(e) && Sound(f) && e.MetadataFile? && f.MetadataFile? && Released(e)
    ensures Absorb(Absorb(s, e), f) == Absorb(Absorb(s, f), e)
  {
    var t, u := Absorb(Absorb(s, e), f), Absorb(Absorb(s, f), e);
    assert t.seen == u.seen && t.tombstones == u.tombstones;
  }

  lemma CommitsCommute(s: Scan, e: Entry, f: Entry)
    requires Sound(e) && Sound(f) && e.MetadataFile? && f.MetadataFile? && !Released(e) && !Released(f)
    requires e.identity.value.id != f.identity.value.id
    ensures Absorb(Absorb(s, e), f) == Absorb(Absorb(s, f), e)
  {
    var t, u := Absorb(Absorb(s, e), f), Absorb(Absorb(s, f), e);
    var i, j := e.identity.value, f.identity.value;
    assert t.seen == u.seen;
    assert t.committed == u.committed by {
      assert s.committed[i.id := e.size][j.id := f.size] == s.committed[j.id := f.size][i.id := e.size];
    }
    assert t.aliases == u.aliases by {
      if i.alias.Some? && j.alias.Some? {
        var a, b := {i.alias.value}, {j.alias.value};
        assert s.aliases[i.id := a][j.id := b] == s.aliases[j.id := b][i.id := a];
      }
    }
  }

  lemma ScanOfNext(es: seq<Entry>, e: Entry)
    ensures var before := ScanOf(es);
            ScanOf(es + [e])
            == if before.Success? && Sound(e) && IsNew(before.value, e) then Success(Absorb(before.value, e))
               else Failure
  {
    assert (es + [e])[..|es|] == es;
  }

  lemma ScanOfSwapped(es: seq<Entry>, e: Entry, f: Entry)
    ensures ScanOf(es + [e] + [f]) == ScanOf(es + [f] + [e])
  {
    ScanOfNext(es, e);
    ScanOfNext(es, f);
    ScanOfNext(es + [e], f);
    ScanOfNext(es + [f], e);
    if ScanOf(es).Success? && Sound(e) && Sound(f) {
      IsNewAfter(ScanOf(es).value, e, f);
      IsNewAfter(ScanOf(es).value, f, e);
      if !Clash(e, f) {
        AbsorbCommutes(ScanOf(es).value, e, f);
      }
    }
  }

  /** A file met last instead of first changes nothing. */
  lemma {:induction false} ScanOfMoved(es: seq<Entry>, e: Entry, fs: seq<Entry>)
    ensures ScanOf(es + [e] + fs) == ScanOf(es + fs + [e])
    decreases |fs|
  {
    if fs == [] {
      assert es + [e] + fs == es + fs + [e];
    } else {
      var before, f := fs[..|fs| - 1], fs[|fs| - 1];
      ScanOfMoved(es, e, before);
      ScanOfNext(es + [e] + before, f);
      ScanOfNext(es + before + [e], f);
      assert es + [e] + fs == es + [e] + before + [f];
      ScanOfSwapped(es + before, e, f);
      assert es + fs + [e] == es + before + [f] + [e];
    }
  }

  /** The scan depends on which files there are, not on the order in which the walk meets them. */
  lemma {:induction false} ScanOfPermuted(es: seq<Entry>, fs: seq<Entry>)
    requires multiset(es) == multiset(fs)
    ensures ScanOf(es) == ScanOf(fs)
    decreases |es|
  {
    if es == [] {
      assert |multiset(fs)| == 0;
    } else {
      var before, e := es[..|es| - 1], es[|es| - 1];
      assert es == before + [e];
      assert e in multiset(fs);
      var k :| 0 <= k < |fs| && fs[k] == e;
      var rest := fs[..k] + fs[k + 1..];
      assert fs == fs[..k] + [e] + fs[k + 1..];
      assert multiset(before) == multiset(es) - multiset{e} == multiset(rest);
      ScanOfPermuted(before, rest);
      ScanOfNext(before, e);
      ScanOfNext(rest, e);
      ScanOfMoved(fs[..k], e, fs[k + 1..]);
    }
  }

  /** Whatever the files are, bad ones and duplicates included, the walk's answer is the same in any order. */
  lemma OrderIsIrrelevant(es: seq<Entry>, fs: seq<Entry>)
    requires multiset(es) == multiset(fs)
    ensures Parse(es) == Parse(fs)
  {
    ScanOfPermuted(es, fs);
  }
}
