/** `_rebuild_committed_capacity` (csi/volumeutils.py): the index is repaired from the files. */
module Rebuild {
  import opened Base
  import opened Records
  import opened Accounting

  /** Aliases under which some reserved archive used to be accounted, and which nothing reserves now. */
  function Obsolete(r: CapacityRecords): set<Id> {
    set id, alias | id in r.reservations && alias in ObsoleteFor(r, id) :: alias
  }

  function ObsoleteFor(r: CapacityRecords, id: Id): set<Id> {
    if id in r.aliases then r.aliases[id] - r.reservations.Keys else {}
  }

  /** The rebuilt index as a function of the old one and of the files. */
  function Rebuilt(rows: map<Id, int>, r: CapacityRecords): map<Id, int> {
    (rows - (r.tombstones - r.reservations.Keys) - Obsolete(r)) + r.reservations
  }

  ghost predicate PositiveReservations(r: CapacityRecords)
  {
    ValidRows(r.reservations)
  }

  lemma {:induction false} ScanIsPositive(es: seq<Entry>)
    ensures ScanOf(es).Success? ==>
              && ValidRows(ScanOf(es).value.committed)
              && (forall id :: id in ScanOf(es).value.creations ==> 0 < ScanOf(es).value.creations[id].size)
              && forall id :: id in ScanOf(es).value.expansions ==> 0 < ScanOf(es).value.expansions[id].toSize
  {
    if es != [] {
      ScanIsPositive(es[..|es| - 1]);
    }
  }

  lemma ParseIsPositive(es: seq<Entry>)
    ensures Parse(es).Success? ==> PositiveReservations(Parse(es).value)
  {
    ScanIsPositive(es);
  }

  /** The rebuild inside whatever transaction the connection has open. */
  method RebuildCommittedCapacity(acc: SizeAccounting, es: seq<Entry>) returns (r: Result<CapacityRecords>)
    requires acc.Valid()
    modifies acc
    ensures acc.Valid() && acc.transactionActive == old(acc.transactionActive) && acc.summary == old(acc.summary)
    ensures r == Parse(es)
    ensures acc.rows == if r.Success? then Rebuilt(old(acc.rows), r.value) else old(acc.rows)
    ensures acc.transactionActive || r.Failure? ==>
              acc.committedRows == old(acc.committedRows) && acc.committedSummary == old(acc.committedSummary)
  {
    r := CapacityMetadataRecords(es);
    if r.Failure? {
      return;
    }
    ParseIsPositive(es);
    ghost var rows := acc.rows;
    var records := r.value;
    var dead := records.tombstones - records.reservations.Keys;
    RemoveAll(acc, dead);
    var ids := records.reservations.Keys;
    ghost var done: set<Id> := {};
    assert acc.rows == Progress(rows, records, {});
    while ids != {}
      invariant acc.Valid() && acc.transactionActive == old(acc.transactionActive) && acc.summary == old(acc.summary)
      invariant acc.transactionActive ==>
                  acc.committedRows == old(acc.committedRows) && acc.committedSummary == old(acc.committedSummary)
      invariant ids !! done && ids + done == records.reservations.Keys
      invariant acc.rows == Progress(rows, records, done)
    {
      var id :| id in ids;
      ProgressStep(rows, records, done, id);
      RepairRecord(acc, ObsoleteFor(records, id), id, records.reservations[id]);
      ids, done := ids - {id}, done + {id};
    }
    assert done == records.reservations.Keys;
    ProgressComplete(rows, records);
  }

  /** One reservation: its obsolete aliases are folded into it, then its size is corrected. */
  method RepairRecord(acc: SizeAccounting, obsolete: set<Id>, id: Id, size: int)
    requires acc.Valid() && 0 < size && id !in obsolete
    modifies acc
    ensures acc.Valid() && acc.transactionActive == old(acc.transactionActive) && acc.summary == old(acc.summary)
    ensures acc.transactionActive ==>
              acc.committedRows == old(acc.committedRows) && acc.committedSummary == old(acc.committedSummary)
    ensures acc.rows == (old(acc.rows) - obsolete)[id := size]
  {
    if obsolete != {} {
      var first :| first in obsolete;
      var _ := acc.RenamePvRecord(first, id, size);
      RemoveAll(acc, obsolete - {first});
    }
    var accounted := acc.GetPvSize(id);
    if accounted != size {
      var _ := acc.UpdatePvRecord(id, size);
    }
  }

  method RemoveAll(acc: SizeAccounting, names: set<Id>)
    requires acc.Valid()
    modifies acc
    ensures acc.Valid() && acc.transactionActive == old(acc.transactionActive) && acc.summary == old(acc.summary)
    ensures acc.transactionActive ==>
              acc.committedRows == old(acc.committedRows) && acc.committedSummary == old(acc.committedSummary)
    ensures acc.rows == old(acc.rows) - names
  {
    var left := names;
    while left != {}
      invariant acc.Valid() && acc.transactionActive == old(acc.transactionActive) && acc.summary == old(acc.summary)
      invariant acc.transactionActive ==>
                  acc.committedRows == old(acc.committedRows) && acc.committedSummary == old(acc.committedSummary)
      invariant left <= names && acc.rows == old(acc.rows) - (names - left)
    {
      var name :| name in left;
      acc.RemovePvRecord(name);
      left := left - {name};
    }
  }

  /** The index once the reservations in `done` have been processed. */
  ghost function Progress(rows: map<Id, int>, r: CapacityRecords, done: set<Id>): map<Id, int>
    requires done <= r.reservations.Keys
  {
    (rows - (r.tombstones - r.reservations.Keys) - ObsoleteOf(r, done))
    + (map id | id in done :: r.reservations[id])
  }

  ghost function ObsoleteOf(r: CapacityRecords, done: set<Id>): set<Id>
    requires done <= r.reservations.Keys
  {
    set id, alias | id in done && alias in ObsoleteFor(r, id) :: alias
  }

  lemma ProgressStep(rows: map<Id, int>, r: CapacityRecords, done: set<Id>, id: Id)
    requires done <= r.reservations.Keys && id in r.reservations
    ensures Progress(rows, r, done + {id})
            == (Progress(rows, r, done) - ObsoleteFor(r, id))[id := r.reservations[id]]
  {
    assert ObsoleteOf(r, done + {id}) == ObsoleteOf(r, done) + ObsoleteFor(r, id);
  }

  lemma ProgressComplete(rows: map<Id, int>, r: CapacityRecords)
    ensures Progress(rows, r, r.reservations.Keys) == Rebuilt(rows, r)
  {
    assert ObsoleteOf(r, r.reservations.Keys) == Obsolete(r);
    assert (map id | id in r.reservations.Keys :: r.reservations[id]) == r.reservations;
  }

  // ---- What the rebuilt index promises ----

  /** Every durable reservation is charged in full, so the bytes in use are at least the durable sum. */
  lemma RebuiltCovers(rows: map<Id, int>, r: CapacityRecords)
    requires ValidRows(rows) && PositiveReservations(r)
    ensures ValidRows(Rebuilt(rows, r))
    ensures forall id :: id in r.reservations ==> id in Rebuilt(rows, r) && Rebuilt(rows, r)[id] == r.reservations[id]
    ensures Sum(r.reservations) <= Sum(Rebuilt(rows, r))
  {
    SumCovers(r.reservations, Rebuilt(rows, r));
  }

  /** Rebuilding twice from the same files changes nothing more. */
  lemma RebuiltIsIdempotent(rows: map<Id, int>, r: CapacityRecords)
    ensures Rebuilt(Rebuilt(rows, r), r) == Rebuilt(rows, r)
  {
    assert Obsolete(r) !! r.reservations.Keys;
  }

  /** A row disappears exactly when a tombstone released it or it is an obsolete alias;
      a row nothing in the pool knows about stays as it was. */
  lemma RebuiltRows(rows: map<Id, int>, r: CapacityRecords, k: Id)
    ensures k in Rebuilt(rows, r) <==>
            || k in r.reservations
            || (k in rows && k !in r.tombstones
                && forall id :: id in r.reservations && id in r.aliases ==> k !in r.aliases[id])
    ensures k in Rebuilt(rows, r) && k !in r.reservations ==> Rebuilt(rows, r)[k] == rows[k]
  {
    assert k in Obsolete(r) <==> exists id :: id in r.reservations && k in ObsoleteFor(r, id);
  }
}
