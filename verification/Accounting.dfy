/** `SizeAccounting` (lib/kadalulib.py): one SQLite connection to a pool's `stat.db`. */
module Accounting {
  import opened Base

  datatype Stats = Stats(numberOfPvs: nat, totalBytes: int, usedBytes: int, freeBytes: int)

  /** The sizes SQLite may hold: `_valid_size` refuses everything else on the way in. */
  ghost predicate ValidRows(rows: map<Id, int>)
  {
    forall k :: k in rows ==> 0 < rows[k]
  }

  class SizeAccounting {
    var rows: map<Id, int>          // pv_stats as this connection sees it
    var summary: Option<int>        // the pool total as this connection sees it
    var committedRows: map<Id, int> // pv_stats as every other connection sees it
    var committedSummary: Option<int>
    var transactionActive: bool

    ghost predicate Valid()
      reads this
    {
      && ValidRows(rows) && ValidRows(committedRows)
      && (summary.Some? ==> 0 < summary.value)
      && (committedSummary.Some? ==> 0 < committedSummary.value)
      && (!transactionActive ==> rows == committedRows && summary == committedSummary)
    }

    constructor ()
      ensures Valid() && !transactionActive && rows == map[] && summary == None
    {
      rows, committedRows := map[], map[];
      summary, committedSummary := None, None;
      transactionActive := false;
    }

    method BeginImmediate() returns (ok: bool)
      requires Valid()
      modifies `transactionActive
      ensures Valid() && transactionActive
      ensures ok == !old(transactionActive)
    {
      ok := !transactionActive;
      transactionActive := true;
    }

    /** Leaving the transaction normally publishes every change made inside it at once. */
    method CommitTransaction()
      requires Valid() && transactionActive
      modifies this
      ensures Valid() && !transactionActive
      ensures rows == committedRows == old(rows) && summary == committedSummary == old(summary)
    {
      committedRows, committedSummary := rows, summary;
      transactionActive := false;
    }

    /** Leaving it through an exception, or dying inside it, discards them all. */
    method RollbackTransaction()
      requires Valid() && transactionActive
      modifies this
      ensures Valid() && !transactionActive
      ensures rows == committedRows == old(committedRows)
      ensures summary == committedSummary == old(committedSummary)
    {
      rows, summary := committedRows, committedSummary;
      transactionActive := false;
    }

    /** `_commit`: a statement outside an explicit transaction is its own transaction. */
    method CommitStatement()
      requires ValidRows(rows) && ValidRows(committedRows)
      requires summary.Some? ==> 0 < summary.value
      requires committedSummary.Some? ==> 0 < committedSummary.value
      modifies `committedRows, `committedSummary
      ensures Valid()
      ensures transactionActive ==>
                committedRows == old(committedRows) && committedSummary == old(committedSummary)
    {
      if !transactionActive {
        committedRows, committedSummary := rows, summary;
      }
    }

    method UpdateSummary(size: int) returns (ok: bool)
      requires Valid()
      modifies this
      ensures Valid() && transactionActive == old(transactionActive) && rows == old(rows)
      ensures ok == (0 < size) && summary == if ok then Some(size) else old(summary)
      ensures transactionActive || !ok ==>
                committedRows == old(committedRows) && committedSummary == old(committedSummary)
    {
      ok := 0 < size;
      if ok {
        summary := Some(size);
        CommitStatement();
      }
    }

    method UpdatePvRecord(pvname: Id, size: int) returns (ok: bool)
      requires Valid()
      modifies this
      ensures Valid() && transactionActive == old(transactionActive) && summary == old(summary)
      ensures ok == (0 < size) && rows == if ok then old(rows)[pvname := size] else old(rows)
      ensures transactionActive || !ok ==>
                committedRows == old(committedRows) && committedSummary == old(committedSummary)
    {
      ok := 0 < size;
      if ok {
        rows := rows[pvname := size];
        CommitStatement();
      }
    }

    method RemovePvRecord(pvname: Id)
      requires Valid()
      modifies this
      ensures Valid() && transactionActive == old(transactionActive) && summary == old(summary)
      ensures rows == old(rows) - {pvname}
      ensures transactionActive ==>
                committedRows == old(committedRows) && committedSummary == old(committedSummary)
    {
      rows := rows - {pvname};
      CommitStatement();
    }

    method RenamePvRecord(oldName: Id, newName: Id, size: int) returns (ok: bool)
      requires Valid()
      modifies this
      ensures Valid() && transactionActive == old(transactionActive) && summary == old(summary)
      ensures ok == (0 < size)
      ensures rows == if ok then (old(rows) - {oldName, newName})[newName := size] else old(rows)
      ensures transactionActive || !ok ==>
                committedRows == old(committedRows) && committedSummary == old(committedSummary)
    {
      ok := 0 < size;
      if ok {
        rows := rows - {oldName, newName};
        rows := rows[newName := size];
        CommitStatement();
      }
    }

    method GetPvSize(pvname: Id) returns (size: int)
      requires Valid()
      ensures size == if pvname in rows then rows[pvname] else 0
      ensures 0 <= size && (size == 0 <==> pvname !in rows)
    {
      size := if pvname in rows then rows[pvname] else 0;
    }

    /** Reads every row once, in whatever order SQLite returns them. */
    method GetStats() returns (stats: Stats)
      requires Valid()
      ensures stats.numberOfPvs == |rows|
      ensures stats.usedBytes == Sum(rows)
      ensures stats.totalBytes == if summary.Some? then summary.value else 0
      ensures stats.freeBytes == stats.totalBytes - Sum(rows)
    {
      var unread := rows;
      var used, count := 0, 0;
      while unread != map[]
        invariant forall k :: k in unread ==> k in rows && unread[k] == rows[k]
        invariant used + Sum(unread) == Sum(rows)
        invariant count + |unread| == |rows|
        decreases |unread|
      {
        var pvname :| pvname in unread;
        SumRemove(unread, pvname);
        used, count := used + unread[pvname], count + 1;
        assert unread.Keys == (unread - {pvname}).Keys + {pvname};
        unread := unread - {pvname};
      }
      var total := if summary.Some? then summary.value else 0;
      stats := Stats(count, total, used, total - used);
    }
  }
}
