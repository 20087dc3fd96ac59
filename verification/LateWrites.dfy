/**
 The three writes that end an expansion, when the process that makes them captured its target some time
 ago and does not hold the volume's lifecycle lock: exactly when each leaves a pool consistent.
 */
module LateWrites {
  import opened Base
  import opened Accounting
  import opened Lifecycle
  import Safety

  // ---- The quota ----

  /** The payload at the own path of `x` is this record's. */
  predicate AnswersFor(f: Files, i: Id, x: Id) {
    && i in f.records && f.records[i].original == x
    && (f.records[i].phase == Committed || f.records[i].phase == Deleting
        || (f.records[i].phase == ArchivingAtHome && i !in f.archive))
  }

  /** Something in the pool pays for that many bytes at the own path of `x`. */
  ghost predicate Covered(f: Files, x: Id, bytes: int)
  {
    || (Pends(f, x) && bytes <= f.creating[x].size)
    || exists i :: AnswersFor(f, i, x) && bytes <= Reserved(f, i)
  }

  function WithQuota(f: Files, x: Id, bytes: int): Files {
    f.(payload := f.payload[x := Limit(bytes)])
  }

  lemma PendingPays(f: Files, x: Id, bytes: int)
    requires CreatesOk(f) && Covered(f, x, bytes) && Pends(f, x)
    ensures bytes <= f.creating[x].size
  {
    assert CreateOk(f, x);
    assert forall i :: AnswersFor(f, i, x) ==> Holds(f.records[i], x);
  }

  lemma PendingRecord(f: Files, x: Id, bytes: int, j: Id)
    requires CreatesOk(f) && Pends(f, x) && j in f.records && RecordOk(f, j)
    ensures RecordOk(WithQuota(f, x, bytes), j)
  {
    assert CreateOk(f, x);
    assert !Holds(f.records[j], x);
  }

  lemma AnsweringRecord(f: Files, x: Id, bytes: int, i: Id, j: Id)
    requires NamesOk(f.records) && AnswersFor(f, i, x) && bytes <= Reserved(f, i)
    requires j in f.records && RecordOk(f, j) && RecordOk(f, i)
    requires f.records[i].phase != Committed ==> i !in f.expanding
    ensures RecordOk(WithQuota(f, x, bytes), j)
  {
    assert Holds(f.records[j], x) ==> SameName(f.records[i], f.records[j]);
  }

  lemma CoveredRecord(f: Files, x: Id, bytes: int, j: Id)
    requires RecordsOk(f) && NamesOk(f.records) && CreatesOk(f) && ExpandsOk(f) && Covered(f, x, bytes)
    requires j in f.records
    ensures RecordOk(WithQuota(f, x, bytes), j)
  {
    if Pends(f, x) {
      PendingRecord(f, x, bytes, j);
    } else {
      var i :| AnswersFor(f, i, x) && bytes <= Reserved(f, i);
      Safety.ExpandOkAt(f, i);
      AnsweringRecord(f, x, bytes, i, j);
    }
  }

  lemma CoveredIntents(f: Files, x: Id, bytes: int)
    requires CreatesOk(f) && ExpandsOk(f) && ReleasesOk(f) && (Pends(f, x) ==> bytes <= f.creating[x].size)
    ensures var g := WithQuota(f, x, bytes); CreatesOk(g) && ExpandsOk(g) && ReleasesOk(g)
  {
    var g := WithQuota(f, x, bytes);
    forall y | y in g.creating ensures CreateOk(g, y) { assert CreateOk(f, y); }
    forall y | y in g.expanding ensures ExpandOk(g, y) { assert ExpandOk(f, y); }
    forall i | i in g.records && ReleasedAt(g, i) ensures ReleaseOk(g, i) { assert ReleasedAt(f, i); }
  }

  lemma CoveredPayloads(f: Files, x: Id, bytes: int)
    requires PayloadsOk(f) && Covered(f, x, bytes)
    ensures PayloadsOk(WithQuota(f, x, bytes))
  {
    var g := WithQuota(f, x, bytes);
    forall y | y in g.payload ensures Pends(g, y) || Busy(g.records, y) {
      if y == x && !Pends(f, x) {
        var i :| AnswersFor(f, i, x);
        assert Holds(g.records[i], x);
      } else if y != x {
        assert Pends(f, y) || Busy(f.records, y);
      }
    }
  }

  lemma CoveredQuotaIsOk(f: Files, x: Id, bytes: int)
    requires FilesOk(f) && Covered(f, x, bytes)
    ensures FilesOk(WithQuota(f, x, bytes))
  {
    var g := WithQuota(f, x, bytes);
    forall j | j in g.records ensures RecordOk(g, j) { CoveredRecord(f, x, bytes, j); }
    if Pends(f, x) { PendingPays(f, x, bytes); }
    CoveredIntents(f, x, bytes);
    CoveredPayloads(f, x, bytes);
  }

  lemma OkQuotaIsCovered(f: Files, x: Id, bytes: int)
    requires FilesOk(f) && FilesOk(WithQuota(f, x, bytes))
    ensures Covered(f, x, bytes)
  {
    var g := WithQuota(f, x, bytes);
    assert x in g.payload;
    if Pends(f, x) {
      assert CreateOk(g, x);
    } else {
      var i :| i in g.records && Holds(g.records[i], x);
      assert RecordOk(g, i) && RecordOk(f, i);
      Safety.ExpandOkAt(f, i);
      assert AnswersFor(f, i, x);
    }
  }

  /** A late quota keeps the files consistent if and only if something still pays for it at that path. */
  lemma LateQuotaIffCovered(f: Files, x: Id, bytes: int)
    requires FilesOk(f)
    ensures FilesOk(Apply(f, ApplyQuota(x, bytes))) <==> Covered(f, x, bytes)
  {
    if Covered(f, x, bytes) {
      CoveredQuotaIsOk(f, x, bytes);
    }
    if FilesOk(WithQuota(f, x, bytes)) {
      OkQuotaIsCovered(f, x, bytes);
    }
  }

  /** The quota brings back the payload of a delete tombstone, and with it the reservation. */
  predicate Revived(f: Files, x: Id) {
    At(f, x, Deleting) && x !in f.payload
  }

  lemma LateQuotaReserves(f: Files, x: Id, bytes: int)
    requires CreatesOk(f) && ExpandsOk(f)
    ensures Durable(WithQuota(f, x, bytes))
            == if Revived(f, x) then Durable(f)[x := f.records[x].size] else Durable(f)
    ensures Revived(f, x) ==> x !in Durable(f)
  {
    var g := WithQuota(f, x, bytes);
    Safety.CreateOkAt(f, x);
    Safety.ExpandOkAt(f, x);
    forall k
      ensures k in Durable(f) <==> Reservation(f, k).Some?
      ensures k in Durable(g) <==> Reservation(g, k).Some?
      ensures Reservation(g, k) == if k == x && Revived(f, x) then Some(f.records[x].size) else Reservation(f, k)
    {
    }
    DurableIs(f, g, x);
  }

  lemma DurableIs(f: Files, g: Files, x: Id)
    requires forall k :: k != x ==> Reservation(g, k) == Reservation(f, k)
    ensures Durable(g) == if Reservation(g, x).Some? then Durable(f)[x := Reservation(g, x).value] else Durable(f) - {x}
    ensures x in Durable(f) <==> Reservation(f, x).Some?
    ensures x in Durable(f) ==> Durable(f)[x] == Reservation(f, x).value
  {
    forall k
      ensures k in Durable(f) <==> Reservation(f, k).Some?
      ensures k in Durable(g) <==> Reservation(g, k).Some?
    {
    }
  }

  // ---- What an open transaction still needs ----

  /** Bytes already granted whose intent is not written yet. */
  function Promised(f: Files, txn: Option<Txn>): int {
    if txn.None? || txn.value.written then 0 else
      match txn.value.grant
      case GrantCreate(_, size, _) => size
      case GrantExpand(x, _, toSize) => if x in f.records then toSize - f.records[x].size else 0
      case Cancel(_) => 0
  }

  lemma PromisesFit(s: System)
    requires Inv(s)
    ensures 0 <= Promised(s.files, s.txn) && Sum(Durable(s.files)) + Promised(s.files, s.txn) <= s.total
  {
  }

  /** A cancellation is about to unlink the intent of `x`. */
  predicate Cancelling(s: System, x: Id) {
    s.txn.Some? && s.txn.value.grant == Cancel(x) && !s.txn.value.written
  }

  lemma CreateGrantAfterQuota(s: System, x: Id, bytes: int)
    requires Inv(s) && s.txn.Some? && s.txn.value.grant.GrantCreate? && (Pends(s.files, x) || Busy(s.files.records, x))
    ensures var g := WithQuota(s.files, x, bytes);
            GrantStands(s.total, g, s.txn.value) <==>
            (s.txn.value.written || Sum(Durable(g)) + Promised(g, s.txn) <= s.total)
  {
    if !s.txn.value.written {
      ClearOutlivesQuota(s.files, x, bytes, s.txn.value.grant.x);
    }
  }

  lemma ExpandGrantAfterQuota(s: System, x: Id, bytes: int)
    requires Inv(s) && s.txn.Some? && s.txn.value.grant.GrantExpand?
    ensures var g := WithQuota(s.files, x, bytes);
            GrantStands(s.total, g, s.txn.value) <==>
            (s.txn.value.written || Sum(Durable(g)) + Promised(g, s.txn) <= s.total)
  {
    if !s.txn.value.written {
      ClearOutlivesQuota(s.files, x, bytes, s.txn.value.grant.x);
    }
  }

  lemma CancelAfterQuota(s: System, x: Id, bytes: int)
    requires Inv(s) && s.txn.Some? && s.txn.value.grant.Cancel?
    ensures GrantStands(s.total, WithQuota(s.files, x, bytes), s.txn.value) <==> !Cancelling(s, x)
  {
  }

  lemma CoveredIsHeld(f: Files, x: Id, bytes: int)
    requires Covered(f, x, bytes)
    ensures Pends(f, x) || Busy(f.records, x)
  {
    if !Pends(f, x) {
      var i :| AnswersFor(f, i, x);
      assert Holds(f.records[i], x);
    }
  }

  lemma GrantAfterQuota(s: System, x: Id, bytes: int)
    requires Inv(s) && s.txn.Some? && Covered(s.files, x, bytes)
    ensures var g := WithQuota(s.files, x, bytes);
            (GrantStands(s.total, g, s.txn.value) && Sum(Durable(g)) <= s.total) <==>
            !Cancelling(s, x) && Sum(Durable(g)) + Promised(g, s.txn) <= s.total
  {
    CoveredIsHeld(s.files, x, bytes);
    QuotaSums(s, x, bytes);
    match s.txn.value.grant
    case GrantCreate(_, _, _) => CreateGrantAfterQuota(s, x, bytes);
    case GrantExpand(_, _, _) => ExpandGrantAfterQuota(s, x, bytes);
    case Cancel(_) => CancelAfterQuota(s, x, bytes);
  }

  /** Files changed, index and transaction as they were. */
  lemma InvOfFiles(s: System, g: Files)
    requires ValidRows(s.stats)
    requires FilesOk(g) && Sum(Durable(g)) <= s.total && (s.txn.Some? ==> GrantStands(s.total, g, s.txn.value))
    ensures Inv(s.(files := g))
  {
  }

  lemma CoveredQuotaKeepsInv(s: System, x: Id, bytes: int)
    requires Inv(s) && Covered(s.files, x, bytes) && !Cancelling(s, x)
    requires Revived(s.files, x) ==>
               Sum(Durable(s.files)) + s.files.records[x].size + Promised(s.files, s.txn) <= s.total
    ensures Inv(s.(files := WithQuota(s.files, x, bytes)))
  {
    CoveredQuotaIsOk(s.files, x, bytes);
    QuotaSums(s, x, bytes);
    if s.txn.Some? { GrantAfterQuota(s, x, bytes); }
    InvOfFiles(s, WithQuota(s.files, x, bytes));
  }

  lemma ConsistentQuotaIsCovered(s: System, x: Id, bytes: int)
    requires Inv(s) && Inv(s.(files := WithQuota(s.files, x, bytes)))
    ensures Covered(s.files, x, bytes) && !Cancelling(s, x)
    ensures Revived(s.files, x) ==>
              Sum(Durable(s.files)) + s.files.records[x].size + Promised(s.files, s.txn) <= s.total
  {
    OkQuotaIsCovered(s.files, x, bytes);
    PromisesFit(s.(files := WithQuota(s.files, x, bytes)));
    QuotaSums(s, x, bytes);
    if s.txn.Some? { GrantAfterQuota(s, x, bytes); }
  }

  /** A late quota keeps the pool consistent if and only if something still pays for it, no cancellation of
      that volume is about to end, and, if it brings back what a tombstone had released, there is room. */
  lemma LateQuotaKeepsInvIff(s: System, x: Id, bytes: int)
    requires Inv(s)
    ensures Inv(Next(s, Do(ApplyQuota(x, bytes)))) <==>
            && Covered(s.files, x, bytes) && !Cancelling(s, x)
            && (Revived(s.files, x) ==>
                  Sum(Durable(s.files)) + s.files.records[x].size + Promised(s.files, s.txn) <= s.total)
  {
    var t := s.(files := WithQuota(s.files, x, bytes));
    assert Next(s, Do(ApplyQuota(x, bytes))) == t;
    if Inv(t) {
      ConsistentQuotaIsCovered(s, x, bytes);
    } else if Covered(s.files, x, bytes) && !Cancelling(s, x)
            && (Revived(s.files, x) ==>
                  Sum(Durable(s.files)) + s.files.records[x].size + Promised(s.files, s.txn) <= s.total) {
      CoveredQuotaKeepsInv(s, x, bytes);
    }
  }

  lemma QuotaSums(s: System, x: Id, bytes: int)
    requires Inv(s)
    ensures var g := WithQuota(s.files, x, bytes);
            && Promised(g, s.txn) == Promised(s.files, s.txn) >= 0
            && Sum(Durable(s.files)) + Promised(s.files, s.txn) <= s.total
            && Sum(Durable(g)) == if Revived(s.files, x) then Sum(Durable(s.files)) + s.files.records[x].size
                                  else Sum(Durable(s.files))
  {
    PromisesFit(s);
    LateQuotaReserves(s.files, x, bytes);
    if Revived(s.files, x) {
      SumInsert(Durable(s.files), x, s.files.records[x].size);
    }
  }

  lemma ClearOutlivesQuota(f: Files, x: Id, bytes: int, y: Id)
    requires Clear(f, y)
    ensures Clear(WithQuota(f, x, bytes), y)
  {
    var g := WithQuota(f, x, bytes);
    assert forall i :: i in g.records && ReleasedAt(g, i) ==> ReleasedAt(f, i);
  }

  // ---- The metadata ----

  /** The record can carry this size: the payload it answers for fits, and its intents agree. */
  predicate Carries(f: Files, i: Id, bytes: int)
    requires i in f.records
  {
    var r := f.records[i];
    && 0 < bytes
    && match r.phase
       case Committed =>
         && (i in f.creating ==> bytes == f.creating[i].size)
         && if i in f.expanding then bytes == f.expanding[i].fromSize || bytes == f.expanding[i].toSize
            else i in f.payload && Within(f.payload[i], bytes)
       case Deleting => i in f.payload ==> Within(f.payload[i], bytes)
       case ArchivingAtHome =>
         if i in f.archive then Within(f.archive[i], bytes)
         else r.original in f.payload && Within(f.payload[r.original], bytes)
       case _ => false
  }

  lemma CarriedSizeIsOk(f: Files, i: Id, bytes: int)
    requires FilesOk(f) && i in f.records && Carries(f, i, bytes)
    ensures FilesOk(WithSize(f, i, bytes))
  {
    CarriedRecords(f, i, bytes);
    CarriedNames(f, i, bytes);
    CarriedIntents(f, i, bytes);
    CarriedPayloads(f, i, bytes);
  }

  lemma CarriedRecords(f: Files, i: Id, bytes: int)
    requires RecordsOk(f) && i in f.records && Carries(f, i, bytes)
    ensures RecordsOk(WithSize(f, i, bytes))
  {
    var g := WithSize(f, i, bytes);
    forall j | j in g.records ensures RecordOk(g, j) { assert RecordOk(f, j); }
  }

  lemma CarriedNames(f: Files, i: Id, bytes: int)
    requires NamesOk(f.records) && ReleasesOk(f) && i in f.records
    ensures var g := WithSize(f, i, bytes); NamesOk(g.records) && ReleasesOk(g)
  {
    var g := WithSize(f, i, bytes);
    forall j, k | j in g.records && k in g.records && SameName(g.records[j], g.records[k]) ensures j == k {
      assert SameName(f.records[j], f.records[k]);
    }
    forall j | j in g.records && ReleasedAt(g, j) ensures ReleaseOk(g, j) { assert ReleasedAt(f, j); }
  }

  lemma CarriedIntents(f: Files, i: Id, bytes: int)
    requires CreatesOk(f) && ExpandsOk(f) && i in f.records && Carries(f, i, bytes)
    ensures CreatesOk(WithSize(f, i, bytes)) && ExpandsOk(WithSize(f, i, bytes))
  {
    var g := WithSize(f, i, bytes);
    forall y | y in g.creating ensures CreateOk(g, y) {
      assert CreateOk(f, y);
      assert Busy(g.records, y) ==> Busy(f.records, y);
    }
    forall y | y in g.expanding ensures ExpandOk(g, y) { assert ExpandOk(f, y); }
  }

  lemma CarriedPayloads(f: Files, i: Id, bytes: int)
    requires PayloadsOk(f) && i in f.records
    ensures PayloadsOk(WithSize(f, i, bytes))
  {
    var g := WithSize(f, i, bytes);
    forall y | y in g.payload ensures Pends(g, y) || Busy(g.records, y) {
      if Busy(f.records, y) {
        var j :| j in f.records && Holds(f.records[j], y);
        assert Holds(g.records[j], y);
      }
    }
  }

  lemma OkSizeIsCarried(f: Files, i: Id, bytes: int)
    requires FilesOk(f) && i in f.records && OwnPath(f.records[i].phase) && FilesOk(WithSize(f, i, bytes))
    ensures Carries(f, i, bytes)
  {
    var g := WithSize(f, i, bytes);
    assert RecordOk(f, i) && RecordOk(g, i);
    Safety.CreateOkAt(g, i);
    Safety.ExpandOkAt(g, i);
  }

  /** A late size keeps the files consistent if and only if the record there can carry it. */
  lemma LateSizeIffCarried(f: Files, i: Id, bytes: int)
    requires FilesOk(f) && CanWrite(f, GrowRecord(i, bytes))
    ensures FilesOk(Apply(f, GrowRecord(i, bytes))) <==> Carries(f, i, bytes)
  {
    if Carries(f, i, bytes) {
      CarriedSizeIsOk(f, i, bytes);
    }
    if FilesOk(WithSize(f, i, bytes)) {
      OkSizeIsCarried(f, i, bytes);
    }
  }

  /** How many bytes more a late size reserves: intents outweigh it, and a released record reserves nothing. */
  function Added(f: Files, i: Id, bytes: int): int
    requires i in f.records
  {
    if i in f.expanding || i in f.creating || ReleasedAt(f, i) then 0 else bytes - f.records[i].size
  }

  lemma SizeSums(f: Files, i: Id, bytes: int)
    requires i in f.records
    ensures Sum(Durable(WithSize(f, i, bytes))) == Sum(Durable(f)) + Added(f, i, bytes)
  {
    var g := WithSize(f, i, bytes);
    forall k | k != i ensures Reservation(g, k) == Reservation(f, k) {
    }
    DurableIs(f, g, i);
    if Reservation(f, i).Some? {
      SumReplace(Durable(f), i, Reservation(g, i).value);
    } else {
      assert Durable(f) - {i} == Durable(f);
    }
  }

  /** An expansion about to write its intent finds the size it has checked. */
  predicate Agreed(s: System, i: Id, bytes: int) {
    s.txn.Some? && !s.txn.value.written && s.txn.value.grant.GrantExpand? && s.txn.value.grant.x == i ==>
      bytes == s.txn.value.grant.fromSize || bytes == s.txn.value.grant.toSize
  }

  lemma CreateGrantAfterSize(s: System, i: Id, bytes: int)
    requires Inv(s) && s.txn.Some? && s.txn.value.grant.GrantCreate? && i in s.files.records
    ensures var g := WithSize(s.files, i, bytes);
            GrantStands(s.total, g, s.txn.value) <==>
            (s.txn.value.written || Sum(Durable(g)) + Promised(g, s.txn) <= s.total)
  {
    SameHolders(s.files, i, bytes);
    SameReleases(s.files, i, bytes);
  }

  lemma ExpandGrantAfterSize(s: System, i: Id, bytes: int)
    requires Inv(s) && s.txn.Some? && s.txn.value.grant.GrantExpand? && i in s.files.records
    ensures var g := WithSize(s.files, i, bytes);
            GrantStands(s.total, g, s.txn.value) <==>
            (s.txn.value.written || (Agreed(s, i, bytes) && Sum(Durable(g)) + Promised(g, s.txn) <= s.total))
  {
    SameReleases(s.files, i, bytes);
  }

  lemma GrantAfterSize(s: System, i: Id, bytes: int)
    requires Inv(s) && s.txn.Some? && i in s.files.records
    ensures var g := WithSize(s.files, i, bytes);
            (GrantStands(s.total, g, s.txn.value) && Sum(Durable(g)) <= s.total) <==>
            Agreed(s, i, bytes) && Sum(Durable(g)) + Promised(g, s.txn) <= s.total
  {
    PromisesFit(s);
    match s.txn.value.grant
    case GrantCreate(_, _, _) => CreateGrantAfterSize(s, i, bytes);
    case GrantExpand(_, _, _) => ExpandGrantAfterSize(s, i, bytes);
    case Cancel(_) =>
  }

  lemma SameHolders(f: Files, i: Id, bytes: int)
    requires i in f.records
    ensures forall y :: Busy(WithSize(f, i, bytes).records, y) <==> Busy(f.records, y)
  {
    var g := WithSize(f, i, bytes);
    forall y ensures Busy(g.records, y) <==> Busy(f.records, y) {
      assert forall j :: j in f.records ==> (Holds(g.records[j], y) <==> Holds(f.records[j], y));
    }
  }

  lemma SameReleases(f: Files, i: Id, bytes: int)
    requires i in f.records
    ensures forall y :: Clear(WithSize(f, i, bytes), y) <==> Clear(f, y)
  {
    var g := WithSize(f, i, bytes);
    assert forall j :: j in f.records ==>
                         (ReleasedAt(g, j) <==> ReleasedAt(f, j)) && AliasOf(g.records[j]) == AliasOf(f.records[j]);
  }

  lemma CarriedSizeKeepsInv(s: System, i: Id, bytes: int)
    requires Inv(s) && i in s.files.records && OwnPath(s.files.records[i].phase)
    requires Carries(s.files, i, bytes) && Agreed(s, i, bytes)
    requires Sum(Durable(s.files)) + Added(s.files, i, bytes) + Promised(WithSize(s.files, i, bytes), s.txn) <= s.total
    ensures Inv(s.(files := WithSize(s.files, i, bytes)))
  {
    CarriedSizeIsOk(s.files, i, bytes);
    SizeSums(s.files, i, bytes);
    if s.txn.Some? { GrantAfterSize(s, i, bytes); }
    InvOfFiles(s, WithSize(s.files, i, bytes));
  }

  lemma ConsistentSizeIsCarried(s: System, i: Id, bytes: int)
    requires Inv(s) && i in s.files.records && OwnPath(s.files.records[i].phase)
    requires Inv(s.(files := WithSize(s.files, i, bytes)))
    ensures Carries(s.files, i, bytes) && Agreed(s, i, bytes)
    ensures Sum(Durable(s.files)) + Added(s.files, i, bytes) + Promised(WithSize(s.files, i, bytes), s.txn) <= s.total
  {
    OkSizeIsCarried(s.files, i, bytes);
    SizeSums(s.files, i, bytes);
    if s.txn.Some? { GrantAfterSize(s, i, bytes); }
  }

  /** A late size keeps the pool consistent if and only if the record there can carry it, an expansion in
      the middle of its admission still finds what it checked, and there is room for what it adds. */
  lemma LateSizeKeepsInvIff(s: System, i: Id, bytes: int)
    requires Inv(s) && CanWrite(s.files, GrowRecord(i, bytes))
    ensures Inv(Next(s, Do(GrowRecord(i, bytes)))) <==>
            && Carries(s.files, i, bytes) && Agreed(s, i, bytes)
            && Sum(Durable(s.files)) + Added(s.files, i, bytes) + Promised(WithSize(s.files, i, bytes), s.txn)
               <= s.total
  {
    var t := s.(files := WithSize(s.files, i, bytes));
    assert Next(s, Do(GrowRecord(i, bytes))) == t;
    if Inv(t) {
      ConsistentSizeIsCarried(s, i, bytes);
    } else if && Carries(s.files, i, bytes) && Agreed(s, i, bytes)
              && Sum(Durable(s.files)) + Added(s.files, i, bytes) + Promised(t.files, s.txn) <= s.total {
      CarriedSizeKeepsInv(s, i, bytes);
    }
  }

  // ---- The end of the intent ----

  lemma IntentedVolume(f: Files, x: Id)
    requires FilesOk(f) && x in f.expanding
    ensures x !in f.creating && At(f, x, Committed) && x in f.payload && f.records[x].size <= f.expanding[x].toSize
  {
    assert ExpandOk(f, x) && RecordOk(f, x);
  }

  function WithoutIntent(f: Files, x: Id): Files {
    f.(expanding := f.expanding - {x})
  }

  lemma FinishedIsOk(f: Files, x: Id)
    requires FilesOk(f) && x in f.expanding && x in f.payload && x in f.records
    requires Within(f.payload[x], f.records[x].size)
    ensures FilesOk(WithoutIntent(f, x))
  {
    var g := WithoutIntent(f, x);
    forall i | i in g.records ensures RecordOk(g, i) { assert RecordOk(f, i); }
    forall y | y in g.creating ensures CreateOk(g, y) { assert CreateOk(f, y); }
    forall y | y in g.expanding ensures ExpandOk(g, y) { assert ExpandOk(f, y); }
    forall i | i in g.records && ReleasedAt(g, i) ensures ReleaseOk(g, i) { assert ReleasedAt(f, i); }
    assert PayloadsOk(g) by {
      assert forall y :: y in g.payload ==> Pends(f, y) || Busy(f.records, y);
    }
  }

  lemma FinishSums(f: Files, x: Id)
    requires FilesOk(f) && x in f.expanding
    ensures Sum(Durable(WithoutIntent(f, x))) <= Sum(Durable(f))
  {
    IntentedVolume(f, x);
    var g := WithoutIntent(f, x);
    forall k | k != x ensures Reservation(g, k) == Reservation(f, k) {
    }
    DurableIs(f, g, x);
    SumReplace(Durable(f), x, f.records[x].size);
  }

  lemma FinishKeepsInv(s: System, x: Id)
    requires Inv(s) && x in s.files.expanding && FilesOk(WithoutIntent(s.files, x))
    ensures Inv(s.(files := WithoutIntent(s.files, x)))
  {
    IntentedVolume(s.files, x);
    FinishSums(s.files, x);
    GrantAfterFinish(s, x);
    InvOfFiles(s, WithoutIntent(s.files, x));
  }

  lemma GrantAfterFinish(s: System, x: Id)
    requires Inv(s) && x in s.files.expanding && At(s.files, x, Committed)
    requires Sum(Durable(WithoutIntent(s.files, x))) <= Sum(Durable(s.files))
    ensures s.txn.Some? ==> GrantStands(s.total, WithoutIntent(s.files, x), s.txn.value)
  {
    if s.txn.Some? && !s.txn.value.written {
      ClearOutlivesFinish(s.files, x, s.txn.value.grant.x);
    }
  }

  lemma ClearOutlivesFinish(f: Files, x: Id, y: Id)
    ensures Clear(WithoutIntent(f, x), y) <==> Clear(f, y)
  {
    var g := WithoutIntent(f, x);
    assert forall i :: i in f.records ==> (ReleasedAt(g, i) <==> ReleasedAt(f, i));
  }

  /** The unlinking of an expansion's intent keeps the pool consistent if and only if the limit in force is
      within the committed size. */
  lemma LateFinishKeepsInvIff(s: System, x: Id)
    requires Inv(s) && x in s.files.expanding
    ensures x in s.files.payload && x in s.files.records
    ensures Inv(Next(s, Do(FinishExpand(x)))) <==> Within(s.files.payload[x], s.files.records[x].size)
  {
    var t := s.(files := WithoutIntent(s.files, x));
    assert Next(s, Do(FinishExpand(x))) == t;
    IntentedVolume(s.files, x);
    if Inv(t) {
      assert RecordOk(t.files, x);
    } else if Within(s.files.payload[x], s.files.records[x].size) {
      FinishedIsOk(s.files, x);
      FinishKeepsInv(s, x);
    }
  }

  // ---- Under the lock all three are met ----

  /** What is current is paid for, adds nothing, and has been enforced. */
  lemma CurrentIsSafe(f: Files, w: Write)
    requires FilesOk(f) && CanWrite(f, w) && Current(f, w)
    ensures w.ApplyQuota? ==> Covered(f, w.x, w.bytes) && !Revived(f, w.x)
    ensures w.GrowRecord? ==> Carries(f, w.x, w.bytes) && Added(f, w.x, w.bytes) == 0
    ensures w.FinishExpand? ==>
              w.x in f.payload && w.x in f.records && Within(f.payload[w.x], f.records[w.x].size)
  {
    if w.ApplyQuota? || w.GrowRecord? || w.FinishExpand? {
      assert RecordOk(f, w.x);
      Safety.CreateOkAt(f, w.x);
      Safety.ExpandOkAt(f, w.x);
      assert AnswersFor(f, w.x, w.x);
    }
  }
}
