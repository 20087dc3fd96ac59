/** A crash inside a cancellation can leave an accounting row that nothing ever releases. */
module Leaks {
  import opened Base
  import opened Lifecycle
  import opened Paths
  import Admission
  import B = Rebuild
  import Outcomes
  import Removal
  import Runs
  import Safety

  // ---- The row of a cancelled create after a crash before its commit ----

  /** A process dies after the intent is unlinked and before the index commits. */
  function Aborted(s: System, x: Id): System
    requires Parses(Removal.Unpaid(s.files, x))
  {
    Removal.CancelUnlinked(s, x).(txn := None)
  }

  function AbortedPlan(x: Id): seq<Action> {
    Removal.CancelPlan(x) + [AbortIndex]
  }

  lemma CancelAborts(s: System, x: Id)
    requires s.txn.None? && Pends(s.files, x) && Parses(Removal.Unpaid(s.files, x))
    ensures Leads(s, AbortedPlan(x), Aborted(s, x)) && Aborted(s, x).stats == s.stats
  {
    var u := Removal.CancelUnlinked(s, x);
    Removal.CancelLeads(s, x);
    LeadsOne(u, AbortIndex);
    LeadsOn(s, Removal.CancelPlan(x), u, [AbortIndex], Aborted(s, x));
  }

  /** Some archive used to be accounted under this name. */
  ghost predicate HasArchive(f: Files, x: Id)
  {
    exists i :: i in f.records && AliasOf(f.records[i]) == Some(x)
  }

  predicate NoFile(f: Files, x: Id) {
    x !in f.records && x !in f.creating && x !in f.expanding
  }

  /** A rebuild keeps the row of a name without files of its own if and only if no archive of it exists. */
  lemma RebuildKeepsRowIff(f: Files, rows: map<Id, int>, x: Id)
    requires Parses(f) && NoFile(f, x)
    ensures x in Working(f, rows) <==> x in rows && !HasArchive(f, x)
  {
    var r := CapacityRecordsOf(f).value;
    B.RebuiltRows(rows, r, x);
    Admission.CodeReserves(f, x);
    if HasArchive(f, x) {
      var i :| i in f.records && AliasOf(f.records[i]) == Some(x);
      if ReleasedAt(f, i) {
        assert x in Tombstones(f);
      } else {
        Admission.CodeReserves(f, i);
        assert i in r.reservations && x in B.ObsoleteFor(r, i);
      }
    } else {
      assert x !in Tombstones(f);
      assert forall i :: i in r.aliases ==> x !in r.aliases[i];
    }
  }

  /** No run of any length ever loses the row. */
  ghost predicate KeptForever(u: System, x: Id)
  {
    forall path: seq<System>, plan: seq<Action>, i: nat ::
      IsPath(path, plan) && path[0] == u && i < |path| ==> x in path[i].stats
  }

  lemma KeptAtFirst(u: System, x: Id)
    requires KeptForever(u, x)
    ensures x in u.stats
  {
    assert IsPath([u], []);
    assert [u][0] == u;
  }

  lemma KeptByRebuild(u: System, x: Id)
    requires KeptForever(u, x) && u.txn.None? && Parses(u.files)
    ensures x in Working(u.files, u.stats)
  {
    var t := Next(u, RebuildIndex);
    LeadsOne(u, RebuildIndex);
    var path: seq<System> :| IsPath(path, [RebuildIndex]) && path[0] == u && path[1] == t;
    assert x in path[1].stats;
  }

  /** Committed and half-deleted volumes are filed under their own id. */
  ghost predicate Homes(f: Files)
  {
    forall i :: i in f.records && AliasOf(f.records[i]).None? ==> f.records[i].original == i
  }

  lemma ForgottenIsKept(u: System, x: Id)
    requires u.txn.None? && NoFile(u.files, x) && Homes(u.files) && x in u.stats && !HasArchive(u.files, x)
    ensures Leaked(u, x) && KeptForever(u, x)
  {
    forall i | i in u.files.records ensures u.files.records[i].original != x {
      assert AliasOf(u.files.records[i]) != Some(x);
    }
    forall path: seq<System>, plan: seq<Action>, i: nat | IsPath(path, plan) && path[0] == u && i < |path|
      ensures x in path[i].stats
    {
      LeakedForever(path, plan, i, x);
    }
  }

  /** The row leaks for good if and only if the create had been charged and no archive of the name exists:
      with an archive the next rebuild drops the row as an obsolete alias. */
  lemma AbortedLeaksIff(s: System, x: Id)
    requires s.txn.None? && Pends(s.files, x) && x !in s.files.expanding && Homes(s.files)
    requires Parses(Removal.Unpaid(s.files, x)) && Parses(Aborted(s, x).files)
    ensures KeptForever(Aborted(s, x), x) <==> x in s.stats && !HasArchive(s.files, x)
  {
    var u := Aborted(s, x);
    assert u.files.records == s.files.records;
    RebuildKeepsRowIff(u.files, u.stats, x);
    assert HasArchive(u.files, x) <==> HasArchive(s.files, x);
    if x in s.stats && !HasArchive(s.files, x) {
      ForgottenIsKept(u, x);
    }
    if KeptForever(u, x) {
      KeptAtFirst(u, x);
      KeptByRebuild(u, x);
    }
  }

  lemma PendingInHistory(s: System, x: Id)
    requires Inv(s) && s.txn.None? && Pends(s.files, x)
    ensures x !in s.files.expanding && Homes(s.files)
    ensures Parses(Removal.Unpaid(s.files, x)) && Parses(Aborted(s, x).files)
  {
    Outcomes.CancelKeepsInv(s, x);
    Outcomes.FilesAreReadable(Outcomes.Cancelled(s, x).files);
    AbortedFiles(s, x);
    Safety.ExpandOkAt(s.files, x);
    RecordsAreHome(s.files);
  }

  lemma AbortedFiles(s: System, x: Id)
    requires Parses(Removal.Unpaid(s.files, x))
    ensures Aborted(s, x).files == Outcomes.Cancelled(s, x).files
  {
  }

  lemma RecordsAreHome(f: Files)
    requires RecordsOk(f)
    ensures Homes(f)
  {
    forall i | i in f.records && AliasOf(f.records[i]).None? ensures f.records[i].original == i {
      assert RecordOk(f, i);
    }
  }

  /** At any moment of any history a pending create may be cancelled, and the process may die right before
      the cancellation commits. The row then stays in the index for good, whatever is done to the pool
      afterwards, if and only if it was there and no archive of the name exists. */
  lemma CancelLeaksForGoodIff(total: int, path: seq<System>, plan: seq<Action>, i: nat, x: Id)
    requires IsHistory(total, path, plan) && i <= |plan| && path[i].txn.None? && Pends(path[i].files, x)
    ensures var s := path[i];
            && Parses(Removal.Unpaid(s.files, x)) && Leads(s, AbortedPlan(x), Aborted(s, x))
            && (KeptForever(Aborted(s, x), x) <==> x in s.stats && !HasArchive(s.files, x))
  {
    Runs.HistoryIsConsistent(total, path, plan, i);
    PendingInHistory(path[i], x);
    CancelAborts(path[i], x);
    AbortedLeaksIff(path[i], x);
  }

  // ---- What a leaked row means ----

  /** A row no file answers for, under a name nothing mentions. */
  ghost predicate Unmentioned(f: Files, x: Id)
  {
    NoFile(f, x) && forall i :: i in f.records ==> f.records[i].original != x
  }

  ghost predicate Leaked(s: System, x: Id)
  {
    && x in s.stats && Unmentioned(s.files, x)
    && (s.txn.Some? ==> x in s.txn.value.working && s.txn.value.grant.x != x)
  }

  lemma LeakedKeepsRow(s: System, x: Id)
    requires Leaked(s, x) && Parses(s.files)
    ensures x in Working(s.files, s.stats)
  {
    RebuildKeepsRowIff(s.files, s.stats, x);
  }

  lemma LeakedStays(s: System, x: Id, a: Action)
    requires Leaked(s, x) && Enabled(s, a)
    ensures Leaked(Next(s, a), x) && !(a.BeginCreate? && a.x == x)
  {
    if a.Do? {
      UnmentionedWrite(s.files, x, a.w);
    } else if Parses(s.files) {
      LeakedKeepsRow(s, x);
    }
  }

  lemma UnmentionedWrite(f: Files, x: Id, w: Write)
    requires Unmentioned(f, x) && CanWrite(f, w) && !(w.PrepareArchive? && w.name == x)
    ensures Unmentioned(Apply(f, w), x)
  {
    var g := Apply(f, w);
    assert NoFile(g, x);
    forall i | i in g.records ensures g.records[i].original != x {
      if w.PrepareArchive? && i == w.name {
        assert g.records[i].original == f.records[w.x].original;
      } else if i in f.records {
        assert g.records[i].original == f.records[i].original;
      } else {
        assert g.records[i].original == w.x;
      }
    }
  }

  lemma LeakedStep(path: seq<System>, plan: seq<Action>, i: nat, next: nat, x: Id)
    requires IsPath(path, plan) && i < |plan| && next == i + 1 && Leaked(path[i], x)
    ensures Leaked(path[next], x)
  {
    assert StepAt(path, plan, i);
    LeakedStays(path[i], x, plan[i]);
  }

  lemma {:induction false} LeakedForever(path: seq<System>, plan: seq<Action>, i: nat, x: Id)
    requires IsPath(path, plan) && i <= |plan| && Leaked(path[0], x)
    ensures Leaked(path[i], x)
  {
    if i > 0 {
      LeakedForever(path, plan, i - 1, x);
      LeakedStep(path, plan, i - 1, i, x);
    }
  }

  /** The name can never be created again: every later run refuses it, whatever else happens. */
  lemma LeakedNameIsLost(total: int, path: seq<System>, plan: seq<Action>, i: nat, x: Id,
                         later: seq<System>, rest: seq<Action>, j: nat)
    requires IsHistory(total, path, plan) && i <= |plan| && path[i].txn.None? && Pends(path[i].files, x)
    requires x in path[i].stats && !HasArchive(path[i].files, x) && Parses(Removal.Unpaid(path[i].files, x))
    requires IsPath(later, rest) && later[0] == Aborted(path[i], x) && j < |rest|
    ensures x in later[j].stats && !(rest[j].BeginCreate? && rest[j].x == x)
  {
    Runs.HistoryIsConsistent(total, path, plan, i);
    PendingInHistory(path[i], x);
    assert Aborted(path[i], x).files.records == path[i].files.records;
    assert !HasArchive(Aborted(path[i], x).files, x);
    ForgottenIsKept(Aborted(path[i], x), x);
    LeakedForever(later, rest, j, x);
    assert StepAt(later, rest, j);
    LeakedStays(later[j], x, rest[j]);
  }

  // ---- A concrete run from an empty pool ----

  /** Ten bytes admitted for "x". */
  function Admitted(): System {
    Outcomes.Granted(EmptyPool(100), GrantCreate("x", 10, 1))
  }

  const ADMIT: seq<Action> := [BeginCreate("x", 10, 1), WriteIntent, CommitIndex]

  lemma EmptyPoolAdmits()
    ensures Parses(EmptyPool(100).files) && Leads(EmptyPool(100), ADMIT, Admitted())
    ensures Inv(Admitted()) && Pends(Admitted().files, "x") && Admitted().stats == map["x" := 10]
  {
    var s := EmptyPool(100);
    Runs.EmptyPoolIsConsistent(100);
    Outcomes.FilesAreReadable(s.files);
    assert Working(s.files, s.stats) == map[];
    assert !Busy(s.files.records, "x");
    assert Enabled(s, BeginCreate("x", 10, 1));
    Outcomes.AdmissionRuns(s, BeginCreate("x", 10, 1));
    Outcomes.AdmissionKeepsInv(s, BeginCreate("x", 10, 1));
  }

  lemma AdmittedIsAborted()
    ensures Leads(Admitted(), AbortedPlan("x"), System(100, EmptyPool(100).files, map["x" := 10], None))
  {
    var s := Admitted();
    EmptyPoolAdmits();
    PendingInHistory(s, "x");
    CancelAborts(s, "x");
    assert Aborted(s, "x").files == EmptyPool(100).files;
  }

  /** An empty pool admits a create of "x", cancels it and crashes: no file is left, the row stays at ten
      bytes, and no later run ever loses it. */
  lemma CancelledThenCrashedLeaks()
    ensures var t := System(100, EmptyPool(100).files, map["x" := 10], None);
            Leads(EmptyPool(100), ADMIT + AbortedPlan("x"), t) && KeptForever(t, "x")
  {
    var t := System(100, EmptyPool(100).files, map["x" := 10], None);
    EmptyPoolAdmits();
    AdmittedIsAborted();
    LeadsOn(EmptyPool(100), ADMIT, Admitted(), AbortedPlan("x"), t);
    ForgottenIsKept(t, "x");
  }
}
