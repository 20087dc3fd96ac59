/** Whole runs: any interleaving of any number of controller processes, with crashes anywhere. */
module Runs {
  import opened Base
  import opened Accounting
  import opened Lifecycle
  import opened Paths
  import Safety
  import Admission

  // ---- An admission decision outlives whatever the other processes write ----

  /** Nothing in the pool answers to this id. */
  ghost predicate Absent(f: Files, x: Id)
  {
    NotFound(f, x) && Clear(f, x) && x !in f.records && x !in f.expanding && x !in f.payload
  }

  predicate Names(f: Files, w: Write, x: Id) {
    match w
    case PrepareArchive(_, name) => name == x
    case RemoveArchive(name) => name == x || (name in f.records && f.records[name].original == x)
    case _ => false
  }

  lemma AbsentIsNotBusy(f: Files, w: Write, x: Id)
    requires RecordsOk(f) && CanWrite(f, w) && !Names(f, w, x) && Absent(f, x)
    ensures !Busy(Apply(f, w).records, x)
  {
    var g := Apply(f, w);
    forall j | j in g.records ensures !Holds(g.records[j], x) {
      if w.PrepareArchive? && j == w.name {
        assert RecordOk(f, w.x);
      } else if j in f.records {
        assert !Holds(f.records[j], x);
      }
    }
  }

  lemma AbsentIsClear(f: Files, w: Write, x: Id)
    requires CanWrite(f, w) && Safety.SubjectOk(f, w) && !Names(f, w, x) && Absent(f, x)
    ensures Clear(Apply(f, w), x)
  {
    var g := Apply(f, w);
    forall i | i in g.records && ReleasedAt(g, i) && AliasOf(g.records[i]).Some?
      ensures g.records[i].original != x
    {
      if g.records[i].original == x {
        assert i in f.records && ReleasedAt(f, i);
      }
    }
  }

  lemma AbsentStays(f: Files, w: Write, x: Id)
    requires RecordsOk(f) && CanWrite(f, w) && Safety.SubjectOk(f, w) && !Names(f, w, x) && Absent(f, x)
    ensures Absent(Apply(f, w), x)
  {
    AbsentIsNotBusy(f, w, x);
    AbsentIsClear(f, w, x);
  }

  /** A volume at rest whose id no write names keeps its record and gets no intent. */
  lemma QuietStays(f: Files, w: Write, x: Id)
    requires RecordsOk(f) && CanWrite(f, w) && Safety.SubjectOk(f, w) && !Names(f, w, x) && Quiet(f, x) && Clear(f, x)
    requires !Touches(w, x)
    ensures var g := Apply(f, w); Quiet(g, x) && g.records[x] == f.records[x] && Clear(g, x)
  {
    var g := Apply(f, w);
    assert RecordOk(f, x);
    forall i | i in g.records && ReleasedAt(g, i) && AliasOf(g.records[i]).Some?
      ensures g.records[i].original != x
    {
      if g.records[i].original == x {
        assert i in f.records && ReleasedAt(f, i);
      }
    }
  }

  lemma PendingStays(f: Files, w: Write, x: Id)
    requires RecordsOk(f) && CanWrite(f, w) && Pends(f, x) && x !in f.payload && !Touches(w, x)
    ensures Pends(Apply(f, w), x) && x !in Apply(f, w).payload
  {
  }

  lemma GrantOutlivesWrite(s: System, w: Write)
    requires Inv(s) && s.txn.Some? && Enabled(s, Do(w)) && Assumed(s, Do(w))
    ensures GrantStands(s.total, Apply(s.files, w), s.txn.value)
  {
    var f, t := s.files, s.txn.value;
    assert w.RemoveArchive? ==> ReleaseOk(f, w.name);
    Safety.FilesOkSubject(f, w);
    Safety.DurableIsPositive(f);
    Safety.DurableNeverGrows(f, w);
    if !t.written {
      match t.grant
      case GrantCreate(x, _, _) => AbsentStays(f, w, x);
      case GrantExpand(x, _, _) => QuietStays(f, w, x);
      case Cancel(x) => PendingStays(f, w, x);
    }
  }

  lemma WriteKeepsInv(s: System, w: Write)
    requires Inv(s) && Enabled(s, Do(w)) && Assumed(s, Do(w))
    ensures Inv(Next(s, Do(w)))
  {
    assert w.RemoveArchive? ==> ReleaseOk(s.files, w.name);
    Safety.WriteKeepsFiles(s.files, w);
    Safety.FilesOkSubject(s.files, w);
    Safety.DurableIsPositive(s.files);
    Safety.DurableNeverGrows(s.files, w);
    if s.txn.Some? {
      GrantOutlivesWrite(s, w);
    }
  }

  // ---- The index ----

  lemma RowStatementKeepsInv(s: System, a: Action)
    requires Inv(s) && Enabled(s, a) && (a.Charge? || a.ReleaseRow? || a.MoveRow?)
    ensures Inv(Next(s, a))
  {
    if a.MoveRow? {
      assert RecordOk(s.files, a.name);
    }
  }

  /** The decision is taken on rows that cover every durable reservation, so the bytes it grants
      are really there. */
  lemma CreateGrantStands(s: System, x: Id, size: int, incarnation: nat)
    requires Inv(s) && Enabled(s, BeginCreate(x, size, incarnation)) && Clear(s.files, x)
    ensures GrantStands(s.total, s.files, Txn(Working(s.files, s.stats), GrantCreate(x, size, incarnation), false))
  {
    Admission.WorkingCoversDurable(s.files, s.stats);
    NewNameIsFree(s.files, s.stats, x);
  }

  lemma NewNameIsFree(f: Files, rows: map<Id, int>, x: Id)
    requires FilesOk(f) && Parses(f) && NotFound(f, x) && Clear(f, x) && x !in Working(f, rows)
    requires forall k :: k in Durable(f) ==> k in Working(f, rows)
    ensures x !in f.records && x !in f.expanding && x !in f.payload
  {
    assert x !in Durable(f);
    assert x !in f.payload by {
      assert !Pends(f, x) && !Busy(f.records, x);
    }
  }

  lemma ExpandGrantStands(s: System, x: Id, fromSize: int, toSize: int)
    requires Inv(s) && Enabled(s, BeginExpand(x, fromSize, toSize)) && Assumed(s, BeginExpand(x, fromSize, toSize))
    ensures GrantStands(s.total, s.files, Txn(Working(s.files, s.stats), GrantExpand(x, fromSize, toSize), false))
  {
    var f := s.files;
    Admission.WorkingCoversDurable(f, s.stats);
    assert Reservation(f, x) == Some(f.records[x].size);
    assert x in Durable(f) && Durable(f)[x] == f.records[x].size;
  }

  lemma IntentKeepsInv(s: System)
    requires Inv(s) && Enabled(s, WriteIntent)
    ensures Inv(Next(s, WriteIntent))
  {
    var f, t := s.files, s.txn.value;
    var g := Intended(f, t.grant);
    match t.grant
    case GrantCreate(x, size, inc) =>
      Safety.CreateIntentComes(f, x, size, inc);
      assert Durable(g) == Durable(f)[x := size] by { IntentReserves(f, t.grant); }
      assert Reservation(f, x) == None;
      SumInsert(Durable(f), x, size);
    case GrantExpand(x, fromSize, toSize) =>
      Safety.ExpandIntentComes(f, x, fromSize, toSize);
      assert Durable(g) == Durable(f)[x := toSize] by { IntentReserves(f, t.grant); }
      assert Reservation(f, x) == Some(f.records[x].size);
      SumReplace(Durable(f), x, toSize);
    case Cancel(x) =>
      Safety.CreateIntentGoes(f, x);
      Safety.DurableIsPositive(f);
      Safety.ExpandOkAt(f, x);
      assert Durable(g) == Durable(f) - {x} by { IntentReserves(f, t.grant); }
      SumCovers(Durable(f) - {x}, Durable(f));
  }

  /** Writing an intent reserves its bytes; unlinking a cancelled one releases them. */
  lemma IntentReserves(f: Files, g: Grant)
    requires g.x !in f.expanding
    requires g.Cancel? ==> g.x !in f.records
    ensures Durable(Intended(f, g)) == IntentEffect(f, g)
  {
    var h := Intended(f, g);
    forall k
      ensures k in Durable(h) <==> k in IntentEffect(f, g)
      ensures k in Durable(h) ==> Durable(h)[k] == IntentEffect(f, g)[k]
    {
      assert k in Durable(f) <==> Reservation(f, k).Some?;
      assert k in Durable(h) <==> Reservation(h, k).Some?;
      assert k != g.x ==> Reservation(h, k) == Reservation(f, k);
    }
  }

  function IntentEffect(f: Files, g: Grant): map<Id, int> {
    match g
    case GrantCreate(x, size, _) => Durable(f)[x := size]
    case GrantExpand(x, _, toSize) => Durable(f)[x := toSize]
    case Cancel(x) => Durable(f) - {x}
  }

  lemma RebuildKeepsInv(s: System, a: Action)
    requires Inv(s) && Enabled(s, a) && (a.RebuildIndex? || a.ReleaseArchive?)
    ensures Inv(Next(s, a))
  {
    Admission.WorkingCoversDurable(s.files, s.stats);
  }

  lemma BeginKeepsInv(s: System, a: Action)
    requires Inv(s) && Enabled(s, a) && Assumed(s, a) && (a.BeginCreate? || a.BeginExpand? || a.BeginCancel?)
    ensures Inv(Next(s, a))
  {
    match a
    case BeginCreate(x, size, inc) => CreateGrantStands(s, x, size, inc);
    case BeginExpand(x, fromSize, toSize) => ExpandGrantStands(s, x, fromSize, toSize);
    case BeginCancel(_) => Admission.WorkingCoversDurable(s.files, s.stats);
  }

  lemma CloseKeepsInv(s: System, a: Action)
    requires Inv(s) && Enabled(s, a) && (a.CommitIndex? || a.AbortIndex?)
    ensures Inv(Next(s, a))
  {
    FinalRowsAreValid(s.total, s.files, s.txn.value);
    ClosedStaysOk(s, if a.CommitIndex? then FinalRows(s.txn.value) else s.stats);
  }

  lemma FinalRowsAreValid(total: int, f: Files, t: Txn)
    requires GrantStands(total, f, t)
    ensures ValidRows(FinalRows(t))
  {
  }

  lemma ClosedStaysOk(s: System, rows: map<Id, int>)
    requires FilesOk(s.files) && Sum(Durable(s.files)) <= s.total && ValidRows(rows)
    ensures Inv(s.(stats := rows, txn := None))
  {
  }

  lemma StepKeepsInv(s: System, a: Action)
    requires Inv(s) && Enabled(s, a) && Assumed(s, a)
    ensures Inv(Next(s, a))
  {
    if a.Do? {
      WriteKeepsInv(s, a.w);
    } else if a.Charge? || a.ReleaseRow? || a.MoveRow? {
      RowStatementKeepsInv(s, a);
    } else if a.RebuildIndex? || a.ReleaseArchive? {
      RebuildKeepsInv(s, a);
    } else if a.BeginCreate? || a.BeginExpand? || a.BeginCancel? {
      BeginKeepsInv(s, a);
    } else if a.WriteIntent? {
      IntentKeepsInv(s);
    } else if !a.Pass? {
      CloseKeepsInv(s, a);
    }
  }

  lemma EmptyPoolIsConsistent(total: int)
    requires 0 <= total
    ensures Inv(EmptyPool(total))
  {
    assert Durable(EmptyPool(total).files) == map[];
  }

  lemma HistoryStep(total: int, path: seq<System>, plan: seq<Action>, i: nat)
    requires IsHistory(total, path, plan) && i < |plan|
    ensures Enabled(path[i], plan[i]) && Assumed(path[i], plan[i]) && Next(path[i], plan[i]) == path[i + 1]
  {
    assert StepAt(path, plan, i) && AssumedAt(path, plan, i);
  }

  lemma TotalIsConstant(s: System, a: Action)
    requires Enabled(s, a)
    ensures Next(s, a).total == s.total
  {
  }

  lemma HistoryStarts(total: int, path: seq<System>, plan: seq<Action>)
    requires IsHistory(total, path, plan)
    ensures Inv(path[0])
  {
    EmptyPoolIsConsistent(total);
  }

  lemma HistoryStepKeepsInv(total: int, path: seq<System>, plan: seq<Action>, i: nat, next: nat)
    requires IsHistory(total, path, plan) && i < |plan| && next == i + 1
    requires Inv(path[i])
    ensures Inv(path[next])
  {
    HistoryStep(total, path, plan, i);
    StepKeepsInv(path[i], plan[i]);
  }

  lemma {:induction false} HistoryGoesOn(total: int, path: seq<System>, plan: seq<Action>, i: nat, next: nat)
    requires IsHistory(total, path, plan) && i < |plan| && next == i + 1
    ensures Inv(path[next])
    decreases i, 1
  {
    HistoryIsConsistent(total, path, plan, i);
    HistoryStepKeepsInv(total, path, plan, i, next);
  }

  /** Every state of every history is consistent. */
  lemma {:induction false} HistoryIsConsistent(total: int, path: seq<System>, plan: seq<Action>, i: nat)
    requires IsHistory(total, path, plan) && i <= |plan|
    ensures Inv(path[i])
    decreases i, 0
  {
    if i == 0 {
      HistoryStarts(total, path, plan);
    } else {
      HistoryGoesOn(total, path, plan, i - 1, i);
    }
  }

  lemma {:induction false} HistoryKeepsTotal(total: int, path: seq<System>, plan: seq<Action>, i: nat)
    requires IsHistory(total, path, plan) && i <= |plan|
    ensures path[i].total == total
  {
    if i > 0 {
      HistoryKeepsTotal(total, path, plan, i - 1);
      HistoryStep(total, path, plan, i - 1);
      TotalIsConstant(path[i - 1], plan[i - 1]);
    }
  }

  // ---- Plans nothing is assumed about ----

  predicate Plain(a: Action) {
    match a
    case Do(w) => !w.RemoveArchive? && !w.ApplyQuota? && !w.GrowRecord? && !w.FinishExpand?
    case Charge(_, _) => true
    case ReleaseRow(_) => true
    case MoveRow(_) => true
    case RebuildIndex => true
    case ReleaseArchive(_) => true
    case _ => false
  }

  predicate IsPlain(plan: seq<Action>) {
    forall i :: 0 <= i < |plan| ==> Plain(plan[i])
  }

  lemma PlainStepKeepsInv(s: System, plan: seq<Action>, t: System)
    requires Inv(s) && s.txn.None? && Leads(s, plan, t) && IsPlain(plan) && plan != []
    ensures Enabled(s, plan[0]) && Inv(Next(s, plan[0])) && Next(s, plan[0]).txn.None?
    ensures Leads(Next(s, plan[0]), plan[1..], t) && IsPlain(plan[1..])
  {
    assert Plain(plan[0]);
    Peel(s, plan, t);
    StepKeepsInv(s, plan[0]);
  }

  lemma {:induction false} PlanKeepsInv(s: System, plan: seq<Action>, t: System)
    requires Inv(s) && s.txn.None? && Leads(s, plan, t) && IsPlain(plan)
    ensures Inv(t)
    decreases |plan|
  {
    if plan == [] {
      Arrived(s, t);
    } else {
      PlainStepKeepsInv(s, plan, t);
      PlanKeepsInv(Next(s, plan[0]), plan[1..], t);
    }
  }
}
