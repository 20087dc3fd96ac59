/**
 DeleteVolume against crashes: deleting, cancelling a pending create, archiving, and the later
 reclaim of an archive.
 */
module Removal {
  import opened Base
  import opened Lifecycle
  import opened Operations
  import opened Paths
  import R = Records

  // ---- First the pending intents of a committed volume are settled ----

  /** A committed volume whose intents, if any, agree with its metadata. */
  predicate AtHome(v: View, x: Id) {
    && v.record.Some? && v.record.value.phase == Committed && v.record.value.original == x
    && v.payload.Some? && (v.create.None? || v.expand.None?)
    && (v.create.Some? ==> v.create.value == R.CreationIntent(x, v.record.value.size, v.record.value.incarnation))
    && (v.expand.Some? ==>
          && v.expand.value.fromSize < v.expand.value.toSize
          && (v.record.value.size == v.expand.value.fromSize || v.record.value.size == v.expand.value.toSize))
  }

  function SettlePlan(f: Files, x: Id): seq<Action> {
    if x in f.expanding then [Do(AbsorbExpand(x)), Do(FinishExpand(x))]
    else if x in f.creating then [Do(FinishCreate(x))]
    else []
  }

  /** The metadata reserves what the intent did, and no intent is left. */
  function Settled(f: Files, x: Id): Files
    requires x in f.records
  {
    f.(records := f.records[x := f.records[x].(size := Reserved(f, x))],
       creating := f.creating - {x}, expanding := f.expanding - {x})
  }

  lemma SettleLeads(s: System, x: Id)
    requires AtHome(ViewOf(s.files, x), x) && s.txn.None?
    ensures Leads(s, SettlePlan(s.files, x), s.(files := Settled(s.files, x)))
    ensures Quiet(Settled(s.files, x), x)
  {
    var f := s.files;
    if x in f.expanding {
      LeadsTwo(s, Do(AbsorbExpand(x)), Do(FinishExpand(x)));
      assert f.creating - {x} == f.creating;
    } else {
      assert f.expanding - {x} == f.expanding;
      assert f.records[x := f.records[x].(size := Reserved(f, x))] == f.records;
      if x in f.creating {
        LeadsOne(s, Do(FinishCreate(x)));
      } else {
        Stay(s);
        assert f.creating - {x} == f.creating;
      }
    }
  }

  // ---- Deleting ----

  /** A delete of `x`, stopped anywhere. */
  predicate DeleteStage(s: System, x: Id) {
    var v := ViewOf(s.files, x);
    && NoGrant(s, x)
    && match v.record
       case None => v.create.None? && v.expand.None? && v.payload.None? && RowGone(s, x)
       case Some(r) =>
         AtHome(v, x) || (r.phase == Deleting && r.original == x && v.create.None? && v.expand.None?)
  }

  predicate DeleteStep(a: Action, x: Id) {
    a in {Do(AbsorbExpand(x)), Do(FinishExpand(x)), Do(FinishCreate(x)), Do(MarkDeleting(x)), Do(RemovePayload(x)),
          ReleaseRow(x), Do(UnlinkRecord(x))}
  }

  function ErasePlan(x: Id): seq<Action> {
    [Do(RemovePayload(x)), ReleaseRow(x), Do(UnlinkRecord(x))]
  }

  function DeletePlan(f: Files, x: Id): seq<Action> {
    if x !in f.records then []
    else if f.records[x].phase == Deleting then ErasePlan(x)
    else SettlePlan(f, x) + ([Do(MarkDeleting(x))] + ErasePlan(x))
  }

  /** No payload, metadata, intent or accounting record of `x`, everything else as it was. */
  function Deleted(s: System, x: Id): System {
    s.(files := s.files.(records := s.files.records - {x}, creating := s.files.creating - {x},
                         expanding := s.files.expanding - {x}, payload := s.files.payload - {x}),
       stats := s.stats - {x})
  }

  lemma DeleteStageSurvives(s: System, a: Action, x: Id)
    requires DeleteStage(s, x) && Enabled(s, a)
    requires DeleteStep(a, x) || !Concerns(s, a, x)
    ensures DeleteStage(Next(s, a), x)
  {
    if DeleteStep(a, x) {
      DeleteStepAdvances(s, a, x);
    } else {
      OthersKeepView(s, a, x);
      if x !in s.files.records {
        GoneRowStays(s, a, x);
      }
    }
  }

  lemma DeleteStepAdvances(s: System, a: Action, x: Id)
    requires DeleteStage(s, x) && Enabled(s, a) && DeleteStep(a, x)
    ensures DeleteStage(Next(s, a), x)
  {
  }

  lemma EraseLeads(s: System, x: Id)
    requires s.txn.None? && At(s.files, x, Deleting) && x !in s.files.creating && x !in s.files.expanding
    ensures Leads(s, ErasePlan(x), Deleted(s, x))
  {
    LeadsThree(s, Do(RemovePayload(x)), ReleaseRow(x), Do(UnlinkRecord(x)));
    assert s.files.creating - {x} == s.files.creating && s.files.expanding - {x} == s.files.expanding;
  }

  lemma QuietVolumeIsErased(s: System, x: Id)
    requires s.txn.None? && Quiet(s.files, x)
    ensures Leads(s, [Do(MarkDeleting(x))] + ErasePlan(x), Deleted(s, x))
  {
    var s1 := Next(s, Do(MarkDeleting(x)));
    assert s1.files.records - {x} == s.files.records - {x};
    EraseLeads(s1, x);
    LeadsFirst(s, Do(MarkDeleting(x)), ErasePlan(x), Deleted(s, x));
  }

  lemma DeletedAfterSettle(s: System, x: Id)
    requires x in s.files.records
    ensures Deleted(s.(files := Settled(s.files, x)), x) == Deleted(s, x)
  {
    var g := Settled(s.files, x);
    assert g.records - {x} == s.files.records - {x};
    assert g.creating - {x} == s.files.creating - {x} && g.expanding - {x} == s.files.expanding - {x};
  }

  lemma DeleteFromHome(s: System, x: Id)
    requires AtHome(ViewOf(s.files, x), x) && s.txn.None?
    ensures Leads(s, SettlePlan(s.files, x) + ([Do(MarkDeleting(x))] + ErasePlan(x)), Deleted(s, x))
  {
    var t := s.(files := Settled(s.files, x));
    SettleLeads(s, x);
    QuietVolumeIsErased(t, x);
    DeletedAfterSettle(s, x);
    LeadsOn(s, SettlePlan(s.files, x), t, [Do(MarkDeleting(x))] + ErasePlan(x), Deleted(s, x));
  }

  lemma NothingToDelete(s: System, x: Id)
    requires DeleteStage(s, x) && s.txn.None? && x !in s.files.records
    ensures Deleted(s, x) == s
  {
    var f := s.files;
    assert f.records - {x} == f.records && f.creating - {x} == f.creating && f.expanding - {x} == f.expanding
           && f.payload - {x} == f.payload && s.stats - {x} == s.stats;
  }

  lemma DeleteCompletes(s: System, x: Id)
    requires DeleteStage(s, x) && s.txn.None?
    ensures Leads(s, DeletePlan(s.files, x), Deleted(s, x))
  {
    if x !in s.files.records {
      NothingToDelete(s, x);
      Stay(s);
    } else if s.files.records[x].phase == Deleting {
      EraseLeads(s, x);
    } else {
      DeleteFromHome(s, x);
    }
  }

  lemma DeleteStepSurvives(path: seq<System>, plan: seq<Action>, i: nat, next: nat, x: Id)
    requires Attempts(path, plan, x, (_, a) => DeleteStep(a, x)) && i < |plan| && next == i + 1
    requires DeleteStage(path[i], x)
    ensures DeleteStage(path[next], x)
  {
    assert StepAt(path, plan, i) && OwnAt(path, plan, i, x, (_, a) => DeleteStep(a, x));
    DeleteStageSurvives(path[i], plan[i], x);
  }

  lemma {:induction false} DeleteStageStays(path: seq<System>, plan: seq<Action>, i: nat, x: Id)
    requires Attempts(path, plan, x, (_, a) => DeleteStep(a, x)) && i <= |plan|
    requires DeleteStage(path[0], x)
    ensures DeleteStage(path[i], x)
  {
    if i > 0 {
      DeleteStageStays(path, plan, i - 1, x);
      DeleteStepSurvives(path, plan, i - 1, i, x);
    }
  }

  lemma DeletedIs(s: System, x: Id)
    ensures var t := Deleted(s, x);
            && ViewOf(t.files, x) == View(None, None, None, None, Get(s.files.archive, x)) && x !in t.stats
            && forall y :: y != x ==> ViewOf(t.files, y) == ViewOf(s.files, y) && Get(t.stats, y) == Get(s.stats, y)
  {
  }

  /** A delete can be retried from every crash point, whatever rebuilds and other volumes'
      operations ran in between: it ends with no trace of the volume and touches nothing else. */
  lemma DeleteIsCrashIdempotent(path: seq<System>, plan: seq<Action>, x: Id)
    requires Attempts(path, plan, x, (_, a) => DeleteStep(a, x)) && DeleteStage(path[0], x)
    ensures var t := path[|plan|];
            var u := Deleted(t, x);
            t.txn.None? ==>
              && Leads(t, DeletePlan(t.files, x), u)
              && ViewOf(u.files, x) == View(None, None, None, None, Get(t.files.archive, x)) && x !in u.stats
              && forall y :: y != x ==> ViewOf(u.files, y) == ViewOf(t.files, y) && Get(u.stats, y) == Get(t.stats, y)
  {
    DeleteStageStays(path, plan, |plan|, x);
    if path[|plan|].txn.None? {
      DeletedIs(path[|plan|], x);
      DeleteCompletes(path[|plan|], x);
    }
  }

  // ---- Cancelling a create that never committed ----

  function CancelPlan(x: Id): seq<Action> {
    [Do(RemovePending(x)), BeginCancel(x), WriteIntent]
  }

  function Unpaid(f: Files, x: Id): Files {
    f.(payload := f.payload - {x})
  }

  /** The intent is unlinked inside the transaction that drops the row, before it commits. */
  function CancelUnlinked(s: System, x: Id): System
    requires Parses(Unpaid(s.files, x))
  {
    s.(files := Unpaid(s.files, x).(creating := s.files.creating - {x}),
       txn := Some(Txn(Working(Unpaid(s.files, x), s.stats) - {x}, Cancel(x), true)))
  }

  lemma CancelLeads(s: System, x: Id)
    requires s.txn.None? && Pends(s.files, x) && Parses(Unpaid(s.files, x))
    ensures Leads(s, CancelPlan(x), CancelUnlinked(s, x))
  {
    var s1 := Next(s, Do(RemovePending(x)));
    assert Next(Next(s1, BeginCancel(x)), WriteIntent) == CancelUnlinked(s, x);
    LeadsThree(s, Do(RemovePending(x)), BeginCancel(x), WriteIntent);
  }

  /** Once the transaction commits nothing of the create is left. A crash between the unlink and the
      commit leaves a row behind if and only if the create had already been charged. Whether anything
      ever releases it again is `Leaks.CancelLeaksForGoodIff`. */
  lemma CancelLeaksIff(s: System, x: Id)
    requires s.txn.None? && Pends(s.files, x) && Parses(Unpaid(s.files, x))
    ensures var u := CancelUnlinked(s, x);
            && Leads(s, CancelPlan(x), u)
            && ViewOf(u.files, x) == ViewOf(s.files, x).(create := None, payload := None)
            && Enabled(u, CommitIndex) && RowGone(Next(u, CommitIndex), x)
            && Enabled(u, AbortIndex) && (RowGone(Next(u, AbortIndex), x) <==> x !in s.stats)
  {
    CancelLeads(s, x);
  }
}
