/** The archive reclaim policy against crashes, and the later reclaim of an archive. */
module Archiving {
  import opened Base
  import opened Lifecycle
  import opened Operations
  import opened Paths
  import opened Removal
  import Admission
  import Runs

  // ---- Archiving ----

  /** An archive of `x` under the name already persisted in its metadata, stopped anywhere: there is
      exactly one metadata record, exactly one payload location, and the reserved bytes have moved
      with the record. */
  ghost predicate ArchiveShape(s: System, x: Id, name: Id, moved: Record) {
    var home, away := ViewOf(s.files, x), ViewOf(s.files, name);
    && x != name && NoGrant(s, x) && NoGrant(s, name)
    && home.record.None? && home.create.None? && home.expand.None?
    && away.create.None? && away.expand.None? && NotAVolume(s.files, name)
    && moved.original == x && 0 < moved.size
    && away.record.Some? && away.record.value == moved.(phase := away.record.value.phase)
    && match away.record.value.phase
       case ArchivingAtHome => home.payload.Some? != away.archive.Some?
       case ArchivingMoved => home.payload.None? && away.archive.Some?
       case Archived => home.payload.None? && away.archive.Some?
       case _ => false
  }

  /** And the accounting row has moved before the metadata does. */
  ghost predicate ArchiveStage(s: System, x: Id, name: Id, moved: Record) {
    ArchiveShape(s, x, name, moved) && (!At(s.files, name, ArchivingAtHome) ==> RowMoved(s, x, name, moved.size))
  }

  ghost predicate NotAVolume(f: Files, name: Id) {
    forall j :: j in f.records ==> f.records[j].original != name
  }

  predicate RowMoved(s: System, x: Id, name: Id, size: int) {
    RowIs(s, name, size) && RowGone(s, x)
  }

  /** The reserved bytes are neither freed nor counted twice while an archive is under way. */
  lemma ArchiveStageReserves(s: System, x: Id, name: Id, moved: Record)
    requires ArchiveStage(s, x, name, moved)
    ensures Reservation(s.files, x) == None && Reservation(s.files, name) == Some(moved.size)
    ensures (x in s.files.records) != (name in s.files.records)
    ensures (x in s.files.payload) != (name in s.files.archive)
  {
  }

  predicate ArchiveStep(a: Action, name: Id) {
    a in {Do(MovePayload(name)), MoveRow(name), Do(MoveRecord(name)), Do(SealArchive(name))}
  }

  /** The steps after the archive name is persisted; each skips what an earlier attempt has done. */
  function ArchivePlan(f: Files, x: Id, name: Id): seq<Action> {
    if At(f, name, ArchivingAtHome) then
      (if name in f.archive then [] else [Do(MovePayload(name))]) + RecordPlan(name)
    else if At(f, name, ArchivingMoved) then [MoveRow(name), Do(SealArchive(name))]
    else []
  }

  function RecordPlan(name: Id): seq<Action> {
    [MoveRow(name), Do(MoveRecord(name)), Do(SealArchive(name))]
  }

  /** The volume's payload, record and row live under the archive name, everything else as it was. */
  function ArchivedAs(s: System, x: Id, name: Id, moved: Record, quota: Quota): System {
    s.(files := s.files.(records := (s.files.records - {x})[name := moved.(phase := Archived)],
                         creating := s.files.creating - {x}, expanding := s.files.expanding - {x},
                         payload := s.files.payload - {x}, archive := s.files.archive[name := quota]),
       stats := (s.stats - {x})[name := moved.size])
  }

  lemma ArchivedIs(s: System, x: Id, name: Id, moved: Record, quota: Quota)
    requires x != name && name !in s.files.creating && name !in s.files.expanding
    ensures var t := ArchivedAs(s, x, name, moved, quota);
            && ViewOf(t.files, x) == View(None, None, None, None, Get(s.files.archive, x)) && x !in t.stats
            && ViewOf(t.files, name)
               == View(Some(moved.(phase := Archived)), None, None, Get(s.files.payload, name), Some(quota))
            && Get(t.stats, name) == Some(moved.size)
            && forall y :: y != x && y != name ==>
                 ViewOf(t.files, y) == ViewOf(s.files, y) && Get(t.stats, y) == Get(s.stats, y)
  {
  }

  /** The payload's limit, wherever the payload is. */
  function LimitOf(f: Files, x: Id, name: Id): Quota
    requires x in f.payload || name in f.archive
  {
    if name in f.archive then f.archive[name] else f.payload[x]
  }

  lemma ArchiveStageSurvives(s: System, a: Action, x: Id, name: Id, moved: Record)
    requires ArchiveStage(s, x, name, moved) && Enabled(s, a) && NotAVolume(Next(s, a).files, name)
    requires ArchiveStep(a, name) || (!Concerns(s, a, x) && !Concerns(s, a, name))
    ensures ArchiveStage(Next(s, a), x, name, moved)
    ensures LimitOf(Next(s, a).files, x, name) == LimitOf(s.files, x, name)
  {
    if ArchiveStep(a, name) {
      ArchiveStepAdvances(s, a, x, name, moved);
    } else {
      OthersKeepView(s, a, x);
      OthersKeepView(s, a, name);
      if !At(s.files, name, ArchivingAtHome) {
        GoneRowStays(s, a, x);
        ChargedRowStays(s, a, name, moved.size);
      }
    }
  }

  lemma ArchiveStepAdvances(s: System, a: Action, x: Id, name: Id, moved: Record)
    requires ArchiveStage(s, x, name, moved) && Enabled(s, a) && ArchiveStep(a, name)
             && NotAVolume(Next(s, a).files, name)
    ensures ArchiveStage(Next(s, a), x, name, moved)
    ensures LimitOf(Next(s, a).files, x, name) == LimitOf(s.files, x, name)
  {
  }

  lemma RowMoves(s: System, x: Id, name: Id, moved: Record)
    requires ArchiveShape(s, x, name, moved) && s.txn.None? && !At(s.files, name, Archived) && name in s.files.archive
    ensures Enabled(s, MoveRow(name))
    ensures var t := Next(s, MoveRow(name));
            && t == s.(stats := t.stats) && RowMoved(t, x, name, moved.size)
            && t.stats == (s.stats - {x})[name := moved.size]
  {
    assert (s.stats - {x, name})[name := moved.size] == (s.stats - {x})[name := moved.size];
  }

  /** Once payload and row have moved, only the record's phase is left to change. */
  lemma NothingElseMoves(s: System, x: Id, name: Id, moved: Record)
    requires ArchiveShape(s, x, name, moved) && name in s.files.archive
    ensures ArchivedAs(s, x, name, moved, s.files.archive[name])
            == s.(files := WithPhase(s.files, name, Archived), stats := (s.stats - {x})[name := moved.size])
  {
    var f := s.files;
    assert (f.records - {x})[name := moved.(phase := Archived)]
           == f.records[name := f.records[name].(phase := Archived)];
    assert f.creating - {x} == f.creating && f.expanding - {x} == f.expanding
           && f.payload - {x} == f.payload && f.archive[name := f.archive[name]] == f.archive;
  }

  lemma RecordMoves(s: System, x: Id, name: Id, moved: Record)
    requires ArchiveShape(s, x, name, moved) && s.txn.None? && At(s.files, name, ArchivingAtHome)
    requires name in s.files.archive
    ensures Leads(s, RecordPlan(name), ArchivedAs(s, x, name, moved, s.files.archive[name]))
  {
    RowMoves(s, x, name, moved);
    NothingElseMoves(s, x, name, moved);
    SealsTwice(s.files, name);
    LeadsThree(s, MoveRow(name), Do(MoveRecord(name)), Do(SealArchive(name)));
  }

  lemma SealsTwice(f: Files, name: Id)
    requires name in f.records
    ensures WithPhase(WithPhase(f, name, ArchivingMoved), name, Archived) == WithPhase(f, name, Archived)
  {
  }

  lemma RecordSeals(s: System, x: Id, name: Id, moved: Record)
    requires ArchiveShape(s, x, name, moved) && s.txn.None? && At(s.files, name, ArchivingMoved)
    ensures Leads(s, [MoveRow(name), Do(SealArchive(name))], ArchivedAs(s, x, name, moved, s.files.archive[name]))
  {
    RowMoves(s, x, name, moved);
    NothingElseMoves(s, x, name, moved);
    LeadsTwo(s, MoveRow(name), Do(SealArchive(name)));
  }

  lemma PayloadMoves(s: System, x: Id, name: Id, moved: Record)
    requires ArchiveShape(s, x, name, moved) && s.txn.None? && At(s.files, name, ArchivingAtHome)
    requires name !in s.files.archive
    ensures Leads(s, [Do(MovePayload(name))] + RecordPlan(name), ArchivedAs(s, x, name, moved, s.files.payload[x]))
  {
    var s1 := Next(s, Do(MovePayload(name)));
    assert s1.files.payload - {x} == s.files.payload - {x};
    assert s1.files.archive[name := s.files.payload[x]] == s.files.archive[name := s.files.payload[x]];
    RecordMoves(s1, x, name, moved);
    LeadsFirst(s, Do(MovePayload(name)), RecordPlan(name), ArchivedAs(s, x, name, moved, s.files.payload[x]));
  }

  lemma SealedIsArchived(s: System, x: Id, name: Id, moved: Record)
    requires ArchiveStage(s, x, name, moved) && s.txn.None? && At(s.files, name, Archived)
    ensures s == ArchivedAs(s, x, name, moved, s.files.archive[name])
  {
    var f := s.files;
    assert (f.records - {x})[name := moved.(phase := Archived)] == f.records;
    assert f.creating - {x} == f.creating && f.expanding - {x} == f.expanding && f.payload - {x} == f.payload;
    assert f.archive[name := f.archive[name]] == f.archive && (s.stats - {x})[name := moved.size] == s.stats;
  }

  lemma ArchiveResumes(s: System, x: Id, name: Id, moved: Record)
    requires ArchiveShape(s, x, name, moved) && s.txn.None? && !At(s.files, name, Archived)
    ensures Leads(s, ArchivePlan(s.files, x, name), ArchivedAs(s, x, name, moved, LimitOf(s.files, x, name)))
  {
    if At(s.files, name, ArchivingMoved) {
      RecordSeals(s, x, name, moved);
    } else if name in s.files.archive {
      RecordMoves(s, x, name, moved);
      assert [] + RecordPlan(name) == RecordPlan(name);
    } else {
      PayloadMoves(s, x, name, moved);
    }
  }

  lemma ArchiveCompletes(s: System, x: Id, name: Id, moved: Record)
    requires ArchiveStage(s, x, name, moved) && s.txn.None?
    ensures Leads(s, ArchivePlan(s.files, x, name), ArchivedAs(s, x, name, moved, LimitOf(s.files, x, name)))
  {
    if At(s.files, name, Archived) {
      SealedIsArchived(s, x, name, moved);
      Stay(s);
    } else {
      ArchiveResumes(s, x, name, moved);
    }
  }

  /** No volume carries the name of an archive. */
  ghost predicate NamesStayOk(path: seq<System>)
  {
    forall i :: 0 <= i < |path| ==> NamesOk(path[i].files.records)
  }

  /** Attempts at this archive, and what leaves both its names alone. */
  ghost predicate ArchiveAttempts(path: seq<System>, plan: seq<Action>, x: Id, name: Id)
  {
    && Attempts(path, plan, x, (_, a) => ArchiveStep(a, name))
    && Attempts(path, plan, name, (_, a) => ArchiveStep(a, name))
    && NamesStayOk(path)
  }

  lemma AliasedIsNoVolume(f: Files, name: Id)
    requires NamesOk(f.records) && name in f.records && AliasOf(f.records[name]).Some?
    ensures NotAVolume(f, name)
  {
  }

  lemma ArchiveKeepsAlias(s: System, a: Action, x: Id, name: Id, moved: Record)
    requires ArchiveShape(s, x, name, moved) && Enabled(s, a) && ArchiveStep(a, name)
    ensures var f := Next(s, a).files; name in f.records && AliasOf(f.records[name]).Some?
  {
  }

  lemma ArchiveNameStays(s: System, a: Action, x: Id, name: Id, moved: Record)
    requires ArchiveShape(s, x, name, moved) && Enabled(s, a) && NamesOk(Next(s, a).files.records)
    requires ArchiveStep(a, name) || !Concerns(s, a, name)
    ensures NotAVolume(Next(s, a).files, name)
  {
    if ArchiveStep(a, name) {
      ArchiveKeepsAlias(s, a, x, name, moved);
    } else {
      OthersKeepView(s, a, name);
      assert ViewOf(Next(s, a).files, name).record == ViewOf(s.files, name).record;
    }
    AliasedIsNoVolume(Next(s, a).files, name);
  }

  lemma ArchiveStepSurvives(path: seq<System>, plan: seq<Action>, i: nat, next: nat, x: Id, name: Id, moved: Record)
    requires ArchiveAttempts(path, plan, x, name) && i < |plan| && next == i + 1
    requires ArchiveStage(path[i], x, name, moved)
    ensures ArchiveStage(path[next], x, name, moved)
    ensures LimitOf(path[next].files, x, name) == LimitOf(path[i].files, x, name)
  {
    assert StepAt(path, plan, i) && NamesOk(path[next].files.records);
    assert OwnAt(path, plan, i, x, (_, a) => ArchiveStep(a, name));
    assert OwnAt(path, plan, i, name, (_, a) => ArchiveStep(a, name));
    ArchiveNameStays(path[i], plan[i], x, name, moved);
    ArchiveStageSurvives(path[i], plan[i], x, name, moved);
  }

  lemma {:induction false} ArchiveStageStays(path: seq<System>, plan: seq<Action>, i: nat, x: Id, name: Id,
      moved: Record)
    requires ArchiveAttempts(path, plan, x, name) && i <= |plan|
    requires ArchiveStage(path[0], x, name, moved)
    ensures ArchiveStage(path[i], x, name, moved)
    ensures LimitOf(path[i].files, x, name) == LimitOf(path[0].files, x, name)
  {
    if i > 0 {
      ArchiveStageStays(path, plan, i - 1, x, name, moved);
      ArchiveStepSurvives(path, plan, i - 1, i, x, name, moved);
    }
  }

  lemma ArchiveResumesFromCrash(path: seq<System>, plan: seq<Action>, x: Id, name: Id, moved: Record)
    requires ArchiveAttempts(path, plan, x, name) && ArchiveStage(path[0], x, name, moved)
    ensures var s, t := path[0], path[|plan|];
            && x != name && name !in t.files.creating && name !in t.files.expanding
            && (x in s.files.payload || name in s.files.archive)
            && (t.txn.None? ==>
                  Leads(t, ArchivePlan(t.files, x, name), ArchivedAs(t, x, name, moved, LimitOf(s.files, x, name))))
  {
    ArchiveStageStays(path, plan, |plan|, x, name, moved);
    if path[|plan|].txn.None? {
      ArchiveCompletes(path[|plan|], x, name, moved);
    }
  }

  lemma HistoryKeepsNames(total: int, path: seq<System>, plan: seq<Action>, from: nat)
    requires IsHistory(total, path, plan) && from <= |plan|
    ensures NamesStayOk(path[from..])
  {
    var rest := path[from..];
    forall i | 0 <= i < |rest| ensures NamesOk(rest[i].files.records) {
      HistoryNames(total, path, plan, from + i);
    }
  }

  lemma HistoryNames(total: int, path: seq<System>, plan: seq<Action>, i: nat)
    requires IsHistory(total, path, plan) && i <= |plan|
    ensures NamesOk(path[i].files.records)
  {
    Runs.HistoryIsConsistent(total, path, plan, i);
  }

  /** An archive is resumable from every crash point after its name is persisted. At any moment of any
      history let any number of attempts at it begin, each stopped anywhere, interleaved with anything that
      leaves both its names alone: one more attempt ends in the state an uninterrupted one reaches, under
      the same name and the same limit. */
  lemma ArchiveIsCrashIdempotent(total: int, path: seq<System>, plan: seq<Action>, from: nat, x: Id, name: Id,
                                 moved: Record)
    requires IsHistory(total, path, plan) && from <= |plan| && ArchiveStage(path[from], x, name, moved)
    requires Attempts(path[from..], plan[from..], x, (_, a) => ArchiveStep(a, name))
    requires Attempts(path[from..], plan[from..], name, (_, a) => ArchiveStep(a, name))
    ensures var s, t := path[from], path[|plan|];
            && (x in s.files.payload || name in s.files.archive)
            && (t.txn.None? ==>
                  var limit := if name in s.files.archive then s.files.archive[name] else s.files.payload[x];
                  var u := ArchivedAs(t, x, name, moved, limit);
                  && Leads(t, ArchivePlan(t.files, x, name), u)
                  && ViewOf(u.files, x) == View(None, None, None, None, Get(t.files.archive, x)) && x !in u.stats
                  && ViewOf(u.files, name)
                     == View(Some(moved.(phase := Archived)), None, None, Get(t.files.payload, name), Some(limit))
                  && Get(u.stats, name) == Some(moved.size)
                  && forall y :: y != x && y != name ==>
                       ViewOf(u.files, y) == ViewOf(t.files, y) && Get(u.stats, y) == Get(t.stats, y))
  {
    HistoryKeepsNames(total, path, plan, from);
    assert path[from..][0] == path[from] && path[from..][|plan[from..]|] == path[|plan|];
    ArchiveResumesFromCrash(path[from..], plan[from..], x, name, moved);
    ArchivedIs(path[|plan|], x, name, moved, LimitOf(path[from].files, x, name));
  }

  // ---- From the volume's home to its archive ----

  lemma Prepares(s: System, x: Id, name: Id)
    requires s.txn.None? && Quiet(s.files, x) && 0 < s.files.records[x].size && s.files.records[x].original == x
    requires x in s.files.payload && Unused(s.files, name) && name !in s.stats
    ensures Enabled(s, Do(PrepareArchive(x, name)))
    ensures ArchiveStage(Next(s, Do(PrepareArchive(x, name))), x, name, s.files.records[x])
  {
  }

  lemma ArchivedAfterPrepare(s: System, x: Id, name: Id, moved: Record)
    requires x in s.files.records && name !in s.files.records && x != name
    requires x !in s.files.creating && x !in s.files.expanding
    ensures var t := s.(files := s.files.(records := (s.files.records - {x})[name := moved]));
            forall q :: ArchivedAs(t, x, name, s.files.records[x], q) == ArchivedAs(s, x, name, s.files.records[x], q)
  {
    var r := s.files.records[x].(phase := Archived);
    assert ((s.files.records - {x})[name := moved] - {x})[name := r] == (s.files.records - {x})[name := r];
  }

  function FromHomePlan(x: Id, name: Id): seq<Action> {
    [Do(PrepareArchive(x, name))] + ([Do(MovePayload(name))] + RecordPlan(name))
  }

  lemma QuietVolumeIsArchived(s: System, x: Id, name: Id)
    requires s.txn.None? && Quiet(s.files, x) && 0 < s.files.records[x].size && s.files.records[x].original == x
    requires x in s.files.payload && Unused(s.files, name) && name !in s.stats
    ensures Leads(s, FromHomePlan(x, name), ArchivedAs(s, x, name, s.files.records[x], s.files.payload[x]))
  {
    Prepares(s, x, name);
    var t := Next(s, Do(PrepareArchive(x, name)));
    PayloadMoves(t, x, name, s.files.records[x]);
    ArchivedAfterPrepare(s, x, name, s.files.records[x].(phase := ArchivingAtHome));
    LeadsFirst(s, Do(PrepareArchive(x, name)), [Do(MovePayload(name))] + RecordPlan(name),
               ArchivedAs(s, x, name, s.files.records[x], s.files.payload[x]));
  }

  lemma SettledKeepsUnused(f: Files, x: Id, name: Id)
    requires AtHome(ViewOf(f, x), x) && Unused(f, name)
    ensures Unused(Settled(f, x), name)
  {
  }

  lemma ArchivedAfterSettle(s: System, x: Id, name: Id, moved: Record, quota: Quota)
    requires x in s.files.records
    ensures ArchivedAs(s.(files := Settled(s.files, x)), x, name, moved, quota) == ArchivedAs(s, x, name, moved, quota)
  {
    var g := Settled(s.files, x);
    assert g.records - {x} == s.files.records - {x};
    assert g.creating - {x} == s.files.creating - {x} && g.expanding - {x} == s.files.expanding - {x};
  }

  function HomeRecord(f: Files, x: Id): Record
    requires x in f.records
  {
    f.records[x].(size := Reserved(f, x))
  }

  /** Archiving a committed volume under a fresh name ends with its whole reservation under that
      name, a pending expansion's target included. */
  lemma ArchiveFromHome(s: System, x: Id, name: Id)
    requires s.txn.None? && AtHome(ViewOf(s.files, x), x) && 0 < s.files.records[x].size
    requires name !in s.stats && name !in s.files.records && name !in s.files.creating && name !in s.files.expanding
    requires name !in s.files.payload && name !in s.files.archive
    requires forall i :: i in s.files.records ==> s.files.records[i].original != name
    ensures var u := ArchivedAs(s, x, name, HomeRecord(s.files, x), s.files.payload[x]);
            var size := if x in s.files.expanding then s.files.expanding[x].toSize else s.files.records[x].size;
            && Leads(s, SettlePlan(s.files, x) + FromHomePlan(x, name), u)
            && ViewOf(u.files, x) == View(None, None, None, None, Get(s.files.archive, x)) && x !in u.stats
            && ViewOf(u.files, name)
               == View(Some(s.files.records[x].(size := size, phase := Archived)), None, None, None,
                       Some(s.files.payload[x]))
            && Get(u.stats, name) == Some(size)
            && forall y :: y != x && y != name ==>
                 ViewOf(u.files, y) == ViewOf(s.files, y) && Get(u.stats, y) == Get(s.stats, y)
  {
    ArchivedIs(s, x, name, HomeRecord(s.files, x), s.files.payload[x]);
    var t := s.(files := Settled(s.files, x));
    SettleLeads(s, x);
    SettledKeepsUnused(s.files, x, name);
    SettledStaysPositive(s.files, x);
    QuietVolumeIsArchived(t, x, name);
    ArchivedAfterSettle(s, x, name, HomeRecord(s.files, x), s.files.payload[x]);
    LeadsOn(s, SettlePlan(s.files, x), t, FromHomePlan(x, name),
            ArchivedAs(s, x, name, HomeRecord(s.files, x), s.files.payload[x]));
  }

  lemma SettledStaysPositive(f: Files, x: Id)
    requires AtHome(ViewOf(f, x), x) && 0 < f.records[x].size
    ensures 0 < Settled(f, x).records[x].size && Settled(f, x).records[x].original == x && x in Settled(f, x).payload
    ensures Settled(f, x).records[x] == HomeRecord(f, x) && Settled(f, x).payload == f.payload
  {
  }

  // ---- Reclaiming an archive ----

  function ReclaimPlan(f: Files, name: Id): seq<Action> {
    if At(f, name, Archived) then [Do(MarkReclaiming(name))] + PurgePlan(name)
    else if At(f, name, Reclaiming) then PurgePlan(name)
    else []
  }

  function PurgePlan(name: Id): seq<Action> {
    [Do(RemoveArchive(name)), ReleaseArchive(name), Do(UnlinkArchive(name))]
  }

  /** A reclaim of an archive, stopped anywhere. */
  predicate ReclaimStage(s: System, name: Id) {
    var v := ViewOf(s.files, name);
    && NoGrant(s, name) && v.create.None? && v.expand.None?
    && (v.record.None? ==> v.archive.None? && RowGone(s, name))
    && (v.record.Some? ==> v.record.value.phase == Archived || v.record.value.phase == Reclaiming)
  }

  predicate ReclaimStep(a: Action, name: Id) {
    a in {Do(MarkReclaiming(name)), Do(RemoveArchive(name)), ReleaseArchive(name), Do(UnlinkArchive(name))}
  }

  /** The archive's record and payload are gone, everything else in the files as it was. */
  function Purged(f: Files, name: Id): Files {
    f.(records := f.records - {name}, archive := f.archive - {name})
  }

  lemma ReclaimStageSurvives(s: System, a: Action, name: Id)
    requires ReclaimStage(s, name) && Enabled(s, a)
    requires ReclaimStep(a, name) || !Concerns(s, a, name)
    ensures ReclaimStage(Next(s, a), name)
  {
    if !Concerns(s, a, name) {
      OthersKeepView(s, a, name);
      if name !in s.files.records {
        GoneRowStays(s, a, name);
      }
    }
  }

  /** The files once the archive's payload is gone behind its tombstone. */
  function Emptied(f: Files, name: Id): Files
    requires name in f.records
  {
    WithPhase(f, name, Reclaiming).(archive := f.archive - {name})
  }

  /** The pool once the archive is reclaimed: nothing but its own row differs from a rebuilt index. */
  function Reclaimed(s: System, name: Id): System
    requires name in s.files.records && Parses(Emptied(s.files, name))
  {
    s.(files := Purged(s.files, name), stats := Working(Emptied(s.files, name), s.stats) - {name})
  }

  lemma PurgeLeads(s: System, name: Id)
    requires s.txn.None? && At(s.files, name, Reclaiming) && Parses(Emptied(s.files, name))
    ensures Leads(s, PurgePlan(name), Reclaimed(s, name))
  {
    var s1 := Next(s, Do(RemoveArchive(name)));
    assert s.files.records[name := s.files.records[name]] == s.files.records;
    assert s1.files == Emptied(s.files, name);
    LeadsThree(s, Do(RemoveArchive(name)), ReleaseArchive(name), Do(UnlinkArchive(name)));
  }

  lemma ReclaimMarks(s: System, name: Id)
    requires s.txn.None? && At(s.files, name, Archived) && Parses(Emptied(s.files, name))
    ensures Leads(s, [Do(MarkReclaiming(name))] + PurgePlan(name), Reclaimed(s, name))
  {
    var s1 := Next(s, Do(MarkReclaiming(name)));
    assert Emptied(s1.files, name) == Emptied(s.files, name);
    assert Purged(s1.files, name) == Purged(s.files, name);
    PurgeLeads(s1, name);
    LeadsFirst(s, Do(MarkReclaiming(name)), PurgePlan(name), Reclaimed(s, name));
  }

  lemma ReclaimLeads(s: System, name: Id)
    requires s.txn.None? && (At(s.files, name, Archived) || At(s.files, name, Reclaiming))
    requires Parses(Emptied(s.files, name))
    ensures Leads(s, ReclaimPlan(s.files, name), Reclaimed(s, name))
  {
    if At(s.files, name, Archived) {
      ReclaimMarks(s, name);
    } else {
      PurgeLeads(s, name);
    }
  }

  predicate Retired(f: Files, name: Id) {
    At(f, name, Archived) || At(f, name, Reclaiming)
  }

  lemma EmptiedIntents(f: Files, name: Id)
    requires CreatesOk(f) && ExpandsOk(f) && Retired(f, name)
    ensures CreatesOk(Emptied(f, name)) && ExpandsOk(Emptied(f, name))
  {
    var g := Emptied(f, name);
    forall y | y in g.creating ensures CreateOk(g, y) {
      assert CreateOk(f, y);
      assert Busy(g.records, y) ==> Busy(f.records, y);
    }
    forall y | y in g.expanding ensures ExpandOk(g, y) { assert ExpandOk(f, y); }
  }

  /** The walk succeeds once an archive's payload is gone, even if its tombstone hides an intent. */
  lemma EmptiedParses(f: Files, name: Id)
    requires CreatesOk(f) && ExpandsOk(f) && Retired(f, name)
    ensures Parses(Emptied(f, name))
  {
    EmptiedIntents(f, name);
    Admission.IntentsAgree(Emptied(f, name));
  }

  lemma PurgedRecords(f: Files, name: Id)
    requires RecordsOk(f) && NamesOk(f.records) && ReleasesOk(f) && Retired(f, name)
    ensures var g := Purged(f, name); RecordsOk(g) && NamesOk(g.records) && ReleasesOk(g)
  {
    var g := Purged(f, name);
    forall i | i in g.records ensures RecordOk(g, i) { assert RecordOk(f, i); }
    forall i | i in g.records && ReleasedAt(g, i) ensures ReleaseOk(g, i) { assert ReleasedAt(f, i); }
    assert NamesOk(g.records);
  }

  lemma PurgedIntents(f: Files, name: Id)
    requires CreatesOk(f) && ExpandsOk(f) && Retired(f, name)
    ensures CreatesOk(Purged(f, name)) && ExpandsOk(Purged(f, name))
  {
    var g := Purged(f, name);
    forall y | y in g.creating ensures CreateOk(g, y) {
      assert CreateOk(f, y);
      assert Busy(g.records, y) ==> Busy(f.records, y);
    }
    forall y | y in g.expanding ensures ExpandOk(g, y) { assert ExpandOk(f, y); }
  }

  lemma PurgedPayloads(f: Files, name: Id)
    requires PayloadsOk(f) && CreatesOk(f) && Retired(f, name)
    ensures PayloadsOk(Purged(f, name))
  {
    var g := Purged(f, name);
    forall y | y in g.payload ensures Pends(g, y) || Busy(g.records, y) {
      if Busy(f.records, y) {
        var i :| i in f.records && Holds(f.records[i], y);
        assert i in g.records && Holds(g.records[i], y);
      }
    }
  }

  /** Without the archive the files are consistent again, whatever intents the tombstone hid meanwhile. */
  lemma PurgedStaysOk(f: Files, name: Id)
    requires FilesOk(f) && Retired(f, name)
    ensures FilesOk(Purged(f, name))
  {
    PurgedRecords(f, name);
    PurgedIntents(f, name);
    PurgedPayloads(f, name);
  }

  lemma ReclaimStepSurvives(path: seq<System>, plan: seq<Action>, i: nat, next: nat, name: Id)
    requires Attempts(path, plan, name, (_, a) => ReclaimStep(a, name)) && i < |plan| && next == i + 1
    requires ReclaimStage(path[i], name)
    ensures ReclaimStage(path[next], name)
  {
    assert StepAt(path, plan, i) && OwnAt(path, plan, i, name, (_, a) => ReclaimStep(a, name));
    ReclaimStageSurvives(path[i], plan[i], name);
  }

  lemma {:induction false} ReclaimStageStays(path: seq<System>, plan: seq<Action>, i: nat, name: Id)
    requires Attempts(path, plan, name, (_, a) => ReclaimStep(a, name)) && i <= |plan|
    requires ReclaimStage(path[0], name)
    ensures ReclaimStage(path[i], name)
  {
    if i > 0 {
      ReclaimStageStays(path, plan, i - 1, name);
      ReclaimStepSurvives(path, plan, i - 1, i, name);
    }
  }

  /** A reclaim can be retried from every crash point: what earlier attempts left is either nothing at
      all, or is purged by one more, as long as the walk succeeds once the payload is gone. */
  lemma ReclaimIsCrashIdempotent(path: seq<System>, plan: seq<Action>, name: Id)
    requires Attempts(path, plan, name, (_, a) => ReclaimStep(a, name)) && ReclaimStage(path[0], name)
    ensures var t := path[|plan|];
            t.txn.None? ==>
              if name in t.files.records then
                Parses(Emptied(t.files, name)) ==>
                  var u := Reclaimed(t, name);
                  && Leads(t, ReclaimPlan(t.files, name), u)
                  && ViewOf(u.files, name) == View(None, None, None, Get(t.files.payload, name), None)
                  && name !in u.stats
                  && forall y :: y != name ==> ViewOf(u.files, y) == ViewOf(t.files, y)
              else name !in t.files.archive && RowGone(t, name)
  {
    ReclaimStageStays(path, plan, |plan|, name);
    var t := path[|plan|];
    if t.txn.None? && name in t.files.records && Parses(Emptied(t.files, name)) {
      ReclaimLeads(t, name);
    }
  }

  /** What a reclaim frees is exactly what the archive reserved. */
  lemma ReclaimFreesTheArchive(f: Files, name: Id)
    requires name in f.records && AliasOf(f.records[name]).Some? && !ReleasedAt(f, name)
    requires name !in f.creating && name !in f.expanding
    ensures Durable(Purged(f, name)) == Durable(f) - {name} && Durable(f)[name] == f.records[name].size
    ensures Sum(Durable(Purged(f, name))) == Sum(Durable(f)) - f.records[name].size
  {
    var g := Purged(f, name);
    forall k
      ensures k in Durable(g) <==> k in Durable(f) - {name}
      ensures k in Durable(g) ==> Durable(g)[k] == Durable(f)[k]
    {
      assert k in Durable(f) <==> Reservation(f, k).Some?;
      assert k in Durable(g) <==> Reservation(g, k).Some?;
    }
    SumRemove(Durable(f), name);
  }
}
