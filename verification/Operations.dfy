/**
 Each lifecycle operation against crashes: wherever earlier attempts at it stopped, and whatever
 other volumes' operations did in between, one more attempt ends in the same state.
 */
module Operations {
  import opened Base
  import opened Lifecycle
  import opened Paths
  import R = Records
  import Admission

  // ---- What the steps of other operations leave alone ----

  /** Everything the files hold under one id. */
  datatype View = View(record: Option<Record>, create: Option<R.CreationIntent>, expand: Option<R.ExpansionIntent>,
                       payload: Option<Quota>, archive: Option<Quota>)

  function Get<V>(m: map<Id, V>, k: Id): Option<V> {
    if k in m then Some(m[k]) else None
  }

  function ViewOf(f: Files, x: Id): View {
    View(Get(f.records, x), Get(f.creating, x), Get(f.expanding, x), Get(f.payload, x), Get(f.archive, x))
  }

  /** The ids a write reads or changes. */
  predicate WriteConcerns(f: Files, w: Write, x: Id) {
    match w
    case PrepareArchive(y, name) => x == y || x == name
    case MovePayload(name) => x == name || (name in f.records && f.records[name].original == x)
    case MoveRecord(name) => x == name
    case SealArchive(name) => x == name
    case MarkReclaiming(name) => x == name
    case RemoveArchive(name) => x == name
    case UnlinkArchive(name) => x == name
    case _ => x == w.x
  }

  predicate Concerns(s: System, a: Action, x: Id) {
    match a
    case Do(w) => WriteConcerns(s.files, w, x)
    case Charge(y, _) => x == y
    case BeginCreate(y, _, _) => x == y
    case BeginExpand(y, _, _) => x == y
    case BeginCancel(y) => x == y
    case WriteIntent => s.txn.Some? && s.txn.value.grant.x == x
    case _ => false
  }

  lemma OthersKeepView(s: System, a: Action, x: Id)
    requires Enabled(s, a) && !Concerns(s, a, x)
    ensures ViewOf(Next(s, a).files, x) == ViewOf(s.files, x)
  {
    match a
    case Do(w) => WriteKeepsOtherViews(s.files, w, x);
    case _ =>
  }

  lemma WriteKeepsOtherViews(f: Files, w: Write, x: Id)
    requires CanWrite(f, w) && !WriteConcerns(f, w, x)
    ensures ViewOf(Apply(f, w), x) == ViewOf(f, x)
  {
  }

  predicate NoGrant(s: System, x: Id) {
    s.txn.Some? ==> s.txn.value.grant.x != x
  }

  /** A row that is gone stays gone while its id reserves nothing and no admission is open on it:
      no rebuild brings it back. */
  lemma GoneRowStays(s: System, a: Action, k: Id)
    requires RowGone(s, k) && Reservation(s.files, k).None? && NoGrant(s, k) && Enabled(s, a)
    requires a.Charge? ==> a.x != k
    ensures RowGone(Next(s, a), k)
  {
    if Parses(s.files) {
      Admission.CodeReserves(s.files, k);
    }
  }

  /** A row that states what its archive reserves stays while no other index operation names it. */
  lemma ChargedRowStays(s: System, a: Action, name: Id, size: int)
    requires RowIs(s, name, size) && NoGrant(s, name) && Enabled(s, a) && (a.Charge? ==> a.x != name)
    requires name in s.files.records && !ReleasedAt(s.files, name) && s.files.records[name].size == size
    requires name !in s.files.creating && name !in s.files.expanding
    requires forall j :: j in s.files.records ==> s.files.records[j].original != name
    ensures RowIs(Next(s, a), name, size)
  {
    if Rebuilds(a) {
      RebuildKeepsCharge(s.files, s.stats, name, size);
    } else {
      StatementKeepsCharge(s, a, name, size);
    }
  }

  /** Actions that begin with a rebuild of the index. */
  predicate Rebuilds(a: Action) {
    a.RebuildIndex? || a.ReleaseArchive? || a.BeginCreate? || a.BeginExpand? || a.BeginCancel?
  }

  lemma StatementKeepsCharge(s: System, a: Action, name: Id, size: int)
    requires RowIs(s, name, size) && NoGrant(s, name) && Enabled(s, a) && !Rebuilds(a) && (a.Charge? ==> a.x != name)
    requires name in s.files.records && !ReleasedAt(s.files, name) && s.files.records[name].size == size
    requires name !in s.files.expanding
    requires forall j :: j in s.files.records ==> s.files.records[j].original != name
    ensures RowIs(Next(s, a), name, size)
  {
  }

  lemma RebuildKeepsCharge(f: Files, rows: map<Id, int>, name: Id, size: int)
    requires Parses(f) && name in f.records && !ReleasedAt(f, name) && f.records[name].size == size
    requires name !in f.creating && name !in f.expanding
    ensures name in Working(f, rows) && Working(f, rows)[name] == size
  {
    Admission.CodeReserves(f, name);
  }

  /** An action of this operation, or one that leaves the volume alone. */
  ghost predicate OwnAt(path: seq<System>, plan: seq<Action>, i: nat, x: Id, own: (System, Action) -> bool)
    requires i < |plan| && |path| == |plan| + 1
  {
    own(path[i], plan[i]) || !Concerns(path[i], plan[i], x)
  }

  /** Any number of attempts at one operation, each stopped anywhere, interleaved with anything that
      leaves the volume alone. */
  ghost predicate Attempts(path: seq<System>, plan: seq<Action>, x: Id, own: (System, Action) -> bool)
  {
    IsPath(path, plan) && forall i :: 0 <= i < |plan| ==> OwnAt(path, plan, i, x, own)
  }

  // ---- CreateVolume ----

  /** An admitted create of `x` with this size and incarnation, stopped anywhere. */
  predicate CreateStage(v: View, x: Id, size: int, inc: nat) {
    var intent := Some(R.CreationIntent(x, size, inc));
    && 0 < size && v.expand.None?
    && match v.record
       case None => v.create == intent
       case Some(r) =>
         r == Record(size, Committed, x, inc) && (v.create.None? || v.create == intent)
             && v.payload == Some(Limit(size))
  }

  /** The pool once `x` exists: this record, quota and row, no intent, everything else as it was. */
  function Created(s: System, x: Id, size: int, inc: nat): System {
    s.(files := s.files.(records := s.files.records[x := Record(size, Committed, x, inc)],
                         creating := s.files.creating - {x},
                         payload := s.files.payload[x := Limit(size)]),
       stats := s.stats[x := size])
  }

  /** What `create_subdir_volume` and the accounting update after it do from here. A compatible
      retry that finds committed metadata drops a leftover intent and reconciles the row. */
  function CreatePlan(f: Files, x: Id): seq<Action> {
    if x in f.records then
      var charge := [Charge(x, f.records[x].size)];
      if x in f.creating then [Do(FinishCreate(x))] + charge else charge
    else if x in f.creating then
      [Do(MakePayload(x)), Do(LimitPayload(x)), Do(CommitRecord(x)), Do(FinishCreate(x)), Charge(x, f.creating[x].size)]
    else []
  }

  predicate CreateStep(a: Action, x: Id) {
    || a in {Do(MakePayload(x)), Do(LimitPayload(x)), Do(CommitRecord(x)), Do(FinishCreate(x))}
    || (a.Charge? && a.x == x)
  }

  lemma CreateStageSurvives(s: System, a: Action, x: Id, size: int, inc: nat)
    requires CreateStage(ViewOf(s.files, x), x, size, inc) && Enabled(s, a)
    requires CreateStep(a, x) || !Concerns(s, a, x)
    ensures CreateStage(ViewOf(Next(s, a).files, x), x, size, inc)
  {
    if !Concerns(s, a, x) {
      OthersKeepView(s, a, x);
    }
  }

  lemma CreateFinishes(s: System, x: Id, size: int, inc: nat)
    requires CreateStage(ViewOf(s.files, x), x, size, inc) && s.txn.None? && x in s.files.records
    ensures Leads(s, CreatePlan(s.files, x), Created(s, x, size, inc))
  {
    var f := s.files;
    assert f.records[x := Record(size, Committed, x, inc)] == f.records && f.payload[x := Limit(size)] == f.payload;
    if x in f.creating {
      LeadsTwo(s, Do(FinishCreate(x)), Charge(x, size));
      assert [Do(FinishCreate(x))] + [Charge(x, size)] == [Do(FinishCreate(x)), Charge(x, size)];
    } else {
      LeadsOne(s, Charge(x, size));
      assert f.creating - {x} == f.creating;
    }
  }

  /** The pool with `x` made, bounded and committed, and its intent still there. */
  function Committing(s: System, x: Id, size: int, inc: nat): System {
    s.(files := s.files.(records := s.files.records[x := Record(size, Committed, x, inc)],
                         payload := s.files.payload[x := Limit(size)]))
  }

  lemma CreateCommits(s: System, x: Id, size: int, inc: nat)
    requires CreateStage(ViewOf(s.files, x), x, size, inc) && s.txn.None? && x !in s.files.records
    ensures Leads(s, [Do(MakePayload(x)), Do(LimitPayload(x)), Do(CommitRecord(x))], Committing(s, x, size, inc))
  {
    var s1 := Next(s, Do(MakePayload(x)));
    assert s1.files.payload[x := Limit(size)] == s.files.payload[x := Limit(size)];
    LeadsThree(s, Do(MakePayload(x)), Do(LimitPayload(x)), Do(CommitRecord(x)));
  }

  lemma CreateCompletes(s: System, x: Id, size: int, inc: nat)
    requires CreateStage(ViewOf(s.files, x), x, size, inc) && s.txn.None?
    ensures Leads(s, CreatePlan(s.files, x), Created(s, x, size, inc))
  {
    if x in s.files.records {
      CreateFinishes(s, x, size, inc);
    } else {
      var t := Committing(s, x, size, inc);
      var made := [Do(MakePayload(x)), Do(LimitPayload(x)), Do(CommitRecord(x))];
      CreateCommits(s, x, size, inc);
      CreateFinishes(t, x, size, inc);
      CreatedAlike(s, x, size, inc);
      LeadsOn(s, made, t, CreatePlan(t.files, x), Created(s, x, size, inc));
      assert made + CreatePlan(t.files, x) == CreatePlan(s.files, x);
    }
  }

  lemma CreatedAlike(s: System, x: Id, size: int, inc: nat)
    ensures Created(Committing(s, x, size, inc), x, size, inc) == Created(s, x, size, inc)
  {
    var t := Committing(s, x, size, inc);
    var r := Record(size, Committed, x, inc);
    assert t.files.records[x := r] == s.files.records[x := r];
    assert t.files.payload[x := Limit(size)] == s.files.payload[x := Limit(size)];
  }

  lemma CreateStepSurvives(path: seq<System>, plan: seq<Action>, i: nat, next: nat, x: Id, size: int, inc: nat)
    requires Attempts(path, plan, x, (_, a) => CreateStep(a, x)) && i < |plan| && next == i + 1
    requires CreateStage(ViewOf(path[i].files, x), x, size, inc)
    ensures CreateStage(ViewOf(path[next].files, x), x, size, inc)
  {
    assert StepAt(path, plan, i) && OwnAt(path, plan, i, x, (_, a) => CreateStep(a, x));
    CreateStageSurvives(path[i], plan[i], x, size, inc);
  }

  lemma {:induction false} CreateStageStays(path: seq<System>, plan: seq<Action>, i: nat, x: Id, size: int, inc: nat)
    requires Attempts(path, plan, x, (_, a) => CreateStep(a, x)) && i <= |plan|
    requires CreateStage(ViewOf(path[0].files, x), x, size, inc)
    ensures CreateStage(ViewOf(path[i].files, x), x, size, inc)
  {
    if i > 0 {
      CreateStageStays(path, plan, i - 1, x, size, inc);
      CreateStepSurvives(path, plan, i - 1, i, x, size, inc);
    }
  }

  lemma CreatedIs(s: System, x: Id, size: int, inc: nat)
    requires x !in s.files.expanding
    ensures var t := Created(s, x, size, inc);
            && ViewOf(t.files, x)
               == View(Some(Record(size, Committed, x, inc)), None, None, Some(Limit(size)), Get(s.files.archive, x))
            && Get(t.stats, x) == Some(size)
            && forall y :: y != x ==> ViewOf(t.files, y) == ViewOf(s.files, y) && Get(t.stats, y) == Get(s.stats, y)
  {
  }

  /** CreateVolume is idempotent across crashes. Once the intent is durable, let any number of
      attempts run any number of their writes, interleaved with anything other volumes do: one more
      compatible attempt commits the same size and incarnation, leaves no intent, charges the volume
      exactly once and touches nothing else. */
  lemma CreateIsCrashIdempotent(path: seq<System>, plan: seq<Action>, x: Id, size: int, inc: nat)
    requires Attempts(path, plan, x, (_, a) => CreateStep(a, x))
    requires CreateStage(ViewOf(path[0].files, x), x, size, inc)
    ensures var t := path[|plan|];
            var u := Created(t, x, size, inc);
            t.txn.None? ==>
              && Leads(t, CreatePlan(t.files, x), u)
              && ViewOf(u.files, x)
                 == View(Some(Record(size, Committed, x, inc)), None, None, Some(Limit(size)), Get(t.files.archive, x))
              && Get(u.stats, x) == Some(size)
              && forall y :: y != x ==> ViewOf(u.files, y) == ViewOf(t.files, y) && Get(u.stats, y) == Get(t.stats, y)
  {
    CreateStageStays(path, plan, |plan|, x, size, inc);
    if path[|plan|].txn.None? {
      CreatedIs(path[|plan|], x, size, inc);
      CreateCompletes(path[|plan|], x, size, inc);
    }
  }

  // ---- ControllerExpandVolume ----

  /** `requested_capacity`: the size a CSI CapacityRange asks for, which is the least it allows, or its limit if
      it names no least. */
  function RequestedCapacity(required: int, limit: int): (r: Option<int>)
    ensures r.Some? <==> 0 <= required && 0 <= limit && (0 < required || 0 < limit) && (0 < limit ==> required <= limit)
    ensures r.Some? ==> 0 < r.value && required <= r.value && (0 < limit ==> r.value <= limit)
    ensures r.Some? ==> (0 < required ==> r.value == required) && (required == 0 ==> r.value == limit)
  {
    if required < 0 || limit < 0 || (limit != 0 && required > limit) || (required == 0 && limit == 0) then None
    else if required != 0 then Some(required)
    else Some(limit)
  }

  /** An admitted expansion of `x`, stopped anywhere after its intent became durable. */
  predicate ExpandStage(v: View, x: Id, fromSize: int, toSize: int) {
    && 0 < fromSize < toSize && v.create.None?
    && v.record.Some? && v.record.value.phase == Committed
    && (v.record.value.size == toSize || (v.record.value.size == fromSize && v.expand.Some?))
    && (v.expand.Some? ==> v.expand.value == R.ExpansionIntent(x, fromSize, toSize))
  }

  /** Metadata and quota at the target, no intent, everything else as it was. */
  function Expanded(f: Files, x: Id, toSize: int): Files
    requires x in f.records
  {
    f.(records := f.records[x := f.records[x].(size := toSize)],
       expanding := f.expanding - {x},
       payload := f.payload[x := Limit(toSize)])
  }

  /** And the accounting row with them. */
  predicate ExpandEnds(s: System, t: System, x: Id, toSize: int) {
    x in s.files.records && t.files == Expanded(s.files, x, toSize) && Get(t.stats, x) == Some(toSize) && t.txn.None?
  }

  function GrowPlan(x: Id, toSize: int): seq<Action> {
    [Do(ApplyQuota(x, toSize)), Do(GrowRecord(x, toSize)), Do(FinishExpand(x))]
  }

  /** Row and quota repaired at one size. */
  function ReconcilePlan(x: Id, size: int): seq<Action> {
    [Charge(x, size), Do(ApplyQuota(x, size))]
  }

  /** A retry with the same target. It reconciles the row, rebuilds the index, finds its own intent
      and goes straight on to the quota: the capacity is not admitted a second time. */
  function ExpandPlan(f: Files, x: Id): (plan: seq<Action>)
    ensures forall a :: a in plan ==> !a.BeginCreate? && !a.BeginExpand?
  {
    if x in f.expanding then
      var charge := Charge(x, f.expanding[x].toSize);
      [charge, RebuildIndex, charge] + GrowPlan(x, f.expanding[x].toSize)
    else if x in f.records then
      ReconcilePlan(x, f.records[x].size)
    else []
  }

  /** An attempt's own steps, among them the one that finds the target already accounted and
      writes the same intent again. */
  predicate ExpandStep(s: System, a: Action, x: Id, fromSize: int, toSize: int) {
    || a in {Do(ApplyQuota(x, toSize)), Do(GrowRecord(x, toSize))} || (a.Charge? && a.x == x)
    || (a == Do(FinishExpand(x)) && x in s.files.records && s.files.records[x].size == toSize)
    || a == BeginExpand(x, fromSize, toSize)
    || (a == WriteIntent && s.txn.Some? && s.txn.value.grant == GrantExpand(x, fromSize, toSize))
  }

  lemma ExpandStageSurvives(s: System, a: Action, x: Id, fromSize: int, toSize: int)
    requires ExpandStage(ViewOf(s.files, x), x, fromSize, toSize)
    requires Enabled(s, a) && (ExpandStep(s, a, x, fromSize, toSize) || !Concerns(s, a, x))
    ensures ExpandStage(ViewOf(Next(s, a).files, x), x, fromSize, toSize)
  {
    if !Concerns(s, a, x) {
      OthersKeepView(s, a, x);
    }
  }

  lemma ExpandGrows(s: System, x: Id, toSize: int)
    requires s.txn.None? && At(s.files, x, Committed)
    requires x in s.files.expanding && s.files.expanding[x].toSize == toSize
    ensures Leads(s, GrowPlan(x, toSize), s.(files := Expanded(s.files, x, toSize)))
  {
    LeadsThree(s, Do(ApplyQuota(x, toSize)), Do(GrowRecord(x, toSize)), Do(FinishExpand(x)));
  }

  lemma ExpandReserves(s: System, x: Id, toSize: int)
    requires s.txn.None? && Parses(s.files) && At(s.files, x, Committed) && 0 < toSize
    requires x in s.files.expanding && s.files.expanding[x].toSize == toSize
    ensures Leads(s, [Charge(x, toSize), RebuildIndex, Charge(x, toSize)],
                  s.(stats := Working(s.files, s.stats[x := toSize])[x := toSize]))
  {
    LeadsThree(s, Charge(x, toSize), RebuildIndex, Charge(x, toSize));
  }

  /** The pool once a retry has found its own intent: the index rebuilt, the row restated, and the
      expansion run to its end. */
  function Resumed(s: System, x: Id, toSize: int): System
    requires Parses(s.files) && x in s.files.records
  {
    s.(files := Expanded(s.files, x, toSize), stats := Working(s.files, s.stats[x := toSize])[x := toSize])
  }

  lemma ExpandResumes(s: System, x: Id, fromSize: int, toSize: int)
    requires ExpandStage(ViewOf(s.files, x), x, fromSize, toSize) && s.txn.None? && Parses(s.files)
             && x in s.files.expanding
    ensures Leads(s, ExpandPlan(s.files, x), Resumed(s, x, toSize))
  {
    var t := s.(stats := Working(s.files, s.stats[x := toSize])[x := toSize]);
    ExpandReserves(s, x, toSize);
    ExpandGrows(t, x, toSize);
    LeadsOn(s, [Charge(x, toSize), RebuildIndex, Charge(x, toSize)], t, GrowPlan(x, toSize), Resumed(s, x, toSize));
  }

  /** Row and quota at the committed size. */
  function Reconciled(s: System, x: Id): System
    requires x in s.files.records
  {
    var size := s.files.records[x].size;
    s.(files := s.files.(payload := s.files.payload[x := Limit(size)]), stats := s.stats[x := size])
  }

  lemma ReconcileLeads(s: System, x: Id)
    requires s.txn.None? && At(s.files, x, Committed) && x !in s.files.expanding && 0 < s.files.records[x].size
    ensures Leads(s, ReconcilePlan(x, s.files.records[x].size), Reconciled(s, x))
    ensures ExpandEnds(s, Reconciled(s, x), x, s.files.records[x].size)
  {
    LeadsTwo(s, Charge(x, s.files.records[x].size), Do(ApplyQuota(x, s.files.records[x].size)));
    assert s.files.expanding - {x} == s.files.expanding;
    assert s.files.records[x := s.files.records[x].(size := s.files.records[x].size)] == s.files.records;
  }

  /** Where one more attempt with the same target gets. */
  function Retried(s: System, x: Id, toSize: int): System
    requires Parses(s.files) && x in s.files.records
  {
    if x in s.files.expanding then Resumed(s, x, toSize) else Reconciled(s, x)
  }

  lemma ExpandCompletes(s: System, x: Id, fromSize: int, toSize: int)
    requires ExpandStage(ViewOf(s.files, x), x, fromSize, toSize) && s.txn.None? && Parses(s.files)
    ensures Leads(s, ExpandPlan(s.files, x), Retried(s, x, toSize)) && ExpandEnds(s, Retried(s, x, toSize), x, toSize)
  {
    if x in s.files.expanding {
      ExpandResumes(s, x, fromSize, toSize);
    } else {
      ReconcileLeads(s, x);
    }
  }

  lemma ExpandStepSurvives(path: seq<System>, plan: seq<Action>, i: nat, next: nat, x: Id, fromSize: int, toSize: int)
    requires Attempts(path, plan, x, (t, a) => ExpandStep(t, a, x, fromSize, toSize)) && i < |plan| && next == i + 1
    requires ExpandStage(ViewOf(path[i].files, x), x, fromSize, toSize)
    ensures ExpandStage(ViewOf(path[next].files, x), x, fromSize, toSize)
  {
    assert StepAt(path, plan, i) && OwnAt(path, plan, i, x, (t, a) => ExpandStep(t, a, x, fromSize, toSize));
    ExpandStageSurvives(path[i], plan[i], x, fromSize, toSize);
  }

  lemma {:induction false} ExpandStageStays(path: seq<System>, plan: seq<Action>, i: nat, x: Id, fromSize: int,
      toSize: int)
    requires Attempts(path, plan, x, (t, a) => ExpandStep(t, a, x, fromSize, toSize)) && i <= |plan|
    requires ExpandStage(ViewOf(path[0].files, x), x, fromSize, toSize)
    ensures ExpandStage(ViewOf(path[i].files, x), x, fromSize, toSize)
  {
    if i > 0 {
      ExpandStageStays(path, plan, i - 1, x, fromSize, toSize);
      ExpandStepSurvives(path, plan, i - 1, i, x, fromSize, toSize);
    }
  }

  lemma RetriedIs(s: System, x: Id, fromSize: int, toSize: int)
    requires ExpandStage(ViewOf(s.files, x), x, fromSize, toSize) && Parses(s.files)
    ensures var t := Retried(s, x, toSize);
            && ViewOf(t.files, x)
               == View(Some(s.files.records[x].(size := toSize)), None, None, Some(Limit(toSize)),
                       Get(s.files.archive, x))
            && Get(t.stats, x) == Some(toSize) && forall y :: y != x ==> ViewOf(t.files, y) == ViewOf(s.files, y)
  {
  }

  /** An expansion is idempotent across crashes: from wherever its attempts stopped, one more with
      the same target ends with metadata, quota and accounting at the target and no intent, without
      a second admission. All it needs of the pool is that the walk succeeds. */
  lemma ExpandIsCrashIdempotent(path: seq<System>, plan: seq<Action>, x: Id, fromSize: int, toSize: int)
    requires Attempts(path, plan, x, (t, a) => ExpandStep(t, a, x, fromSize, toSize))
    requires ExpandStage(ViewOf(path[0].files, x), x, fromSize, toSize)
    ensures var t := path[|plan|];
            t.txn.None? && Parses(t.files) ==>
              && x in t.files.records && Leads(t, ExpandPlan(t.files, x), Retried(t, x, toSize))
              && var u := Retried(t, x, toSize);
                 && ViewOf(u.files, x)
                    == View(Some(t.files.records[x].(size := toSize)), None, None, Some(Limit(toSize)),
                            Get(t.files.archive, x))
                 && Get(u.stats, x) == Some(toSize) && forall y :: y != x ==> ViewOf(u.files, y) == ViewOf(t.files, y)
  {
    ExpandStageStays(path, plan, |plan|, x, fromSize, toSize);
    if path[|plan|].txn.None? && Parses(path[|plan|].files) {
      RetriedIs(path[|plan|], x, fromSize, toSize);
      ExpandCompletes(path[|plan|], x, fromSize, toSize);
    }
  }
}
