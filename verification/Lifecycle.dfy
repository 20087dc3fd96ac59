/**
 One shared storage pool as the controller processes see it: durable files, payloads, the
 rebuildable index, and at most one open `BEGIN IMMEDIATE` transaction. Every durable write is
 one action; a process that dies simply takes no further action.
 */
module Lifecycle {
  import opened Base
  import opened Accounting
  import R = Records
  import B = Rebuild

  /** Where a metadata file is and what its `state` says. The first four phases keep the
      volume's own name taken: `search_volume` finds them under the original id. */
  datatype Phase = Committed | Deleting | ArchivingAtHome | ArchivingMoved | Archived | Reclaiming

  /** One metadata file, filed under the id it reserves capacity for: the volume id until an
      archive name has been persisted in it, the archive name from then on. */
  datatype Record = Record(size: int, phase: Phase, original: Id, incarnation: nat)

  datatype Quota = Unlimited | Limit(bytes: int)

  /** Everything in the pool that survives a crash, except the index. */
  datatype Files = Files(
    records: map<Id, Record>,
    creating: map<Id, R.CreationIntent>,
    expanding: map<Id, R.ExpansionIntent>,
    payload: map<Id, Quota>,   // payload directories and files of volumes, with their limit
    archive: map<Id, Quota>)   // the same below `archive/`

  /** What an open transaction has been opened for. */
  datatype Grant =
    | GrantCreate(x: Id, size: int, incarnation: nat)
    | GrantExpand(x: Id, fromSize: int, toSize: int)
    | Cancel(x: Id)

  /** `working` are the rows inside the transaction, `written` says whether its file write is done. */
  datatype Txn = Txn(working: map<Id, int>, grant: Grant, written: bool)

  /** `stats` are the committed pv_stats rows. */
  datatype System = System(total: int, files: Files, stats: map<Id, int>, txn: Option<Txn>)

  /** One durable write to the files or payloads of a pool. */
  datatype Write =
    // create
    | MakePayload(x: Id) | LimitPayload(x: Id) | CommitRecord(x: Id) | FinishCreate(x: Id)
    // expand
    | ApplyQuota(x: Id, bytes: int) | GrowRecord(x: Id, bytes: int) | AbsorbExpand(x: Id) | FinishExpand(x: Id)
    // delete
    | RemovePending(x: Id) | MarkDeleting(x: Id) | RemovePayload(x: Id) | UnlinkRecord(x: Id)
    // archive and reclaim
    | PrepareArchive(x: Id, name: Id) | MovePayload(name: Id) | MoveRecord(name: Id) | SealArchive(name: Id)
    | MarkReclaiming(name: Id) | RemoveArchive(name: Id) | UnlinkArchive(name: Id)

  datatype Action =
    | Do(w: Write)
    // one-statement changes of the index
    | Charge(x: Id, size: int) | ReleaseRow(x: Id) | MoveRow(name: Id)
    // index transactions without a file write
    | RebuildIndex | ReleaseArchive(name: Id)
    // index transactions around the write or removal of an intent
    | BeginCreate(x: Id, size: int, incarnation: nat)
    | BeginExpand(x: Id, fromSize: int, toSize: int)
    | BeginCancel(x: Id)
    | WriteIntent
    | CommitIndex
    | AbortIndex
    // a process that only reads, waits or gives up
    | Pass

  // ---- The capacity records of a pool ----

  function StateOf(phase: Phase): R.State {
    match phase
    case Committed => R.Active
    case Deleting => R.Deleting
    case ArchivingAtHome => R.Archiving
    case ArchivingMoved => R.Archiving
    case Archived => R.Archived
    case Reclaiming => R.Reclaiming
  }

  /** The volume an archive record still answers for in a `stat.db` written before the archive. */
  function AliasOf(r: Record): Option<Id> {
    if r.phase == Committed || r.phase == Deleting then None else Some(r.original)
  }

  /** A delete or reclaim tombstone whose payload is gone. */
  predicate ReleasedAt(f: Files, i: Id)
    requires i in f.records
  {
    || (f.records[i].phase == Deleting && i !in f.payload)
    || (f.records[i].phase == Reclaiming && i !in f.archive)
  }

  function CommittedSizes(f: Files): map<Id, int> {
    map i | i in f.records && !ReleasedAt(f, i) :: f.records[i].size
  }

  function AliasMap(f: Files): map<Id, set<Id>> {
    map i | i in f.records && !ReleasedAt(f, i) && AliasOf(f.records[i]).Some? :: {AliasOf(f.records[i]).value}
  }

  function Tombstones(f: Files): set<Id> {
    (set i | i in f.records && ReleasedAt(f, i))
    + (set i | i in f.records && ReleasedAt(f, i) && AliasOf(f.records[i]).Some? :: AliasOf(f.records[i]).value)
  }

  function PoolScan(f: Files): R.Scan {
    R.Scan(CommittedSizes(f), AliasMap(f), Tombstones(f), f.records.Keys, f.creating, f.expanding)
  }

  /** What `_capacity_metadata_records` returns for this pool, in whatever order it walks it. */
  function CapacityRecordsOf(f: Files): Result<R.CapacityRecords> {
    R.Conclude(PoolScan(f))
  }

  predicate Parses(f: Files) {
    CapacityRecordsOf(f).Success?
  }

  /** What `Rebuild` makes of the rows. */
  function Working(f: Files, rows: map<Id, int>): map<Id, int>
    requires Parses(f)
  {
    B.Rebuilt(rows, CapacityRecordsOf(f).value)
  }

  /** The reservations the files stand for: metadata, overridden by a pending create's exact
      size, overridden by a pending expansion's target. */
  function Durable(f: Files): map<Id, int> {
    map k | k in f.records.Keys + f.creating.Keys + f.expanding.Keys && Reservation(f, k).Some? ::
      Reservation(f, k).value
  }

  /** What one id reserves durably. */
  function Reservation(f: Files, k: Id): Option<int> {
    if k in f.expanding then Some(f.expanding[k].toSize)
    else if k in f.creating then Some(f.creating[k].size)
    else if k in f.records && !ReleasedAt(f, k) then Some(f.records[k].size)
    else None
  }

  // ---- The actions ----

  predicate Pending(phase: Phase) {
    phase != Archived && phase != Reclaiming
  }

  /** Some record keeps this volume name taken. */
  ghost predicate Busy(records: map<Id, Record>, x: Id)
  {
    exists i :: i in records && Holds(records[i], x)
  }

  predicate Holds(r: Record, x: Id) {
    r.original == x && Pending(r.phase)
  }

  /** `search_volume` returns nothing for this id. */
  ghost predicate NotFound(f: Files, x: Id)
  {
    x !in f.creating && !Busy(f.records, x)
  }

  predicate At(f: Files, i: Id, phase: Phase) {
    i in f.records && f.records[i].phase == phase
  }

  /** An admitted create whose metadata is not there yet. */
  predicate Pends(f: Files, x: Id) {
    x in f.creating && x !in f.records
  }

  predicate Quiet(f: Files, x: Id) {
    At(f, x, Committed) && x !in f.creating && x !in f.expanding
  }

  function Reserved(f: Files, x: Id): int
    requires x in f.records
  {
    if x in f.expanding then f.expanding[x].toSize else f.records[x].size
  }

  /** The metadata file is at the volume's own path. */
  predicate OwnPath(phase: Phase) {
    phase == Committed || phase == Deleting || phase == ArchivingAtHome
  }

  /** What a process has read in the files, or written itself, before each write. Under the volume's
      lifecycle lock that and the write are one step. An expansion may work without the lock: its quota
      needs nothing, because the directory is made again, its metadata only that some file is there to
      rewrite, and its end only that its own intent is. */
  predicate CanWrite(f: Files, w: Write) {
    match w
    case MakePayload(x) => Pends(f, x)
    case LimitPayload(x) => Pends(f, x) && x in f.payload
    case CommitRecord(x) => Pends(f, x) && x in f.payload && f.payload[x] == Limit(f.creating[x].size)
    case FinishCreate(x) =>
      && x in f.creating && At(f, x, Committed)
      && f.records[x].size == f.creating[x].size && f.records[x].incarnation == f.creating[x].incarnation
    case ApplyQuota(_, _) => true
    case GrowRecord(x, _) => x in f.records && OwnPath(f.records[x].phase)
    case AbsorbExpand(x) =>
      && x in f.expanding && At(f, x, Committed)
      && (f.records[x].size == f.expanding[x].fromSize || f.records[x].size == f.expanding[x].toSize)
    case FinishExpand(x) => x in f.expanding
    case RemovePending(x) => Pends(f, x)
    case MarkDeleting(x) => Quiet(f, x)
    case RemovePayload(x) => At(f, x, Deleting)
    case UnlinkRecord(x) => At(f, x, Deleting) && x !in f.payload
    case PrepareArchive(x, name) => Quiet(f, x) && Unused(f, name)
    case MovePayload(name) =>
      At(f, name, ArchivingAtHome) && f.records[name].original in f.payload && name !in f.archive
    case MoveRecord(name) => At(f, name, ArchivingAtHome) && name in f.archive && f.records[name].original !in f.payload
    case SealArchive(name) => At(f, name, ArchivingMoved)
    case MarkReclaiming(name) => At(f, name, Archived)
    case RemoveArchive(name) => At(f, name, Reclaiming)
    case UnlinkArchive(name) => At(f, name, Reclaiming) && name !in f.archive
  }

  /** A new archive name is a fresh UUID: nothing in the pool mentions it. */
  predicate Unused(f: Files, name: Id) {
    && name !in f.records && name !in f.creating && name !in f.expanding && name !in f.payload && name !in f.archive
    && forall i :: i in f.records ==> f.records[i].original != name
  }

  function WithPhase(f: Files, i: Id, phase: Phase): Files
    requires i in f.records
  {
    f.(records := f.records[i := f.records[i].(phase := phase)])
  }

  function WithSize(f: Files, i: Id, size: int): Files
    requires i in f.records
  {
    f.(records := f.records[i := f.records[i].(size := size)])
  }

  function Apply(f: Files, w: Write): Files
    requires CanWrite(f, w)
  {
    match w
    case MakePayload(x) => if x in f.payload then f else f.(payload := f.payload[x := Unlimited])
    case LimitPayload(x) => f.(payload := f.payload[x := Limit(f.creating[x].size)])
    case CommitRecord(x) =>
      f.(records := f.records[x := Record(f.creating[x].size, Committed, x, f.creating[x].incarnation)])
    case FinishCreate(x) => f.(creating := f.creating - {x})
    case ApplyQuota(x, bytes) => f.(payload := f.payload[x := Limit(bytes)])
    case GrowRecord(x, bytes) => WithSize(f, x, bytes)
    case AbsorbExpand(x) => WithSize(f, x, f.expanding[x].toSize)
    case FinishExpand(x) => f.(expanding := f.expanding - {x})
    case RemovePending(x) => f.(payload := f.payload - {x})
    case MarkDeleting(x) => WithPhase(f, x, Deleting)
    case RemovePayload(x) => f.(payload := f.payload - {x})
    case UnlinkRecord(x) => f.(records := f.records - {x})
    case PrepareArchive(x, name) =>
      f.(records := (f.records - {x})[name := f.records[x].(phase := ArchivingAtHome)])
    case MovePayload(name) =>
      var x := f.records[name].original;
      f.(archive := f.archive[name := f.payload[x]], payload := f.payload - {x})
    case MoveRecord(name) => WithPhase(f, name, ArchivingMoved)
    case SealArchive(name) => WithPhase(f, name, Archived)
    case MarkReclaiming(name) => WithPhase(f, name, Reclaiming)
    case RemoveArchive(name) => f.(archive := f.archive - {name})
    case UnlinkArchive(name) => f.(records := f.records - {name})
  }

  function Intended(f: Files, g: Grant): Files {
    match g
    case GrantCreate(x, size, inc) => f.(creating := f.creating[x := R.CreationIntent(x, size, inc)])
    case GrantExpand(x, fromSize, toSize) => f.(expanding := f.expanding[x := R.ExpansionIntent(x, fromSize, toSize)])
    case Cancel(x) => f.(creating := f.creating - {x})
  }

  function FinalRows(t: Txn): map<Id, int> {
    match t.grant
    case GrantCreate(x, size, _) => t.working[x := size]
    case GrantExpand(x, _, toSize) => t.working[x := toSize]
    case Cancel(x) => t.working - {x}
  }

  /** A transaction of an expansion or a cancellation is open for this volume. */
  predicate InTransaction(s: System, x: Id) {
    s.txn.Some? && !s.txn.value.grant.GrantCreate? && s.txn.value.grant.x == x
  }

  /** No row, neither committed nor about to be. */
  predicate RowGone(s: System, k: Id) {
    k !in s.stats && (s.txn.Some? ==> k !in s.txn.value.working)
  }

  predicate RowIs(s: System, k: Id, size: int) {
    && k in s.stats && s.stats[k] == size
    && (s.txn.Some? ==> k in s.txn.value.working && s.txn.value.working[k] == size)
  }

  /** The index statements of its own that a write comes after. */
  predicate MayWrite(s: System, w: Write) {
    match w
    case UnlinkRecord(x) => RowGone(s, x)
    case UnlinkArchive(name) => RowGone(s, name)
    case PrepareArchive(_, name) => RowGone(s, name) && (s.txn.Some? ==> s.txn.value.grant.x != name)
    case MoveRecord(name) =>
      name in s.files.records && RowIs(s, name, s.files.records[name].size)
          && RowGone(s, s.files.records[name].original)
    case _ => true
  }

  /** Both admissions keep a tenth of the free bytes in reserve. */
  ghost predicate HasRoom(total: int, working: map<Id, int>, extra: int)
  {
    10 * extra < 9 * (total - Sum(working))
  }

  ghost predicate Admits(s: System, x: Id, size: int)
    requires Parses(s.files)
  {
    x !in Working(s.files, s.stats) && HasRoom(s.total, Working(s.files, s.stats), size)
  }

  /** An expansion already accounted at its target needs no room; one still at its source does. */
  ghost predicate AdmitsExpansion(s: System, x: Id, fromSize: int, toSize: int)
    requires Parses(s.files)
  {
    var working := Working(s.files, s.stats);
    && x in working
    && (working[x] == toSize || (working[x] == fromSize && HasRoom(s.total, working, toSize - fromSize)))
  }

  ghost predicate Enabled(s: System, a: Action)
  {
    var f := s.files;
    match a
    case Do(w) => CanWrite(f, w) && MayWrite(s, w)
    case Charge(_, size) => s.txn.None? && 0 < size
    case ReleaseRow(x) => s.txn.None? && At(f, x, Deleting) && x !in f.payload
    case MoveRow(name) =>
      s.txn.None? && (At(f, name, ArchivingAtHome) || At(f, name, ArchivingMoved)) && name in f.archive
    case RebuildIndex => s.txn.None? && Parses(f)
    case ReleaseArchive(name) => s.txn.None? && Parses(f) && At(f, name, Reclaiming) && name !in f.archive
    case BeginCreate(x, size, _) => s.txn.None? && Parses(f) && 0 < size && NotFound(f, x) && Admits(s, x, size)
    case BeginExpand(x, fromSize, toSize) =>
      && s.txn.None? && Parses(f) && 0 < fromSize < toSize && At(f, x, Committed) && x !in f.expanding
      && (f.records[x].size == fromSize || f.records[x].size == toSize)
      && AdmitsExpansion(s, x, fromSize, toSize)
    case BeginCancel(x) => s.txn.None? && Parses(f) && Pends(f, x) && x !in f.payload
    case WriteIntent => s.txn.Some? && !s.txn.value.written
    case CommitIndex => s.txn.Some? && s.txn.value.written
    case AbortIndex => s.txn.Some?
    case Pass => true
  }

  ghost function Next(s: System, a: Action): System
    requires Enabled(s, a)
  {
    var f := s.files;
    match a
    case Do(w) => s.(files := Apply(f, w))
    case Charge(x, size) => s.(stats := s.stats[x := size])
    case ReleaseRow(x) => s.(stats := s.stats - {x})
    case MoveRow(name) =>
      var r := f.records[name];
      s.(stats := (s.stats - {r.original, name})[name := r.size])
    case RebuildIndex => s.(stats := Working(f, s.stats))
    case ReleaseArchive(name) => s.(stats := Working(f, s.stats) - {name})
    case BeginCreate(x, size, inc) => s.(txn := Some(Txn(Working(f, s.stats), GrantCreate(x, size, inc), false)))
    case BeginExpand(x, fromSize, toSize) =>
      s.(txn := Some(Txn(Working(f, s.stats), GrantExpand(x, fromSize, toSize), false)))
    case BeginCancel(x) => s.(txn := Some(Txn(Working(f, s.stats) - {x}, Cancel(x), false)))
    case WriteIntent => s.(files := Intended(f, s.txn.value.grant), txn := Some(s.txn.value.(written := true)))
    case CommitIndex => s.(stats := FinalRows(s.txn.value), txn := None)
    case AbortIndex => s.(txn := None)
    case Pass => s
  }

  /** The volume whose lifecycle lock a write is made under. */
  predicate Touches(w: Write, x: Id) {
    match w
    case MovePayload(_) => false
    case MoveRecord(_) => false
    case SealArchive(_) => false
    case MarkReclaiming(_) => false
    case RemoveArchive(_) => false
    case UnlinkArchive(_) => false
    case _ => w.x == x
  }

  /** What an expansion captured is what the pool still holds: its quota is what the volume reserves, its
      metadata takes over the target of the intent, which is already enforced, and its intent goes after
      that. */
  predicate Current(f: Files, w: Write) {
    match w
    case ApplyQuota(x, bytes) => At(f, x, Committed) && bytes == Reserved(f, x)
    case GrowRecord(x, bytes) =>
      && At(f, x, Committed) && x in f.expanding && bytes == f.expanding[x].toSize
      && x in f.payload && f.payload[x] == Limit(bytes)
    case FinishExpand(x) => At(f, x, Committed) && x in f.expanding && f.records[x].size == f.expanding[x].toSize
    case _ => true
  }

  /** What the lifecycle locks give, as long as no expansion works without one (`Expanders.RunIsHistory`):
      nobody writes to a volume between another's decision on it and its intent, and no expansion writes
      what is no longer current. */
  predicate Guarded(s: System, w: Write) {
    Current(s.files, w) && (s.txn.Some? && !s.txn.value.grant.GrantCreate? ==> !Touches(w, s.txn.value.grant.x))
  }

  /** What the code relies on without checking it. Every expansion works under the lifecycle lock; an id
      whose archive is being reclaimed, past the removal of its payload, must not have a pending intent;
      and a volume is expanded only after its create has answered OK, which removed its create intent. */
  ghost predicate Assumed(s: System, a: Action)
  {
    match a
    case BeginCreate(x, _, _) => Clear(s.files, x)
    case BeginExpand(x, _, _) => Clear(s.files, x) && x !in s.files.creating
    case Do(w) => Guarded(s, w) && (w.RemoveArchive? ==> Unclaimed(s, w.name))
    case _ => true
  }

  /** Neither an archive nor the volume it came from has a pending intent. */
  predicate Unclaimed(s: System, name: Id) {
    name in s.files.records ==> NoIntent(s, name) && NoIntent(s, s.files.records[name].original)
  }

  /** No tombstone has released this id. */
  ghost predicate Clear(f: Files, x: Id)
  {
    && (x in f.records ==> !ReleasedAt(f, x))
    && forall i :: i in f.records && ReleasedAt(f, i) && AliasOf(f.records[i]).Some? ==> f.records[i].original != x
  }

  predicate NoIntent(s: System, x: Id) {
    && x !in s.files.creating && x !in s.files.expanding
    && (s.txn.Some? ==> s.txn.value.grant.x != x)
  }

  // ---- What every history keeps ----

  predicate SameName(r: Record, q: Record) {
    Pending(r.phase) && Pending(q.phase) && r.original == q.original
  }

  predicate Within(q: Quota, size: int) {
    q.Limit? && q.bytes <= size
  }

  /** The payload a record answers for is where its phase says, and its limit never exceeds what
      the record reserves. */
  predicate RecordOk(f: Files, i: Id)
    requires i in f.records
  {
    var r := f.records[i];
    && 0 < r.size
    && match r.phase
       case Committed => r.original == i && i in f.payload && Within(f.payload[i], Reserved(f, i))
       case Deleting => r.original == i && (i in f.payload ==> Within(f.payload[i], r.size))
       case ArchivingAtHome =>
         if i in f.archive then r.original !in f.payload && Within(f.archive[i], r.size)
         else r.original in f.payload && Within(f.payload[r.original], r.size)
       case ArchivingMoved => i in f.archive && r.original !in f.payload && Within(f.archive[i], r.size)
       case Archived => i in f.archive && Within(f.archive[i], r.size)
       case Reclaiming => i in f.archive ==> Within(f.archive[i], r.size)
  }

  /** A create intent agrees with its metadata, or nothing holds its name and its payload is bounded. */
  ghost predicate CreateOk(f: Files, x: Id)
    requires x in f.creating
  {
    var c := f.creating[x];
    && c.id == x && 0 < c.size
    && if x in f.records then f.records[x] == Record(c.size, Committed, x, c.incarnation)
       else !Busy(f.records, x) && (x in f.payload ==> f.payload[x] == Unlimited || Within(f.payload[x], c.size))
  }

  ghost predicate ExpandOk(f: Files, x: Id)
    requires x in f.expanding
  {
    var e := f.expanding[x];
    && e.id == x && 0 < e.fromSize < e.toSize
    && x !in f.creating && At(f, x, Committed)
    && (f.records[x].size == e.fromSize || f.records[x].size == e.toSize)
  }

  ghost predicate RecordsOk(f: Files)
  {
    forall i :: i in f.records ==> RecordOk(f, i)
  }

  ghost predicate NamesOk(records: map<Id, Record>)
  {
    && (forall i, j :: i in records && j in records && SameName(records[i], records[j]) ==> i == j)
    // no volume carries the name of an archive
    && (forall i, j :: i in records && j in records && AliasOf(records[i]).Some? ==> records[j].original != i)
  }

  ghost predicate CreatesOk(f: Files)
  {
    forall x :: x in f.creating ==> CreateOk(f, x)
  }

  ghost predicate ExpandsOk(f: Files)
  {
    forall x :: x in f.expanding ==> ExpandOk(f, x)
  }

  /** No id with a pending intent has been released by a tombstone. */
  ghost predicate ReleasesOk(f: Files)
  {
    forall i :: i in f.records && ReleasedAt(f, i) ==> ReleaseOk(f, i)
  }

  predicate ReleaseOk(f: Files, i: Id)
    requires i in f.records
  {
    && i !in f.creating && i !in f.expanding
    && (AliasOf(f.records[i]).Some? ==> f.records[i].original !in f.creating && f.records[i].original !in f.expanding)
  }

  /** No payload without a record or an intent that answers for it. */
  ghost predicate PayloadsOk(f: Files)
  {
    && (forall x :: x in f.payload ==> Pends(f, x) || Busy(f.records, x))
    && (forall n :: n in f.archive ==> n in f.records && AliasOf(f.records[n]).Some?)
  }

  ghost predicate FilesOk(f: Files)
  {
    RecordsOk(f) && NamesOk(f.records) && CreatesOk(f) && ExpandsOk(f) && ReleasesOk(f) && PayloadsOk(f)
  }

  /** An open transaction's decision stays good until its file write, whatever the others do. */
  ghost predicate GrantStands(total: int, f: Files, t: Txn)
  {
    && ValidRows(t.working)
    && match t.grant
       case GrantCreate(x, size, _) =>
         && 0 < size
         && (!t.written ==>
               && NotFound(f, x) && Clear(f, x) && x !in f.records && x !in f.expanding && x !in f.payload
               && Sum(Durable(f)) + size <= total)
       case GrantExpand(x, fromSize, toSize) =>
         && 0 < fromSize < toSize
         && (!t.written ==>
               && Quiet(f, x) && Clear(f, x)
               && (f.records[x].size == fromSize || f.records[x].size == toSize)
               && Sum(Durable(f)) - f.records[x].size + toSize <= total)
       case Cancel(x) =>
         !t.written ==> Pends(f, x) && x !in f.payload
  }

  ghost predicate Inv(s: System)
  {
    && ValidRows(s.stats)
    && FilesOk(s.files)
    && Sum(Durable(s.files)) <= s.total
    && (s.txn.Some? ==> GrantStands(s.total, s.files, s.txn.value))
  }
}
