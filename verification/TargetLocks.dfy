/**
 `_target_operation_lock` of the node plugin: a table of locks, one per normalized target path, whose
 entries are created by their first user and deleted by their last.
 */
module TargetLocks {
  import opened Base

  type Key = string

  /** `[threading.Lock(), count]`, an object of its own. */
  datatype Entry = Entry(holder: Option<nat>, count: nat)

  /** Where a thread is in the context manager. */
  datatype Thread =
    | Counted(key: Key, entry: nat)    // its use is counted, it waits for the lock
    | Holding(key: Key, entry: nat)    // inside the `with` body
    | Released(key: Key, entry: nat)   // the lock is free again, its use still counted

  /** `objects` are all entries ever created, `table` is TARGET_LOCKS. */
  datatype World = World(table: map<Key, nat>, objects: map<nat, Entry>, threads: map<nat, Thread>, next: nat)

  /** The two sections under TARGET_LOCKS_GUARD are one step each. */
  datatype Step = Enter(t: nat, key: Key) | Acquire(t: nat) | Release(t: nat) | Exit(t: nat)

  predicate Enabled(w: World, s: Step) {
    match s
    case Enter(t, _) => t !in w.threads
    case Acquire(t) =>
      && t in w.threads && w.threads[t].Counted? && w.threads[t].entry in w.objects
      && w.objects[w.threads[t].entry].holder.None?
    case Release(t) => t in w.threads && w.threads[t].Holding? && w.threads[t].entry in w.objects
    case Exit(t) =>
      t in w.threads && w.threads[t].Released? && w.threads[t].entry in w.objects
          && 0 < w.objects[w.threads[t].entry].count
  }

  function Next(w: World, s: Step): World
    requires Enabled(w, s)
  {
    match s
    case Enter(t, key) =>
      if key in w.table && w.table[key] in w.objects then
        var e := w.table[key];
        w.(objects := w.objects[e := w.objects[e].(count := w.objects[e].count + 1)],
           threads := w.threads[t := Counted(key, e)])
      else
        World(w.table[key := w.next], w.objects[w.next := Entry(None, 1)], w.threads[t := Counted(key, w.next)],
            w.next + 1)
    case Acquire(t) =>
      var Counted(key, e) := w.threads[t];
      w.(objects := w.objects[e := w.objects[e].(holder := Some(t))], threads := w.threads[t := Holding(key, e)])
    case Release(t) =>
      var Holding(key, e) := w.threads[t];
      w.(objects := w.objects[e := w.objects[e].(holder := None)], threads := w.threads[t := Released(key, e)])
    case Exit(t) =>
      var Released(key, e) := w.threads[t];
      var count := w.objects[e].count - 1;
      w.(objects := w.objects[e := w.objects[e].(count := count)],
         threads := w.threads - {t},
         table := if count == 0 && key in w.table && w.table[key] == e then w.table - {key} else w.table)
  }

  /** The threads between their increment and their decrement of one entry. */
  function Users(threads: map<nat, Thread>, e: nat): set<nat> {
    set t | t in threads && threads[t].entry == e
  }

  /** A thread shares the table's current entry for its key. */
  predicate Shares(w: World, t: nat)
    requires t in w.threads
  {
    && w.threads[t].key in w.table && w.table[w.threads[t].key] == w.threads[t].entry
    && (w.threads[t].Holding? ==> w.threads[t].entry in w.objects && w.objects[w.threads[t].entry].holder == Some(t))
  }

  /** A listed entry is in use, counts its users, and is held by one of them or by nobody. */
  predicate Counts(w: World, key: Key)
    requires key in w.table
  {
    var e := w.table[key];
    && e in w.objects && w.objects[e].count == |Users(w.threads, e)| && Users(w.threads, e) != {}
    && (w.objects[e].holder.Some? ==>
          w.objects[e].holder.value in w.threads && w.threads[w.objects[e].holder.value] == Holding(key, e))
  }

  ghost predicate Inv(w: World)
  {
    && (forall t :: t in w.threads ==> Shares(w, t))
    && (forall key :: key in w.table ==> Counts(w, key))
    && (forall j, k :: j in w.table && k in w.table && w.table[j] == w.table[k] ==> j == k)
    && (forall e :: e in w.objects ==> e < w.next)
  }

  lemma UsersAfterEnter(threads: map<nat, Thread>, t: nat, thread: Thread, e: nat)
    requires t !in threads
    ensures Users(threads[t := thread], e) == if thread.entry == e then Users(threads, e) + {t} else Users(threads, e)
  {
  }

  lemma UsersAfterMove(threads: map<nat, Thread>, t: nat, thread: Thread, e: nat)
    requires t in threads && threads[t].entry == thread.entry
    ensures Users(threads[t := thread], e) == Users(threads, e)
  {
  }

  lemma UsersAfterExit(threads: map<nat, Thread>, t: nat, e: nat)
    requires t in threads
    ensures Users(threads - {t}, e) == Users(threads, e) - {t}
  {
  }

  lemma NobodyUsesNext(w: World)
    requires Inv(w)
    ensures Users(w.threads, w.next) == {} && forall key :: key in w.table ==> w.table[key] < w.next
  {
    forall key | key in w.table ensures w.table[key] < w.next {
      assert Counts(w, key);
    }
    forall u | u in w.threads ensures w.threads[u].entry != w.next {
      assert Shares(w, u);
    }
  }

  lemma EntryGainsUser(w: World, t: nat, key: Key)
    requires Inv(w) && Enabled(w, Enter(t, key)) && key in w.table
    ensures Counts(Next(w, Enter(t, key)), key)
  {
    assert Counts(w, key);
    UsersAfterEnter(w.threads, t, Counted(key, w.table[key]), w.table[key]);
  }

  lemma EntryIsCreated(w: World, t: nat, key: Key)
    requires Inv(w) && Enabled(w, Enter(t, key)) && key !in w.table
    ensures Counts(Next(w, Enter(t, key)), key)
  {
    NobodyUsesNext(w);
    UsersAfterEnter(w.threads, t, Counted(key, w.next), w.next);
    assert {} + {t} == {t};
  }

  lemma OtherEntriesStay(w: World, t: nat, key: Key, k: Key)
    requires Inv(w) && Enabled(w, Enter(t, key)) && k in w.table && k != key
    ensures Counts(Next(w, Enter(t, key)), k)
  {
    var v := Next(w, Enter(t, key));
    assert Counts(w, k);
    if key in w.table { assert Counts(w, key); }
    NobodyUsesNext(w);
    UsersAfterEnter(w.threads, t, v.threads[t], v.table[k]);
  }

  lemma EnterKeepsCounts(w: World, t: nat, key: Key, k: Key)
    requires Inv(w) && Enabled(w, Enter(t, key)) && k in Next(w, Enter(t, key)).table
    ensures Counts(Next(w, Enter(t, key)), k)
  {
    if k != key {
      OtherEntriesStay(w, t, key, k);
    } else if key in w.table {
      EntryGainsUser(w, t, key);
    } else {
      EntryIsCreated(w, t, key);
    }
  }

  lemma EnterKeepsSharing(w: World, t: nat, key: Key, u: nat)
    requires Inv(w) && Enabled(w, Enter(t, key)) && u in Next(w, Enter(t, key)).threads
    ensures Shares(Next(w, Enter(t, key)), u)
  {
    if key in w.table { assert Counts(w, key); }
    if u != t { assert Shares(w, u); }
    NobodyUsesNext(w);
  }

  lemma EnterKeeps(w: World, t: nat, key: Key)
    requires Inv(w) && Enabled(w, Enter(t, key))
    ensures Inv(Next(w, Enter(t, key)))
  {
    var v := Next(w, Enter(t, key));
    forall u | u in v.threads ensures Shares(v, u) {
      EnterKeepsSharing(w, t, key, u);
    }
    forall k | k in v.table ensures Counts(v, k) {
      EnterKeepsCounts(w, t, key, k);
    }
    NobodyUsesNext(w);
  }

  lemma MoveKeeps(w: World, s: Step)
    requires Inv(w) && Enabled(w, s) && (s.Acquire? || s.Release?)
    ensures Inv(Next(w, s))
  {
    var v := Next(w, s);
    forall u | u in v.threads ensures Shares(v, u) {
      MoveKeepsSharing(w, s, u);
    }
    forall k | k in v.table ensures Counts(v, k) {
      MoveKeepsCounts(w, s, k);
    }
  }

  lemma MoveKeepsSharing(w: World, s: Step, u: nat)
    requires Inv(w) && Enabled(w, s) && (s.Acquire? || s.Release?) && u in w.threads
    ensures Shares(Next(w, s), u)
  {
    assert Shares(w, s.t) && Shares(w, u);
  }

  lemma MoveKeepsCounts(w: World, s: Step, k: Key)
    requires Inv(w) && Enabled(w, s) && (s.Acquire? || s.Release?) && k in w.table
    ensures Counts(Next(w, s), k)
  {
    var v := Next(w, s);
    assert Shares(w, s.t) && Counts(w, k);
    UsersAfterMove(w.threads, s.t, v.threads[s.t], v.table[k]);
  }

  /** The table entry goes exactly with its last user. */
  lemma LastUser(w: World, t: nat)
    requires Inv(w) && Enabled(w, Exit(t))
    ensures var key, e := w.threads[t].key, w.threads[t].entry;
            && key in w.table && w.table[key] == e && |Users(w.threads - {t}, e)| == w.objects[e].count - 1
            && (w.objects[e].count == 1 <==> Users(w.threads - {t}, e) == {})
            && forall u :: u in w.threads && u != t && w.threads[u].key == key ==> u in Users(w.threads - {t}, e)
  {
    var key, e := w.threads[t].key, w.threads[t].entry;
    assert Shares(w, t) && Counts(w, key);
    UsersAfterExit(w.threads, t, e);
    assert t in Users(w.threads, e);
    forall u | u in w.threads && u != t && w.threads[u].key == key ensures u in Users(w.threads - {t}, e) {
      assert Shares(w, u);
    }
  }

  lemma ExitKeepsSharing(w: World, t: nat, u: nat)
    requires Inv(w) && Enabled(w, Exit(t)) && u in w.threads && u != t
    ensures Shares(Next(w, Exit(t)), u)
  {
    assert Shares(w, u);
    LastUser(w, t);
  }

  lemma ExitKeepsCounts(w: World, t: nat, k: Key)
    requires Inv(w) && Enabled(w, Exit(t)) && k in Next(w, Exit(t)).table
    ensures Counts(Next(w, Exit(t)), k)
  {
    assert Counts(w, k);
    LastUser(w, t);
    UsersAfterExit(w.threads, t, w.table[k]);
  }

  lemma ExitKeeps(w: World, t: nat)
    requires Inv(w) && Enabled(w, Exit(t))
    ensures Inv(Next(w, Exit(t)))
  {
    var v := Next(w, Exit(t));
    forall k | k in v.table ensures Counts(v, k) {
      ExitKeepsCounts(w, t, k);
    }
    forall u | u in v.threads ensures Shares(v, u) {
      ExitKeepsSharing(w, t, u);
    }
  }

  lemma StepKeepsInv(w: World, s: Step)
    requires Inv(w) && Enabled(w, s)
    ensures Inv(Next(w, s))
  {
    match s
    case Enter(t, key) => EnterKeeps(w, t, key);
    case Acquire(_) => MoveKeeps(w, s);
    case Release(_) => MoveKeeps(w, s);
    case Exit(t) => ExitKeeps(w, t);
  }

  // ---- Runs from an empty table, with any number of threads ----

  const START: World := World(map[], map[], map[], 0)

  ghost predicate Execution(w: World, steps: seq<Step>)
    decreases |steps|
  {
    steps == [] || (Enabled(w, steps[0]) && Execution(Next(w, steps[0]), steps[1..]))
  }

  ghost function Run(w: World, steps: seq<Step>): World
    requires Execution(w, steps)
    decreases |steps|
  {
    if steps == [] then w else Run(Next(w, steps[0]), steps[1..])
  }

  lemma {:induction false} RunKeepsInv(w: World, steps: seq<Step>)
    requires Inv(w) && Execution(w, steps)
    ensures Inv(Run(w, steps))
    decreases |steps|
  {
    if steps != [] {
      StepKeepsInv(w, steps[0]);
      RunKeepsInv(Next(w, steps[0]), steps[1..]);
    }
  }

  /** Mutual exclusion per path, although entries come and go. */
  lemma MutualExclusion(steps: seq<Step>, t: nat, u: nat)
    requires Execution(START, steps)
    requires var w := Run(START, steps);
             t in w.threads && u in w.threads && w.threads[t].Holding? && w.threads[u].Holding?
             && w.threads[t].key == w.threads[u].key
    ensures t == u
  {
    RunKeepsInv(START, steps);
    var w := Run(START, steps);
    assert Shares(w, t) && Shares(w, u);
  }

  /** Threads inside the context manager for one path share one entry, the table's, and its count is
      exactly their number. */
  lemma CountIsUsers(steps: seq<Step>, t: nat)
    requires Execution(START, steps) && t in Run(START, steps).threads
    ensures var w := Run(START, steps);
            var e := w.threads[t].entry;
            && w.threads[t].key in w.table && w.table[w.threads[t].key] == e && e in w.objects
            && w.objects[e].count == |Users(w.threads, e)|
            && forall u :: u in w.threads && w.threads[u].key == w.threads[t].key ==> u in Users(w.threads, e)
  {
    RunKeepsInv(START, steps);
    var w := Run(START, steps);
    assert Shares(w, t) && Counts(w, w.threads[t].key);
    forall u | u in w.threads && w.threads[u].key == w.threads[t].key
      ensures u in Users(w.threads, w.threads[t].entry)
    {
      assert Shares(w, u);
    }
  }

  /** Nothing leaks: a path is in the table exactly while some thread is inside for it. */
  lemma TableIsInUse(steps: seq<Step>, key: Key)
    requires Execution(START, steps)
    ensures var w := Run(START, steps);
            key in w.table <==> exists t :: t in w.threads && w.threads[t].key == key
  {
    RunKeepsInv(START, steps);
    var w := Run(START, steps);
    if key in w.table {
      assert Counts(w, key);
      var t :| t in Users(w.threads, w.table[key]);
      assert Shares(w, t);
    }
    if t :| t in w.threads && w.threads[t].key == key {
      assert Shares(w, t);
    }
  }

  /** And a free entry can always be taken: no thread that waits is stuck behind a stale holder. */
  lemma WaitersCanProceed(steps: seq<Step>, t: nat)
    requires Execution(START, steps) && t in Run(START, steps).threads && Run(START, steps).threads[t].Counted?
    ensures var w := Run(START, steps);
            Enabled(w, Acquire(t))
            || exists u :: u in w.threads && w.threads[u] == Holding(w.threads[t].key, w.threads[t].entry)
                && Enabled(w, Release(u))
  {
    RunKeepsInv(START, steps);
    var w := Run(START, steps);
    assert Shares(w, t) && Counts(w, w.threads[t].key);
    if !Enabled(w, Acquire(t)) {
      var u := w.objects[w.threads[t].entry].holder.value;
      assert u in w.threads && w.threads[u] == Holding(w.threads[t].key, w.threads[t].entry);
    }
  }

  lemma RunTwo(w: World, s: Step, t: Step)
    requires Enabled(w, s) && Enabled(Next(w, s), t)
    ensures Execution(w, [s, t]) && Run(w, [s, t]) == Next(Next(w, s), t)
  {
    var v := Next(w, s);
    assert [s, t][1..] == [t] && [t][1..] == [];
    assert Execution(Next(v, t), []) && Execution(v, [t]) && Run(v, [t]) == Next(v, t);
  }

  /** For a path nobody else uses a thread always gets in, and out again without a trace in the table. */
  lemma FreePathIsEntered(steps: seq<Step>, t: nat, key: Key)
    requires Execution(START, steps) && t !in Run(START, steps).threads
    requires forall u :: u in Run(START, steps).threads ==> Run(START, steps).threads[u].key != key
    ensures var w := Run(START, steps);
            && Execution(w, [Enter(t, key), Acquire(t)])
            && var v := Run(w, [Enter(t, key), Acquire(t)]);
               && t in v.threads && v.threads[t].Holding? && v.threads[t].key == key
               && Execution(v, [Release(t), Exit(t)])
               && Run(v, [Release(t), Exit(t)]).table == w.table && Run(v, [Release(t), Exit(t)]).threads == w.threads
  {
    var w := Run(START, steps);
    TableIsInUse(steps, key);
    RunTwo(w, Enter(t, key), Acquire(t));
    var v := Run(w, [Enter(t, key), Acquire(t)]);
    RunTwo(v, Release(t), Exit(t));
    assert w.table[key := w.next] - {key} == w.table;
    var e := w.next;
    assert Run(v, [Release(t), Exit(t)]).threads
           == w.threads[t := Counted(key, e)][t := Holding(key, e)][t := Released(key, e)] - {t};
  }
}
