/** Runs of the pool, as the states they pass through. */
module Paths {
  import opened Base
  import opened Lifecycle

  ghost predicate StepAt(path: seq<System>, plan: seq<Action>, i: nat)
    requires i < |plan| && |path| == |plan| + 1
  {
    Enabled(path[i], plan[i]) && Next(path[i], plan[i]) == path[i + 1]
  }

  /** Every action passes the code's own checks. */
  ghost predicate IsPath(path: seq<System>, plan: seq<Action>)
  {
    |path| == |plan| + 1 && forall i :: 0 <= i < |plan| ==> StepAt(path, plan, i)
  }

  ghost predicate GuardedAt(path: seq<System>, plan: seq<Action>, i: nat)
    requires i < |plan| && |path| == |plan| + 1
  {
    plan[i].Do? ==> Guarded(path[i], plan[i].w)
  }

  /** And nobody works on a volume without its lifecycle lock. */
  ghost predicate IsGuardedPath(path: seq<System>, plan: seq<Action>)
  {
    IsPath(path, plan) && forall i :: 0 <= i < |plan| ==> GuardedAt(path, plan, i)
  }

  ghost predicate Leads(s: System, plan: seq<Action>, t: System)
  {
    exists path :: IsPath(path, plan) && path[0] == s && path[|plan|] == t
  }

  lemma Stay(s: System)
    ensures Leads(s, [], s)
  {
    assert IsPath([s], []);
  }

  lemma Arrived(s: System, t: System)
    requires Leads(s, [], t)
    ensures s == t
  {
  }

  lemma LeadsFirst(s: System, a: Action, rest: seq<Action>, t: System)
    requires Enabled(s, a) && Leads(Next(s, a), rest, t)
    ensures Leads(s, [a] + rest, t)
  {
    var path :| IsPath(path, rest) && path[0] == Next(s, a) && path[|rest|] == t;
    var longer, plan := [s] + path, [a] + rest;
    forall i | 0 <= i < |plan| ensures StepAt(longer, plan, i) {
      if i > 0 { assert StepAt(path, rest, i - 1); }
    }
    assert IsPath(longer, plan);
  }

  lemma LeadsOne(s: System, a: Action)
    requires Enabled(s, a)
    ensures Leads(s, [a], Next(s, a))
  {
    Stay(Next(s, a));
    LeadsFirst(s, a, [], Next(s, a));
    assert [a] + [] == [a];
  }

  lemma LeadsTwo(s: System, a: Action, b: Action)
    requires Enabled(s, a) && Enabled(Next(s, a), b)
    ensures Leads(s, [a, b], Next(Next(s, a), b))
  {
    LeadsOne(Next(s, a), b);
    LeadsFirst(s, a, [b], Next(Next(s, a), b));
    assert [a] + [b] == [a, b];
  }

  lemma LeadsThree(s: System, a: Action, b: Action, c: Action)
    requires Enabled(s, a) && Enabled(Next(s, a), b) && Enabled(Next(Next(s, a), b), c)
    ensures Leads(s, [a, b, c], Next(Next(Next(s, a), b), c))
  {
    LeadsTwo(Next(s, a), b, c);
    LeadsFirst(s, a, [b, c], Next(Next(Next(s, a), b), c));
    assert [a] + [b, c] == [a, b, c];
  }

  lemma Peel(s: System, rest: seq<Action>, t: System)
    requires Leads(s, rest, t) && rest != []
    ensures Enabled(s, rest[0]) && Leads(Next(s, rest[0]), rest[1..], t)
  {
    var path :| IsPath(path, rest) && path[0] == s && path[|rest|] == t;
    assert StepAt(path, rest, 0);
    var shorter := path[1..];
    forall i | 0 <= i < |rest[1..]| ensures StepAt(shorter, rest[1..], i) {
      assert StepAt(path, rest, i + 1);
    }
    assert IsPath(shorter, rest[1..]);
  }

  lemma LeadsOn(s: System, p: seq<Action>, u: System, q: seq<Action>, t: System)
    requires Leads(s, p, u) && Leads(u, q, t)
    ensures Leads(s, p + q, t)
  {
    var before :| IsPath(before, p) && before[0] == s && before[|p|] == u;
    var after :| IsPath(after, q) && after[0] == u && after[|q|] == t;
    var path, plan := before + after[1..], p + q;
    forall i | 0 <= i < |plan| ensures StepAt(path, plan, i) {
      if i < |p| {
        assert StepAt(before, p, i);
      } else {
        assert StepAt(after, q, i - |p|);
      }
    }
    assert IsPath(path, plan);
  }

  // ---- Histories ----

  function EmptyPool(total: int): System {
    System(total, Files(map[], map[], map[], map[], map[]), map[], None)
  }

  ghost predicate AssumedAt(path: seq<System>, plan: seq<Action>, i: nat)
    requires i < |plan| && |path| == |plan| + 1
  {
    Assumed(path[i], plan[i])
  }

  /** A pool from its creation on: any interleaving of any number of processes, with crashes anywhere,
      that keeps to what the code relies on. */
  ghost predicate IsHistory(total: int, path: seq<System>, plan: seq<Action>)
  {
    && 0 <= total && IsPath(path, plan) && path[0] == EmptyPool(total)
    && forall i :: 0 <= i < |plan| ==> AssumedAt(path, plan, i)
  }
}
