/**
 `deploy_server_pods` (kadalu_operator/main.py): the servers of a pool are applied one after the
 other, and a replicated pool is touched again only once its self-heal is clean. The cluster's
 answers are inputs: any call may fail, and a failure ends the rollout.
 */
module Rollout {

  /** What the operator has asked of the cluster: `Applied` the manifest of one server, `Serving` after
      waiting for its rollout, `Clean` after a pool-wide heal summary without pending work. */
  datatype Event = ServiceDeployed | Applied(server: string) | Serving(server: string) | Clean

  /** The pool as the operator finds it. */
  datatype Pool = Pool(
    servers: seq<string>,      // one StatefulSet per brick, in brick order
    healGatedType: bool,
    appsClient: bool,
    existing: set<string>,
    complete: set<string>)     // existing servers whose last rollout is complete

  predicate HealGated(p: Pool) {
    p.appsClient && p.healGatedType
  }

  /** Missing or unavailable members. */
  predicate NeedsRecovery(p: Pool, server: string) {
    server !in p.existing || server !in p.complete
  }

  function Recovering(p: Pool, servers: seq<string>): seq<string> {
    if servers == [] then [] else
      var last := servers[|servers| - 1];
      Recovering(p, servers[..|servers| - 1]) + if NeedsRecovery(p, last) then [last] else []
  }

  function Healthy(p: Pool, servers: seq<string>): seq<string> {
    if servers == [] then [] else
      var last := servers[|servers| - 1];
      Healthy(p, servers[..|servers| - 1]) + if NeedsRecovery(p, last) then [] else [last]
  }

  /** One server's steps, in a pool with or without an Apps client, followed by a heal or not. */
  function ServerSteps(server: string, wait: bool, heal: bool): seq<Event> {
    [Applied(server)] + (if wait then [Serving(server)] else []) + if heal then [Clean] else []
  }

  function AllSteps(servers: seq<string>, wait: bool, heal: bool): seq<Event> {
    if servers == [] then [] else
      AllSteps(servers[..|servers| - 1], wait, heal) + ServerSteps(servers[|servers| - 1], wait, heal)
  }

  /** Who is applied in the first round, and who after it. Without heal gating everybody is in the first. */
  function FirstRound(p: Pool): seq<string> {
    if HealGated(p) then Recovering(p, p.servers) else p.servers
  }

  function SecondRound(p: Pool): seq<string> {
    if HealGated(p) then Healthy(p, p.servers) else []
  }

  /** The events after the first `i` servers: the first round, a clean heal, then each healthy member
      with its own. */
  function Progress(p: Pool, i: nat): seq<Event>
    requires i <= |FirstRound(p)| + |SecondRound(p)|
  {
    var first, second := FirstRound(p), SecondRound(p);
    if i < |first| then AllSteps(first[..i], p.appsClient, false)
    else
      AllSteps(first, p.appsClient, false) + (if HealGated(p) then [Clean] else [])
      + AllSteps(second[..i - |first|], p.appsClient, true)
  }

  function Plan(p: Pool): seq<Event> {
    [ServiceDeployed] + Progress(p, |FirstRound(p)| + |SecondRound(p)|)
  }

  // ---- The rollout as the code performs it ----

  /** The calls of a complete rollout: one for each event, and the StatefulSet queries before the first
      server of a heal-gated pool. */
  function Calls(p: Pool, log: seq<Event>): nat {
    |log| + if HealGated(p) then 1 else 0
  }

  /** The k-th call the operator makes succeeds if `works(k)`. A call that fails raises, and what was
      asked for before it stays asked for. */
  method DeployServerPods(p: Pool, works: nat -> bool) returns (ok: bool, log: seq<Event>)
    requires Distinct(p.servers)
    ensures log <= Plan(p) && (ok ==> log == Plan(p))
    ensures p.healGatedType && !p.appsClient ==> !ok && log == []
    ensures p.healGatedType && p.appsClient ==> (ok <==> forall k :: 0 <= k < |Plan(p)| + 1 ==> works(k))
    ensures !p.healGatedType ==> (ok <==> forall k :: 0 <= k < |Plan(p)| ==> works(k))
  {
    PlanContains(p, 0);
    var recovery, healthy, calls;
    ok, calls, log, recovery, healthy := ChooseRounds(p, works);
    if !ok {
      return;
    }
    var all := recovery + healthy;
    for i := 0 to |all|
      invariant log == [ServiceDeployed] + Progress(p, i)
      invariant calls == Calls(p, log) && forall k :: 0 <= k < calls ==> works(k)
    {
      Continues(p, i);
      ghost var next := log + ServerSteps(Member(p, i), p.appsClient, HealsAfter(p, i));
      ok, calls, log := ApplyServer(p, recovery, healthy, i, works, calls, log);
      assert log <= next <= Plan(p);
      if !ok {
        return;
      }
    }
    ok := true;
  }

  /** Everything before the first server. `calls` is the number of calls that succeeded. */
  method ChooseRounds(p: Pool, works: nat -> bool)
    returns (ok: bool, calls: nat, log: seq<Event>, recovery: seq<string>, healthy: seq<string>)
    ensures log <= [ServiceDeployed] + Progress(p, 0)
    ensures ok ==> log == [ServiceDeployed] + Progress(p, 0) && recovery == FirstRound(p) && healthy == SecondRound(p)
    ensures ok ==> calls == Calls(p, log) && forall k :: 0 <= k < calls ==> works(k)
    ensures ok ==> (p.healGatedType ==> p.appsClient)
    ensures !ok && (p.healGatedType ==> p.appsClient) ==>
              calls < Calls(p, [ServiceDeployed] + Progress(p, 0)) && !works(calls)
    ensures p.healGatedType && !p.appsClient ==> log == []
  {
    ok, calls, log, recovery, healthy := false, 0, [], p.servers, [];
    if p.healGatedType && !p.appsClient {
      return;
    }
    if !works(calls) {
      return;
    }
    log, calls := [ServiceDeployed], calls + 1;
    if HealGated(p) {
      // the StatefulSet queries
      if !works(calls) {
        return;
      }
      calls := calls + 1;
      recovery, healthy := SplitByHealth(p);
      if recovery == [] {
        if !works(calls) {
          return;
        }
        log, calls := log + [Clean], calls + 1;
      }
    }
    ok := true;
  }

  /** One round of the loop. */
  method ApplyServer(p: Pool, recovery: seq<string>, healthy: seq<string>, i: nat, works: nat -> bool, calls: nat,
      log: seq<Event>)
    returns (ok: bool, calls': nat, log': seq<Event>)
    requires Distinct(p.servers) && recovery == FirstRound(p) && healthy == SecondRound(p) && i < |recovery| + |healthy|
    requires calls == Calls(p, log) && forall k :: 0 <= k < calls ==> works(k)
    ensures log' <= log + ServerSteps(Member(p, i), p.appsClient, HealsAfter(p, i))
    ensures ok ==>
              && log' == log + ServerSteps(Member(p, i), p.appsClient, HealsAfter(p, i))
              && calls' == Calls(p, log') && forall k :: 0 <= k < calls' ==> works(k)
    ensures !ok ==>
              calls' < Calls(p, log + ServerSteps(Member(p, i), p.appsClient, HealsAfter(p, i))) && !works(calls')
  {
    var server := (recovery + healthy)[i];
    calls', log' := calls, log + [Applied(server)];
    if !works(calls') {
      return false, calls', log';
    }
    calls' := calls' + 1;
    if p.appsClient {
      if !works(calls') {
        return false, calls', log';
      }
      log', calls' := log' + [Serving(server)], calls' + 1;
    }
    if HealGated(p) {
      var isLastRecovery := recovery != [] && server == recovery[|recovery| - 1];
      RoundOf(p, i);
      if server !in recovery || isLastRecovery {
        if !works(calls') {
          return false, calls', log';
        }
        log', calls' := log' + [Clean], calls' + 1;
      }
    }
    return true, calls', log';
  }

  method SplitByHealth(p: Pool) returns (recovery: seq<string>, healthy: seq<string>)
    ensures recovery == Recovering(p, p.servers) && healthy == Healthy(p, p.servers)
  {
    recovery, healthy := [], [];
    for i := 0 to |p.servers|
      invariant recovery == Recovering(p, p.servers[..i]) && healthy == Healthy(p, p.servers[..i])
    {
      assert p.servers[..i + 1][..i] == p.servers[..i];
      if NeedsRecovery(p, p.servers[i]) {
        recovery := recovery + [p.servers[i]];
      } else {
        healthy := healthy + [p.servers[i]];
      }
    }
    assert p.servers[..|p.servers|] == p.servers;
  }

  predicate Distinct(servers: seq<string>) {
    forall i, j :: 0 <= i < j < |servers| ==> servers[i] != servers[j]
  }

  /** The pool is waited for after its last recovering member and after every healthy one. */
  predicate HealsAfter(p: Pool, i: nat) {
    HealGated(p) && i + 1 >= |FirstRound(p)|
  }

  function Member(p: Pool, i: nat): string
    requires i < |FirstRound(p)| + |SecondRound(p)|
  {
    (FirstRound(p) + SecondRound(p))[i]
  }

  lemma Advance(p: Pool, i: nat)
    requires i < |FirstRound(p)| + |SecondRound(p)|
    ensures Progress(p, i + 1) == Progress(p, i) + ServerSteps(Member(p, i), p.appsClient, HealsAfter(p, i))
  {
    var first, second := FirstRound(p), SecondRound(p);
    if i < |first| {
      assert first[..i + 1][..i] == first[..i];
      assert i + 1 == |first| ==> first[..i + 1] == first && second[..0] == [];
    } else {
      var k := i - |first|;
      assert second[..k + 1][..k] == second[..k];
    }
  }

  lemma {:induction false} PlanContains(p: Pool, i: nat)
    requires i <= |FirstRound(p)| + |SecondRound(p)|
    ensures [ServiceDeployed] + Progress(p, i) <= Plan(p)
    decreases |FirstRound(p)| + |SecondRound(p)| - i
  {
    if i < |FirstRound(p)| + |SecondRound(p)| {
      Advance(p, i);
      PlanContains(p, i + 1);
    }
  }

  lemma Continues(p: Pool, i: nat)
    requires i < |FirstRound(p)| + |SecondRound(p)|
    ensures var reached := [ServiceDeployed] + Progress(p, i);
            var steps := ServerSteps(Member(p, i), p.appsClient, HealsAfter(p, i));
            reached + steps == [ServiceDeployed] + Progress(p, i + 1) <= Plan(p)
  {
    Advance(p, i);
    PlanContains(p, i + 1);
  }

  /** Both rounds together are all the servers, and they share none. */
  lemma {:induction false} SplitMembers(p: Pool, servers: seq<string>)
    ensures multiset(Recovering(p, servers)) + multiset(Healthy(p, servers)) == multiset(servers)
    ensures forall s :: s in Recovering(p, servers) <==> s in servers && NeedsRecovery(p, s)
    ensures forall s :: s in Healthy(p, servers) <==> s in servers && !NeedsRecovery(p, s)
  {
    if servers != [] {
      var n := |servers| - 1;
      SplitMembers(p, servers[..n]);
      assert servers == servers[..n] + [servers[n]];
    }
  }

  lemma {:induction false} SplitIsDistinct(p: Pool, servers: seq<string>)
    requires Distinct(servers)
    ensures Distinct(Recovering(p, servers)) && Distinct(Healthy(p, servers))
  {
    if servers != [] {
      var n := |servers| - 1;
      SplitIsDistinct(p, servers[..n]);
      SplitMembers(p, servers[..n]);
      assert servers[n] !in servers[..n];
    }
  }

  /** Which round a server is in can be told from its name. */
  lemma RoundOf(p: Pool, i: nat)
    requires Distinct(p.servers) && i < |FirstRound(p)| + |SecondRound(p)|
    ensures Member(p, i) in FirstRound(p) <==> i < |FirstRound(p)|
    ensures i < |FirstRound(p)| ==> (Member(p, i) == FirstRound(p)[|FirstRound(p)| - 1] <==> i == |FirstRound(p)| - 1)
  {
    if i < |FirstRound(p)| {
      FirstRoundIsDistinct(p);
    } else {
      LaterIsHealthy(p, i);
    }
  }

  lemma FirstRoundIsDistinct(p: Pool)
    requires Distinct(p.servers)
    ensures Distinct(FirstRound(p))
  {
    SplitIsDistinct(p, p.servers);
  }

  lemma LaterIsHealthy(p: Pool, i: nat)
    requires |FirstRound(p)| <= i < |FirstRound(p)| + |SecondRound(p)|
    ensures Member(p, i) !in FirstRound(p)
  {
    SplitMembers(p, p.servers);
    assert Member(p, i) == SecondRound(p)[i - |FirstRound(p)|];
  }

  // ---- What any rollout keeps to, complete or not ----

  function Applies(log: seq<Event>): seq<string> {
    if log == [] then [] else
      Applies(log[..|log| - 1]) + if log[|log| - 1].Applied? then [log[|log| - 1].server] else []
  }

  lemma {:induction false} AppliesOfConcat(a: seq<Event>, b: seq<Event>)
    ensures Applies(a + b) == Applies(a) + Applies(b)
    decreases |b|
  {
    if b == [] {
      assert a + b == a;
    } else {
      assert (a + b)[..|a + b| - 1] == a + b[..|b| - 1];
      AppliesOfConcat(a, b[..|b| - 1]);
    }
  }

  lemma StepsApplyOne(server: string, wait: bool, heal: bool)
    ensures Applies(ServerSteps(server, wait, heal)) == [server]
  {
    var steps := ServerSteps(server, wait, heal);
    assert Applies([Applied(server)]) == [server];
    AppliesOfConcat([Applied(server)], steps[1..]);
    assert steps == [Applied(server)] + steps[1..];
    assert Applies(steps[1..]) == [] by {
      if wait && heal { assert steps[1..] == [Serving(server)] + [Clean]; AppliesOfConcat([Serving(server)], [Clean]); }
    }
  }

  lemma NothingAppliedYet(p: Pool)
    ensures Applies(Progress(p, 0)) == []
  {
    assert Progress(p, 0) == [] || Progress(p, 0) == [Clean];
  }

  lemma AppliesOneMore(log: seq<Event>, server: string, wait: bool, heal: bool)
    ensures Applies(log + ServerSteps(server, wait, heal)) == Applies(log) + [server]
  {
    StepsApplyOne(server, wait, heal);
    AppliesOfConcat(log, ServerSteps(server, wait, heal));
  }

  /** All servers in the order of the two rounds. */
  function Order(p: Pool): seq<string> {
    FirstRound(p) + SecondRound(p)
  }

  lemma OrderNext(p: Pool, i: nat, next: nat)
    requires i < |Order(p)| && next == i + 1
    ensures Order(p)[..next] == Order(p)[..i] + [Member(p, i)]
  {
  }

  lemma ProgressAppliesNext(p: Pool, i: nat, next: nat)
    requires i < |Order(p)| && next == i + 1 && Applies(Progress(p, i)) == Order(p)[..i]
    ensures Applies(Progress(p, next)) == Order(p)[..next]
  {
    Advance(p, i);
    AppliesOneMore(Progress(p, i), Member(p, i), p.appsClient, HealsAfter(p, i));
    OrderNext(p, i, next);
  }

  lemma {:induction false} ProgressApplies(p: Pool, i: nat)
    requires i <= |Order(p)|
    ensures Applies(Progress(p, i)) == Order(p)[..i]
  {
    if i == 0 {
      NothingAppliedYet(p);
    } else {
      ProgressApplies(p, i - 1);
      ProgressAppliesNext(p, i - 1, i);
    }
  }

  /** A complete rollout makes the Service first and applies every server exactly once. */
  lemma EveryServerOnce(p: Pool)
    ensures multiset(Applies(Plan(p))) == multiset(p.servers)
    ensures Plan(p)[0] == ServiceDeployed
  {
    AppliesInOrder(p);
    SplitMembers(p, p.servers);
  }

  /** A pool that is not heal-gated is applied in brick order, and no heal is waited for; without an Apps
      client no server is either. */
  lemma UngatedRollout(p: Pool)
    requires !p.healGatedType
    ensures Applies(Plan(p)) == p.servers && Clean !in Plan(p)
    ensures !p.appsClient ==> forall server :: Serving(server) !in Plan(p)
  {
    AppliesInOrder(p);
    NoHealWithin(p.servers, p.appsClient);
    assert Plan(p) == [ServiceDeployed] + AllSteps(p.servers, p.appsClient, false);
  }

  lemma AppliesInOrder(p: Pool)
    ensures Applies(Plan(p)) == Order(p)
  {
    var n := |FirstRound(p)| + |SecondRound(p)|;
    ProgressApplies(p, n);
    AppliesOfConcat([ServiceDeployed], Progress(p, n));
    assert Order(p)[..n] == Order(p);
  }

  /** A round keeps the order of the bricks. */
  lemma {:induction false} RoundsKeepOrder(p: Pool, servers: seq<string>, i: nat, j: nat, healthy: bool)
    returns (a: nat, b: nat)
    requires var round := if healthy then Healthy(p, servers) else Recovering(p, servers); i < j < |round|
    ensures var round := if healthy then Healthy(p, servers) else Recovering(p, servers);
            a < b < |servers| && servers[a] == round[i] && servers[b] == round[j]
  {
    var n := |servers| - 1;
    var before := if healthy then Healthy(p, servers[..n]) else Recovering(p, servers[..n]);
    if j < |before| {
      a, b := RoundsKeepOrder(p, servers[..n], i, j, healthy);
    } else {
      b := n;
      SplitMembers(p, servers[..n]);
      assert before[i] in servers[..n];
      a :| a < n && servers[..n][a] == before[i];
    }
  }

  /** The servers of a heal-gated pool that are missing or unavailable come before all others, and both
      kinds in brick order. */
  lemma RecoveryFirst(p: Pool, i: nat, j: nat)
    requires p.healGatedType && p.appsClient && i < j < |Applies(Plan(p))|
    ensures var s, t := Applies(Plan(p))[i], Applies(Plan(p))[j];
            && (t !in p.existing || t !in p.complete ==> s !in p.existing || s !in p.complete)
            && ((s in p.existing && s in p.complete <==> t in p.existing && t in p.complete) ==>
                  exists a: nat, b: nat :: a < b < |p.servers| && p.servers[a] == s && p.servers[b] == t)
  {
    var n := |FirstRound(p)|;
    AppliesInOrder(p);
    MemberNeedsRecovery(p, i);
    MemberNeedsRecovery(p, j);
    if j < n {
      var a, b := RoundsKeepOrder(p, p.servers, i, j, false);
    } else if n <= i {
      var a, b := RoundsKeepOrder(p, p.servers, i - n, j - n, true);
    }
  }

  lemma {:induction false} NoHealWithin(servers: seq<string>, wait: bool)
    ensures Clean !in AllSteps(servers, wait, false)
    ensures !wait ==> forall server :: Serving(server) !in AllSteps(servers, wait, false)
  {
    if servers != [] {
      NoHealWithin(servers[..|servers| - 1], wait);
    }
  }

  lemma {:induction false} AllServe(servers: seq<string>, server: string)
    requires server in servers
    ensures Serving(server) in AllSteps(servers, true, false)
  {
    var n := |servers| - 1;
    if server != servers[n] {
      AllServe(servers[..n], server);
    }
  }

  lemma FirstHeal(p: Pool, k: nat)
    requires p.healGatedType && p.appsClient && k < |Plan(p)| && Plan(p)[k] == Clean
    ensures [ServiceDeployed] + AllSteps(FirstRound(p), true, false) <= Plan(p)[..k]
  {
    var first := [ServiceDeployed] + AllSteps(FirstRound(p), true, false);
    NoHealWithin(FirstRound(p), true);
    assert first <= Plan(p) && Clean !in first;
  }

  /** However far a rollout gets, no heal is waited for before every missing or unavailable member serves
      again. */
  lemma HealsOnlyOnceAllServe(p: Pool, log: seq<Event>, k: nat, server: string)
    requires p.healGatedType && p.appsClient && log <= Plan(p) && k < |log| && log[k] == Clean
    requires server in p.servers && (server !in p.existing || server !in p.complete)
    ensures Serving(server) in log[..k]
  {
    FirstHeal(p, k);
    InFirstRound(p, server);
    AllServe(FirstRound(p), server);
    StillIn(Serving(server), [ServiceDeployed], AllSteps(FirstRound(p), true, false), log[..k]);
  }

  lemma InFirstRound(p: Pool, server: string)
    requires HealGated(p) && server in p.servers && NeedsRecovery(p, server)
    ensures server in FirstRound(p)
  {
    SplitMembers(p, p.servers);
  }

  lemma StillIn(e: Event, a: seq<Event>, b: seq<Event>, log: seq<Event>)
    requires e in b && a + b <= log
    ensures e in log
  {
    var j :| 0 <= j < |b| && b[j] == e;
    assert log[|a| + j] == e;
  }

  lemma {:induction false} EndsClean(p: Pool, i: nat)
    requires HealGated(p) && |FirstRound(p)| <= i <= |FirstRound(p)| + |SecondRound(p)|
    ensures Progress(p, i) != [] && Progress(p, i)[|Progress(p, i)| - 1] == Clean
  {
    if i > |FirstRound(p)| {
      Advance(p, i - 1);
    }
  }

  lemma MemberNeedsRecovery(p: Pool, i: nat)
    requires HealGated(p) && i < |FirstRound(p)| + |SecondRound(p)|
    ensures NeedsRecovery(p, Member(p, i)) <==> i < |FirstRound(p)|
  {
    SplitMembers(p, p.servers);
    if i < |FirstRound(p)| {
      assert Member(p, i) in FirstRound(p);
    } else {
      assert Member(p, i) in SecondRound(p);
    }
  }

  /** Every apply to a healthy member comes right after a clean heal. */
  ghost predicate Gated(p: Pool, log: seq<Event>)
  {
    forall k :: 0 <= k < |log| && log[k].Applied? && !NeedsRecovery(p, log[k].server) ==> 0 < k && log[k - 1] == Clean
  }

  lemma GatedOneMore(p: Pool, log: seq<Event>, server: string, wait: bool, heal: bool)
    requires Gated(p, log)
    requires NeedsRecovery(p, server) || (log != [] && log[|log| - 1] == Clean)
    ensures Gated(p, log + ServerSteps(server, wait, heal))
  {
    var all := log + ServerSteps(server, wait, heal);
    forall k | 0 <= k < |all| && all[k].Applied? && !NeedsRecovery(p, all[k].server)
      ensures 0 < k && all[k - 1] == Clean
    {
      if k < |log| {
        assert all[k] == log[k];
      } else {
        assert k == |log|;
      }
    }
  }

  lemma ProgressIsGatedNext(p: Pool, i: nat, next: nat)
    requires HealGated(p) && i < |Order(p)| && next == i + 1 && Gated(p, Progress(p, i))
    ensures Gated(p, Progress(p, next))
  {
    Advance(p, i);
    MemberNeedsRecovery(p, i);
    if i >= |FirstRound(p)| {
      EndsClean(p, i);
    }
    GatedOneMore(p, Progress(p, i), Member(p, i), p.appsClient, HealsAfter(p, i));
  }

  lemma {:induction false} ProgressIsGated(p: Pool, i: nat)
    requires HealGated(p) && i <= |Order(p)|
    ensures Gated(p, Progress(p, i))
  {
    if i > 0 {
      ProgressIsGated(p, i - 1);
      ProgressIsGatedNext(p, i - 1, i);
    }
  }

  /** However far a rollout gets, no healthy member of a heal-gated pool is touched unless the event
      right before it is a clean heal of the whole pool. */
  lemma HealthyOnlyAfterCleanHeal(p: Pool, log: seq<Event>, k: nat)
    requires p.healGatedType && p.appsClient && log <= Plan(p)
    requires k < |log| && log[k].Applied? && log[k].server in p.existing && log[k].server in p.complete
    ensures 0 < k && log[k - 1] == Clean
  {
    var all := Progress(p, |Order(p)|);
    ProgressIsGated(p, |Order(p)|);
    assert log[k] == all[k - 1];
  }

  /** And a complete rollout leaves the pool healed. */
  lemma CompleteRolloutEndsClean(p: Pool)
    requires p.healGatedType && p.appsClient
    ensures Plan(p)[|Plan(p)| - 1] == Clean
  {
    EndsClean(p, |FirstRound(p)| + |SecondRound(p)|);
  }

  lemma {:induction false} ProgressServes(p: Pool, i: nat, k: nat)
    requires p.appsClient && i <= |FirstRound(p)| + |SecondRound(p)|
    requires k < |Progress(p, i)| && Progress(p, i)[k].Applied?
    ensures k + 1 < |Progress(p, i)| && Progress(p, i)[k + 1] == Serving(Progress(p, i)[k].server)
  {
    if i > 0 {
      Advance(p, i - 1);
      if k < |Progress(p, i - 1)| {
        ProgressServes(p, i - 1, k);
      }
    }
  }

  /** With an Apps client at most one server is ever in transition: the next event after an apply is
      that server serving again, and a complete rollout has waited for every one. */
  lemma OneServerAtATime(p: Pool, log: seq<Event>, k: nat)
    requires p.appsClient && log <= Plan(p) && k < |log| && log[k].Applied?
    ensures k + 1 < |log| ==> log[k + 1] == Serving(log[k].server)
    ensures log == Plan(p) ==> k + 1 < |log|
  {
    ProgressServes(p, |FirstRound(p)| + |SecondRound(p)|, k - 1);
  }

  predicate MayFollow(e: Event, f: Event, wait: bool) {
    match e
    case ServiceDeployed => f.Applied? || f == Clean
    case Applied(server) => if wait then f == Serving(server) else f.Applied?
    case Serving(_) => f.Applied? || f == Clean
    case Clean => f.Applied?
  }

  ghost predicate Tidy(log: seq<Event>, wait: bool) {
    forall k, next :: 0 <= k && next == k + 1 && next < |log| ==> MayFollow(log[k], log[next], wait)
  }

  lemma TidyOneMore(log: seq<Event>, server: string, wait: bool, heal: bool)
    requires log != [] && Tidy(log, wait) && MayFollow(log[|log| - 1], Applied(server), wait) && (heal ==> wait)
    ensures var all := log + ServerSteps(server, wait, heal);
            Tidy(all, wait) && !all[|all| - 1].ServiceDeployed? && (all[|all| - 1].Applied? ==> !wait)
  {
    var all, n := log + ServerSteps(server, wait, heal), |log|;
    forall k, next | 0 <= k && next == k + 1 && next < |all| ensures MayFollow(all[k], all[next], wait) {
      if next < n {
        assert MayFollow(log[k], log[next], wait);
      }
    }
  }

  lemma {:induction false} ProgressIsTidy(p: Pool, i: nat)
    requires i <= |Order(p)|
    ensures var log := [ServiceDeployed] + Progress(p, i);
            Tidy(log, p.appsClient) && (log[|log| - 1].Applied? ==> !p.appsClient)
  {
    if i > 0 {
      ProgressIsTidy(p, i - 1);
      Continues(p, i - 1);
      TidyOneMore([ServiceDeployed] + Progress(p, i - 1), Member(p, i - 1), p.appsClient, HealsAfter(p, i - 1));
    } else {
      NothingAppliedYet(p);
    }
  }

  /** Nothing is asked for twice: an apply is followed by its server serving, if anybody waits for it, and a
      clean heal by the next apply. */
  lemma NothingTwice(p: Pool, log: seq<Event>, k: nat, next: nat)
    requires log <= Plan(p) && next == k + 1 && next < |log|
    ensures log[k].Applied? ==> log[next] == Serving(log[k].server) || (log[next].Applied? && !p.appsClient)
    ensures log[k].Serving? || log[k].ServiceDeployed? ==> log[next].Applied? || log[next] == Clean
    ensures log[k] == Clean ==> log[next].Applied?
  {
    ProgressIsTidy(p, |Order(p)|);
    assert MayFollow(Plan(p)[k], Plan(p)[next], p.appsClient);
  }
}
