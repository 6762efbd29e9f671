/**
 When the agent cap never cuts off a plan of agents and bookkeeping nodes: not
 when it holds the declared agents, but when it holds all their attempts.
 */
module RunCapacity {
  import opened PlanSchema
  import opened Upstream
  import opened PlanGraph
  import opened RunInvariant
  import opened RunSteps
  import opened RunProgress
  import opened RunBudget
  import opened RunWorkers
  import opened RunAccounts
  import opened RunLaws
  import opened RunSemantics
  import opened RunSums
  import opened RunScript
  import opened RunSteady

  /** All attempts the agent nodes may make: min(retries, 3) + 1 each. */
  ghost function AllowedTotal(nodes: seq<Node>): nat {
    if nodes == [] then 0
    else
      var last := nodes[|nodes| - 1];
      AllowedTotal(nodes[..|nodes| - 1]) + if last.Agent? then AttemptsAllowed(last.spec) else 0
  }

  ghost function AllowedFor(nodes: seq<Node>, id: NodeId): nat {
    var node := FindNode(nodes, id);
    if node.Some? && node.value.Agent? then AttemptsAllowed(node.value.spec) else 0
  }

  ghost function Allowed(nodes: seq<Node>): NodeId -> nat {
    id => AllowedFor(nodes, id)
  }

  lemma {:induction false} AllowedPrefix(nodes: seq<Node>, k: nat)
    requires UniqueIds(nodes) && k <= |nodes|
    ensures AllowedTotal(nodes[..k]) == SumOver(nodes[..k], Allowed(nodes), AgentIds(nodes))
    decreases k
  {
    if k > 0 {
      AllowedPrefix(nodes, k - 1);
      var last := nodes[k - 1];
      assert nodes[..k][..k - 1] == nodes[..k - 1];
      FindUnique(nodes, last);
      SameIdSameNode(nodes);
      assert last.id in AgentIds(nodes) <==> last.Agent?;
    }
  }

  lemma AllowedIsSum(nodes: seq<Node>)
    requires UniqueIds(nodes)
    ensures AllowedTotal(nodes) == SumOver(nodes, Allowed(nodes), AgentIds(nodes))
  {
    AllowedPrefix(nodes, |nodes|);
    assert nodes[..|nodes|] == nodes;
  }

  // ---------- an ample cap ----------

  lemma {:induction false} CeilingIsSum(w: World, st: RunState, log: seq<Dispatch>)
    requires UniqueIds(w.nodes) && SingleShot(w.nodes) && LogInv(w, st, log)
    ensures Ceiling(log) == SumOver(w.nodes, Allowed(w.nodes), BatchNodes(log))
    ensures BatchNodes(log) <= AgentIds(w.nodes)
    decreases |log|
  {
    hide SumOver, UniqueIds, SingleShot, Is, DependenciesSatisfied;
    if log == [] {
      SumNothing(w.nodes, Allowed(w.nodes));
      assert BatchNodes(log) == {};
    } else {
      var front, last := log[..|log| - 1], log[|log| - 1];
      CeilingIsSum(w, st, front);
      LoggedAgent(w, st, log, |log| - 1);
      LoggedOnce(w, st, log);
      BatchSum(w.nodes, Allowed(w.nodes), front, last);
      assert log == front + [last];
      assert forall d :: d in log <==> d in front || d == last;
    }
  }

  lemma LoggedAgent(w: World, st: RunState, log: seq<Dispatch>, k: nat)
    requires SingleShot(w.nodes) && LogInv(w, st, log) && k < |log|
    ensures log[k].nodeId in AgentIds(w.nodes) && log[k].nodeId in Ids(w.nodes)
    ensures MaxAttempts(log[k]) == AllowedFor(w.nodes, log[k].nodeId)
    ensures SlotKey(w.nodes, log[k]) == NodeKey(log[k].nodeId)
  {
    assert Logged(w, st, log[k]);
  }

  lemma LoggedOnce(w: World, st: RunState, log: seq<Dispatch>)
    requires SingleShot(w.nodes) && LogInv(w, st, log) && log != []
    ensures log[|log| - 1].nodeId !in BatchNodes(log[..|log| - 1])
  {
    var last := |log| - 1;
    LoggedAgent(w, st, log, last);
    forall k | 0 <= k < last ensures log[k].nodeId != log[last].nodeId {
      LoggedAgent(w, st, log, k);
    }
  }

  /** Any run: agent nodes are never spawned more often than their retries allow in all. */
  lemma SpawnsWithinAllowed(w: World, out: Outside, caps: ResolvedCaps, schedules: seq<seq<nat>>)
    requires Faithful(w, out) && Schedulable(w.nodes) && SingleShot(w.nodes) && IsRun(w, out, caps, schedules)
    ensures RunOf(w, out, caps, schedules).st.agentsSpawned <= AllowedTotal(w.nodes)
  {
    var c := RunOf(w, out, caps, schedules);
    RunIsLawful(w, out, caps, schedules);
    hide RunOf, IsRun, Inv, LogInv, Faithful, SumOver, Ceiling, SingleShot, WithinOvershoot, CapCoversAgents,
         BatchNodes;
    CeilingIsSum(w, c.st, c.log);
    SumSubset(w.nodes, Allowed(w.nodes), BatchNodes(c.log), AgentIds(w.nodes));
    AllowedIsSum(w.nodes);
  }

  /** A cap above all allowed attempts never halts a run. */
  lemma AmpleCapNeverHalts(w: World, out: Outside, caps: ResolvedCaps, schedules: seq<seq<nat>>)
    requires Faithful(w, out) && Schedulable(w.nodes) && SingleShot(w.nodes) && IsRun(w, out, caps, schedules)
    requires caps.maxAgents > AllowedTotal(w.nodes)
    ensures !CapHalted(out, RunOf(w, out, caps, schedules))
  {
    SpawnsWithinAllowed(w, out, caps, schedules);
    RunIsLawful(w, out, caps, schedules);
    hide RunOf, IsRun, Lawful, Faithful, Collapsed;
  }

  /** Halted by the cap, not by failures of one shape. */
  ghost predicate CapHalted(out: Outside, c: Config) {
    c.halted == Some(AgentsHalt) && !Collapsed(out, c.failures)
  }

  // ---------- a tight cap ----------

  /** A bookkeeping node that depends, however far, on every agent node. */
  ghost predicate BehindAll(nodes: seq<Node>, b: Node) {
    && b in nodes && (b.Barrier? || b.Transform?)
    && forall a :: a in nodes && a.Agent? ==> exists p :: DependsThrough(nodes, b.id, p, a.id)
  }

  ghost function FromMap(m: map<NodeId, nat>): NodeId -> nat {
    id => if id in m then m[id] else 1
  }

  /** Attempts for every agent node, within what it allows. */
  ghost predicate Shares(nodes: seq<Node>, m: map<NodeId, nat>) {
    forall n :: n in nodes && n.Agent? ==> n.id in m && 1 <= m[n.id] <= AttemptsAllowed(n.spec)
  }

  /** They can be shared out to make any total between the number of agents and what these allow. */
  lemma {:induction false} ShareOut(nodes: seq<Node>, total: nat) returns (m: map<NodeId, nat>)
    requires UniqueIds(nodes) && |AgentIds(nodes)| <= total <= AllowedTotal(nodes)
    ensures Shares(nodes, m) && SumOver(nodes, FromMap(m), AgentIds(nodes)) == total
    decreases |nodes|
  {
    hide SumOver, AgentIds, FromMap, UniqueIds, AttemptsAllowed, Shares;
    if nodes == [] {
      m := map[];
      ShareNone();
    } else {
      var front, last := nodes[..|nodes| - 1], nodes[|nodes| - 1];
      FrontIsUnique(nodes);
      AgentsOfFront(nodes);
      AtLeastOneEach(front);
      AttemptsArePositive(last);
      if last.Agent? {
        var share := if total > AllowedTotal(front) + 1 then total - AllowedTotal(front) else 1;
        var rest := ShareOut(front, total - share);
        m := rest[last.id := share];
        SharesOneMore(nodes, rest, share);
        SumOneMore(nodes, rest, share);
      } else {
        m := ShareOut(front, total);
        SharesSame(nodes, m);
        SumSkipsLast(nodes, FromMap(m));
      }
    }
  }

  lemma ShareNone()
    ensures AgentIds([]) == {} && SumOver([], FromMap(map[]), AgentIds([])) == 0 && Shares([], map[])
  {
  }

  lemma AttemptsArePositive(n: Node)
    ensures n.Agent? ==> AttemptsAllowed(n.spec) >= 1
  {
  }

  lemma {:induction false} AtLeastOneEach(nodes: seq<Node>)
    requires UniqueIds(nodes)
    ensures |AgentIds(nodes)| <= AllowedTotal(nodes)
    decreases |nodes|
  {
    hide AgentIds, UniqueIds, AttemptsAllowed;
    if nodes == [] {
      ShareNone();
    } else {
      FrontIsUnique(nodes);
      AtLeastOneEach(nodes[..|nodes| - 1]);
      AgentsOfFront(nodes);
      AttemptsArePositive(nodes[|nodes| - 1]);
    }
  }

  lemma SharesOneMore(nodes: seq<Node>, rest: map<NodeId, nat>, share: nat)
    requires UniqueIds(nodes) && nodes != [] && nodes[|nodes| - 1].Agent?
    requires 1 <= share <= AttemptsAllowed(nodes[|nodes| - 1].spec) && Shares(nodes[..|nodes| - 1], rest)
    ensures Shares(nodes, rest[nodes[|nodes| - 1].id := share])
  {
    hide AttemptsAllowed, UniqueIds;
    LastIsNew(nodes);
    assert nodes == nodes[..|nodes| - 1] + [nodes[|nodes| - 1]];
  }

  lemma SharesSame(nodes: seq<Node>, m: map<NodeId, nat>)
    requires nodes != [] && !nodes[|nodes| - 1].Agent? && Shares(nodes[..|nodes| - 1], m)
    ensures Shares(nodes, m)
  {
    hide AttemptsAllowed;
    assert nodes == nodes[..|nodes| - 1] + [nodes[|nodes| - 1]];
  }

  lemma SumOneMore(nodes: seq<Node>, rest: map<NodeId, nat>, share: nat)
    requires UniqueIds(nodes) && nodes != [] && nodes[|nodes| - 1].Agent?
    ensures var front, last := nodes[..|nodes| - 1], nodes[|nodes| - 1];
            SumOver(nodes, FromMap(rest[last.id := share]), AgentIds(nodes)) ==
            SumOver(front, FromMap(rest), AgentIds(front)) + share
  {
    hide AgentIds, UniqueIds;
    var front, last := nodes[..|nodes| - 1], nodes[|nodes| - 1];
    var m := rest[last.id := share];
    LastIsNew(nodes);
    AgentsOfFront(nodes);
    SumSame(front, FromMap(m), FromMap(rest), AgentIds(front));
    SumElsewhere(front, FromMap(m), AgentIds(nodes), AgentIds(front));
    assert FromMap(m)(last.id) == share;
  }

  lemma SumSkipsLast(nodes: seq<Node>, f: NodeId -> nat)
    requires UniqueIds(nodes) && nodes != [] && !nodes[|nodes| - 1].Agent?
    ensures SumOver(nodes, f, AgentIds(nodes)) == SumOver(nodes[..|nodes| - 1], f, AgentIds(nodes[..|nodes| - 1]))
  {
    hide AgentIds, UniqueIds;
    AgentsOfFront(nodes);
  }

  lemma AgentsOfMore(front: seq<Node>, last: Node)
    ensures AgentIds(front + [last]) == AgentIds(front) + (if last.Agent? then {last.id} else {})
    ensures AgentIds(front) <= Ids(front)
  {
    var all := front + [last];
    assert forall n :: n in all <==> n in front || n == last;
  }

  lemma AgentsOfFront(nodes: seq<Node>)
    requires UniqueIds(nodes) && nodes != []
    ensures var front, last := nodes[..|nodes| - 1], nodes[|nodes| - 1];
            && AgentIds(nodes) == AgentIds(front) + (if last.Agent? then {last.id} else {})
            && last.id !in AgentIds(front)
            && |AgentIds(nodes)| == |AgentIds(front)| + if last.Agent? then 1 else 0
  {
    hide AgentIds, Ids, UniqueIds;
    LastIsNew(nodes);
    AgentsOfMore(nodes[..|nodes| - 1], nodes[|nodes| - 1]);
    assert nodes == nodes[..|nodes| - 1] + [nodes[|nodes| - 1]];
  }

  /** Free workers that take as many attempts as told. */
  ghost function Persistent(m: map<NodeId, nat>): Plot {
    Plot(FromMap(m), (id: NodeId) => 0)
  }

  /** Enough attempts to use up the cap, yet never more than it can fund. */
  lemma UseUp(w: World, caps: ResolvedCaps) returns (m: map<NodeId, nat>)
    requires AgentPlan(w) && caps.maxAgents <= AllowedTotal(w.nodes)
    ensures Affordable(w, caps, Persistent(m))
    ensures SumOver(w.nodes, FromMap(m), AgentIds(w.nodes)) >= caps.maxAgents
  {
    hide AgentPlan, SumOver, AgentIds, UniqueIds, Shares, Affordable;
    AgentPlanFacts(w);
    if |AgentIds(w.nodes)| <= caps.maxAgents {
      m := ShareOut(w.nodes, caps.maxAgents);
      SharesAfford(w, caps, m);
    } else {
      m := map[];
      OnesAfford(w, caps);
    }
  }

  lemma SharesAfford(w: World, caps: ResolvedCaps, m: map<NodeId, nat>)
    requires Shares(w.nodes, m) && SumOver(w.nodes, FromMap(m), AgentIds(w.nodes)) == caps.maxAgents
    ensures Affordable(w, caps, Persistent(m))
  {
    hide SumOver, AgentIds, AttemptsAllowed;
    assert forall id :: id in m ==> Persistent(m).want(id) == m[id];
  }

  lemma OnesAfford(w: World, caps: ResolvedCaps)
    requires UniqueIds(w.nodes) && caps.maxAgents <= |AgentIds(w.nodes)|
    ensures Affordable(w, caps, Persistent(map[]))
    ensures SumOver(w.nodes, FromMap(map[]), AgentIds(w.nodes)) >= caps.maxAgents
  {
    hide SumOver;
    assert forall id :: Persistent(map[]).want(id) == 1;
    SumCounts(w.nodes, FromMap(map[]), AgentIds(w.nodes));
  }

  /** What lies behind every agent is published only when every agent is done. */
  lemma PublishedAfterAll(w: World, st: RunState, b: Node)
    requires Inv(w, st) && BehindAll(w.nodes, b) && DependenciesSatisfied(b, st) && UniqueIds(w.nodes)
    ensures WaitingAgents(w.nodes, st) == {}
  {
    hide Inv;
    forall a | a in w.nodes && a.Agent? ensures Is(st, NodeKey(a.id), Done) {
      var p :| DependsThrough(w.nodes, b.id, p, a.id);
      FindUnique(w.nodes, b);
      assert p[1] in DependenciesOf(b);
      if |p| > 2 {
        var tail := p[1..];
        forall k | 0 <= k < |tail| - 1
          ensures FindNode(w.nodes, tail[k]).Some? && tail[k + 1] in DependenciesOf(FindNode(w.nodes, tail[k]).value)
        {
          assert p[k + 1 + 1] in DependenciesOf(FindNode(w.nodes, p[k + 1]).value);
        }
        assert DependsThrough(w.nodes, p[1], tail, a.id);
        RanNodesDependOnDone(w, st, p[1], tail, a.id);
      }
    }
  }

  lemma FreeToll(m: map<NodeId, nat>)
    ensures forall id :: Toll(Persistent(m))(id) == 0
  {
  }

  /** A steady run that spends nothing. */
  lemma NothingSpentSteady(w: World, caps: ResolvedCaps, m: map<NodeId, nat>, c: Config)
    requires Steady(w, caps, Persistent(m), c)
    ensures c.st.spentTokens == 0
  {
    SteadyFacts(w, caps, Persistent(m), c);
    hide Steady, Lawful, Inv, SumOver, Finished;
    FreeToll(m);
    hide Persistent, Toll, FromMap;
    SumZero(w.nodes, Toll(Persistent(m)), Finished(w, c.st));
  }

  /** What an iteration publishes was ready. */
  lemma PublishedWasReady(w: World, st: RunState, b: Node)
    requires UniqueIds(w.nodes) && b in w.nodes && !Terminal(st, b.id)
    requires Terminal(ApplyImmediate(w.h, st, AllImmediate(w.h, w.nodes, st, |w.nodes|)), b.id)
    ensures DependenciesSatisfied(b, st)
  {
    hide AllImmediate, ApplyImmediate;
    var immediate := AllImmediate(w.h, w.nodes, st, |w.nodes|);
    var st' := ApplyImmediate(w.h, st, immediate);
    ApplyImmediateEffect(w.h, st, immediate);
    assert Published(w.h, immediate, st', NodeKey(b.id)) || Untouched(st, st', NodeKey(b.id));
    var e :| e in immediate && NodeKey(b.id) == NodeKey(e.0);
    var n := ImmediateMember(w.h, w.nodes, st, |w.nodes|, e);
    FindUnique(w.nodes, n);
    FindUnique(w.nodes, b);
  }

  /** An iteration finishes bookkeeping nodes only by publishing them. */
  lemma FinishedByPublishing(w: World, caps: ResolvedCaps, plot: Plot, c: Config, b: Node, schedule: seq<nat>)
    requires AgentPlan(w) && Affordable(w, caps, plot) && Steady(w, caps, plot, c) && b in w.nodes && !b.Agent?
    requires BatchSpec(w.h, w.nodes, c.st, caps).halt.None? && FinishesNext(w, caps, plot, c, b.id, schedule)
    ensures Terminal(AfterPublishing(w, caps, c).st, b.id)
  {
    SteadyFacts(w, caps, plot, c);
    AgentPlanFacts(w);
    SteadyPublishes(w, caps, plot, c);
    var mid := AfterPublishing(w, caps, c);
    NoneDoomed(w, mid.st);
    hide AgentPlan, Affordable, Steady, Inv, Lawful, AllUnits, AllImmediate, ApplyImmediate, Worked, PlayedOut, Settle,
         Acyclic, Terminal, Scheduled, MarkSkipped, DoomedIds, SingleShot;
    var batch := BatchSpec(w.h, w.nodes, c.st, caps).dispatch;
    if batch != [] {
      BatchIsScheduled(w, caps, c.st);
      BatchAgents(w, caps, mid.st, batch);
      AgentBatchWaits(w, mid.st, batch);
      SameIdSameNode(w.nodes);
      SettlesItsNodes(w, caps, plot, mid, batch, schedule, b.id);
    }
  }

  lemma AllDoneUsesUp(w: World, caps: ResolvedCaps, m: map<NodeId, nat>, c: Config)
    requires Steady(w, caps, Persistent(m), c) && WaitingAgents(w.nodes, c.st) == {}
    requires SumOver(w.nodes, FromMap(m), AgentIds(w.nodes)) >= caps.maxAgents
    ensures BatchSpec(w.h, w.nodes, c.st, caps).halt.Some?
  {
    SteadyFacts(w, caps, Persistent(m), c);
    hide Steady, Inv, Lawful, AllUnits, AllImmediate, SumOver, AgentIds, WaitingAgents;
    assert Finished(w, c.st) == AgentIds(w.nodes);
  }

  /** Before a node behind all agents could be published, the attempts have used up the cap. */
  lemma NeverImminent(w: World, caps: ResolvedCaps, m: map<NodeId, nat>, c: Config, b: Node)
    requires AgentPlan(w) && BehindAll(w.nodes, b) && Affordable(w, caps, Persistent(m))
    requires SumOver(w.nodes, FromMap(m), AgentIds(w.nodes)) >= caps.maxAgents
    requires Steady(w, caps, Persistent(m), c) && !Terminal(c.st, b.id)
    requires BatchSpec(w.h, w.nodes, c.st, caps).halt.None?
    ensures !Imminent(w, caps, Persistent(m), c, b.id)
  {
    SteadyFacts(w, caps, Persistent(m), c);
    AgentPlanFacts(w);
    assert b in w.nodes && !b.Agent?;
    hide AgentPlan, Affordable, Steady, Inv, Lawful, BatchSpec, AllImmediate, ApplyImmediate, Acyclic, Schedulable,
         FinishesNext, SumOver, SingleShot, Terminal, BehindAll, Persistent, UniqueIds, WaitingAgents;
    if schedule :| FinishesNext(w, caps, Persistent(m), c, b.id, schedule) {
      FinishedByPublishing(w, caps, Persistent(m), c, b, schedule);
      BatchPublishes(w, caps, c);
      PublishedWasReady(w, c.st, b);
      PublishedAfterAll(w, c.st, b);
      AllDoneUsesUp(w, caps, m, c);
    }
  }

  lemma BatchPublishes(w: World, caps: ResolvedCaps, c: Config)
    requires BatchSpec(w.h, w.nodes, c.st, caps).halt.None?
    ensures AfterPublishing(w, caps, c).st == ApplyImmediate(w.h, c.st, AllImmediate(w.h, w.nodes, c.st, |w.nodes|))
  {
  }

  /** A cap that all allowed attempts could use up cuts off bookkeeping in some run. */
  lemma TightCapCutsOff(w: World, caps: ResolvedCaps, b: Node) returns (out: Outside, schedules: seq<seq<nat>>)
    requires AgentPlan(w) && BehindAll(w.nodes, b) && caps.maxAgents <= AllowedTotal(w.nodes)
    requires caps.maxConcurrent >= 1 && caps.budgetTokens != Some(0)
    ensures Faithful(w, out) && IsRun(w, out, caps, schedules)
    ensures var c := RunOf(w, out, caps, schedules);
            CapHalted(out, c) && c.failures == [] && !Terminal(c.st, b.id)
  {
    hide AgentPlan, Affordable, Steady, Iterated, BatchSpec, Follows, PlaysOut, Faithful, Going, Terminal, SumOver,
         AgentIds, BehindAll, Persistent, Imminent, IsRun, RunOf;
    var m := UseUp(w, caps);
    var plot := Persistent(m);
    out := Follows(w, PerNode(plot));
    FollowsIsFaithful(w, PerNode(plot));
    StartIsSteady(w, caps, plot);
    EmptyIsRun(w, out, caps, b.id);
    BehindIsDeclared(w.nodes, b);
    var all := RunUntil(w, caps, plot, b.id, []);
    var c := RunOf(w, out, caps, all);
    if BatchSpec(w.h, w.nodes, c.st, caps).halt.None? {
      NeverImminent(w, caps, m, c, b);
    }
    NothingSpentSteady(w, caps, m, c);
    HaltsByCap(w, out, caps, plot, c);
    SteadyGoes(w, caps, plot, c, b.id);
    NextIsRun(w, out, caps, all, []);
    schedules := all + [[]];
  }

  lemma EmptyIsRun(w: World, out: Outside, caps: ResolvedCaps, id: NodeId)
    ensures IsRun(w, out, caps, []) && RunOf(w, out, caps, []) == START && !Terminal(START.st, id)
  {
  }

  lemma BehindIsDeclared(nodes: seq<Node>, b: Node)
    requires BehindAll(nodes, b)
    ensures b.id in Ids(nodes)
  {
  }

  lemma HaltsByCap(w: World, out: Outside, caps: ResolvedCaps, plot: Plot, c: Config)
    requires out == Follows(w, PerNode(plot)) && Steady(w, caps, plot, c)
    requires BatchSpec(w.h, w.nodes, c.st, caps).halt.Some? && c.st.spentTokens == 0 && caps.budgetTokens != Some(0)
    ensures PlaysOut(w, out, caps, c, [])
    ensures var c' := Iterated(w, out, caps, c, []);
            CapHalted(out, c') && c'.failures == [] && c'.st == c.st
  {
    NoFailureNoCollapse(out);
  }

  /**
   "The declared nodes always fit": for plans of agents and bookkeeping with a node
   behind all agents, no run is cut off by the cap if and only if the cap exceeds
   every attempt the agents may make, and not just their number.
   */
  lemma CapSparesExactly(w: World, caps: ResolvedCaps, b: Node)
    requires AgentPlan(w) && BehindAll(w.nodes, b) && caps.maxConcurrent >= 1 && caps.budgetTokens != Some(0)
    ensures (forall out, schedules :: Faithful(w, out) && IsRun(w, out, caps, schedules) ==>
               !CapHalted(out, RunOf(w, out, caps, schedules))) <==> caps.maxAgents > AllowedTotal(w.nodes)
  {
    AgentPlanFacts(w);
    if caps.maxAgents > AllowedTotal(w.nodes) {
      forall out, schedules | Faithful(w, out) && IsRun(w, out, caps, schedules)
        ensures !CapHalted(out, RunOf(w, out, caps, schedules))
      {
        AmpleCapNeverHalts(w, out, caps, schedules);
      }
    } else {
      var out, schedules := TightCapCutsOff(w, caps, b);
    }
  }
}
