/**
 What the agent cap and the token budget promise, exactly: when a budget is
 overshot by one worker only, and when the cap never cuts off a plan.
 */
module RunLimits {
  import opened PlanSchema
  import opened Upstream
  import opened PlanGraph
  import opened RunInvariant
  import opened RunSteps
  import opened RunProgress
  import opened RunBudget
  import opened RunWorkers
  import opened RunAccounts
  import opened RunLaws
  import opened RunSemantics
  import opened RunSums
  import opened RunScript
  import opened RunSteady

  // ---------- the token budget ----------

  /** No worker of the plan may be retried. */
  ghost predicate NoRetries(nodes: seq<Node>) {
    forall n :: n in nodes ==>
      match n
      case Agent(_, _, spec) => AttemptsAllowed(spec) == 1
      case Fanout(_, _, _, spec) => AttemptsAllowed(spec) == 1
      case Pipeline(_, _, _, stages) => forall k :: 0 <= k < |stages| ==> AttemptsAllowed(stages[k]) == 1
      case _ => true
  }

  /** Any plan, any run: the spend stays below the budget plus what the last dispatch's attempts cost. */
  lemma BudgetBound(w: World, out: Outside, caps: ResolvedCaps, schedules: seq<seq<nat>>) returns (mark: nat)
    requires Faithful(w, out) && Schedulable(w.nodes) && IsRun(w, out, caps, schedules)
    requires caps.budgetTokens.Some? && RunOf(w, out, caps, schedules).log != []
    ensures var c := RunOf(w, out, caps, schedules);
            && mark <= |c.bills| <= mark + MaxAttempts(c.log[|c.log| - 1])
            && (forall b :: b in c.bills[mark..] ==> b.dispatch == c.log[|c.log| - 1])
            && c.st.spentTokens < caps.budgetTokens.value + Total(c.bills[mark..])
  {
    var c := RunOf(w, out, caps, schedules);
    RunIsLawful(w, out, caps, schedules);
    hide RunOf, IsRun, Inv, LogInv, Faithful, Schedulable, Total, Ceiling, CapCoversAgents;
    mark := FinalSpend(caps, c.log, c.bills);
  }

  /** Any plan, any run: without retries the last worker was started below the budget. */
  lemma NoRetriesOneWorker(w: World, out: Outside, caps: ResolvedCaps, schedules: seq<seq<nat>>)
    requires Faithful(w, out) && Schedulable(w.nodes) && IsRun(w, out, caps, schedules) && NoRetries(w.nodes)
    ensures OneWorkerOvershoot(caps, RunOf(w, out, caps, schedules).bills)
  {
    var c := RunOf(w, out, caps, schedules);
    RunIsLawful(w, out, caps, schedules);
    if c.log != [] {
      LastAllows(w, c.st, c.log);
    }
    hide RunOf, IsRun, Inv, LogInv, Faithful, Schedulable, Total, Ceiling, CapCoversAgents, OneWorkerOvershoot;
    NoRetryOneWorker(caps, c.log, c.bills);
  }

  lemma LastAllows(w: World, st: RunState, log: seq<Dispatch>)
    requires LogInv(w, st, log) && NoRetries(w.nodes) && log != []
    ensures MaxAttempts(log[|log| - 1]) == 1
  {
    assert Logged(w, st, log[|log| - 1]);
  }

  /** Two attempts of one agent node, the first of which spends the whole budget. */
  ghost function Spender(id: NodeId, budget: nat): Plot {
    Plot((n: NodeId) => if n == id then 2 else 1, (n: NodeId) => if n == id then budget else 0)
  }

  lemma SpenderSum(nodes: seq<Node>, id: NodeId, budget: nat, ids: set<NodeId>)
    requires UniqueIds(nodes) && ids <= Ids(nodes)
    ensures SumOver(nodes, Spender(id, budget).want, ids) == |ids| + if id in ids then 1 else 0
    ensures SumOver(nodes, Toll(Spender(id, budget)), ids) == if id in ids then budget else 0
  {
    hide SumOver, Ids, UniqueIds;
    var plot, rest := Spender(id, budget), ids - {id};
    SumSplit(nodes, plot.want, ids, id);
    SumSplit(nodes, Toll(plot), ids, id);
    SumCounts(nodes, plot.want, rest);
    SumZero(nodes, Toll(plot), rest);
    assert id in ids ==> ids == rest + {id};
  }

  lemma SpenderAffordable(w: World, caps: ResolvedCaps, n: Node, budget: nat)
    requires AgentPlan(w) && n in w.nodes && n.Agent? && AttemptsAllowed(n.spec) > 1
    requires |AgentIds(w.nodes)| < caps.maxAgents
    ensures Affordable(w, caps, Spender(n.id, budget))
  {
    hide SumOver, Acyclic, DistinctWork, SingleShot;
    SpenderSum(w.nodes, n.id, budget, AgentIds(w.nodes));
    SameIdSameNode(w.nodes);
  }

  /** Until its node is done, nothing halts the run. */
  lemma SpenderRuns(w: World, caps: ResolvedCaps, n: Node, budget: nat, c: Config)
    requires AgentPlan(w) && n in w.nodes && n.Agent? && |AgentIds(w.nodes)| < caps.maxAgents
    requires caps.budgetTokens == Some(budget) && budget > 0
    requires Steady(w, caps, Spender(n.id, budget), c) && !Terminal(c.st, n.id)
    ensures BatchSpec(w.h, w.nodes, c.st, caps).halt.None?
  {
    SteadyFacts(w, caps, Spender(n.id, budget), c);
    AgentPlanFacts(w);
    hide Steady, SumOver, AgentPlan, Inv, Lawful, Acyclic, Schedulable, UniqueIds, AllUnits, AllImmediate;
    var finished := Finished(w, c.st);
    assert n.id in WaitingAgents(w.nodes, c.st);
    SpenderSum(w.nodes, n.id, budget, finished);
    SubsetSize(finished, AgentIds(w.nodes));
  }

  /** An iteration without a batch finishes no agent node. */
  lemma IdleIteration(w: World, caps: ResolvedCaps, plot: Plot, c: Config, n: Node, schedule: seq<nat>)
    requires AgentPlan(w) && Steady(w, caps, plot, c) && n in w.nodes && n.Agent?
    requires BatchSpec(w.h, w.nodes, c.st, caps).halt.None? && BatchSpec(w.h, w.nodes, c.st, caps).dispatch == []
    ensures Terminal(Iterated(w, Follows(w, PerNode(plot)), caps, c, schedule).st, n.id) == Terminal(c.st, n.id)
  {
    PublishKeepsAgents(w, c.st, n);
    SteadyPublishes(w, caps, plot, c);
    NoneDoomed(w, AfterPublishing(w, caps, c).st);
    hide AgentPlan, Steady, AllUnits, AllImmediate, ApplyImmediate, Terminal, DoomedIds, MarkSkipped;
  }

  lemma SpenderDispatch(w: World, caps: ResolvedCaps, n: Node, plot: Plot, c: Config, schedule: seq<nat>)
    returns (d: Dispatch)
    requires AgentPlan(w) && Affordable(w, caps, plot) && Steady(w, caps, plot, c)
    requires n in w.nodes && n.Agent? && !Terminal(c.st, n.id) && caps.budgetTokens.Some? && caps.maxConcurrent >= 1
    requires BatchSpec(w.h, w.nodes, c.st, caps).halt.None? && FinishesNext(w, caps, plot, c, n.id, schedule)
    ensures d.nodeId == n.id && BatchSpec(w.h, w.nodes, c.st, caps).dispatch == [d]
  {
    hide AgentPlan, Affordable, Steady, BatchSpec, Terminal, Iterated, PlaysOut, Follows, BatchNodes;
    var batch := BatchSpec(w.h, w.nodes, c.st, caps).dispatch;
    if batch == [] {
      IdleIteration(w, caps, plot, c, n, schedule);
    }
    SpenderInBatch(w, caps, n, plot, c, schedule);
    d := batch[0];
    assert batch == [d];
    NodesOfOne(d);
  }

  lemma NodesOfOne(d: Dispatch)
    ensures BatchNodes([d]) == {d.nodeId}
  {
    assert d in [d];
  }

  lemma SpenderInBatch(w: World, caps: ResolvedCaps, n: Node, plot: Plot, c: Config, schedule: seq<nat>)
    requires AgentPlan(w) && Affordable(w, caps, plot) && Steady(w, caps, plot, c)
    requires n in w.nodes && n.Agent? && !Terminal(c.st, n.id) && caps.budgetTokens.Some? && caps.maxConcurrent >= 1
    requires BatchSpec(w.h, w.nodes, c.st, caps).halt.None? && FinishesNext(w, caps, plot, c, n.id, schedule)
    requires BatchSpec(w.h, w.nodes, c.st, caps).dispatch != []
    ensures |BatchSpec(w.h, w.nodes, c.st, caps).dispatch| == 1
    ensures n.id in BatchNodes(BatchSpec(w.h, w.nodes, c.st, caps).dispatch)
  {
    SteadyFacts(w, caps, plot, c);
    AgentPlanFacts(w);
    PublishKeepsAgents(w, c.st, n);
    hide AgentPlan, Affordable, Inv, Lawful, AllUnits, AllImmediate, ApplyImmediate, Worked, PlayedOut, Settle, Steady,
         UniqueIds, SingleShot, Schedulable, Acyclic, Terminal, Scheduled, BatchNodes;
    var batch := BatchSpec(w.h, w.nodes, c.st, caps).dispatch;
    var mid := AfterPublishing(w, caps, c);
    SteadyPublishes(w, caps, plot, c);
    BatchIsScheduled(w, caps, c.st);
    OneUnderBudget(w, caps, mid.st, batch);
    SettlesItsNodes(w, caps, plot, mid, batch, schedule, n.id);
  }

  lemma OneUnderBudget(w: World, caps: ResolvedCaps, st: RunState, batch: seq<Dispatch>)
    requires Scheduled(w, caps, st, batch) && caps.budgetTokens.Some?
    ensures |batch| <= 1
  {
  }

  /** What the spending dispatch is billed. */
  lemma SpenderBills(w: World, caps: ResolvedCaps, n: Node, budget: nat, c: Config, d: Dispatch, schedule: seq<nat>)
    requires var plot := Spender(n.id, budget);
             && AgentPlan(w) && Affordable(w, caps, plot) && Steady(w, caps, plot, c)
             && Scheduled(w, caps, c.st, [d])
             && PlayedOut(Worked(w, Follows(w, PerNode(plot)), caps, c, [d], schedule))
    requires d.nodeId == n.id
    ensures Settle(w, Follows(w, PerNode(Spender(n.id, budget))), caps, c, [d], schedule).bills ==
            c.bills + [Bill(d, budget), Bill(d, 0)]
  {
    hide AgentPlan, Affordable, Scheduled, PlayedOut, Worked, Follows, Steady, SettleAll, AllScripted;
    var plot := Spender(n.id, budget);
    SteadyOutcome(w, caps, plot, c, [d], schedule);
    var pool := Worked(w, Follows(w, PerNode(plot)), caps, c, [d], schedule);
    assert pool.paid[0] == Scripted(PerNode(plot), d, 2);
    assert Scripted(PerNode(plot), d, 2) == [budget, 0];
    assert BatchBills([d], pool.paid, 1) == BatchBills([d], pool.paid, 0) + BillsFor(d, pool.paid[0]);
    assert BillsFor(d, [budget, 0]) == [Bill(d, budget), Bill(d, 0)];
  }

  lemma LateStart(caps: ResolvedCaps, bills: seq<Bill>, d: Dispatch, budget: nat)
    requires caps.budgetTokens == Some(budget)
    ensures !OneWorkerOvershoot(caps, bills + [Bill(d, budget), Bill(d, 0)])
  {
    var all := bills + [Bill(d, budget), Bill(d, 0)];
    assert all[..|all| - 1] == bills + [Bill(d, budget)];
    OneMore(bills, Bill(d, budget), "");
  }

  /** If an agent may be retried and the cap has room for it, some run starts a worker with the budget already spent. */
  lemma RetryOvershoots(w: World, caps: ResolvedCaps, n: Node) returns (out: Outside, schedules: seq<seq<nat>>)
    requires AgentPlan(w) && n in w.nodes && n.Agent? && AttemptsAllowed(n.spec) > 1
    requires caps.maxConcurrent >= 1 && |AgentIds(w.nodes)| < caps.maxAgents
    requires caps.budgetTokens.Some? && caps.budgetTokens.value > 0
    ensures Faithful(w, out) && IsRun(w, out, caps, schedules)
    ensures !OneWorkerOvershoot(caps, RunOf(w, out, caps, schedules).bills)
  {
    hide AgentPlan, Affordable, Steady, Iterated, BatchSpec, Follows, Worked, PlayedOut, Scheduled, OneWorkerOvershoot,
         AgentIds, Faithful, Going, Terminal;
    var budget := caps.budgetTokens.value;
    var plot := Spender(n.id, budget);
    out := Follows(w, PerNode(plot));
    FollowsIsFaithful(w, PerNode(plot));
    SpenderAffordable(w, caps, n, budget);
    StartIsSteady(w, caps, plot);
    NotTerminalAtStart(n.id);
    var all := RunUntil(w, caps, plot, n.id, []);
    var c := RunOf(w, out, caps, all);
    SpenderRuns(w, caps, n, budget, c);
    var schedule :| FinishesNext(w, caps, plot, c, n.id, schedule);
    var d := SpenderDispatch(w, caps, n, plot, c, schedule);
    SteadyGoes(w, caps, plot, c, n.id);
    NextIsRun(w, out, caps, all, schedule);
    schedules := all + [schedule];
    SpenderIterates(w, caps, n, budget, c, d, schedule);
    LateStart(caps, c.bills, d, budget);
  }

  lemma NotTerminalAtStart(id: NodeId)
    ensures !Terminal(START.st, id)
  {
  }

  lemma SpenderIterates(w: World, caps: ResolvedCaps, n: Node, budget: nat, c: Config, d: Dispatch, schedule: seq<nat>)
    requires var plot := Spender(n.id, budget);
             && AgentPlan(w) && Affordable(w, caps, plot) && Steady(w, caps, plot, c)
             && PlaysOut(w, Follows(w, PerNode(plot)), caps, c, schedule)
    requires BatchSpec(w.h, w.nodes, c.st, caps).halt.None? && BatchSpec(w.h, w.nodes, c.st, caps).dispatch == [d]
    requires d.nodeId == n.id
    ensures Iterated(w, Follows(w, PerNode(Spender(n.id, budget))), caps, c, schedule).bills ==
            c.bills + [Bill(d, budget), Bill(d, 0)]
  {
    var plot := Spender(n.id, budget);
    SteadyFacts(w, caps, plot, c);
    hide AgentPlan, Affordable, Steady, Inv, Lawful, Worked, PlayedOut, Settle, Scheduled, ApplyImmediate, BatchSpec,
         Schedulable, Acyclic, UniqueIds, SingleShot;
    AgentPlanFacts(w);
    SteadyPublishes(w, caps, plot, c);
    BatchIsScheduled(w, caps, c.st);
    SpenderBills(w, caps, n, budget, AfterPublishing(w, caps, c), d, schedule);
  }

  /**
   "The maximum overshoot is one worker": for plans of agents and bookkeeping with
   room for a retry, every run keeps it if and only if no agent may be retried.
   */
  lemma OneWorkerExactly(w: World, caps: ResolvedCaps)
    requires AgentPlan(w) && caps.maxConcurrent >= 1 && |AgentIds(w.nodes)| < caps.maxAgents
    requires caps.budgetTokens.Some? && caps.budgetTokens.value > 0
    ensures (forall out, schedules :: Faithful(w, out) && IsRun(w, out, caps, schedules) ==>
               OneWorkerOvershoot(caps, RunOf(w, out, caps, schedules).bills)) <==> NoRetries(w.nodes)
  {
    AgentPlanFacts(w);
    if NoRetries(w.nodes) {
      forall out, schedules | Faithful(w, out) && IsRun(w, out, caps, schedules)
        ensures OneWorkerOvershoot(caps, RunOf(w, out, caps, schedules).bills)
      {
        NoRetriesOneWorker(w, out, caps, schedules);
      }
    } else {
      var n :| n in w.nodes && n.Agent? && AttemptsAllowed(n.spec) != 1;
      var out, schedules := RetryOvershoots(w, caps, n);
    }
  }
}
