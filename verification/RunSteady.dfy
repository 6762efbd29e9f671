/**
 Runs that nothing disturbs: plans of agents and bookkeeping nodes under a
 script, whose every step can be foretold.
 */
module RunSteady {
  import opened PlanSchema
  import opened Upstream
  import opened PlanGraph
  import opened RunInvariant
  import opened RunSteps
  import opened RunProgress
  import opened RunBudget
  import opened RunWorkers
  import opened RunAccounts
  import opened RunLaws
  import opened RunSemantics
  import opened RunSums
  import opened RunScript

  /** A script by node: how many attempts its workers take, and what each failing one costs. */
  datatype Plot = Plot(want: NodeId -> nat, cost: NodeId -> nat)

  ghost function PerNode(plot: Plot): Script {
    Script((d: Dispatch) => plot.want(d.nodeId), (d: Dispatch) => plot.cost(d.nodeId))
  }

  /** Plans of agents, each with work of its own, and bookkeeping nodes. */
  ghost predicate AgentPlan(w: World) {
    && Schedulable(w.nodes) && Acyclic(GraphOf(w.nodes))
    && SingleShot(w.nodes) && DistinctWork(w.h, w.nodes)
  }

  /** The most attempts a spec allows. */
  function AttemptsAllowed(spec: AgentSpec): nat {
    Min(spec.retries.GetOr(DEFAULT_RETRIES), RETRY_CEILING) + 1
  }

  /** The cap holds every attempt of the plot, or the plot asks for no retry. */
  ghost predicate Affordable(w: World, caps: ResolvedCaps, plot: Plot) {
    && (forall n :: n in w.nodes && n.Agent? ==> 1 <= plot.want(n.id) <= AttemptsAllowed(n.spec))
    && (SumOver(w.nodes, plot.want, AgentIds(w.nodes)) <= caps.maxAgents ||
        forall n :: n in w.nodes && n.Agent? ==> plot.want(n.id) == 1)
  }

  /** What a node's attempts cost. */
  ghost function TollOf(plot: Plot, id: NodeId): nat {
    if plot.want(id) <= 1 then 0 else plot.cost(id) * (plot.want(id) - 1)
  }

  ghost function Toll(plot: Plot): NodeId -> nat {
    id => TollOf(plot, id)
  }

  ghost function Finished(w: World, st: RunState): set<NodeId> {
    AgentIds(w.nodes) - WaitingAgents(w.nodes, st)
  }

  /** Nothing has failed, and the counts are those of the plot. */
  ghost predicate Steady(w: World, caps: ResolvedCaps, plot: Plot, c: Config) {
    && LawfulConfig(w, Follows(w, PerNode(plot)), caps, c) && c.halted.None? && c.failures == []
    && (forall key :: key in c.st.status ==> c.st.status[key] == Done)
    && c.st.agentsSpawned == SumOver(w.nodes, plot.want, Finished(w, c.st))
    && c.st.spentTokens == SumOver(w.nodes, Toll(plot), Finished(w, c.st))
  }

  lemma StartIsSteady(w: World, caps: ResolvedCaps, plot: Plot)
    ensures Steady(w, caps, plot, START)
  {
    StartIsLawful(w, Follows(w, PerNode(plot)), caps);
    assert Finished(w, EMPTY_RUN_STATE) == {};
    SumNothing(w.nodes, plot.want);
    SumNothing(w.nodes, Toll(plot));
  }

  lemma SteadySums(w: World, plot: Plot, st: RunState, batch: seq<Dispatch>)
    requires UniqueIds(w.nodes) && BatchNodes(batch) <= WaitingAgents(w.nodes, st)
    requires forall n :: n in w.nodes && n.Agent? ==> 1 <= plot.want(n.id)
    ensures SumOver(w.nodes, plot.want, Finished(w, st)) + SumOver(w.nodes, plot.want, BatchNodes(batch)) +
            |WaitingAgents(w.nodes, st) - BatchNodes(batch)|
            <= SumOver(w.nodes, plot.want, AgentIds(w.nodes))
  {
    hide SumOver, BatchNodes;
    var waiting, started := WaitingAgents(w.nodes, st), BatchNodes(batch);
    SumUnion(w.nodes, plot.want, Finished(w, st), started);
    SumUnion(w.nodes, plot.want, Finished(w, st) + started, waiting - started);
    assert Finished(w, st) + started + (waiting - started) == AgentIds(w.nodes);
    SumCounts(w.nodes, plot.want, waiting - started);
  }

  lemma BatchOfAgents(w: World, st: RunState, batch: seq<Dispatch>, d: Dispatch)
    requires SingleShot(w.nodes) && Startable(w, st, batch) && d in batch
    ensures FindNode(w.nodes, d.nodeId).Some? && FindNode(w.nodes, d.nodeId).value.Agent?
    ensures d.spec == FindNode(w.nodes, d.nodeId).value.spec && d.nodeId in WaitingAgents(w.nodes, st)
    ensures ResultKey(d) == NodeKey(d.nodeId)
  {
    assert MayStart(w, st, d);
  }

  /** Publishing finishes no agent node. */
  lemma PublishKeepsAgents(w: World, st: RunState, n: Node)
    requires AgentPlan(w) && n in w.nodes && n.Agent?
    ensures var st' := ApplyImmediate(w.h, st, AllImmediate(w.h, w.nodes, st, |w.nodes|));
            Terminal(st', n.id) == Terminal(st, n.id)
  {
    hide AllImmediate, ApplyImmediate, Acyclic, DistinctWork;
    var immediate := AllImmediate(w.h, w.nodes, st, |w.nodes|);
    var st' := ApplyImmediate(w.h, st, immediate);
    ApplyImmediateEffect(w.h, st, immediate);
    forall e | e in immediate ensures e.0 != n.id {
      var other := ImmediateMember(w.h, w.nodes, st, |w.nodes|, e);
      FindUnique(w.nodes, n);
      FindUnique(w.nodes, other);
    }
    assert Published(w.h, immediate, st', NodeKey(n.id)) || Untouched(st, st', NodeKey(n.id));
  }

  lemma PublishAllDone(h: Host, st: RunState, immediate: seq<(NodeId, Immediate)>)
    requires forall key :: key in st.status ==> st.status[key] == Done
    ensures var st' := ApplyImmediate(h, st, immediate); forall key :: key in st'.status ==> st'.status[key] == Done
    decreases |immediate|
  {
    if immediate != [] {
      PublishAllDone(h, st, immediate[..|immediate| - 1]);
    }
  }

  lemma SteadyPublishes(w: World, caps: ResolvedCaps, plot: Plot, c: Config)
    requires AgentPlan(w) && Steady(w, caps, plot, c) && BatchSpec(w.h, w.nodes, c.st, caps).halt.None?
    ensures Steady(w, caps, plot, AfterPublishing(w, caps, c))
  {
    hide ApplyImmediate, AllImmediate, AllUnits, LawfulConfig, SumOver, Schedulable, Acyclic, SingleShot, DistinctWork;
    PublishedIsLawful(w, Follows(w, PerNode(plot)), caps, c);
    var mid := AfterPublishing(w, caps, c);
    var immediate := AllImmediate(w.h, w.nodes, c.st, |w.nodes|);
    PublishSpends(w.h, c.st, immediate);
    PublishAllDone(w.h, c.st, immediate);
    forall n | n in w.nodes && n.Agent? ensures Terminal(mid.st, n.id) == Terminal(c.st, n.id) {
      PublishKeepsAgents(w, c.st, n);
    }
    assert WaitingAgents(w.nodes, mid.st) == WaitingAgents(w.nodes, c.st);
  }

  /** A batch of different waiting agent nodes. */
  ghost predicate AgentBatch(w: World, st: RunState, batch: seq<Dispatch>) {
    && (forall d :: d in batch ==>
          && FindNode(w.nodes, d.nodeId).Some? && FindNode(w.nodes, d.nodeId).value.Agent?
          && d.spec == FindNode(w.nodes, d.nodeId).value.spec && d.nodeId in Ids(w.nodes))
    && BatchNodes(batch) <= WaitingAgents(w.nodes, st)
    && forall i, j :: 0 <= i < j < |batch| ==> batch[i].nodeId != batch[j].nodeId
  }

  lemma BatchAgents(w: World, caps: ResolvedCaps, st: RunState, batch: seq<Dispatch>)
    requires SingleShot(w.nodes) && Scheduled(w, caps, st, batch)
    ensures AgentBatch(w, st, batch)
  {
    hide MayStart;
    SingleShotNodesDistinct(w, st, batch);
    forall d | d in batch
      ensures FindNode(w.nodes, d.nodeId).Some? && FindNode(w.nodes, d.nodeId).value.Agent?
      ensures d.spec == FindNode(w.nodes, d.nodeId).value.spec && d.nodeId in WaitingAgents(w.nodes, st)
    {
      BatchOfAgents(w, st, batch, d);
    }
  }

  /** In such plans the pool of a batch is what the cap leaves once every waiting agent has one admission. */
  lemma PoolOf(w: World, caps: ResolvedCaps, st: RunState, batch: seq<Dispatch>)
    requires AgentPlan(w) && Inv(w, st) && st.running == {} && Startable(w, st, batch)
    ensures Spare(w.h, w.nodes, Launched(st, batch), caps, batch) ==
            caps.maxAgents - st.agentsSpawned - |batch| - |WaitingAgents(w.nodes, st) - BatchNodes(batch)|
  {
    hide Acyclic, Inv, UnstartedWork, MayStart, Overlooked, WaitingAgents;
    var mid := Launched(st, batch);
    LaunchKeeps(w, st, batch);
    NothingOverlooked(w, mid, batch);
    ReservationExact(w.h, w.nodes, mid, BatchNodes(batch));
    SameWaiting(w, st, mid);
  }

  lemma SameWaiting(w: World, st: RunState, st': RunState)
    requires st'.status == st.status
    ensures WaitingAgents(w.nodes, st') == WaitingAgents(w.nodes, st)
  {
    assert forall id :: Terminal(st', id) == Terminal(st, id);
  }

  lemma AffordableFunds(w: World, caps: ResolvedCaps, plot: Plot, st: RunState, batch: seq<Dispatch>)
    requires UniqueIds(w.nodes) && Affordable(w, caps, plot) && AgentBatch(w, st, batch)
    requires st.agentsSpawned == SumOver(w.nodes, plot.want, Finished(w, st))
    ensures Fundable(PerNode(plot), batch,
                     caps.maxAgents - st.agentsSpawned - |batch| - |WaitingAgents(w.nodes, st) - BatchNodes(batch)|)
  {
    hide SumOver, Sum, Finished, WaitingAgents, BatchNodes, Asked, UniqueIds;
    SteadySums(w, plot, st, batch);
    AskedSum(w, plot, batch);
  }

  lemma AgentPlanFacts(w: World)
    requires AgentPlan(w)
    ensures UniqueIds(w.nodes) && SingleShot(w.nodes) && Schedulable(w.nodes) && Acyclic(GraphOf(w.nodes))
  {
  }

  lemma SteadyFacts(w: World, caps: ResolvedCaps, plot: Plot, c: Config)
    requires Steady(w, caps, plot, c)
    ensures Lawful(w, caps, c.st, c.log, c.bills) && Inv(w, c.st) && c.st.running == {}
    ensures c.st.agentsSpawned == SumOver(w.nodes, plot.want, Finished(w, c.st))
    ensures c.st.spentTokens == SumOver(w.nodes, Toll(plot), Finished(w, c.st))
  {
  }

  /** The pool of a steady run funds every attempt of the plot. */
  lemma SteadyFunds(w: World, caps: ResolvedCaps, plot: Plot, c: Config, batch: seq<Dispatch>)
    requires AgentPlan(w) && Affordable(w, caps, plot) && Steady(w, caps, plot, c) && Scheduled(w, caps, c.st, batch)
    ensures Fundable(PerNode(plot), batch, Spare(w.h, w.nodes, Launched(c.st, batch), caps, batch))
  {
    hide AgentPlan, Affordable, Steady, AgentBatch, SumOver, Inv, Lawful, Fundable, Spare, Finished, Startable,
         DistinctPlaces, UniqueIds, SingleShot, Schedulable, Acyclic;
    SteadyFacts(w, caps, plot, c);
    AgentPlanFacts(w);
    BatchAgents(w, caps, c.st, batch);
    PoolOf(w, caps, c.st, batch);
    AffordableFunds(w, caps, plot, c.st, batch);
  }

  /** The attempts asked beyond the first of each dispatch. */
  lemma {:induction false} AskedSum(w: World, plot: Plot, batch: seq<Dispatch>)
    requires UniqueIds(w.nodes) && forall i, j :: 0 <= i < j < |batch| ==> batch[i].nodeId != batch[j].nodeId
    requires forall d :: d in batch ==> d.nodeId in Ids(w.nodes) && 1 <= plot.want(d.nodeId)
    ensures Sum(Asked(PerNode(plot), batch)) + |batch| == SumOver(w.nodes, plot.want, BatchNodes(batch))
    decreases |batch|
  {
    hide SumOver, UniqueIds;
    if batch == [] {
      SumNothing(w.nodes, plot.want);
      assert BatchNodes(batch) == {};
    } else {
      var front, last := batch[..|batch| - 1], batch[|batch| - 1];
      AskedSum(w, plot, front);
      assert Asked(PerNode(plot), batch)[..|batch| - 1] == Asked(PerNode(plot), front);
      assert batch == front + [last] && last in batch;
      BatchSum(w.nodes, plot.want, front, last);
    }
  }

  /** A worker sequence costs what its failing attempts cost. */
  lemma {:induction false} TollIsSum(plot: Plot, d: Dispatch, n: nat)
    requires n <= plot.want(d.nodeId)
    ensures Sum(Scripted(PerNode(plot), d, n)) ==
            plot.cost(d.nodeId) * if n == 0 then 0 else if n == plot.want(d.nodeId) then n - 1 else n
    decreases n
  {
    if n > 0 {
      TollIsSum(plot, d, n - 1);
      assert Scripted(PerNode(plot), d, n)[..n - 1] == Scripted(PerNode(plot), d, n - 1);
    }
  }

  /** What a scripted batch adds to the counts. */
  lemma {:induction false} ScriptedSums(w: World, plot: Plot, st: RunState, batch: seq<Dispatch>, settled: seq<Settled>)
    requires UniqueIds(w.nodes) && AgentBatch(w, st, batch) && AllScripted(w, PerNode(plot), batch, settled)
    ensures Attempts(settled) == SumOver(w.nodes, plot.want, BatchNodes(batch))
    ensures Tokens(settled) == SumOver(w.nodes, Toll(plot), BatchNodes(batch))
    ensures FailuresOf(settled) == []
    decreases |batch|
  {
    hide SumOver, UniqueIds, FindNode, WaitingAgents, Sum;
    if batch == [] {
      SumNothing(w.nodes, plot.want);
      SumNothing(w.nodes, Toll(plot));
      assert BatchNodes(batch) == {};
    } else {
      var front, last := batch[..|batch| - 1], batch[|batch| - 1];
      assert batch == front + [last] && last in batch;
      assert BatchNodes(front) <= BatchNodes(batch);
      ScriptedSums(w, plot, st, front, settled[..|batch| - 1]);
      BatchSum(w.nodes, plot.want, front, last);
      BatchSum(w.nodes, Toll(plot), front, last);
      TollIsSum(plot, last, plot.want(last.nodeId));
    }
  }

  /** A scripted batch finishes exactly its nodes. */
  lemma ScriptedStatus(w: World, script: Script, st: RunState, batch: seq<Dispatch>, settled: seq<Settled>)
    requires Inv(w, st) && SingleShot(w.nodes) && Startable(w, st, batch) && AgentBatch(w, st, batch)
    requires AllScripted(w, script, batch, settled) && forall key :: key in st.status ==> st.status[key] == Done
    ensures var st' := SettleAll(w.nodes, st, settled);
            && (forall key :: key in st'.status ==> st'.status[key] == Done)
            && (forall id :: Terminal(st', id) <==> Terminal(st, id) || id in BatchNodes(batch))
            && WaitingAgents(w.nodes, st') == WaitingAgents(w.nodes, st) - BatchNodes(batch)
  {
    hide Inv, SingleShot, MayStart, FindNode, ScriptedVerdict, Closed;
    var st' := SettleAll(w.nodes, st, settled);
    ScriptedOutcome(w, script, batch, settled);
    StartableFacts(w, st, batch, settled);
    SettleEffect(w.nodes, st, settled);
    BatchKeys(w, st, batch);
    forall key ensures Succeeded(settled, st', key) || Untouched(st, st', key)
               ensures key in st'.status ==> st'.status[key] == Done
    {
      assert !FailedAt(settled, st', key) by { AllOk(w, script, batch, settled); }
    }
    forall id ensures Terminal(st', id) <==> Terminal(st, id) || id in BatchNodes(batch) {
      ScriptedTerminal(w, script, st, st', batch, settled, id);
    }
  }

  lemma AllOk(w: World, script: Script, batch: seq<Dispatch>, settled: seq<Settled>)
    requires AllScripted(w, script, batch, settled)
    ensures forall k :: 0 <= k < |settled| ==> settled[k].result.ok && settled[k].dispatch == batch[k]
  {
  }

  lemma ScriptedOutcome(w: World, script: Script, batch: seq<Dispatch>, settled: seq<Settled>)
    requires AllScripted(w, script, batch, settled)
    ensures Outcome(w, batch, settled)
  {
  }

  lemma BatchKeys(w: World, st: RunState, batch: seq<Dispatch>)
    requires SingleShot(w.nodes) && Startable(w, st, batch)
    ensures forall k :: 0 <= k < |batch| ==> ResultKey(batch[k]) == NodeKey(batch[k].nodeId)
  {
    forall k | 0 <= k < |batch| ensures ResultKey(batch[k]) == NodeKey(batch[k].nodeId) {
      assert batch[k] in batch;
      BatchOfAgents(w, st, batch, batch[k]);
    }
  }

  lemma ScriptedTerminal(w: World, script: Script, st: RunState, st': RunState, batch: seq<Dispatch>,
                         settled: seq<Settled>, id: NodeId)
    requires AllScripted(w, script, batch, settled) && Closed(settled, st')
    requires forall k :: 0 <= k < |batch| ==> ResultKey(batch[k]) == NodeKey(batch[k].nodeId)
    requires forall key :: Succeeded(settled, st', key) || Untouched(st, st', key)
    requires forall key :: key in st'.status ==> st'.status[key] == Done
    ensures Terminal(st', id) <==> Terminal(st, id) || id in BatchNodes(batch)
  {
    AllOk(w, script, batch, settled);
    assert Succeeded(settled, st', NodeKey(id)) || Untouched(st, st', NodeKey(id));
    if id in BatchNodes(batch) {
      var k :| 0 <= k < |batch| && batch[k].nodeId == id;
      assert ResultKey(settled[k].dispatch) in st'.status;
    }
  }

  lemma LaunchedBatch(w: World, st: RunState, batch: seq<Dispatch>)
    requires AgentBatch(w, st, batch)
    ensures AgentBatch(w, Launched(st, batch), batch)
    ensures WaitingAgents(w.nodes, Launched(st, batch)) == WaitingAgents(w.nodes, st)
  {
    SameWaiting(w, st, Launched(st, batch));
  }

  /** What a scripted batch does to the state: its nodes finish, and each count grows by theirs. */
  lemma ScriptedState(w: World, plot: Plot, st: RunState, batch: seq<Dispatch>, settled: seq<Settled>)
    requires UniqueIds(w.nodes) && SingleShot(w.nodes) && Inv(w, st) && Startable(w, st, batch)
    requires AgentBatch(w, st, batch) && AllScripted(w, PerNode(plot), batch, settled)
    requires forall key :: key in st.status ==> st.status[key] == Done
    ensures var st' := SettleAll(w.nodes, Launched(st, batch), settled);
            && (forall key :: key in st'.status ==> st'.status[key] == Done)
            && (forall id :: Terminal(st', id) <==> Terminal(st, id) || id in BatchNodes(batch))
            && WaitingAgents(w.nodes, st') == WaitingAgents(w.nodes, st) - BatchNodes(batch)
            && st'.agentsSpawned == st.agentsSpawned + SumOver(w.nodes, plot.want, BatchNodes(batch))
            && st'.spentTokens == st.spentTokens + SumOver(w.nodes, Toll(plot), BatchNodes(batch))
  {
    hide Inv, Startable, AgentBatch, AllScripted, SumOver, UniqueIds, SingleShot, SettleAll, WaitingAgents;
    LaunchKeeps(w, st, batch);
    LaunchedBatch(w, st, batch);
    ScriptedStatus(w, PerNode(plot), Launched(st, batch), batch, settled);
    ScriptedSums(w, plot, st, batch, settled);
    SettleCounts(w.nodes, Launched(st, batch), settled);
  }

  lemma FinishedGrows(w: World, f: NodeId -> nat, st: RunState, st': RunState, batch: seq<Dispatch>)
    requires BatchNodes(batch) <= WaitingAgents(w.nodes, st)
    requires WaitingAgents(w.nodes, st') == WaitingAgents(w.nodes, st) - BatchNodes(batch)
    ensures SumOver(w.nodes, f, Finished(w, st')) ==
            SumOver(w.nodes, f, Finished(w, st)) + SumOver(w.nodes, f, BatchNodes(batch))
  {
    hide SumOver;
    assert BatchNodes(batch) <= AgentIds(w.nodes);
    assert Finished(w, st') == Finished(w, st) + BatchNodes(batch);
    SumUnion(w.nodes, f, Finished(w, st), BatchNodes(batch));
  }

  /** A batch of a steady run comes out as scripted. */
  lemma SteadyOutcome(w: World, caps: ResolvedCaps, plot: Plot, c: Config, batch: seq<Dispatch>, schedule: seq<nat>)
    requires AgentPlan(w) && Affordable(w, caps, plot) && Steady(w, caps, plot, c) && Scheduled(w, caps, c.st, batch)
    requires PlayedOut(Worked(w, Follows(w, PerNode(plot)), caps, c, batch, schedule))
    ensures var pool := Worked(w, Follows(w, PerNode(plot)), caps, c, batch, schedule);
            AsScripted(w, PerNode(plot), batch, Verdicts(batch, pool.ps), pool.paid)
  {
    hide AgentPlan, Affordable, Steady, Scheduled, Fundable, Spare, Play, Opening, PlayedOut;
    SteadyFunds(w, caps, plot, c, batch);
    BatchFollows(w, PerNode(plot), caps, c, batch, schedule);
  }

  lemma SteadySettles(w: World, caps: ResolvedCaps, plot: Plot, c: Config, batch: seq<Dispatch>, schedule: seq<nat>)
    requires AgentPlan(w) && Affordable(w, caps, plot) && Steady(w, caps, plot, c) && Scheduled(w, caps, c.st, batch)
    requires PlayedOut(Worked(w, Follows(w, PerNode(plot)), caps, c, batch, schedule))
    ensures Steady(w, caps, plot, Settle(w, Follows(w, PerNode(plot)), caps, c, batch, schedule))
  {
    hide AgentPlan, Affordable, Scheduled, Play, Opening, PlayedOut, Spare, UniqueIds, SingleShot, Schedulable, Acyclic,
         Faithful, SumOver, SettleAll, WaitingAgents, Finished, BatchNodes, Inv, Lawful, Startable, AgentBatch,
         LawfulConfig, Worked, Follows;
    var out := Follows(w, PerNode(plot));
    AgentPlanFacts(w);
    SteadyFacts(w, caps, plot, c);
    SteadyOutcome(w, caps, plot, c, batch, schedule);
    var settled := Verdicts(batch, Worked(w, out, caps, c, batch, schedule).ps);
    BatchAgents(w, caps, c.st, batch);
    ScheduledStartable(w, caps, c.st, batch);
    ScriptedState(w, plot, c.st, batch, settled);
    ScriptedSums(w, plot, c.st, batch, settled);
    AgentBatchWaits(w, c.st, batch);
    FinishedGrows(w, plot.want, c.st, SettleAll(w.nodes, Launched(c.st, batch), settled), batch);
    FinishedGrows(w, Toll(plot), c.st, SettleAll(w.nodes, Launched(c.st, batch), settled), batch);
    FollowsIsFaithful(w, PerNode(plot));
    SettledIsLawful(w, out, caps, c, batch, schedule);
    NoFailureNoCollapse(out);
    assert c.failures + [] == c.failures;
  }

  lemma ScheduledStartable(w: World, caps: ResolvedCaps, st: RunState, batch: seq<Dispatch>)
    requires Scheduled(w, caps, st, batch)
    ensures Startable(w, st, batch)
  {
  }

  lemma AgentBatchWaits(w: World, st: RunState, batch: seq<Dispatch>)
    requires AgentBatch(w, st, batch)
    ensures BatchNodes(batch) <= WaitingAgents(w.nodes, st)
  {
  }

  lemma NoFailureNoCollapse(out: Outside)
    ensures !Collapsed(out, [])
  {
    assert forall s :: CountSignature(out, [], s) == 0;
  }

  lemma NothingDoomed(st: RunState)
    requires forall key :: key in st.status ==> st.status[key] == Done
    ensures forall n :: !Doomed(n, st)
  {
  }

  /** An iteration of a steady run that the caps do not halt leaves it steady. */
  lemma SteadyStep(w: World, caps: ResolvedCaps, plot: Plot, c: Config, schedule: seq<nat>)
    requires AgentPlan(w) && Affordable(w, caps, plot) && Steady(w, caps, plot, c)
    requires !IsComplete(w.nodes, c.st) && caps.maxConcurrent >= 1 && BatchSpec(w.h, w.nodes, c.st, caps).halt.None?
    requires PlaysOut(w, Follows(w, PerNode(plot)), caps, c, schedule)
    ensures Steady(w, caps, plot, Iterated(w, Follows(w, PerNode(plot)), caps, c, schedule))
  {
    SteadyFacts(w, caps, plot, c);
    NothingDoomed(c.st);
    hide AgentPlan, Affordable, Steady, Settle, PlayedOut, Schedulable, Acyclic, SingleShot, UniqueIds, Inv, Lawful,
         IsComplete, AllUnits, AllImmediate, ApplyImmediate, Scheduled, Worked, Doomed;
    AgentPlanFacts(w);
    var batch := BatchSpec(w.h, w.nodes, c.st, caps);
    SteadyPublishes(w, caps, plot, c);
    NeverStalls(w, c.st, caps);
    if batch.dispatch != [] {
      BatchIsScheduled(w, caps, c.st);
      SteadySettles(w, caps, plot, AfterPublishing(w, caps, c), batch.dispatch, schedule);
    }
  }

  lemma NoneDoomed(w: World, st: RunState)
    requires forall key :: key in st.status ==> st.status[key] == Done
    ensures MarkSkipped(st, DoomedIds(w.nodes, st, |w.nodes|)) == st
  {
    hide Doomed;
    NothingDoomed(st);
    NoneListed(w.nodes, st, |w.nodes|);
  }

  lemma {:induction false} NoneListed(nodes: seq<Node>, st: RunState, k: nat)
    requires k <= |nodes| && forall n :: !Doomed(n, st)
    ensures DoomedIds(nodes, st, k) == []
    decreases k
  {
    if k > 0 {
      NoneListed(nodes, st, k - 1);
    }
  }

  /** A batch of a steady run finishes its own nodes only. */
  lemma SettlesItsNodes(w: World, caps: ResolvedCaps, plot: Plot, c: Config, batch: seq<Dispatch>, schedule: seq<nat>,
                        id: NodeId)
    requires AgentPlan(w) && Affordable(w, caps, plot) && Steady(w, caps, plot, c) && Scheduled(w, caps, c.st, batch)
    requires PlayedOut(Worked(w, Follows(w, PerNode(plot)), caps, c, batch, schedule))
    ensures Terminal(Settle(w, Follows(w, PerNode(plot)), caps, c, batch, schedule).st, id) <==>
            Terminal(c.st, id) || id in BatchNodes(batch)
  {
    assert forall key :: key in c.st.status ==> c.st.status[key] == Done;
    hide AgentPlan, Affordable, Scheduled, PlayedOut, UniqueIds, SingleShot, Schedulable, Acyclic, SumOver, SettleAll,
         Inv, Lawful, Startable, AgentBatch, Worked, Follows, Steady, Terminal, BatchNodes, WaitingAgents;
    AgentPlanFacts(w);
    SteadyFacts(w, caps, plot, c);
    SteadyOutcome(w, caps, plot, c, batch, schedule);
    BatchAgents(w, caps, c.st, batch);
    ScheduledStartable(w, caps, c.st, batch);
    var settled := Verdicts(batch, Worked(w, Follows(w, PerNode(plot)), caps, c, batch, schedule).ps);
    ScriptedState(w, plot, c.st, batch, settled);
  }

  /** The next iteration may finish this node. */
  ghost predicate Imminent(w: World, caps: ResolvedCaps, plot: Plot, c: Config, id: NodeId) {
    exists schedule :: FinishesNext(w, caps, plot, c, id, schedule)
  }

  ghost predicate FinishesNext(w: World, caps: ResolvedCaps, plot: Plot, c: Config, id: NodeId, schedule: seq<nat>) {
    var out := Follows(w, PerNode(plot));
    PlaysOut(w, out, caps, c, schedule) && Terminal(Iterated(w, out, caps, c, schedule).st, id)
  }

  lemma NextIsRun(w: World, out: Outside, caps: ResolvedCaps, schedules: seq<seq<nat>>, schedule: seq<nat>)
    requires IsRun(w, out, caps, schedules) && Going(w, RunOf(w, out, caps, schedules))
    requires PlaysOut(w, out, caps, RunOf(w, out, caps, schedules), schedule)
    ensures IsRun(w, out, caps, schedules + [schedule])
    ensures RunOf(w, out, caps, schedules + [schedule]) ==
            Iterated(w, out, caps, RunOf(w, out, caps, schedules), schedule)
  {
    hide Going, PlaysOut, Iterated;
    var all := schedules + [schedule];
    assert all[..|all| - 1] == schedules;
  }

  lemma SteadyGoes(w: World, caps: ResolvedCaps, plot: Plot, c: Config, id: NodeId)
    requires Steady(w, caps, plot, c) && id in Ids(w.nodes) && !Terminal(c.st, id)
    ensures Going(w, c)
  {
    var n :| n in w.nodes && n.id == id;
    var k :| 0 <= k < |w.nodes| && w.nodes[k] == n;
    assert !Terminal(c.st, w.nodes[k].id);
  }

  /** A steady run goes on until the caps halt it or a given unfinished node is about to finish. */
  lemma {:induction false} RunUntil(w: World, caps: ResolvedCaps, plot: Plot, id: NodeId, schedules: seq<seq<nat>>)
    returns (all: seq<seq<nat>>)
    requires AgentPlan(w) && Affordable(w, caps, plot) && caps.maxConcurrent >= 1 && id in Ids(w.nodes)
    requires var out := Follows(w, PerNode(plot));
             IsRun(w, out, caps, schedules) && Steady(w, caps, plot, RunOf(w, out, caps, schedules)) &&
             !Terminal(RunOf(w, out, caps, schedules).st, id)
    ensures var out := Follows(w, PerNode(plot));
            var c := RunOf(w, out, caps, all);
            && IsRun(w, out, caps, all) && Steady(w, caps, plot, c) && !Terminal(c.st, id)
            && (BatchSpec(w.h, w.nodes, c.st, caps).halt.Some? || Imminent(w, caps, plot, c, id))
    decreases Unfinished(w.nodes, RunOf(w, Follows(w, PerNode(plot)), caps, schedules).st),
              OpenSlots(w.h, w.nodes, RunOf(w, Follows(w, PerNode(plot)), caps, schedules).st)
  {
    hide AgentPlan, Affordable, Steady, IsRun, RunOf, PlaysOut, Iterated, BatchSpec, Follows, PerNode, Terminal, Going,
         LawfulConfig, Faithful, Schedulable, Acyclic, Unfinished, OpenSlots, Ids;
    var out := Follows(w, PerNode(plot));
    var c := RunOf(w, out, caps, schedules);
    if BatchSpec(w.h, w.nodes, c.st, caps).halt.Some? {
      all := schedules;
    } else {
      FollowsIsFaithful(w, PerNode(plot));
      var schedule := IterationPlays(w, out, caps, c);
      if Terminal(Iterated(w, out, caps, c, schedule).st, id) {
        assert FinishesNext(w, caps, plot, c, id, schedule);
        all := schedules;
      } else {
        SteadyGoes(w, caps, plot, c, id);
        NextIsRun(w, out, caps, schedules, schedule);
        SteadyAdvances(w, caps, plot, c, schedule);
        all := RunUntil(w, caps, plot, id, schedules + [schedule]);
      }
    }
  }

  lemma SteadyAdvances(w: World, caps: ResolvedCaps, plot: Plot, c: Config, schedule: seq<nat>)
    requires AgentPlan(w) && Affordable(w, caps, plot) && Steady(w, caps, plot, c) && Going(w, c)
    requires caps.maxConcurrent >= 1 && BatchSpec(w.h, w.nodes, c.st, caps).halt.None?
    requires PlaysOut(w, Follows(w, PerNode(plot)), caps, c, schedule)
    ensures var c' := Iterated(w, Follows(w, PerNode(plot)), caps, c, schedule);
            Steady(w, caps, plot, c') && Below(w.h, w.nodes, c'.st, c.st)
  {
    var c' := Iterated(w, Follows(w, PerNode(plot)), caps, c, schedule);
    SteadyStep(w, caps, plot, c, schedule);
    assert c'.halted.None?;
    assert LawfulConfig(w, Follows(w, PerNode(plot)), caps, c);
    hide AgentPlan, Affordable, Steady, PlaysOut, Iterated, BatchSpec, Follows, PerNode, Going, LawfulConfig, Faithful,
         Schedulable, Acyclic, Below;
    AgentPlanFacts(w);
    FollowsIsFaithful(w, PerNode(plot));
    IteratedProgress(w, Follows(w, PerNode(plot)), caps, c, schedule);
  }
}
