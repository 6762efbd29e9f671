/**
 Admission arithmetic of a run: the retry pool, the agent cap, the token budget,
 and the dispatches a run makes.
 */
module RunBudget {
  import opened PlanSchema
  import opened Upstream
  import opened PlanGraph
  import opened RunInvariant
  import opened RunSteps
  import opened RunProgress

  // ---------- sums over a settled batch ----------

  function Attempts(settled: seq<Settled>): nat {
    if settled == [] then 0 else Attempts(settled[..|settled| - 1]) + settled[|settled| - 1].result.attempts
  }

  function Tokens(settled: seq<Settled>): nat {
    if settled == [] then 0 else Tokens(settled[..|settled| - 1]) + settled[|settled| - 1].result.tokens
  }

  /** Attempts beyond the first of each dispatch. */
  function Retries(settled: seq<Settled>): nat {
    if settled == [] then 0
    else Retries(settled[..|settled| - 1]) + Max(0, settled[|settled| - 1].result.attempts - 1)
  }

  lemma {:induction false} AttemptsBound(settled: seq<Settled>)
    ensures Attempts(settled) <= |settled| + Retries(settled)
    decreases |settled|
  {
    if settled != [] {
      AttemptsBound(settled[..|settled| - 1]);
    }
  }

  ghost function WorkIds(settled: seq<Settled>): set<int> {
    set one | one in settled :: one.dispatch.workId
  }

  /** Settling counts every attempt and every token, and empties the running set. */
  lemma {:induction false} SettleCounts(nodes: seq<Node>, st: RunState, settled: seq<Settled>)
    ensures var st' := SettleAll(nodes, st, settled);
            && st'.agentsSpawned == st.agentsSpawned + Attempts(settled)
            && st'.spentTokens == st.spentTokens + Tokens(settled)
            && st'.running == st.running - WorkIds(settled)
    decreases |settled|
  {
    if settled != [] {
      var front, last := settled[..|settled| - 1], settled[|settled| - 1];
      SettleCounts(nodes, st, front);
      assert forall one :: one in settled <==> one in front || one == last;
      assert WorkIds(settled) == WorkIds(front) + {last.dispatch.workId};
    }
  }

  // ---------- the retry pool ----------

  function WorkUnits(h: Host, node: Node, st: RunState, inBatch: set<NodeId>): nat {
    if !AgentBearing(node) || Terminal(st, node.id) || node.id in inBatch then 0
    else if node.Agent? && AgentWorkId(h, node) in st.running then 0
    else if node.Pipeline? then |node.stages| else 1
  }

  ghost function UnstartedWork(h: Host, nodes: seq<Node>, st: RunState, inBatch: set<NodeId>, k: nat): nat
    requires k <= |nodes|
  {
    if k == 0 then 0 else UnstartedWork(h, nodes, st, inBatch, k - 1) + WorkUnits(h, nodes[k - 1], st, inBatch)
  }

  function BatchNodes(batch: seq<Dispatch>): set<NodeId> {
    set d | d in batch :: d.nodeId
  }

  /** The admissions the rest of the plan still needs, which a retry may not take. */
  method UnstartedAgentWork(h: Host, nodes: seq<Node>, st: RunState, batch: seq<Dispatch>) returns (n: nat)
    ensures n == UnstartedWork(h, nodes, st, BatchNodes(batch), |nodes|)
  {
    var inBatch := BatchNodes(batch);
    n := 0;
    for k := 0 to |nodes|
      invariant n == UnstartedWork(h, nodes, st, inBatch, k)
    {
      n := n + WorkUnits(h, nodes[k], st, inBatch);
    }
  }

  /** What is left of the cap after this batch's first attempts and the reservations. */
  ghost function Spare(h: Host, nodes: seq<Node>, st: RunState, caps: ResolvedCaps, batch: seq<Dispatch>): int {
    caps.maxAgents - st.agentsSpawned - |batch| - UnstartedWork(h, nodes, st, BatchNodes(batch), |nodes|)
  }

  /** The agent cap is hard, retries included, for every kind of plan. */
  lemma AdmissionsWithinCap(h: Host, nodes: seq<Node>, st: RunState, caps: ResolvedCaps, batch: seq<Dispatch>,
                            settled: seq<Settled>)
    requires |settled| == |batch| <= caps.maxAgents - st.agentsSpawned
    requires Retries(settled) <= Max(0, Spare(h, nodes, st, caps, batch))
    ensures SettleAll(nodes, st, settled).agentsSpawned <= caps.maxAgents
  {
    SettleCounts(nodes, st, settled);
    AttemptsBound(settled);
  }

  // ---------- retries never starve declared work ----------

  ghost predicate SingleShot(nodes: seq<Node>) {
    forall n :: n in nodes ==> n.Agent? || n.Barrier? || n.Transform?
  }

  ghost predicate DistinctWork(h: Host, nodes: seq<Node>) {
    forall m, n :: m in nodes && n in nodes && m.Agent? && n.Agent? && m != n ==> AgentWorkId(h, m) != AgentWorkId(h, n)
  }

  ghost function WaitingAgents(nodes: seq<Node>, st: RunState): set<NodeId> {
    set n | n in nodes && n.Agent? && !Terminal(st, n.id) :: n.id
  }

  /** Waiting, outside the batch, and with its work id not in flight: what the pool holds back for. */
  ghost predicate IsReserved(h: Host, n: Node, st: RunState, inBatch: set<NodeId>) {
    n.Agent? && !Terminal(st, n.id) && n.id !in inBatch && AgentWorkId(h, n) !in st.running
  }

  /** Waiting, outside the batch, but its work id is also in flight. */
  ghost predicate IsOverlooked(h: Host, n: Node, st: RunState, inBatch: set<NodeId>) {
    n.Agent? && !Terminal(st, n.id) && n.id !in inBatch && AgentWorkId(h, n) in st.running
  }

  ghost function Reserved(h: Host, nodes: seq<Node>, st: RunState, inBatch: set<NodeId>): set<NodeId> {
    set n | n in nodes && IsReserved(h, n, st, inBatch) :: n.id
  }

  ghost function Overlooked(h: Host, nodes: seq<Node>, st: RunState, inBatch: set<NodeId>): set<NodeId> {
    set n | n in nodes && IsOverlooked(h, n, st, inBatch) :: n.id
  }

  lemma SameIdSameNode(nodes: seq<Node>)
    requires UniqueIds(nodes)
    ensures forall m, n :: m in nodes && n in nodes && m.id == n.id ==> m == n
  {
    forall m, n | m in nodes && n in nodes && m.id == n.id ensures m == n {
      FindUnique(nodes, m);
      FindUnique(nodes, n);
    }
  }

  lemma ReservedMore(h: Host, front: seq<Node>, node: Node, st: RunState, inBatch: set<NodeId>)
    ensures Reserved(h, front + [node], st, inBatch) ==
            Reserved(h, front, st, inBatch) + if IsReserved(h, node, st, inBatch) then {node.id} else {}
    ensures Reserved(h, front, st, inBatch) <= Ids(front)
  {
    hide IsReserved;
    assert forall n :: n in front + [node] <==> n in front || n == node;
  }

  lemma ReservedStep(h: Host, nodes: seq<Node>, st: RunState, inBatch: set<NodeId>, k: nat)
    requires SingleShot(nodes) && UniqueIds(nodes) && k < |nodes|
    ensures |Reserved(h, nodes[..k + 1], st, inBatch)| ==
            |Reserved(h, nodes[..k], st, inBatch)| + if IsReserved(h, nodes[k], st, inBatch) then 1 else 0
  {
    assert nodes[k].id !in Ids(nodes[..k]);
    assert nodes[..k + 1] == nodes[..k] + [nodes[k]];
    hide *;
    ReservedMore(h, nodes[..k], nodes[k], st, inBatch);
  }

  lemma {:induction false} UnstartedIsReserved(h: Host, nodes: seq<Node>, st: RunState, inBatch: set<NodeId>, k: nat)
    requires SingleShot(nodes) && UniqueIds(nodes) && k <= |nodes|
    ensures UnstartedWork(h, nodes, st, inBatch, k) == |Reserved(h, nodes[..k], st, inBatch)|
    decreases k
  {
    if k == 0 {
      assert Reserved(h, nodes[..0], st, inBatch) == {};
    } else {
      UnstartedIsReserved(h, nodes, st, inBatch, k - 1);
      ReservedStep(h, nodes, st, inBatch, k - 1);
      assert nodes[k - 1] in nodes;
    }
  }

  /**
   The reservation covers the waiting agents outside the batch exactly when none
   of them shares a work id with a dispatch in flight.
   */
  lemma ReservationExact(h: Host, nodes: seq<Node>, st: RunState, inBatch: set<NodeId>)
    requires SingleShot(nodes) && UniqueIds(nodes)
    ensures UnstartedWork(h, nodes, st, inBatch, |nodes|) + |Overlooked(h, nodes, st, inBatch)| ==
            |WaitingAgents(nodes, st) - inBatch|
    ensures UnstartedWork(h, nodes, st, inBatch, |nodes|) == |WaitingAgents(nodes, st) - inBatch| <==>
            Overlooked(h, nodes, st, inBatch) == {}
  {
    UnstartedIsReserved(h, nodes, st, inBatch, |nodes|);
    assert nodes[..|nodes|] == nodes;
    var reserved, overlooked := Reserved(h, nodes, st, inBatch), Overlooked(h, nodes, st, inBatch);
    SameIdSameNode(nodes);
    assert reserved !! overlooked;
    assert WaitingAgents(nodes, st) - inBatch == reserved + overlooked;
  }

  lemma {:induction false} DistinctNodesCount(batch: seq<Dispatch>)
    requires forall i, j :: 0 <= i < j < |batch| ==> batch[i].nodeId != batch[j].nodeId
    ensures |BatchNodes(batch)| == |batch|
    decreases |batch|
  {
    if batch != [] {
      var front, last := batch[..|batch| - 1], batch[|batch| - 1];
      DistinctNodesCount(front);
      assert forall d :: d in batch <==> d in front || d == last;
      assert BatchNodes(batch) == BatchNodes(front) + {last.nodeId};
    }
  }

  /** In a batch of agent dispatches no other waiting agent is mistaken for one in flight. */
  lemma NothingOverlooked(w: World, st: RunState, batch: seq<Dispatch>)
    requires SingleShot(w.nodes) && UniqueIds(w.nodes) && DistinctWork(w.h, w.nodes) && Startable(w, st, batch)
    requires forall id :: id in st.running ==> exists d :: d in batch && d.workId == id
    ensures Overlooked(w.h, w.nodes, st, BatchNodes(batch)) == {}
  {
    forall n | n in w.nodes && n.Agent? && AgentWorkId(w.h, n) in st.running ensures n.id in BatchNodes(batch) {
      var d :| d in batch && d.workId == AgentWorkId(w.h, n);
      assert MayStart(w, st, d);
      assert FindNode(w.nodes, d.nodeId).value == n;
    }
  }

  lemma SettledAgentLeaves(w: World, st: RunState, st': RunState, d: Dispatch)
    requires Inv(w, st') && SingleShot(w.nodes) && MayStart(w, st, d) && ResultKey(d) in st'.status
    ensures d.nodeId in WaitingAgents(w.nodes, st) && Terminal(st', d.nodeId)
  {
    var node := FindNode(w.nodes, d.nodeId).value;
    assert node in w.nodes && node.Agent? && !Terminal(st, node.id);
    assert KeyLaw(w, st', NodeKey(d.nodeId));
  }

  lemma SettledAgentsLeave(w: World, st: RunState, batch: seq<Dispatch>, settled: seq<Settled>)
    requires Inv(w, st) && SingleShot(w.nodes) && UniqueIds(w.nodes)
    requires Startable(w, st, batch) && Outcome(w, batch, settled)
    ensures BatchNodes(batch) <= WaitingAgents(w.nodes, st)
    ensures WaitingAgents(w.nodes, SettleAll(w.nodes, st, settled)) <= WaitingAgents(w.nodes, st) - BatchNodes(batch)
  {
    var st' := SettleAll(w.nodes, st, settled);
    SettleStep(w, st, batch, settled);
    forall d | d in batch ensures d.nodeId in WaitingAgents(w.nodes, st) && Terminal(st', d.nodeId) {
      var k :| 0 <= k < |batch| && batch[k] == d;
      assert settled[k].dispatch == d;
      SettledAgentLeaves(w, st, st', d);
    }
    StillWaiting(w.nodes, st, st', BatchNodes(batch));
  }

  lemma StillWaiting(nodes: seq<Node>, st: RunState, st': RunState, gone: set<NodeId>)
    requires Grows(st, st') && forall id :: id in gone ==> Terminal(st', id)
    ensures WaitingAgents(nodes, st') <= WaitingAgents(nodes, st) - gone
  {
  }

  /** The cap left is at least the number of agent nodes left. */
  ghost predicate CapCoversAgents(nodes: seq<Node>, st: RunState, caps: ResolvedCaps) {
    caps.maxAgents - st.agentsSpawned >= |WaitingAgents(nodes, st)|
  }

  lemma SubsetSize<T>(a: set<T>, b: set<T>)
    requires a <= b
    ensures |a| <= |b|
  {
    assert b == a + (b - a);
  }

  /** Whatever retries a batch took, the cap still covers every unfinished agent node. */
  lemma RetriesNeverStarve(w: World, st: RunState, caps: ResolvedCaps, batch: seq<Dispatch>, settled: seq<Settled>)
    requires Inv(w, st) && SingleShot(w.nodes) && UniqueIds(w.nodes) && DistinctWork(w.h, w.nodes)
    requires Startable(w, st, batch) && Outcome(w, batch, settled)
    requires forall i, j :: 0 <= i < j < |batch| ==> batch[i].nodeId != batch[j].nodeId
    requires forall id :: id in st.running ==> exists d :: d in batch && d.workId == id
    requires Retries(settled) <= Max(0, Spare(w.h, w.nodes, st, caps, batch))
    requires CapCoversAgents(w.nodes, st, caps)
    ensures CapCoversAgents(w.nodes, SettleAll(w.nodes, st, settled), caps)
  {
    var waiting, started := WaitingAgents(w.nodes, st), BatchNodes(batch);
    NothingOverlooked(w, st, batch);
    ReservationExact(w.h, w.nodes, st, started);
    DistinctNodesCount(batch);
    SettledAgentsLeave(w, st, batch, settled);
    assert waiting == (waiting - started) + started;
    SubsetSize(WaitingAgents(w.nodes, SettleAll(w.nodes, st, settled)), waiting - started);
    SettleCounts(w.nodes, st, settled);
    AttemptsBound(settled);
  }

  /** So a spent cap, for which the scheduler halts, means that every agent node has finished. */
  lemma CapHaltMeansAgentsFinished(nodes: seq<Node>, st: RunState, caps: ResolvedCaps)
    requires CapCoversAgents(nodes, st, caps) && st.agentsSpawned >= caps.maxAgents
    ensures forall n :: n in nodes && n.Agent? ==> Terminal(st, n.id)
  {
    assert |WaitingAgents(nodes, st)| == 0;
    forall n | n in nodes && n.Agent? ensures Terminal(st, n.id) {
      assert !Terminal(st, n.id) ==> n.id in WaitingAgents(nodes, st);
    }
  }

  // ---------- every unit of work is dispatched once ----------

  /** The slot a dispatch fills, by its position. */
  ghost function SlotKey(nodes: seq<Node>, d: Dispatch): Key {
    var node := FindNode(nodes, d.nodeId);
    if node.Some? && node.value.Fanout? then ItemKey(d.nodeId, d.itemIndex)
    else if node.Some? && node.value.Pipeline? && d.stageIndex.Some?
    then StageKey(d.nodeId, d.itemIndex, d.stageIndex.value)
    else NodeKey(d.nodeId)
  }

  ghost predicate DistinctSlots(nodes: seq<Node>, log: seq<Dispatch>) {
    forall i, j :: 0 <= i < j < |log| ==> SlotKey(nodes, log[i]) != SlotKey(nodes, log[j])
  }

  /** Every past dispatch has its dependencies done and its slot closed, and ran as its node says. */
  ghost predicate Logged(w: World, st: RunState, d: Dispatch) {
    && FindNode(w.nodes, d.nodeId).Some? && DependenciesSatisfied(FindNode(w.nodes, d.nodeId).value, st)
    && (NodeKey(d.nodeId) in st.status || Is(st, SlotKey(w.nodes, d), Done))
    && OwnSpec(FindNode(w.nodes, d.nodeId).value, d)
  }

  /** The dispatch carries a spec of its node. */
  ghost predicate OwnSpec(node: Node, d: Dispatch) {
    match node
    case Agent(_, _, spec) => d.spec == spec
    case Fanout(_, _, _, spec) => d.spec == spec
    case Pipeline(_, _, _, stages) =>
      d.stageIndex.Some? && d.stageIndex.value < |stages| && d.spec == stages[d.stageIndex.value]
    case _ => false
  }

  ghost predicate LogInv(w: World, st: RunState, log: seq<Dispatch>) {
    DistinctSlots(w.nodes, log) && forall k :: 0 <= k < |log| ==> Logged(w, st, log[k])
  }

  lemma LogGrows(w: World, st: RunState, st': RunState, log: seq<Dispatch>)
    requires LogInv(w, st, log) && Grows(st, st')
    ensures LogInv(w, st', log)
  {
    forall k | 0 <= k < |log| ensures Logged(w, st', log[k]) {
      assert Logged(w, st, log[k]);
    }
  }

  /** Units in item order, all of items below `k`. */
  ghost predicate InItemOrder(units: seq<Dispatch>, k: nat) {
    && (forall i :: 0 <= i < |units| ==> units[i].itemIndex < k)
    && (forall i, j :: 0 <= i < j < |units| ==> units[i].itemIndex < units[j].itemIndex)
  }

  lemma {:induction false} FanoutUnitsInOrder(w: World, node: Node, st: RunState, k: nat)
    requires node.Fanout? && k <= |Items(w.h, node, st.results)|
    ensures InItemOrder(FanoutUnits(w.h, w.nodes, node, st, k), k)
    decreases k
  {
    if k > 0 {
      FanoutUnitsInOrder(w, node, st, k - 1);
    }
  }

  lemma {:induction false} PipelineUnitsInOrder(w: World, node: Node, st: RunState, k: nat)
    requires node.Pipeline? && k <= |Items(w.h, node, st.results)|
    ensures InItemOrder(PipelineUnits(w.h, w.nodes, node, st, k), k)
    decreases k
  {
    if k > 0 {
      PipelineUnitsInOrder(w, node, st, k - 1);
    }
  }

  ghost predicate SamePlace(d: Dispatch, e: Dispatch) {
    d.nodeId == e.nodeId && d.itemIndex == e.itemIndex
  }

  ghost predicate DistinctPlaces(units: seq<Dispatch>) {
    forall i, j :: 0 <= i < j < |units| ==> !SamePlace(units[i], units[j])
  }

  lemma AppendPlaces(front: seq<Dispatch>, own: seq<Dispatch>)
    requires DistinctPlaces(front) && DistinctPlaces(own)
    requires forall d, e :: d in front && e in own ==> d.nodeId != e.nodeId
    ensures DistinctPlaces(front + own)
  {
    var units := front + own;
    forall i, j | 0 <= i < j < |units| ensures !SamePlace(units[i], units[j]) {
      if i < |front| <= j {
        assert units[i] in front && units[j] in own;
      }
    }
  }

  lemma OwnUnitsDistinct(w: World, st: RunState, node: Node)
    ensures DistinctPlaces(UnitsOf(w.h, w.nodes, node, st))
  {
    if node.Fanout? {
      FanoutUnitsInOrder(w, node, st, |Items(w.h, node, st.results)|);
    } else if node.Pipeline? {
      PipelineUnitsInOrder(w, node, st, |Items(w.h, node, st.results)|);
    }
  }

  lemma UnitsApart(w: World, st: RunState, k: nat, d: Dispatch, e: Dispatch)
    requires UniqueIds(w.nodes) && k < |w.nodes|
    requires d in AllUnits(w.h, w.nodes, st, k) && e in UnitsOf(w.h, w.nodes, w.nodes[k], st)
    ensures d.nodeId != e.nodeId
  {
    var other := UnitMember(w, st, k, d);
    OwnUnit(w, st, w.nodes[k], e);
    var j :| 0 <= j < k && w.nodes[j] == other;
  }

  lemma AllUnitsApart(w: World, st: RunState, k: nat)
    requires UniqueIds(w.nodes) && k < |w.nodes|
    ensures forall d, e :: d in AllUnits(w.h, w.nodes, st, k) && e in UnitsOf(w.h, w.nodes, w.nodes[k], st) ==>
              d.nodeId != e.nodeId
  {
    hide UnitsOf, AllUnits, UniqueIds;
    forall d, e | d in AllUnits(w.h, w.nodes, st, k) && e in UnitsOf(w.h, w.nodes, w.nodes[k], st)
      ensures d.nodeId != e.nodeId
    {
      UnitsApart(w, st, k, d, e);
    }
  }

  lemma AllUnitsUnfold(w: World, st: RunState, k: nat)
    requires k <= |w.nodes|
    ensures AllUnits(w.h, w.nodes, st, k) ==
            if k == 0 then [] else AllUnits(w.h, w.nodes, st, k - 1) + UnitsOf(w.h, w.nodes, w.nodes[k - 1], st)
  {
    hide UnitsOf;
  }

  lemma NoPlaces()
    ensures DistinctPlaces([])
  {
  }

  /** One batch names no node and item twice. */
  lemma {:induction false} AllUnitsDistinct(w: World, st: RunState, k: nat)
    requires UniqueIds(w.nodes) && k <= |w.nodes|
    ensures DistinctPlaces(AllUnits(w.h, w.nodes, st, k))
    decreases k
  {
    hide *;
    AllUnitsUnfold(w, st, k);
    if k == 0 {
      NoPlaces();
    } else {
      AllUnitsDistinct(w, st, k - 1);
      OwnUnitsDistinct(w, st, w.nodes[k - 1]);
      AllUnitsApart(w, st, k - 1);
      AppendPlaces(AllUnits(w.h, w.nodes, st, k - 1), UnitsOf(w.h, w.nodes, w.nodes[k - 1], st));
    }
  }

  lemma OwnUnit(w: World, st: RunState, node: Node, d: Dispatch)
    requires d in UnitsOf(w.h, w.nodes, node, st)
    ensures d.nodeId == node.id
  {
    if node.Fanout? {
      FanoutUnitMember(w, node, st, |Items(w.h, node, st.results)|, d);
    } else if node.Pipeline? {
      PipelineUnitMember(w, node, st, |Items(w.h, node, st.results)|, d);
    }
  }

  lemma MayStartIsFresh(w: World, st: RunState, d: Dispatch, e: Dispatch)
    requires MayStart(w, st, d) && Logged(w, st, e)
    ensures SlotKey(w.nodes, d) != SlotKey(w.nodes, e)
  {
  }

  /** A batch adds only units never dispatched before, and settles every one of them. */
  lemma LogStep(w: World, st: RunState, log: seq<Dispatch>, batch: seq<Dispatch>, settled: seq<Settled>)
    requires Inv(w, st) && LogInv(w, st, log) && Startable(w, st, batch) && Outcome(w, batch, settled)
    requires DistinctPlaces(batch)
    ensures LogInv(w, SettleAll(w.nodes, st, settled), log + batch)
  {
    var st' := SettleAll(w.nodes, st, settled);
    SettleStep(w, st, batch, settled);
    LogGrows(w, st, st', log);
    var all := log + batch;
    forall i, j | 0 <= i < j < |all| ensures SlotKey(w.nodes, all[i]) != SlotKey(w.nodes, all[j]) {
      if i < |log| <= j {
        assert batch[j - |log|] in batch;
        MayStartIsFresh(w, st, all[j], all[i]);
      } else if |log| <= i {
        assert !SamePlace(batch[i - |log|], batch[j - |log|]);
        assert batch[i - |log|] in batch && batch[j - |log|] in batch;
        StartableSlots(w, st, all[i], all[j]);
      }
    }
    forall k | 0 <= k < |batch| ensures Logged(w, st', batch[k]) {
      assert batch[k] in batch && settled[k].dispatch == batch[k];
      SettledIsLogged(w, st, st', batch[k]);
    }
  }

  lemma StartableSlots(w: World, st: RunState, d: Dispatch, e: Dispatch)
    requires MayStart(w, st, d) && MayStart(w, st, e) && !SamePlace(d, e)
    ensures SlotKey(w.nodes, d) != SlotKey(w.nodes, e)
  {
  }

  lemma SettledIsLogged(w: World, st: RunState, st': RunState, d: Dispatch)
    requires MayStart(w, st, d) && Grows(st, st') && Inv(w, st') && ResultKey(d) in st'.status
    ensures Logged(w, st', d)
  {
    if NodeKey(d.nodeId) !in st'.status {
      SettledSlotIsDone(w, st', d);
    }
  }

  /** A skipped node was never dispatched, nor any unit of it. */
  lemma SkippedNeverDispatched(w: World, st: RunState, log: seq<Dispatch>, d: Dispatch)
    requires Inv(w, st) && LogInv(w, st, log) && d in log
    ensures !Is(st, NodeKey(d.nodeId), Skipped)
  {
    var k :| 0 <= k < |log| && log[k] == d;
    assert Logged(w, st, log[k]);
    if Is(st, NodeKey(d.nodeId), Skipped) {
      var dep := SkippedHasCause(w, st, d.nodeId);
      assert false;
    }
  }
}
