/**
 What `nextBatch` returns, without its loops and its order: the finished
 bookkeeping of the plan exactly, and of the work that is asked for all of it, or
 as much as the caps admit.
 */
module PlanBatch {
  import opened PlanSchema
  import opened Upstream
  import opened PlanGraph

  // ---------- what is asked for is asked for in one way ----------

  lemma ReadsOnce(h: Host, ref: Ref, results: Results, value: Value)
    requires Reads(h, ref, results, value)
    ensures value == ResolveRef(h, ref, results)
  {
  }

  lemma CollectsOnce(h: Host, node: Node, results: Results, items: seq<Value>)
    requires (node.Fanout? || node.Pipeline?) && Collects(h, node.over, results, items)
    ensures items == Items(h, node, results)
  {
    var value :| Reads(h, node.over, results, value) && Holds(value, items);
    ReadsOnce(h, node.over, results, value);
  }

  lemma HandedOnce(h: Host, nodes: seq<Node>, node: Node, results: Results, inputs: seq<UpstreamInput>)
    requires HandsOver(h, UpstreamRefs(nodes, node.needs), results, inputs)
    ensures inputs == InputsOf(h, nodes, node, results)
  {
    var refs := UpstreamRefs(nodes, node.needs);
    forall k | 0 <= k < |refs| ensures inputs[k] == InputsOf(h, nodes, node, results)[k] {
      ReadsOnce(h, refs[k], results, inputs[k].value);
    }
  }

  lemma MayRunIsReady(node: Node, st: RunState)
    requires MayRun(node, st)
    ensures Ready(node, st)
  {
    forall dep | dep in DependenciesOf(node) ensures Is(st, NodeKey(dep), Done) {
      var k :| 0 <= k < |RefsOf(node)| && RefsOf(node)[k].node == dep;
      assert RefsOf(node)[k] in node.needs || RefsOf(node)[k] in OverRefs(node);
    }
  }

  lemma {:induction false} FanoutListed(h: Host, nodes: seq<Node>, node: Node, st: RunState, k: nat, d: Dispatch)
    requires node.Fanout? && k <= |Items(h, node, st.results)| && d.itemIndex < k
    requires AsksForItem(h, node, st, Items(h, node, st.results), d) && d.nodeId == node.id
    requires d.inputs == InputsOf(h, nodes, node, st.results) && d.workId !in st.running
    ensures d in FanoutUnits(h, nodes, node, st, k)
    decreases k
  {
    hide InputsOf, Items;
    if d.itemIndex < k - 1 {
      FanoutListed(h, nodes, node, st, k - 1, d);
    }
  }

  lemma {:induction false} PipelineListed(h: Host, nodes: seq<Node>, node: Node, st: RunState, k: nat, d: Dispatch)
    requires node.Pipeline? && k <= |Items(h, node, st.results)| && d.itemIndex < k
    requires AsksForStage(h, node, st, Items(h, node, st.results), d) && d.nodeId == node.id
    requires d.inputs == InputsOf(h, nodes, node, st.results) && d.workId !in st.running
    ensures d in PipelineUnits(h, nodes, node, st, k)
    decreases k
  {
    hide InputsOf, Items;
    if d.itemIndex < k - 1 {
      PipelineListed(h, nodes, node, st, k - 1, d);
    } else {
      var s := StageFor(st, node.id, k - 1, 0);
      assert s == d.stageIndex.value;
    }
  }

  lemma NodeListed(h: Host, nodes: seq<Node>, node: Node, st: RunState, d: Dispatch)
    requires AsksFor(h, nodes, node, st, d) && ImmediateOf(h, node, st).None? && d.workId !in st.running
    ensures d in UnitsOf(h, nodes, node, st)
  {
    MayRunIsReady(node, st);
    HandedOnce(h, nodes, node, st.results, d.inputs);
    hide MayRun, HandsOver, InputsOf, Ready, Collects;
    if node.Fanout? {
      hide AsksForItem;
      var items :| Collects(h, node.over, st.results, items) && AsksForItem(h, node, st, items, d);
      CollectsOnce(h, node, st.results, items);
      ItemIsWithin(h, node, st, d);
      FanoutListed(h, nodes, node, st, |items|, d);
    } else if node.Pipeline? {
      hide AsksForStage;
      var items :| Collects(h, node.over, st.results, items) && AsksForStage(h, node, st, items, d);
      CollectsOnce(h, node, st.results, items);
      ItemIsWithin(h, node, st, d);
      PipelineListed(h, nodes, node, st, |items|, d);
    }
  }

  lemma ItemIsWithin(h: Host, node: Node, st: RunState, d: Dispatch)
    requires node.Fanout? || node.Pipeline?
    requires node.Fanout? ==> AsksForItem(h, node, st, Items(h, node, st.results), d)
    requires node.Pipeline? ==> AsksForStage(h, node, st, Items(h, node, st.results), d)
    ensures d.itemIndex < |Items(h, node, st.results)|
  {
  }

  lemma {:induction false} ListedInAll(h: Host, nodes: seq<Node>, st: RunState, k: nat, j: nat, d: Dispatch)
    requires j < k <= |nodes| && d in UnitsOf(h, nodes, nodes[j], st)
    ensures d in AllUnits(h, nodes, st, k)
    decreases k
  {
    hide UnitsOf;
    if j < k - 1 {
      ListedInAll(h, nodes, st, k - 1, j, d);
    }
  }

  lemma {:induction false} FinishedInAll(h: Host, nodes: seq<Node>, st: RunState, k: nat, j: nat)
    requires j < k <= |nodes| && Ready(nodes[j], st) && ImmediateOf(h, nodes[j], st).Some?
    ensures (nodes[j].id, ImmediateOf(h, nodes[j], st).value) in AllImmediate(h, nodes, st, k)
    decreases k
  {
    hide Ready, ImmediateOf;
    if j < k - 1 {
      FinishedInAll(h, nodes, st, k - 1, j);
    }
  }

  lemma SlotsOnce(h: Host, node: Node, st: RunState, keys: seq<Key>, values: seq<Value>)
    requires node.Fanout? || node.Pipeline?
    requires |keys| == |Items(h, node, st.results)| && forall i: nat :: i < |keys| ==> keys[i] == FinalSlot(node, i)
    requires FinishedSlots(st, keys, values)
    ensures AllItemsDone(h, node, st) && Aggregate(h, node, st) == Arr(values)
  {
    hide Items;
    forall i | 0 <= i < |keys| ensures Is(st, FinalSlot(node, i), Done) {
      assert Is(st, keys[i], Done);
    }
    assert Aggregate(h, node, st).items == values;
  }

  lemma FinishesOnce(h: Host, node: Node, st: RunState, value: Immediate)
    requires Finishes(h, node, st, value)
    ensures ImmediateOf(h, node, st) == Some(value)
  {
    hide MayRun, Collects, FinishedSlots, Reads;
    match node
    case Barrier(_, needs) =>
      forall k | 0 <= k < |needs| ensures value.value.items[k] == ResolveRef(h, needs[k], st.results) {
        ReadsOnce(h, needs[k], st.results, value.value.items[k]);
      }
      assert value.value.items == ImmediateOf(h, node, st).value.value.items;
    case Transform(_, _, over, _) => ReadsOnce(h, over, st.results, value.input);
    case Fanout(id, _, over, _) =>
      var items :| Collects(h, over, st.results, items) && FinishedSlots(st, ItemKeys(id, |items|), value.value.items);
      CollectsOnce(h, node, st.results, items);
      SlotsOnce(h, node, st, ItemKeys(id, |items|), value.value.items);
    case Pipeline(id, _, over, stages) =>
      var items :| Collects(h, over, st.results, items) &&
                   FinishedSlots(st, StageKeys(id, |items|, |stages| - 1), value.value.items);
      CollectsOnce(h, node, st.results, items);
      SlotsOnce(h, node, st, StageKeys(id, |items|, |stages| - 1), value.value.items);
  }

  // ---------- the batch ----------

  /** Slots for more workers: under the concurrency cap, which is one under a budget, and under the agent cap. */
  predicate HasRoom(st: RunState, caps: ResolvedCaps, more: nat) {
    && |st.running| + more < (if caps.budgetTokens.Some? then 1 else caps.maxConcurrent)
    && st.agentsSpawned + more < caps.maxAgents
  }

  ghost predicate FinishesNow(batch: Batch, id: NodeId) {
    exists value :: (id, value) in batch.immediate
  }

  /** Work that is asked for, not under way, and of a node that the batch does not finish. */
  ghost predicate WaitsFor(h: Host, nodes: seq<Node>, st: RunState, batch: Batch, d: Dispatch) {
    IsAsked(h, nodes, st, d) && d.workId !in st.running && !FinishesNow(batch, d.nodeId)
  }

  /** Why nothing is scheduled at all. */
  ghost predicate HaltsRightly(st: RunState, caps: ResolvedCaps, halt: Option<Halt>) {
    if caps.budgetTokens.Some? && st.spentTokens >= caps.budgetTokens.value then halt == Some(BudgetHalt)
    else if st.agentsSpawned >= caps.maxAgents then halt == Some(AgentsHalt)
    else halt == None
  }

  lemma ImmediateExactly(h: Host, nodes: seq<Node>, st: RunState, id: NodeId, value: Immediate)
    ensures (id, value) in AllImmediate(h, nodes, st, |nodes|) <==> IsFinished(h, nodes, st, id, value)
  {
    hide Ready, ImmediateOf, Finishes, AllImmediate;
    if (id, value) in AllImmediate(h, nodes, st, |nodes|) {
      ImmediateIsFinished(h, nodes, st, |nodes|, (id, value));
    }
    if IsFinished(h, nodes, st, id, value) {
      var node :| node in nodes && node.id == id && Finishes(h, node, st, value);
      var j :| 0 <= j < |nodes| && nodes[j] == node;
      FinishesMayRun(h, node, st, value);
      MayRunIsReady(node, st);
      FinishesOnce(h, node, st, value);
      FinishedInAll(h, nodes, st, |nodes|, j);
    }
  }

  lemma FinishesMayRun(h: Host, node: Node, st: RunState, value: Immediate)
    requires Finishes(h, node, st, value)
    ensures MayRun(node, st)
  {
  }

  lemma AskedIsListed(h: Host, nodes: seq<Node>, st: RunState, d: Dispatch)
    requires IsAsked(h, nodes, st, d) && d.workId !in st.running
    requires forall value :: (d.nodeId, value) !in AllImmediate(h, nodes, st, |nodes|)
    ensures d in AllUnits(h, nodes, st, |nodes|)
  {
    hide AllImmediate, AllUnits, AsksFor, ImmediateOf;
    var node :| node in nodes && AsksFor(h, nodes, node, st, d);
    var j :| 0 <= j < |nodes| && nodes[j] == node;
    AskedMayRun(h, nodes, node, st, d);
    MayRunIsReady(node, st);
    if ImmediateOf(h, node, st).Some? {
      FinishedInAll(h, nodes, st, |nodes|, j);
    }
    NodeListed(h, nodes, node, st, d);
    ListedInAll(h, nodes, st, |nodes|, j, d);
  }

  lemma AskedMayRun(h: Host, nodes: seq<Node>, node: Node, st: RunState, d: Dispatch)
    requires AsksFor(h, nodes, node, st, d)
    ensures MayRun(node, st) && d.nodeId == node.id
  {
  }

  /**
   A batch finishes exactly the bookkeeping that is due and starts only work that
   is asked for, within the caps; while there is room it leaves none of that out.
   */
  lemma BatchIsExact(h: Host, nodes: seq<Node>, st: RunState, caps: ResolvedCaps)
    ensures var batch := BatchSpec(h, nodes, st, caps);
            && HaltsRightly(st, caps, batch.halt)
            && (batch.halt.Some? ==> batch.dispatch == [] && batch.immediate == [])
            && (batch.halt.None? ==>
                  && (forall id, value :: (id, value) in batch.immediate <==> IsFinished(h, nodes, st, id, value))
                  && (forall d :: d in batch.dispatch ==> IsAsked(h, nodes, st, d))
                  && (batch.dispatch != [] ==> HasRoom(st, caps, |batch.dispatch| - 1))
                  && (HasRoom(st, caps, |batch.dispatch|) ==>
                        forall d :: WaitsFor(h, nodes, st, batch, d) ==> d in batch.dispatch))
  {
    var batch := BatchSpec(h, nodes, st, caps);
    BatchIsAsked(h, nodes, st, caps);
    hide IsAsked, IsFinished, AllUnits, AllImmediate;
    if batch.halt.None? {
      forall id, value ensures (id, value) in batch.immediate <==> IsFinished(h, nodes, st, id, value) {
        ImmediateExactly(h, nodes, st, id, value);
      }
      if HasRoom(st, caps, |batch.dispatch|) {
        forall d | WaitsFor(h, nodes, st, batch, d) ensures d in batch.dispatch {
          AskedIsListed(h, nodes, st, d);
        }
      }
    }
  }
}
