/**
 Progress of a run: every step of the loop lowers a measure, a run of an
 admissible plan never stalls, and the nodes it leaves out are exactly those
 that depend on a failure.
 */
module RunProgress {
  import opened PlanSchema
  import opened Upstream
  import opened PlanGraph
  import opened RunInvariant
  import opened RunSteps

  // ---------- the termination measure ----------

  ghost function Unfinished(nodes: seq<Node>, st: RunState): set<NodeId> {
    set n | n in nodes && !Terminal(st, n.id) :: n.id
  }

  ghost predicate OpenItem(h: Host, n: Node, st: RunState, i: int) {
    && n.Fanout? && DependenciesSatisfied(n, st)
    && 0 <= i < |Items(h, n, st.results)| && !Is(st, ItemKey(n.id, i), Done)
  }

  ghost predicate OpenStage(h: Host, n: Node, st: RunState, i: int, s: int) {
    && n.Pipeline? && DependenciesSatisfied(n, st)
    && 0 <= i < |Items(h, n, st.results)| && 0 <= s < |n.stages| && !Is(st, StageKey(n.id, i, s), Done)
  }

  function Width(h: Host, n: Node, st: RunState): nat {
    if n.Fanout? || n.Pipeline? then |Items(h, n, st.results)| else 0
  }

  function Depth(n: Node): nat {
    if n.Pipeline? then |n.stages| else 0
  }

  /** The slots still to be done of the collection nodes that may run. */
  ghost function OpenSlots(h: Host, nodes: seq<Node>, st: RunState): set<Key> {
    (set n, i: nat | n in nodes && i < Width(h, n, st) && OpenItem(h, n, st, i) :: ItemKey(n.id, i)) +
    (set n, i: nat, s: nat | n in nodes && i < Width(h, n, st) && s < Depth(n) && OpenStage(h, n, st, i, s) ::
       StageKey(n.id, i, s))
  }

  ghost predicate Below(h: Host, nodes: seq<Node>, st': RunState, st: RunState) {
    || Unfinished(nodes, st') < Unfinished(nodes, st)
    || (Unfinished(nodes, st') == Unfinished(nodes, st) && OpenSlots(h, nodes, st') < OpenSlots(h, nodes, st))
  }

  lemma GrowsShrinks(w: World, st: RunState, st': RunState)
    requires Grows(st, st')
    ensures Unfinished(w.nodes, st') <= Unfinished(w.nodes, st)
  {
  }

  lemma NewlyTerminal(w: World, st: RunState, st': RunState, node: Node)
    requires Grows(st, st') && Inv(w, st') && node in w.nodes
    requires !Terminal(st, node.id) && NodeKey(node.id) in st'.status
    ensures Unfinished(w.nodes, st') < Unfinished(w.nodes, st)
  {
    GrowsShrinks(w, st, st');
    assert KeyLaw(w, st', NodeKey(node.id));
    assert node.id in Unfinished(w.nodes, st);
    assert node.id !in Unfinished(w.nodes, st');
  }

  lemma ImmediateProgress(w: World, st: RunState)
    requires Inv(w, st) && Schedulable(w.nodes) && AllImmediate(w.h, w.nodes, st, |w.nodes|) != []
    ensures Unfinished(w.nodes, ApplyImmediate(w.h, st, AllImmediate(w.h, w.nodes, st, |w.nodes|))) <
            Unfinished(w.nodes, st)
  {
    var immediate := AllImmediate(w.h, w.nodes, st, |w.nodes|);
    var st' := ApplyImmediate(w.h, st, immediate);
    ImmediateStep(w, st);
    ApplyImmediateEffect(w.h, st, immediate);
    var node := ImmediateMember(w.h, w.nodes, st, |w.nodes|, immediate[0]);
    assert immediate[0] in immediate;
    NewlyTerminal(w, st, st', node);
  }

  lemma SkipProgress(w: World, st: RunState, ids: seq<NodeId>)
    requires Inv(w, st) && Schedulable(w.nodes) && AreDoomed(w.nodes, st, ids) && ids != []
    ensures Unfinished(w.nodes, MarkSkipped(st, ids)) < Unfinished(w.nodes, st)
  {
    hide Inv, Schedulable, Unfinished;
    var st' := MarkSkipped(st, ids);
    SkipStep(w, st, ids);
    var id := ids[0];
    assert id in ids;
    assert NodeKey(id) in st'.status by {
      MarkSkippedEffect(st, ids);
    }
    var k :| 0 <= k < |w.nodes| && w.nodes[k].id == id && Doomed(w.nodes[k], st);
    NewlyTerminal(w, st, st', w.nodes[k]);
  }

  /** With no newly finished node, no new slot opens. */
  lemma NoSlotOpens(w: World, st: RunState, st': RunState)
    requires Inv(w, st) && Inv(w, st') && Grows(st, st') && Schedulable(w.nodes)
    requires Unfinished(w.nodes, st') == Unfinished(w.nodes, st)
    ensures OpenSlots(w.h, w.nodes, st') <= OpenSlots(w.h, w.nodes, st)
  {
    forall n | n in w.nodes && DependenciesSatisfied(n, st')
      ensures DependenciesSatisfied(n, st)
      ensures n.Fanout? || n.Pipeline? ==> Items(w.h, n, st'.results) == Items(w.h, n, st.results)
    {
      forall dep | dep in DependenciesOf(n) ensures Is(st, NodeKey(dep), Done) {
        assert Is(st', NodeKey(dep), Done);
        var target := FindNode(w.nodes, dep).value;
        assert target.id !in Unfinished(w.nodes, st');
      }
      ReadsStable(w, st, st', n);
      SameInputs(w, n, st.results, st'.results);
    }
  }

  lemma UnitIsOpen(w: World, st: RunState, d: Dispatch)
    requires MayStart(w, st, d) && ResultKey(d) != NodeKey(d.nodeId)
    ensures ResultKey(d) in OpenSlots(w.h, w.nodes, st)
  {
    var node := FindNode(w.nodes, d.nodeId).value;
    if node.Fanout? {
      assert OpenItem(w.h, node, st, d.itemIndex);
    } else {
      assert OpenStage(w.h, node, st, d.itemIndex, d.stageIndex.value);
    }
  }

  lemma DoneSlotIsClosed(w: World, st: RunState, key: Key)
    requires Is(st, key, Done)
    ensures key !in OpenSlots(w.h, w.nodes, st)
  {
  }

  /** A settled unit whose node is still unfinished has finished its slot. */
  lemma SettledSlotIsDone(w: World, st': RunState, d: Dispatch)
    requires Inv(w, st') && ResultKey(d) in st'.status && NodeKey(d.nodeId) !in st'.status
    ensures Is(st', ResultKey(d), Done)
  {
    assert KeyLaw(w, st', ResultKey(d));
  }

  lemma SettleProgress(w: World, st: RunState, batch: seq<Dispatch>, settled: seq<Settled>)
    requires Inv(w, st) && Schedulable(w.nodes) && Startable(w, st, batch) && Outcome(w, batch, settled)
    requires batch != []
    ensures Below(w.h, w.nodes, SettleAll(w.nodes, st, settled), st)
  {
    var st' := SettleAll(w.nodes, st, settled);
    SettleStep(w, st, batch, settled);
    assert batch[0] in batch && settled[0].dispatch == batch[0];
    UnitProgress(w, st, st', batch[0]);
  }

  lemma UnitProgress(w: World, st: RunState, st': RunState, d: Dispatch)
    requires Inv(w, st) && Inv(w, st') && Schedulable(w.nodes) && Grows(st, st')
    requires MayStart(w, st, d) && ResultKey(d) in st'.status
    ensures Below(w.h, w.nodes, st', st)
  {
    var node := FindNode(w.nodes, d.nodeId).value;
    if NodeKey(d.nodeId) in st'.status {
      NewlyTerminal(w, st, st', node);
    } else {
      GrowsShrinks(w, st, st');
      if Unfinished(w.nodes, st') == Unfinished(w.nodes, st) {
        NoSlotOpens(w, st, st');
        UnitIsOpen(w, st, d);
        SettledSlotIsDone(w, st', d);
        DoneSlotIsClosed(w, st', ResultKey(d));
      }
    }
  }

  // ---------- no stall ----------

  lemma RankDrops(nodes: seq<Node>, rank: map<NodeId, nat>, n: Node, dep: NodeId)
    requires Schedulable(nodes) && Ranks(GraphOf(nodes), rank) && n in nodes && dep in DependenciesOf(n)
    ensures n.id in rank && dep in rank && rank[dep] < rank[n.id]
  {
    var k :| 0 <= k < |nodes| && nodes[k] == n;
    GraphOfUnique(nodes, k);
    var target := FindNode(nodes, dep).value;
    var j :| 0 <= j < |nodes| && nodes[j] == target;
    assert Edge(GraphOf(nodes), n.id, dep);
  }

  /** Some unfinished node depends on finished nodes only. */
  lemma {:induction false} LowestUnfinished(nodes: seq<Node>, st: RunState, rank: map<NodeId, nat>, n: Node)
    returns (low: Node)
    requires Schedulable(nodes) && Ranks(GraphOf(nodes), rank) && n in nodes && !Terminal(st, n.id)
    ensures low in nodes && !Terminal(st, low.id)
    ensures forall dep :: dep in DependenciesOf(low) ==> Terminal(st, dep)
    decreases if n.id in rank then rank[n.id] else 0
  {
    if dep :| dep in DependenciesOf(n) && !Terminal(st, dep) {
      RankDrops(nodes, rank, n, dep);
      low := LowestUnfinished(nodes, st, rank, FindNode(nodes, dep).value);
    } else {
      low := n;
    }
  }

  lemma {:induction false} OpenFanoutHasUnit(w: World, st: RunState, node: Node, k: nat, i: nat)
    requires node.Fanout? && i < k <= |Items(w.h, node, st.results)|
    requires !Is(st, ItemKey(node.id, i), Done) && st.running == {}
    ensures FanoutUnits(w.h, w.nodes, node, st, k) != []
    decreases k
  {
    if i < k - 1 {
      OpenFanoutHasUnit(w, st, node, k - 1, i);
    }
  }

  lemma {:induction false} OpenPipelineHasUnit(w: World, st: RunState, node: Node, k: nat, i: nat)
    requires node.Pipeline? && |node.stages| > 0 && i < k <= |Items(w.h, node, st.results)|
    requires !Is(st, StageKey(node.id, i, |node.stages| - 1), Done) && st.running == {}
    ensures PipelineUnits(w.h, w.nodes, node, st, k) != []
    decreases k
  {
    if i < k - 1 {
      OpenPipelineHasUnit(w, st, node, k - 1, i);
    }
  }

  lemma {:induction false} ReadyNodeContributes(w: World, st: RunState, k: nat, j: nat)
    requires j < k <= |w.nodes| && UnitsOf(w.h, w.nodes, w.nodes[j], st) != []
    ensures AllUnits(w.h, w.nodes, st, k) != []
    decreases k
  {
    hide UnitsOf;
    if j < k - 1 {
      ReadyNodeContributes(w, st, k - 1, j);
    }
  }

  /** A ready node either publishes or has work to dispatch. */
  lemma ReadyNodeActs(w: World, st: RunState, node: Node)
    requires Schedulable(w.nodes) && node in w.nodes && Ready(node, st) && st.running == {}
    ensures ImmediateOf(w.h, node, st).Some? || UnitsOf(w.h, w.nodes, node, st) != []
  {
    if (node.Fanout? || node.Pipeline?) && !AllItemsDone(w.h, node, st) {
      var i :| 0 <= i < |Items(w.h, node, st.results)| && !Is(st, FinalSlot(node, i), Done);
      if node.Fanout? {
        OpenFanoutHasUnit(w, st, node, |Items(w.h, node, st.results)|, i);
      } else {
        OpenPipelineHasUnit(w, st, node, |Items(w.h, node, st.results)|, i);
      }
    }
  }

  /** An unfinished node over finished ones is ready or doomed. */
  lemma ReadyOrDoomed(w: World, st: RunState, node: Node)
    requires Inv(w, st) && Schedulable(w.nodes) && node in w.nodes && !Terminal(st, node.id)
    requires forall dep :: dep in DependenciesOf(node) ==> Terminal(st, dep)
    ensures Ready(node, st) || Doomed(node, st)
  {
    FindUnique(w.nodes, node);
    assert NodeKey(node.id) in st.status ==> KeyLaw(w, st, NodeKey(node.id));
  }

  lemma ReadyFillsBatch(w: World, st: RunState, node: Node)
    requires Schedulable(w.nodes) && node in w.nodes && Ready(node, st) && st.running == {}
    ensures AllUnits(w.h, w.nodes, st, |w.nodes|) != [] || AllImmediate(w.h, w.nodes, st, |w.nodes|) != []
  {
    ReadyNodeActs(w, st, node);
    var j :| 0 <= j < |w.nodes| && w.nodes[j] == node;
    if ImmediateOf(w.h, node, st).Some? {
      ImmediateListed(w.h, w.nodes, st, |w.nodes|, j);
    } else {
      ReadyNodeContributes(w, st, |w.nodes|, j);
    }
  }

  lemma BatchHasWork(w: World, st: RunState, caps: ResolvedCaps)
    requires caps.maxConcurrent >= 1 && st.running == {}
    requires AllUnits(w.h, w.nodes, st, |w.nodes|) != [] || AllImmediate(w.h, w.nodes, st, |w.nodes|) != []
    ensures var batch := BatchSpec(w.h, w.nodes, st, caps);
            batch.halt.Some? || batch.dispatch != [] || batch.immediate != []
  {
    hide AllUnits, AllImmediate;
  }

  /** The "nothing doomed" exit of the loop is never taken on an acyclic plan. */
  lemma NeverStalls(w: World, st: RunState, caps: ResolvedCaps)
    requires Inv(w, st) && Schedulable(w.nodes) && Acyclic(GraphOf(w.nodes))
    requires st.running == {} && caps.maxConcurrent >= 1 && !IsComplete(w.nodes, st)
    ensures var batch := BatchSpec(w.h, w.nodes, st, caps);
            batch.halt.Some? || batch.dispatch != [] || batch.immediate != [] ||
            exists n :: n in w.nodes && Doomed(n, st)
  {
    hide Inv, KeyLaw, Ranks, GraphOf, BatchSpec, Doomed, Ready;
    var rank :| Ranks(GraphOf(w.nodes), rank);
    var k :| 0 <= k < |w.nodes| && !Terminal(st, w.nodes[k].id);
    var low := LowestUnfinished(w.nodes, st, rank, w.nodes[k]);
    ReadyOrDoomed(w, st, low);
    if Ready(low, st) {
      ReadyFillsBatch(w, st, low);
      BatchHasWork(w, st, caps);
    }
  }

  // ---------- what is left out ----------

  /** `p` leads from a node down its dependencies to `v`. */
  ghost predicate DependsThrough(nodes: seq<Node>, u: NodeId, p: seq<NodeId>, v: NodeId) {
    && |p| > 1 && p[0] == u && p[|p| - 1] == v
    && forall k :: 0 <= k < |p| - 1 ==>
         FindNode(nodes, p[k]).Some? && p[k + 1] in DependenciesOf(FindNode(nodes, p[k]).value)
  }

  ghost predicate DependsOnFailure(nodes: seq<Node>, st: RunState, u: NodeId) {
    exists p, v :: DependsThrough(nodes, u, p, v) && Is(st, NodeKey(v), Failed)
  }

  lemma {:induction false} RanNodesDependOnDone(w: World, st: RunState, u: NodeId, p: seq<NodeId>, v: NodeId)
    requires Inv(w, st) && DependsThrough(w.nodes, u, p, v)
    requires Is(st, NodeKey(u), Done) || Is(st, NodeKey(u), Failed)
    ensures Is(st, NodeKey(v), Done)
    decreases |p|
  {
    assert KeyLaw(w, st, NodeKey(u));
    assert Is(st, NodeKey(p[1]), Done);
    if |p| > 2 {
      var tail := p[1..];
      forall k | 0 <= k < |tail| - 1
        ensures FindNode(w.nodes, tail[k]).Some? && tail[k + 1] in DependenciesOf(FindNode(w.nodes, tail[k]).value)
      {
        assert tail[k] == p[k + 1] && tail[k + 1] == p[k + 1 + 1];
      }
      RanNodesDependOnDone(w, st, p[1], tail, v);
    }
  }

  lemma DependsFurther(nodes: seq<Node>, st: RunState, u: NodeId, dep: NodeId)
    requires FindNode(nodes, u).Some? && dep in DependenciesOf(FindNode(nodes, u).value)
    requires Is(st, NodeKey(dep), Failed) || DependsOnFailure(nodes, st, dep)
    ensures DependsOnFailure(nodes, st, u)
  {
    if Is(st, NodeKey(dep), Failed) {
      assert DependsThrough(nodes, u, [u, dep], dep);
    } else {
      var p, v :| DependsThrough(nodes, dep, p, v) && Is(st, NodeKey(v), Failed);
      var q := [u] + p;
      forall k | 0 <= k < |q| - 1
        ensures FindNode(nodes, q[k]).Some? && q[k + 1] in DependenciesOf(FindNode(nodes, q[k]).value)
      {
        if k > 0 {
          assert q[k] == p[k - 1] && q[k + 1] == p[k - 1 + 1];
        }
      }
      assert DependsThrough(nodes, u, q, v);
    }
  }

  lemma SkippedHasCause(w: World, st: RunState, u: NodeId) returns (dep: NodeId)
    requires Inv(w, st) && Is(st, NodeKey(u), Skipped)
    ensures FindNode(w.nodes, u).Some? && dep in DependenciesOf(FindNode(w.nodes, u).value)
    ensures Is(st, NodeKey(dep), Failed) || Is(st, NodeKey(dep), Skipped)
  {
    assert KeyLaw(w, st, NodeKey(u));
    dep :| dep in DependenciesOf(FindNode(w.nodes, u).value) &&
           (Is(st, NodeKey(dep), Failed) || Is(st, NodeKey(dep), Skipped));
  }

  lemma {:induction false} SkippedDependsOnFailure(w: World, st: RunState, rank: map<NodeId, nat>, u: NodeId)
    requires Inv(w, st) && Schedulable(w.nodes) && Ranks(GraphOf(w.nodes), rank) && Is(st, NodeKey(u), Skipped)
    ensures DependsOnFailure(w.nodes, st, u)
    decreases if u in rank then rank[u] else 0
  {
    var dep := SkippedHasCause(w, st, u);
    if Is(st, NodeKey(dep), Skipped) {
      RankDrops(w.nodes, rank, FindNode(w.nodes, u).value, dep);
      SkippedDependsOnFailure(w, st, rank, dep);
    }
    DependsFurther(w.nodes, st, u, dep);
  }

  /** In a finished run the skipped nodes are exactly those that depend, however far, on a failed one. */
  lemma SkippedExactly(w: World, st: RunState)
    requires Inv(w, st) && Schedulable(w.nodes) && Acyclic(GraphOf(w.nodes)) && IsComplete(w.nodes, st)
    ensures forall n :: n in w.nodes ==> (Is(st, NodeKey(n.id), Skipped) <==> DependsOnFailure(w.nodes, st, n.id))
  {
    hide Inv, KeyLaw, Ranks, GraphOf, DependsThrough;
    var rank :| Ranks(GraphOf(w.nodes), rank);
    forall n | n in w.nodes
      ensures Is(st, NodeKey(n.id), Skipped) <==> DependsOnFailure(w.nodes, st, n.id)
    {
      var k :| 0 <= k < |w.nodes| && w.nodes[k] == n;
      assert Terminal(st, w.nodes[k].id);
      if Is(st, NodeKey(n.id), Skipped) {
        SkippedDependsOnFailure(w, st, rank, n.id);
      } else if DependsOnFailure(w.nodes, st, n.id) {
        var p, v :| DependsThrough(w.nodes, n.id, p, v) && Is(st, NodeKey(v), Failed);
        RanNodesDependOnDone(w, st, n.id, p, v);
        assert false;
      }
    }
  }
}
