/**
 The invariant is kept by each of the three state changes of a run, for every
 outcome of the workers.
 */
module RunSteps {
  import opened PlanSchema
  import opened Upstream
  import opened PlanGraph
  import opened RunInvariant

  lemma ReadyHasNoStatus(w: World, st: RunState, node: Node)
    requires Inv(w, st) && Ready(node, st) && FindNode(w.nodes, node.id) == Some(node)
    ensures NodeKey(node.id) !in st.status
  {
    assert NodeKey(node.id) in st.status ==> KeyLaw(w, st, NodeKey(node.id));
  }

  // ---------- publishing ----------

  lemma {:induction false} ImmediateMember(h: Host, nodes: seq<Node>, st: RunState, k: nat, e: (NodeId, Immediate))
    returns (node: Node)
    requires k <= |nodes| && e in AllImmediate(h, nodes, st, k)
    ensures node in nodes && Ready(node, st) && ImmediateOf(h, node, st) == Some(e.1) && node.id == e.0
    decreases k
  {
    if e in AllImmediate(h, nodes, st, k - 1) {
      node := ImmediateMember(h, nodes, st, k - 1, e);
    } else {
      node := nodes[k - 1];
    }
  }

  lemma {:induction false} ImmediateListed(h: Host, nodes: seq<Node>, st: RunState, k: nat, j: nat)
    requires j < k <= |nodes| && Ready(nodes[j], st) && ImmediateOf(h, nodes[j], st).Some?
    ensures (nodes[j].id, ImmediateOf(h, nodes[j], st).value) in AllImmediate(h, nodes, st, k)
    decreases k
  {
    if j < k - 1 {
      ImmediateListed(h, nodes, st, k - 1, j);
    }
  }

  /** One entry of `immediate` is what a published key now holds; nothing else changed. */
  ghost predicate Published(h: Host, immediate: seq<(NodeId, Immediate)>, st: RunState, key: Key) {
    exists e :: e in immediate && key == NodeKey(e.0) && Is(st, key, Done) && key in st.results &&
                st.results[key] == ResolveImmediate(h, e.1)
  }

  ghost predicate Untouched(st: RunState, st': RunState, key: Key) {
    && (key in st.status <==> key in st'.status) && (key in st.results <==> key in st'.results)
    && (key in st.status ==> st.status[key] == st'.status[key])
    && (key in st.results ==> st.results[key] == st'.results[key])
  }

  lemma {:induction false} ApplyImmediateEffect(h: Host, st: RunState, immediate: seq<(NodeId, Immediate)>)
    ensures var st' := ApplyImmediate(h, st, immediate);
            && (forall e :: e in immediate ==> Published(h, immediate, st', NodeKey(e.0)))
            && (forall key :: Published(h, immediate, st', key) || Untouched(st, st', key))
            && st'.(results := st.results, status := st.status) == st
    decreases |immediate|
  {
    if immediate != [] {
      var front, last := immediate[..|immediate| - 1], immediate[|immediate| - 1];
      var mid, st' := ApplyImmediate(h, st, front), ApplyImmediate(h, st, immediate);
      ApplyImmediateEffect(h, st, front);
      forall key ensures key == NodeKey(last.0) ==> Published(h, immediate, st', key)
                 ensures Published(h, front, mid, key) ==> Published(h, immediate, st', key)
                 ensures Published(h, immediate, st', key) || Untouched(st, st', key)
      {
        if key == NodeKey(last.0) {
          assert last in immediate;
        } else if Published(h, front, mid, key) {
          var e :| e in front && key == NodeKey(e.0) && mid.results[key] == ResolveImmediate(h, e.1);
          assert e in immediate;
        } else {
          assert Untouched(st, mid, key);
        }
      }
      forall e | e in immediate ensures Published(h, immediate, st', NodeKey(e.0)) {
        assert e in front || e == last;
      }
    }
  }

  /** A done stage holds the composition of the stages up to it. */
  lemma {:induction false} StageIsComposition(w: World, st: RunState, node: Node, i: nat, s: nat)
    requires Inv(w, st) && FindNode(w.nodes, node.id) == Some(node)
    requires Is(st, StageKey(node.id, i, s), Done)
    ensures StageKeyLaw(w, st, node, i, s)
    ensures StageKey(node.id, i, s) in st.results
    ensures w.functional ==>
              st.results[StageKey(node.id, i, s)] ==
              StageValue(w, node, Items(w.h, node, st.results)[i], i, s, InputsOf(w.h, w.nodes, node, st.results))
    decreases s
  {
    StageLaw(w, st, node, i, s);
    hide Inv, InputsOf, Items;
    if s > 0 {
      StageIsComposition(w, st, node, i, s - 1);
    }
  }

  lemma StageLaw(w: World, st: RunState, node: Node, i: nat, s: nat)
    requires Inv(w, st) && FindNode(w.nodes, node.id) == Some(node)
    requires Is(st, StageKey(node.id, i, s), Done)
    ensures StageKeyLaw(w, st, node, i, s) && StageKey(node.id, i, s) in st.results
  {
    assert KeyLaw(w, st, StageKey(node.id, i, s));
  }

  lemma AggregateIsValue(w: World, st: RunState, node: Node)
    requires Inv(w, st) && FindNode(w.nodes, node.id) == Some(node)
    requires node.Fanout? || (node.Pipeline? && |node.stages| > 0)
    requires AllItemsDone(w.h, node, st)
    ensures !HasUndefined(Items(w.h, node, st.results))
    ensures w.functional ==> Aggregate(w.h, node, st) == NodeValue(w, node, st.results)
  {
    var items := Items(w.h, node, st.results);
    forall i | 0 <= i < |items|
      ensures items[i] != Undefined
      ensures w.functional ==> Aggregate(w.h, node, st).items[i] == NodeValue(w, node, st.results).items[i]
    {
      assert Is(st, FinalSlot(node, i), Done);
      assert KeyLaw(w, st, FinalSlot(node, i));
      if node.Pipeline? {
        StageIsComposition(w, st, node, i, |node.stages| - 1);
      }
    }
    assert w.functional ==> Aggregate(w.h, node, st).items == NodeValue(w, node, st.results).items;
  }

  /** What a bookkeeping node publishes is its value. */
  lemma ImmediateIsValue(w: World, st: RunState, node: Node)
    requires Inv(w, st) && Schedulable(w.nodes) && node in w.nodes
    requires ImmediateOf(w.h, node, st).Some?
    ensures w.functional ==> Explained(w, node, st.results, ResolveImmediate(w.h, ImmediateOf(w.h, node, st).value))
  {
    FindUnique(w.nodes, node);
    if node.Fanout? || node.Pipeline? {
      AggregateIsValue(w, st, node);
    }
  }

  lemma ImmediateStep(w: World, st: RunState)
    requires Inv(w, st) && Schedulable(w.nodes)
    ensures var st' := ApplyImmediate(w.h, st, AllImmediate(w.h, w.nodes, st, |w.nodes|));
            Inv(w, st') && Grows(st, st')
  {
    var immediate := AllImmediate(w.h, w.nodes, st, |w.nodes|);
    var st' := ApplyImmediate(w.h, st, immediate);
    ApplyImmediateEffect(w.h, st, immediate);
    forall key | Published(w.h, immediate, st', key)
      ensures key !in st.status && FindNode(w.nodes, key.node).Some?
      ensures DependenciesSatisfied(FindNode(w.nodes, key.node).value, st)
      ensures w.functional ==> Explained(w, FindNode(w.nodes, key.node).value, st.results, st'.results[key])
    {
      var e :| e in immediate && key == NodeKey(e.0) && st'.results[key] == ResolveImmediate(w.h, e.1);
      var node := ImmediateMember(w.h, w.nodes, st, |w.nodes|, e);
      FindUnique(w.nodes, node);
      ReadyHasNoStatus(w, st, node);
      ImmediateIsValue(w, st, node);
    }
    assert Grows(st, st');
    forall key | key in st'.status ensures KeyLaw(w, st', key) {
      if Published(w.h, immediate, st', key) {
        var node := FindNode(w.nodes, key.node).value;
        ReadsStable(w, st, st', node);
        SameExplained(w, node, st.results, st'.results, st'.results[key]);
      } else {
        LawKept(w, st, st', key);
      }
    }
  }

  // ---------- skipping ----------

  lemma {:induction false} MarkSkippedEffect(st: RunState, ids: seq<NodeId>)
    ensures var st' := MarkSkipped(st, ids);
            && st'.(status := st.status) == st
            && (forall key :: key in st'.status <==> key in st.status || (key.NodeKey? && key.node in ids))
            && (forall key :: key in st'.status ==>
                  st'.status[key] == if key.NodeKey? && key.node in ids then Skipped else st.status[key])
    decreases |ids|
  {
    if ids != [] {
      MarkSkippedEffect(st, ids[..|ids| - 1]);
      assert ids == ids[..|ids| - 1] + [ids[|ids| - 1]];
    }
  }

  ghost predicate AreDoomed(nodes: seq<Node>, st: RunState, ids: seq<NodeId>) {
    forall id :: id in ids ==> exists k :: 0 <= k < |nodes| && nodes[k].id == id && Doomed(nodes[k], st)
  }

  lemma SkippedIsLawful(w: World, st: RunState, st': RunState, node: Node)
    requires Grows(st, st') && Doomed(node, st) && FindNode(w.nodes, node.id) == Some(node)
    requires Is(st', NodeKey(node.id), Skipped)
    ensures KeyLaw(w, st', NodeKey(node.id))
  {
    var dep :| dep in DependenciesOf(node) && (Is(st, NodeKey(dep), Failed) || Is(st, NodeKey(dep), Skipped));
    assert Is(st', NodeKey(dep), Failed) || Is(st', NodeKey(dep), Skipped);
  }

  lemma SkipStep(w: World, st: RunState, ids: seq<NodeId>)
    requires Inv(w, st) && Schedulable(w.nodes) && AreDoomed(w.nodes, st, ids)
    ensures Inv(w, MarkSkipped(st, ids)) && Grows(st, MarkSkipped(st, ids))
  {
    var st' := MarkSkipped(st, ids);
    MarkSkippedEffect(st, ids);
    forall id | id in ids ensures NodeKey(id) !in st.status {
      var k :| 0 <= k < |w.nodes| && w.nodes[k].id == id && Doomed(w.nodes[k], st);
    }
    assert Grows(st, st');
    forall key | key in st'.status ensures KeyLaw(w, st', key) {
      if key in st.status {
        LawKept(w, st, st', key);
      } else {
        var k :| 0 <= k < |w.nodes| && w.nodes[k].id == key.node && Doomed(w.nodes[k], st);
        FindUnique(w.nodes, w.nodes[k]);
        SkippedIsLawful(w, st, st', w.nodes[k]);
      }
    }
  }

  // ---------- dispatching ----------

  /** `d` is a unit of `node`'s work that may start now. */
  ghost predicate IsUnit(w: World, st: RunState, node: Node, d: Dispatch) {
    var inputs := InputsOf(w.h, w.nodes, node, st.results);
    match node
    case Agent(_, _, _) => d == AgentUnit(w.h, node, inputs)
    case Fanout(_, _, _, _) =>
      var items := Items(w.h, node, st.results);
      && d.itemIndex < |items| && d == FanoutUnit(w.h, node, items[d.itemIndex], d.itemIndex, inputs)
      && !Is(st, ItemKey(node.id, d.itemIndex), Done)
    case Pipeline(_, _, _, stages) =>
      var items := Items(w.h, node, st.results);
      && d.itemIndex < |items| && d.stageIndex.Some? && d.stageIndex.value < |stages|
      && var i, s := d.itemIndex, d.stageIndex.value;
      && d == StageUnit(w.h, node, items[i], i, s, Previous(node, items[i], st.results, i, s), inputs)
      && !Is(st, StageKey(node.id, i, s), Done)
      && forall t: nat :: t < s ==> Is(st, StageKey(node.id, i, t), Done)
    case _ => false
  }

  lemma {:induction false} FanoutUnitMember(w: World, node: Node, st: RunState, k: nat, d: Dispatch)
    requires node.Fanout? && k <= |Items(w.h, node, st.results)| && d in FanoutUnits(w.h, w.nodes, node, st, k)
    ensures IsUnit(w, st, node, d) && d.itemIndex < k
    decreases k
  {
    if d in FanoutUnits(w.h, w.nodes, node, st, k - 1) {
      FanoutUnitMember(w, node, st, k - 1, d);
    }
  }

  lemma {:induction false} PipelineUnitMember(w: World, node: Node, st: RunState, k: nat, d: Dispatch)
    requires node.Pipeline? && k <= |Items(w.h, node, st.results)| && d in PipelineUnits(w.h, w.nodes, node, st, k)
    ensures IsUnit(w, st, node, d) && d.itemIndex < k
    decreases k
  {
    if d in PipelineUnits(w.h, w.nodes, node, st, k - 1) {
      PipelineUnitMember(w, node, st, k - 1, d);
    }
  }

  lemma {:induction false} UnitMember(w: World, st: RunState, k: nat, d: Dispatch) returns (node: Node)
    requires k <= |w.nodes| && d in AllUnits(w.h, w.nodes, st, k)
    ensures node in w.nodes[..k] && node.id == d.nodeId && IsUnit(w, st, node, d)
    ensures Ready(node, st) && ImmediateOf(w.h, node, st).None?
    decreases k
  {
    if d in AllUnits(w.h, w.nodes, st, k - 1) {
      node := UnitMember(w, st, k - 1, d);
    } else {
      node := w.nodes[k - 1];
      if node.Fanout? {
        FanoutUnitMember(w, node, st, |Items(w.h, node, st.results)|, d);
      } else if node.Pipeline? {
        PipelineUnitMember(w, node, st, |Items(w.h, node, st.results)|, d);
      }
    }
  }

  /** Every element of `batch` is a startable unit of a node that has no status. */
  ghost predicate Startable(w: World, st: RunState, batch: seq<Dispatch>) {
    forall d :: d in batch ==> MayStart(w, st, d)
  }

  ghost predicate MayStart(w: World, st: RunState, d: Dispatch) {
    && FindNode(w.nodes, d.nodeId).Some? && NodeKey(d.nodeId) !in st.status
    && var node := FindNode(w.nodes, d.nodeId).value;
    DependenciesSatisfied(node, st) && IsUnit(w, st, node, d)
  }

  lemma UnitSurvives(w: World, st: RunState, st': RunState, node: Node, d: Dispatch)
    requires Inv(w, st) && Grows(st, st') && DependenciesSatisfied(node, st) && IsUnit(w, st, node, d)
    requires forall key: Key :: !key.NodeKey? ==> Untouched(st, st', key)
    ensures IsUnit(w, st', node, d) && DependenciesSatisfied(node, st')
  {
    ReadsStable(w, st, st', node);
    SameInputs(w, node, st.results, st'.results);
    if node.Fanout? {
      assert Untouched(st, st', ItemKey(node.id, d.itemIndex));
    } else if node.Pipeline? {
      var i, s := d.itemIndex, d.stageIndex.value;
      assert Untouched(st, st', StageKey(node.id, i, s));
      assert Untouched(st, st', StageKey(node.id, i, (s as int) - 1));
      forall t: nat | t < s ensures Is(st', StageKey(node.id, i, t), Done) {
        assert Untouched(st, st', StageKey(node.id, i, t));
      }
    }
  }

  /** Publishing other nodes' results leaves the batch startable. */
  lemma BatchStartable(w: World, st: RunState, n: int)
    requires Inv(w, st) && Schedulable(w.nodes)
    ensures var st' := ApplyImmediate(w.h, st, AllImmediate(w.h, w.nodes, st, |w.nodes|));
            Startable(w, st', Take(AllUnits(w.h, w.nodes, st, |w.nodes|), n))
  {
    var immediate := AllImmediate(w.h, w.nodes, st, |w.nodes|);
    var st' := ApplyImmediate(w.h, st, immediate);
    ImmediateStep(w, st);
    forall d | d in Take(AllUnits(w.h, w.nodes, st, |w.nodes|), n) ensures MayStart(w, st', d) {
      var node := UnitMember(w, st, |w.nodes|, d);
      FindUnique(w.nodes, node);
      ReadyHasNoStatus(w, st, node);
      NotPublished(w, st, node);
      SlotsUntouched(w, st);
      UnitSurvives(w, st, st', node, d);
    }
  }

  lemma SlotsUntouched(w: World, st: RunState)
    ensures var st' := ApplyImmediate(w.h, st, AllImmediate(w.h, w.nodes, st, |w.nodes|));
            forall key: Key :: !key.NodeKey? ==> Untouched(st, st', key)
  {
    var immediate := AllImmediate(w.h, w.nodes, st, |w.nodes|);
    ApplyImmediateEffect(w.h, st, immediate);
  }

  /** A node with work of its own publishes nothing in the same batch. */
  lemma NotPublished(w: World, st: RunState, node: Node)
    requires Inv(w, st) && Schedulable(w.nodes) && node in w.nodes
    requires NodeKey(node.id) !in st.status && ImmediateOf(w.h, node, st).None?
    ensures NodeKey(node.id) !in ApplyImmediate(w.h, st, AllImmediate(w.h, w.nodes, st, |w.nodes|)).status
  {
    var immediate := AllImmediate(w.h, w.nodes, st, |w.nodes|);
    ApplyImmediateEffect(w.h, st, immediate);
    FindUnique(w.nodes, node);
    forall e | e in immediate ensures e.0 != node.id {
      var other := ImmediateMember(w.h, w.nodes, st, |w.nodes|, e);
      FindUnique(w.nodes, other);
    }
    var st' := ApplyImmediate(w.h, st, immediate);
    assert Published(w.h, immediate, st', NodeKey(node.id)) || Untouched(st, st', NodeKey(node.id));
  }

  // ---------- settling ----------

  /** What may come back for a batch: a worker's success is the value of its dispatch. */
  ghost predicate Outcome(w: World, batch: seq<Dispatch>, settled: seq<Settled>) {
    && |settled| == |batch|
    && forall k :: 0 <= k < |batch| ==>
         settled[k].dispatch == batch[k] &&
         (settled[k].result.ok && w.functional ==> settled[k].result.value == w.work(batch[k]))
  }

  ghost predicate Succeeded(settled: seq<Settled>, st: RunState, key: Key) {
    exists k :: 0 <= k < |settled| && settled[k].result.ok && key == ResultKey(settled[k].dispatch) &&
      Is(st, key, Done) && key in st.results && st.results[key] == settled[k].result.value
  }

  ghost predicate FailedAt(settled: seq<Settled>, st: RunState, key: Key) {
    exists k :: 0 <= k < |settled| && !settled[k].result.ok && Is(st, key, Failed) &&
      (key == ResultKey(settled[k].dispatch) || key == NodeKey(settled[k].dispatch.nodeId))
  }

  ghost predicate Closed(settled: seq<Settled>, st: RunState) {
    forall k :: 0 <= k < |settled| ==>
      ResultKey(settled[k].dispatch) in st.status &&
      (!settled[k].result.ok ==> NodeKey(settled[k].dispatch.nodeId) in st.status)
  }

  /** A dispatch of an agent node is stored under the node's own key. */
  ghost predicate AgentsUseNodeKey(nodes: seq<Node>, settled: seq<Settled>) {
    forall k :: 0 <= k < |settled| && IsTerminalForNode(nodes, settled[k].dispatch) ==>
      ResultKey(settled[k].dispatch) == NodeKey(settled[k].dispatch.nodeId)
  }

  lemma {:induction false} SettleEffect(nodes: seq<Node>, st: RunState, settled: seq<Settled>)
    requires AgentsUseNodeKey(nodes, settled)
    ensures var st' := SettleAll(nodes, st, settled);
            && Closed(settled, st')
            && forall key :: Succeeded(settled, st', key) || FailedAt(settled, st', key) || Untouched(st, st', key)
    decreases |settled|
  {
    if settled != [] {
      var front, last := settled[..|settled| - 1], settled[|settled| - 1];
      var mid, st' := SettleAll(nodes, st, front), SettleAll(nodes, st, settled);
      assert settled[|settled| - 1] == last;
      SettleEffect(nodes, st, front);
      forall key ensures Succeeded(settled, st', key) || FailedAt(settled, st', key) || Untouched(st, st', key) {
        if key == ResultKey(last.dispatch) || (!last.result.ok && key == NodeKey(last.dispatch.nodeId)) {
        } else {
          assert Untouched(mid, st', key);
          if Succeeded(front, mid, key) {
            var k :| 0 <= k < |front| && front[k].result.ok && key == ResultKey(front[k].dispatch) &&
                     mid.results[key] == front[k].result.value;
            assert settled[k] == front[k];
          } else if FailedAt(front, mid, key) {
            var k :| 0 <= k < |front| && !front[k].result.ok &&
                     (key == ResultKey(front[k].dispatch) || key == NodeKey(front[k].dispatch.nodeId));
            assert settled[k] == front[k];
          }
        }
      }
      forall k | 0 <= k < |settled|
        ensures ResultKey(settled[k].dispatch) in st'.status
        ensures !settled[k].result.ok ==> NodeKey(settled[k].dispatch.nodeId) in st'.status
      {
        if k < |front| {
          assert settled[k] == front[k];
        }
      }
    }
  }

  lemma UnitIsFresh(w: World, st: RunState, d: Dispatch)
    requires Inv(w, st) && MayStart(w, st, d)
    ensures ResultKey(d) !in st.status && NodeKey(d.nodeId) !in st.status
    ensures IsTerminalForNode(w.nodes, d) ==> ResultKey(d) == NodeKey(d.nodeId)
  {
    assert ResultKey(d) in st.status ==> KeyLaw(w, st, ResultKey(d));
  }

  lemma StartableFacts(w: World, st: RunState, batch: seq<Dispatch>, settled: seq<Settled>)
    requires Inv(w, st) && Startable(w, st, batch) && Outcome(w, batch, settled)
    ensures AgentsUseNodeKey(w.nodes, settled)
    ensures forall k :: 0 <= k < |settled| ==>
              ResultKey(settled[k].dispatch) !in st.status && NodeKey(settled[k].dispatch.nodeId) !in st.status
  {
    forall k | 0 <= k < |settled|
      ensures IsTerminalForNode(w.nodes, settled[k].dispatch) ==>
                ResultKey(settled[k].dispatch) == NodeKey(settled[k].dispatch.nodeId)
      ensures ResultKey(settled[k].dispatch) !in st.status && NodeKey(settled[k].dispatch.nodeId) !in st.status
    {
      assert batch[k] in batch;
      UnitIsFresh(w, st, batch[k]);
    }
  }

  /** The settled key of a successful unit is lawful. */
  lemma SuccessIsLawful(w: World, st: RunState, st': RunState, d: Dispatch)
    requires Inv(w, st) && MayStart(w, st, d) && Grows(st, st')
    requires Is(st', ResultKey(d), Done) && ResultKey(d) in st'.results
    requires w.functional ==> st'.results[ResultKey(d)] == w.work(d)
    ensures KeyLaw(w, st', ResultKey(d))
  {
    var node := FindNode(w.nodes, d.nodeId).value;
    ReadsStable(w, st, st', node);
    SameInputs(w, node, st.results, st'.results);
    if node.Fanout? || node.Pipeline? {
      var items := Items(w.h, node, st'.results);
      var i := d.itemIndex;
      assert StageKey(node.id, i, 0) in st.status ==> KeyLaw(w, st, StageKey(node.id, i, 0));
      if items[i] == Undefined {
        assert HasUndefined(items);
        assert w.functional ==> RawItemValue(w, node, st'.results, st'.results[ResultKey(d)]);
      } else if node.Pipeline? && d.stageIndex.value > 0 {
        var previous := StageKey(node.id, i, d.stageIndex.value - 1);
        assert Is(st, previous, Done);
        assert KeyLaw(w, st, previous);
      }
    }
  }

  lemma SuccessStep(w: World, st: RunState, st': RunState, batch: seq<Dispatch>, settled: seq<Settled>, key: Key)
    requires Inv(w, st) && Startable(w, st, batch) && Outcome(w, batch, settled) && Grows(st, st')
    requires Succeeded(settled, st', key)
    ensures key in st'.status && KeyLaw(w, st', key)
  {
    var k :| 0 <= k < |settled| && settled[k].result.ok && key == ResultKey(settled[k].dispatch) &&
             st'.results[key] == settled[k].result.value;
    assert batch[k] in batch;
    SuccessIsLawful(w, st, st', batch[k]);
  }

  lemma FailedUnitIsLawful(w: World, st: RunState, st': RunState, d: Dispatch, key: Key)
    requires Inv(w, st) && MayStart(w, st, d) && Grows(st, st')
    requires Is(st', key, Failed) && NodeKey(d.nodeId) in st'.status
    requires key == ResultKey(d) || key == NodeKey(d.nodeId)
    ensures KeyLaw(w, st', key)
  {
    var node := FindNode(w.nodes, d.nodeId).value;
    ReadsStable(w, st, st', node);
    SameInputs(w, node, st.results, st'.results);
    if key.StageKey? && key.stage > 0 {
      assert Is(st, StageKey(node.id, d.itemIndex, key.stage - 1), Done);
    }
  }

  lemma FailureStep(w: World, st: RunState, st': RunState, batch: seq<Dispatch>, settled: seq<Settled>, key: Key)
    requires Inv(w, st) && Startable(w, st, batch) && Outcome(w, batch, settled) && Grows(st, st')
    requires Closed(settled, st') && FailedAt(settled, st', key)
    ensures key in st'.status && KeyLaw(w, st', key)
  {
    var k :| 0 <= k < |settled| && !settled[k].result.ok &&
             (key == ResultKey(settled[k].dispatch) || key == NodeKey(settled[k].dispatch.nodeId));
    assert batch[k] in batch;
    FailedUnitIsLawful(w, st, st', batch[k], key);
  }

  /** Whatever the workers return, a settled batch leaves every status lawful. */
  lemma SettleStep(w: World, st: RunState, batch: seq<Dispatch>, settled: seq<Settled>)
    requires Inv(w, st) && Startable(w, st, batch) && Outcome(w, batch, settled)
    ensures var st' := SettleAll(w.nodes, st, settled); Inv(w, st') && Grows(st, st') && Closed(settled, st')
  {
    var st' := SettleAll(w.nodes, st, settled);
    StartableFacts(w, st, batch, settled);
    SettleEffect(w.nodes, st, settled);
    SettleGrows(st, st', settled);
    forall key | key in st'.status ensures KeyLaw(w, st', key) {
      if Succeeded(settled, st', key) {
        SuccessStep(w, st, st', batch, settled, key);
      } else if FailedAt(settled, st', key) {
        FailureStep(w, st, st', batch, settled, key);
      } else {
        LawKept(w, st, st', key);
      }
    }
  }

  lemma SettleGrows(st: RunState, st': RunState, settled: seq<Settled>)
    requires forall k :: 0 <= k < |settled| ==>
               ResultKey(settled[k].dispatch) !in st.status && NodeKey(settled[k].dispatch.nodeId) !in st.status
    requires forall key :: Succeeded(settled, st', key) || FailedAt(settled, st', key) || Untouched(st, st', key)
    ensures Grows(st, st')
  {
    forall key | key in st.status ensures Untouched(st, st', key) {
      assert !Succeeded(settled, st', key) && !FailedAt(settled, st', key);
    }
  }
}
