/**
 What a run computes does not depend on how it was scheduled: every finished
 node holds the value of the direct recursive evaluation of the plan, whatever
 the caps, the retries and the order in which workers settled. The one
 exception the code has, a collection with an `undefined` item, is exact.
 */
module RunMeaning {
  import opened PlanSchema
  import opened Upstream
  import opened PlanGraph
  import opened RunInvariant
  import opened RunSteps
  import opened RunProgress

  ghost function LowerKeys(w: World, rank: map<NodeId, nat>, id: NodeId): set<Key>
    requires id in rank
  {
    set n | n in w.nodes && n.id in rank && rank[n.id] < rank[id] :: NodeKey(n.id)
  }

  /** The direct recursive evaluation of a node. */
  ghost function ValueOf(w: World, rank: map<NodeId, nat>, id: NodeId): Value
    requires id in rank && FindNode(w.nodes, id).Some?
    decreases rank[id], 1
  {
    NodeValue(w, FindNode(w.nodes, id).value, LowerValues(w, rank, id))
  }

  ghost function LowerValues(w: World, rank: map<NodeId, nat>, id: NodeId): Results
    requires id in rank
    decreases rank[id], 0
  {
    map key | key in LowerKeys(w, rank, id) :: ValueOf(w, rank, key.node)
  }

  /** The node is no collection that evaluates to one with an undefined item. */
  ghost predicate CleanAt(w: World, rank: map<NodeId, nat>, id: NodeId) {
    id in rank && FindNode(w.nodes, id).Some? ==>
      !Hijackable(w, FindNode(w.nodes, id).value, LowerValues(w, rank, id))
  }

  /** Nothing the node depends on, however far, is one. */
  ghost predicate CleanBelow(w: World, rank: map<NodeId, nat>, id: NodeId) {
    forall p, m :: DependsThrough(w.nodes, id, p, m) ==> CleanAt(w, rank, m)
  }

  lemma PathsJoin(nodes: seq<Node>, u: NodeId, p: seq<NodeId>, v: NodeId, q: seq<NodeId>, x: NodeId)
    requires DependsThrough(nodes, u, p, v) && DependsThrough(nodes, v, q, x)
    ensures DependsThrough(nodes, u, p + q[1..], x)
  {
    var all := p + q[1..];
    forall k | 0 <= k < |all| - 1
      ensures FindNode(nodes, all[k]).Some? && all[k + 1] in DependenciesOf(FindNode(nodes, all[k]).value)
    {
      if k < |p| - 1 {
        assert all[k] == p[k] && all[k + 1] == p[k + 1];
      } else {
        var j := k - (|p| - 1);
        assert all[k] == q[j] && all[k + 1] == q[j + 1];
      }
    }
  }

  lemma CleanFurtherDown(w: World, rank: map<NodeId, nat>, id: NodeId, p: seq<NodeId>, m: NodeId)
    requires CleanBelow(w, rank, id) && DependsThrough(w.nodes, id, p, m)
    ensures CleanBelow(w, rank, m) && CleanAt(w, rank, m)
  {
    hide CleanAt;
    forall q, x | DependsThrough(w.nodes, m, q, x) ensures CleanAt(w, rank, x) {
      PathsJoin(w.nodes, id, p, m, q, x);
      assert DependsThrough(w.nodes, id, p + q[1..], x);
    }
  }

  /** What a node reads it depends on, be it behind barriers. */
  lemma ReadIsBelow(w: World, node: Node, ref: Ref) returns (p: seq<NodeId>)
    requires FindNode(w.nodes, node.id) == Some(node)
    requires ref in RefsOf(node) || ref in UpstreamRefs(w.nodes, node.needs)
    ensures DependsThrough(w.nodes, node.id, p, ref.node)
  {
    if ref in RefsOf(node) {
      DependencyOfRef(node, ref);
      p := [node.id, ref.node];
    } else {
      UpstreamExact(w.nodes, node.needs);
      var chain :| Chain(w.nodes, node.needs, chain) && chain[|chain| - 1] == ref;
      p := ChainPath(w, node, chain);
    }
  }

  lemma ChainPath(w: World, node: Node, chain: seq<Ref>) returns (p: seq<NodeId>)
    requires FindNode(w.nodes, node.id) == Some(node) && Chain(w.nodes, node.needs, chain)
    ensures DependsThrough(w.nodes, node.id, p, chain[|chain| - 1].node)
  {
    p := [node.id] + seq(|chain|, k requires 0 <= k < |chain| => chain[k].node);
    forall k | 0 <= k < |p| - 1
      ensures FindNode(w.nodes, p[k]).Some? && p[k + 1] in DependenciesOf(FindNode(w.nodes, p[k]).value)
    {
      assert p[k + 1] == chain[k].node;
      if k == 0 {
        assert chain[0] in RefsOf(node);
        DependencyOfRef(node, chain[0]);
        assert p[0] == node.id && chain[0].node in DependenciesOf(node);
      } else {
        assert p[k] == chain[k - 1].node;
        assert IsBarrier(w.nodes, chain[k - 1]) && chain[k - 1 + 1] in Members(w.nodes, chain[k - 1]);
        var barrier := FindNode(w.nodes, chain[k - 1].node).value;
        assert chain[k] in RefsOf(barrier);
        DependencyOfRef(barrier, chain[k]);
        assert chain[k].node in DependenciesOf(barrier);
      }
    }
  }

  lemma {:induction false} ChainRankDrops(w: World, rank: map<NodeId, nat>, node: Node, p: seq<Ref>)
    requires Schedulable(w.nodes) && Ranks(GraphOf(w.nodes), rank) && node in w.nodes
    requires Chain(w.nodes, node.needs, p)
    ensures node.id in rank && p[|p| - 1].node in rank && rank[p[|p| - 1].node] < rank[node.id]
    decreases |p|
  {
    var last := p[|p| - 1];
    if |p| == 1 {
      assert last in RefsOf(node);
      DependencyOfRef(node, last);
      RankDrops(w.nodes, rank, node, last.node);
    } else {
      var front := p[..|p| - 1];
      var mid := front[|front| - 1];
      ChainRankDrops(w, rank, node, front);
      assert IsBarrier(w.nodes, mid) && last in Members(w.nodes, mid);
      var barrier := FindNode(w.nodes, mid.node).value;
      assert last in RefsOf(barrier);
      DependencyOfRef(barrier, last);
      RankDrops(w.nodes, rank, barrier, last.node);
    }
  }

  lemma ReadsAreLower(w: World, rank: map<NodeId, nat>, node: Node, ref: Ref)
    requires Schedulable(w.nodes) && Ranks(GraphOf(w.nodes), rank) && node in w.nodes
    requires ref in RefsOf(node) || ref in UpstreamRefs(w.nodes, node.needs)
    ensures node.id in rank && ref.node in rank && rank[ref.node] < rank[node.id]
  {
    if ref in RefsOf(node) {
      DependencyOfRef(node, ref);
      RankDrops(w.nodes, rank, node, ref.node);
    } else {
      UpstreamExact(w.nodes, node.needs);
      var p :| Chain(w.nodes, node.needs, p) && p[|p| - 1] == ref;
      ChainRankDrops(w, rank, node, p);
    }
  }

  /**
   In every reachable state, a finished node below which all is clean is explained
   by the values of the nodes it reads, and holds its own value if it is clean too.
   */
  lemma {:induction false} FinishedNodeHoldsValue(w: World, rank: map<NodeId, nat>, st: RunState, id: NodeId)
    requires Inv(w, st) && Schedulable(w.nodes) && Ranks(GraphOf(w.nodes), rank) && CleanBelow(w, rank, id)
    requires w.functional && Is(st, NodeKey(id), Done)
    ensures FindNode(w.nodes, id).Some? && id in rank && NodeKey(id) in st.results
    ensures Explained(w, FindNode(w.nodes, id).value, LowerValues(w, rank, id), st.results[NodeKey(id)])
    ensures CleanAt(w, rank, id) ==> st.results[NodeKey(id)] == ValueOf(w, rank, id)
    decreases if id in rank then rank[id] else 0
  {
    hide CleanBelow, DependsThrough;
    DoneHasResult(w, st, id);
    var node := FindNode(w.nodes, id).value;
    DeclaredHasRank(w, rank, node);
    forall ref | ref in RefsOf(node) || ref in UpstreamRefs(w.nodes, node.needs)
      ensures ResolveRef(w.h, ref, st.results) == ResolveRef(w.h, ref, LowerValues(w, rank, id))
    {
      ReadsAreLower(w, rank, node, ref);
      UpstreamIsDone(w, st, node, ref);
      var p := ReadIsBelow(w, node, ref);
      CleanFurtherDown(w, rank, id, p, ref.node);
      FinishedNodeHoldsValue(w, rank, st, ref.node);
      LowerResolves(w, rank, st, id, ref);
    }
    AgreementGivesValue(w, rank, st, node);
  }

  lemma LowerResolves(w: World, rank: map<NodeId, nat>, st: RunState, id: NodeId, ref: Ref)
    requires id in rank && ref.node in rank && rank[ref.node] < rank[id]
    requires FindNode(w.nodes, ref.node).Some? && NodeKey(ref.node) in st.results
    requires st.results[NodeKey(ref.node)] == ValueOf(w, rank, ref.node)
    ensures ResolveRef(w.h, ref, st.results) == ResolveRef(w.h, ref, LowerValues(w, rank, id))
  {
    assert NodeKey(FindNode(w.nodes, ref.node).value.id) in LowerKeys(w, rank, id);
  }

  lemma AgreementGivesValue(w: World, rank: map<NodeId, nat>, st: RunState, node: Node)
    requires Inv(w, st) && FindNode(w.nodes, node.id) == Some(node) && node.id in rank
    requires w.functional && Is(st, NodeKey(node.id), Done)
    requires ReadsAgree(w, node, st.results, LowerValues(w, rank, node.id))
    ensures NodeKey(node.id) in st.results
    ensures Explained(w, node, LowerValues(w, rank, node.id), st.results[NodeKey(node.id)])
    ensures CleanAt(w, rank, node.id) ==> st.results[NodeKey(node.id)] == ValueOf(w, rank, node.id)
  {
    DoneIsExplained(w, st, node);
    SameExplained(w, node, st.results, LowerValues(w, rank, node.id), st.results[NodeKey(node.id)]);
  }

  lemma DeclaredHasRank(w: World, rank: map<NodeId, nat>, node: Node)
    requires Ranks(GraphOf(w.nodes), rank) && node in w.nodes
    ensures node.id in rank
  {
    var k :| 0 <= k < |w.nodes| && w.nodes[k] == node;
  }

  lemma DoneIsExplained(w: World, st: RunState, node: Node)
    requires Inv(w, st) && FindNode(w.nodes, node.id) == Some(node) && Is(st, NodeKey(node.id), Done)
    ensures NodeKey(node.id) in st.results
    ensures w.functional ==> Explained(w, node, st.results, st.results[NodeKey(node.id)])
  {
    assert KeyLaw(w, st, NodeKey(node.id));
  }

  /** Two runs of one plan, under any caps and schedules, agree on every node both finished. */
  lemma RunsAgree(w: World, rank: map<NodeId, nat>, st: RunState, st': RunState, id: NodeId)
    requires Inv(w, st) && Inv(w, st') && Schedulable(w.nodes) && Ranks(GraphOf(w.nodes), rank)
    requires CleanBelow(w, rank, id) && CleanAt(w, rank, id)
    requires w.functional && Is(st, NodeKey(id), Done) && Is(st', NodeKey(id), Done)
    ensures NodeKey(id) in st.results && NodeKey(id) in st'.results
    ensures st.results[NodeKey(id)] == st'.results[NodeKey(id)]
  {
    FinishedNodeHoldsValue(w, rank, st, id);
    FinishedNodeHoldsValue(w, rank, st', id);
  }

  // ---------- the exact exception ----------

  /** A unit of a collection is stored over its whole node exactly when its item is undefined. */
  lemma UnitOverwritesNodeExactly(w: World, st: RunState, d: Dispatch)
    requires MayStart(w, st, d)
    requires var node := FindNode(w.nodes, d.nodeId).value; node.Fanout? || node.Pipeline?
    ensures var items := Items(w.h, FindNode(w.nodes, d.nodeId).value, st.results);
            d.itemIndex < |items| &&
            (ResultKey(d) == NodeKey(d.nodeId) <==> items[d.itemIndex] == Undefined)
  {
  }

  /**
   A finished collection node is the in-order aggregate if and only if no item is
   undefined; otherwise it is the raw result of one undefined item's worker, and
   its aggregate never forms.
   */
  lemma CollectionResultExactly(w: World, st: RunState, node: Node)
    requires Inv(w, st) && Schedulable(w.nodes) && node in w.nodes && (node.Fanout? || node.Pipeline?)
    requires w.functional && Is(st, NodeKey(node.id), Done)
    ensures NodeKey(node.id) in st.results
    ensures var v := st.results[NodeKey(node.id)];
            if HasUndefined(Items(w.h, node, st.results))
            then RawItemValue(w, node, st.results, v) && !AllItemsDone(w.h, node, st)
            else v == NodeValue(w, node, st.results)
  {
    FindUnique(w.nodes, node);
    DoneIsExplained(w, st, node);
    if AllItemsDone(w.h, node, st) {
      AggregateIsValue(w, st, node);
    }
  }
}
