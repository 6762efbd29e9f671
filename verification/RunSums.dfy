/**
 Sums over the nodes of a plan.
 */
module RunSums {
  import opened PlanSchema
  import opened Upstream
  import opened PlanGraph
  import opened RunInvariant
  import opened RunBudget

  ghost function AgentIds(nodes: seq<Node>): set<NodeId> {
    set n | n in nodes && n.Agent? :: n.id
  }

  /** The sum of `f` over the nodes whose id is in `ids`. */
  ghost function SumOver(nodes: seq<Node>, f: NodeId -> nat, ids: set<NodeId>): nat {
    if nodes == [] then 0
    else
      SumOver(nodes[..|nodes| - 1], f, ids) +
      if nodes[|nodes| - 1].id in ids then f(nodes[|nodes| - 1].id) else 0
  }

  lemma {:induction false} SumUnion(nodes: seq<Node>, f: NodeId -> nat, a: set<NodeId>, b: set<NodeId>)
    requires a !! b
    ensures SumOver(nodes, f, a + b) == SumOver(nodes, f, a) + SumOver(nodes, f, b)
    decreases |nodes|
  {
    if nodes != [] {
      SumUnion(nodes[..|nodes| - 1], f, a, b);
    }
  }

  lemma SumSubset(nodes: seq<Node>, f: NodeId -> nat, a: set<NodeId>, b: set<NodeId>)
    requires a <= b
    ensures SumOver(nodes, f, a) <= SumOver(nodes, f, b)
  {
    SumUnion(nodes, f, a, b - a);
    assert a + (b - a) == b;
  }

  lemma {:induction false} SumSame(nodes: seq<Node>, f: NodeId -> nat, g: NodeId -> nat, ids: set<NodeId>)
    requires forall n :: n in nodes && n.id in ids ==> f(n.id) == g(n.id)
    ensures SumOver(nodes, f, ids) == SumOver(nodes, g, ids)
    decreases |nodes|
  {
    if nodes != [] {
      SumSame(nodes[..|nodes| - 1], f, g, ids);
    }
  }

  lemma {:induction false} SumElsewhere(nodes: seq<Node>, f: NodeId -> nat, a: set<NodeId>, b: set<NodeId>)
    requires forall n :: n in nodes ==> (n.id in a <==> n.id in b)
    ensures SumOver(nodes, f, a) == SumOver(nodes, f, b)
    decreases |nodes|
  {
    if nodes != [] {
      SumElsewhere(nodes[..|nodes| - 1], f, a, b);
    }
  }

  lemma FrontIsUnique(nodes: seq<Node>)
    requires UniqueIds(nodes) && nodes != []
    ensures UniqueIds(nodes[..|nodes| - 1])
  {
  }

  lemma LastIsNew(nodes: seq<Node>)
    requires UniqueIds(nodes) && nodes != []
    ensures forall n :: n in nodes[..|nodes| - 1] ==> n.id != nodes[|nodes| - 1].id
    ensures Ids(nodes) == Ids(nodes[..|nodes| - 1]) + {nodes[|nodes| - 1].id}
    ensures nodes[|nodes| - 1].id !in Ids(nodes[..|nodes| - 1])
  {
    assert nodes == nodes[..|nodes| - 1] + [nodes[|nodes| - 1]];
  }

  lemma {:induction false} SumSingle(nodes: seq<Node>, f: NodeId -> nat, id: NodeId)
    requires UniqueIds(nodes) && id in Ids(nodes)
    ensures SumOver(nodes, f, {id}) == f(id)
    decreases |nodes|
  {
    var front, last := nodes[..|nodes| - 1], nodes[|nodes| - 1];
    LastIsNew(nodes);
    if last.id == id {
      SumElsewhere(front, f, {id}, {});
      SumNothing(front, f);
    } else {
      SumSingle(front, f, id);
    }
  }

  lemma {:induction false} SumNothing(nodes: seq<Node>, f: NodeId -> nat)
    ensures SumOver(nodes, f, {}) == 0
    decreases |nodes|
  {
    if nodes != [] {
      SumNothing(nodes[..|nodes| - 1], f);
    }
  }

  /** At least one each makes at least as many as there are. */
  lemma {:induction false} SumCounts(nodes: seq<Node>, f: NodeId -> nat, ids: set<NodeId>)
    requires UniqueIds(nodes) && ids <= Ids(nodes) && forall id :: id in ids ==> f(id) >= 1
    ensures |ids| <= SumOver(nodes, f, ids)
    ensures (forall id :: id in ids ==> f(id) == 1) ==> |ids| == SumOver(nodes, f, ids)
    decreases |nodes|
  {
    if nodes == [] {
      assert ids == {};
    } else {
      hide UniqueIds, Ids;
      var front, last := nodes[..|nodes| - 1], nodes[|nodes| - 1];
      FrontIsUnique(nodes);
      LastIsNew(nodes);
      var rest := ids - {last.id};
      SumCounts(front, f, rest);
      SumElsewhere(front, f, ids, rest);
      if last.id in ids {
        assert ids == rest + {last.id};
      }
    }
  }

  /** The dispatches of different nodes sum as their nodes do. */
  lemma BatchSum(nodes: seq<Node>, f: NodeId -> nat, front: seq<Dispatch>, last: Dispatch)
    requires UniqueIds(nodes) && last.nodeId in Ids(nodes) && last.nodeId !in BatchNodes(front)
    ensures SumOver(nodes, f, BatchNodes(front + [last])) == SumOver(nodes, f, BatchNodes(front)) + f(last.nodeId)
  {
    assert forall d :: d in front + [last] <==> d in front || d == last;
    assert BatchNodes(front + [last]) == BatchNodes(front) + {last.nodeId};
    SumUnion(nodes, f, BatchNodes(front), {last.nodeId});
    SumSingle(nodes, f, last.nodeId);
  }

  lemma SumSplit(nodes: seq<Node>, f: NodeId -> nat, ids: set<NodeId>, id: NodeId)
    requires UniqueIds(nodes) && ids <= Ids(nodes)
    ensures SumOver(nodes, f, ids) == SumOver(nodes, f, ids - {id}) + if id in ids then f(id) else 0
  {
    if id in ids {
      SumUnion(nodes, f, ids - {id}, {id});
      SumSingle(nodes, f, id);
      assert ids - {id} + {id} == ids;
    } else {
      assert ids - {id} == ids;
    }
  }

  lemma {:induction false} SumZero(nodes: seq<Node>, f: NodeId -> nat, ids: set<NodeId>)
    requires forall id :: id in ids ==> f(id) == 0
    ensures SumOver(nodes, f, ids) == 0
    decreases |nodes|
  {
    if nodes != [] {
      SumZero(nodes[..|nodes| - 1], f, ids);
    }
  }
}
