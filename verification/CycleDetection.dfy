/**
 Depth-first cycle detection of extensions/agenda/plan-schema.ts, in its own
 form: marks and issues mutated by a recursive visit.
 */
module CycleDetection {
  import opened PlanSchema

  datatype Mark = Visiting | Done

  datatype CycleIssue = CycleIssue(nodeId: NodeId, path: seq<NodeId>)

  ghost predicate RealIssue(g: Graph, issue: CycleIssue) {
    IsCycle(g, issue.path) && issue.path[0] == issue.nodeId
  }

  /** Ranks strictly drop along a path. */
  lemma {:induction false} RankDropsAlongPath(g: Graph, rank: map<NodeId, nat>, p: seq<NodeId>)
    requires Ranks(g, rank) && IsPath(g, p) && |p| > 1
    ensures p[0] in rank && p[|p| - 1] in rank && rank[p[|p| - 1]] < rank[p[0]]
    decreases |p|
  {
    assert Edge(g, p[0], p[1]);
    if |p| > 2 {
      var tail := p[1..];
      forall k | 0 <= k < |tail| - 1 ensures Edge(g, tail[k], tail[k + 1]) {
        assert Edge(g, p[k + 1], p[k + 2]);
      }
      RankDropsAlongPath(g, rank, tail);
    }
  }

  lemma CycleRefutesRanks(g: Graph, p: seq<NodeId>)
    requires IsCycle(g, p)
    ensures !Acyclic(g)
  {
    if rank :| Ranks(g, rank) {
      RankDropsAlongPath(g, rank, p);
    }
  }

  function IndexOf(s: seq<NodeId>, id: NodeId): (k: nat)
    requires id in s
    ensures k < |s| && s[k] == id && id !in s[..k]
  {
    if s[0] == id then 0
    else
      var k := 1 + IndexOf(s[1..], id);
      assert s[..k] == [s[0]] + s[1..][..k - 1];
      k
  }

  lemma {:induction false} FirstIndexBefore(s: seq<NodeId>, id: NodeId, k: nat)
    requires k <= |s| && id in s[..k]
    ensures IndexOf(s, id) < k
  {
    var j :| 0 <= j < k && s[j] == id;
    if s[0] != id {
      assert s[1..][..k - 1][j - 1] == id;
      FirstIndexBefore(s[1..], id, k - 1);
    }
  }

  /** `order` lists finished nodes so that every edge leads to an earlier one. */
  ghost predicate Topological(g: Graph, order: seq<NodeId>) {
    forall k, v :: 0 <= k < |order| && Edge(g, order[k], v) ==> v in order[..k]
  }

  lemma TopologicalGivesRanks(g: Graph, order: seq<NodeId>)
    requires Topological(g, order) && forall id :: id in g ==> id in order
    ensures Acyclic(g)
  {
    var rank: map<NodeId, nat> := map id | id in g :: IndexOf(order, id);
    forall u, v | Edge(g, u, v) ensures rank[v] < rank[u] {
      FirstIndexBefore(order, v, IndexOf(order, u));
    }
    assert Ranks(g, rank);
  }

  /** Visiting nodes are exactly the stack; done nodes are exactly the order; marks are declared. */
  ghost predicate Marks(g: Graph, state: map<NodeId, Mark>, order: seq<NodeId>, stack: seq<NodeId>) {
    && state.Keys <= g.Keys
    && (forall id :: id in state && state[id] == Visiting <==> id in stack)
    && (forall id :: id in state && state[id] == Done <==> id in order)
  }

  /** Done nodes are closed under edges, up to the nodes still on the stack; issues are real. */
  ghost predicate Closed(g: Graph, order: seq<NodeId>, stack: seq<NodeId>, issues: seq<CycleIssue>) {
    && (forall u, v :: u in order && Edge(g, u, v) ==> v in order || v in stack)
    && (issues == [] ==> Topological(g, order))
    && (forall issue :: issue in issues ==> RealIssue(g, issue))
  }

  /** The first `done` dependencies of `id` have been visited. */
  ghost predicate DepsVisited(g: Graph, deps: seq<NodeId>, done: nat, order: seq<NodeId>, stack: seq<NodeId>,
                              issues: seq<CycleIssue>) {
    forall j :: 0 <= j < done && j < |deps| && deps[j] in g ==>
      deps[j] in order || (deps[j] in stack && issues != [])
  }

  /** One dependency more, after a visit that only added. */
  lemma DepVisited(g: Graph, deps: seq<NodeId>, i: nat, order: seq<NodeId>, order': seq<NodeId>, stack: seq<NodeId>,
                   issues: seq<CycleIssue>, issues': seq<CycleIssue>)
    requires i < |deps| && DepsVisited(g, deps, i, order, stack, issues) && order <= order' && issues <= issues'
    requires deps[i] in g ==> deps[i] in order' || (deps[i] in stack && issues' != [])
    ensures DepsVisited(g, deps, i + 1, order', stack, issues')
  {
  }

  lemma ReportKeeps(g: Graph, order: seq<NodeId>, stack: seq<NodeId>, issues: seq<CycleIssue>, issue: CycleIssue)
    requires Closed(g, order, stack, issues) && RealIssue(g, issue)
    ensures Closed(g, order, stack, issues + [issue])
  {
  }

  lemma ExtendPath(g: Graph, path: seq<NodeId>, id: NodeId)
    requires IsPath(g, path) && Edge(g, path[|path| - 1], id)
    ensures IsPath(g, path + [id])
  {
    var p := path + [id];
    forall k | 0 <= k < |p| - 1 ensures Edge(g, p[k], p[k + 1]) {
      if k < |path| - 1 {
        assert p[k] == path[k] && p[k + 1] == path[k + 1];
      }
    }
  }

  /** Meeting a node of the stack again closes a real cycle. */
  lemma StackCycle(g: Graph, stack: seq<NodeId>, id: NodeId)
    requires IsPath(g, stack + [id]) && id in stack
    ensures RealIssue(g, CycleIssue(id, stack[IndexOf(stack, id)..] + [id]))
  {
    var k := IndexOf(stack, id);
    var p, cycle := stack + [id], stack[k..] + [id];
    forall j | 0 <= j < |cycle| - 1 ensures Edge(g, cycle[j], cycle[j + 1]) {
      assert p[k + j] == cycle[j] && p[k + j + 1] == cycle[j + 1];
    }
  }

  lemma PushVisiting(g: Graph, state: map<NodeId, Mark>, order: seq<NodeId>, stack: seq<NodeId>,
                     issues: seq<CycleIssue>, id: NodeId)
    requires Marks(g, state, order, stack) && Closed(g, order, stack, issues)
    requires id in g && id !in state
    ensures Marks(g, state[id := Visiting], order, stack + [id])
    ensures Closed(g, order, stack + [id], issues)
  {
  }

  lemma PopDone(g: Graph, state: map<NodeId, Mark>, order: seq<NodeId>, stack: seq<NodeId>,
                issues: seq<CycleIssue>, id: NodeId)
    requires Marks(g, state, order, stack + [id]) && Closed(g, order, stack + [id], issues)
    requires id in g && id !in stack && DepsVisited(g, g[id], |g[id]|, order, stack + [id], issues)
    ensures Marks(g, state[id := Done], order + [id], stack)
    ensures Closed(g, order + [id], stack, issues)
  {
    var path := stack + [id];
    var after := order + [id];
    forall u, v | u in after && Edge(g, u, v) ensures v in after || v in stack {
      assert v in order || v in path;
    }
    if issues == [] {
      forall k, v | 0 <= k < |after| && Edge(g, after[k], v) ensures v in after[..k] {
        if k < |order| {
          assert after[..k] == order[..k];
        } else {
          assert after[..k] == order;
        }
      }
    }
  }

  class Detector {
    const g: Graph
    var state: map<NodeId, Mark>
    var issues: seq<CycleIssue>
    /** Nodes in the order they finished. */
    ghost var order: seq<NodeId>

    constructor (g: Graph)
      ensures this.g == g && state == map[] && issues == [] && order == []
    {
      this.g := g;
      state, issues, order := map[], [], [];
    }

    ghost predicate Valid(stack: seq<NodeId>)
      reads this
    {
      Marks(g, state, order, stack) && Closed(g, order, stack, issues)
    }

    twostate predicate Grew()
      reads this
    {
      && old(state).Keys <= state.Keys && old(order) <= order && old(issues) <= issues
    }

    method Visit(id: NodeId, stack: seq<NodeId>)
      requires Valid(stack)
      requires id in g ==> IsPath(g, stack + [id])
      modifies this
      ensures Valid(stack) && Grew()
      ensures id in g ==> id in order || (id in stack && issues != [])
      decreases g.Keys - state.Keys
    {
      hide Closed, Topological, RealIssue, IsPath;
      if id in state && state[id] == Done {
        return;
      }
      if id in state && state[id] == Visiting {
        StackCycle(g, stack, id);
        ReportKeeps(g, order, stack, issues, CycleIssue(id, stack[IndexOf(stack, id)..] + [id]));
        issues := issues + [CycleIssue(id, stack[IndexOf(stack, id)..] + [id])];
        return;
      }
      if id !in g {
        return; // already reported as a dangling ref
      }
      PushVisiting(g, state, order, stack, issues, id);
      state := state[id := Visiting];
      var path := stack + [id];
      var deps := g[id];
      for i := 0 to |deps|
        invariant Valid(path) && Grew() && id in state
        invariant DepsVisited(g, deps, i, order, path, issues)
      {
        hide DepsVisited;
        if deps[i] in g {
          ExtendPath(g, path, deps[i]);
        }
        ghost var had, known := order, issues;
        Visit(deps[i], path);
        DepVisited(g, deps, i, had, order, path, known, issues);
      }
      PopDone(g, state, order, stack, issues, id);
      state := state[id := Done];
      order := order + [id];
    }
  }

  /**
   Exactness: no issue is reported if and only if the graph is acyclic, that is,
   if and only if it has no cycle, and every report is a real cycle.
   */
  method DetectCycles(g: Graph, nodes: seq<NodeId>) returns (issues: seq<CycleIssue>)
    requires forall id :: id in g <==> id in nodes
    ensures issues == [] <==> Acyclic(g)
    ensures issues == [] <==> !exists p :: IsCycle(g, p)
    ensures forall issue :: issue in issues ==> RealIssue(g, issue)
  {
    var detector := new Detector(g);
    for i := 0 to |nodes|
      invariant detector.g == g && fresh(detector)
      invariant detector.Valid([])
      invariant forall j :: 0 <= j < i ==> nodes[j] in detector.order
    {
      assert [] + [nodes[i]] == [nodes[i]];
      detector.Visit(nodes[i], []);
    }
    issues := detector.issues;
    if issues == [] {
      TopologicalGivesRanks(g, detector.order);
      forall p | IsCycle(g, p) ensures false {
        CycleRefutesRanks(g, p);
      }
    } else {
      assert RealIssue(g, issues[0]);
      CycleRefutesRanks(g, issues[0].path);
    }
  }
}
