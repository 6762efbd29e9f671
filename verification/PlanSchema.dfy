/**
 The plan language of extensions/agenda/plan-schema.ts: a declarative DAG of
 agent, fanout, pipeline, barrier and transform nodes, its caps, and what the
 validator demands of a plan before any worker exists.
 */
module PlanSchema {

  datatype Option<+T> = None | Some(value: T) {
    function GetOr(default: T): T {
      if Some? then value else default
    }
  }

  type NodeId = string

  /** A JSON-like result. `Undefined` is JavaScript's `undefined`. */
  datatype Value =
    | Undefined
    | Null
    | Scalar(tag: int)
    | Text(chars: string)
    | Arr(items: seq<Value>)
    | Obj(fields: map<string, Value>)

  /** "<nodeId>.<field>...": ids hold no dot, so the split is part of the type. */
  datatype Ref = Ref(node: NodeId, path: seq<string>)

  datatype TransformOp = TransformOp(op: string, arguments: seq<string>)

  datatype AgentSpec = AgentSpec(role: string, prompt: string, model: string,
                                 retries: Option<nat>, schema: Option<Value>, worktree: bool)

  datatype Node =
    | Agent(id: NodeId, needs: seq<Ref>, spec: AgentSpec)
    | Fanout(id: NodeId, needs: seq<Ref>, over: Ref, spec: AgentSpec)
    | Pipeline(id: NodeId, needs: seq<Ref>, over: Ref, stages: seq<AgentSpec>)
    | Barrier(id: NodeId, needs: seq<Ref>)
    | Transform(id: NodeId, needs: seq<Ref>, over: Ref, op: TransformOp)
    | Repeat(id: NodeId, needs: seq<Ref>)

  datatype Caps = Caps(maxConcurrent: Option<nat>, maxAgents: Option<nat>, budgetTokens: Option<nat>)

  datatype Plan = Plan(nodes: seq<Node>, caps: Caps)

  datatype ResolvedCaps = ResolvedCaps(maxConcurrent: nat, maxAgents: nat, budgetTokens: Option<nat>)

  const MAX_NODES := 200
  const DEFAULT_MAX_CONCURRENT := 4
  const CEILING_MAX_CONCURRENT := 8
  const DEFAULT_MAX_AGENTS := 40
  const CEILING_MAX_AGENTS := 200
  const MIN_BUDGET_PER_AGENT := 25_000

  function Min(a: int, b: int): int {
    if a <= b then a else b
  }

  function Max(a: int, b: int): int {
    if a <= b then b else a
  }

  function ResolveCaps(caps: Caps): ResolvedCaps {
    ResolvedCaps(Min(caps.maxConcurrent.GetOr(DEFAULT_MAX_CONCURRENT), CEILING_MAX_CONCURRENT),
                 Min(caps.maxAgents.GetOr(DEFAULT_MAX_AGENTS), CEILING_MAX_AGENTS),
                 caps.budgetTokens)
  }

  /** Caps default to 4 workers at once and 40 in all, and never exceed 8 and 200; a budget is taken as it is. */
  lemma CapsAreCeiled(caps: Caps)
    ensures var r := ResolveCaps(caps);
            && r.budgetTokens == caps.budgetTokens
            && (caps.maxConcurrent.None? ==> r.maxConcurrent == 4) && (caps.maxAgents.None? ==> r.maxAgents == 40)
            && (forall n: nat :: caps.maxConcurrent == Some(n) && n <= 8 ==> r.maxConcurrent == n)
            && (forall n: nat :: caps.maxConcurrent == Some(n) && n > 8 ==> r.maxConcurrent == 8)
            && (forall n: nat :: caps.maxAgents == Some(n) && n <= 200 ==> r.maxAgents == n)
            && (forall n: nat :: caps.maxAgents == Some(n) && n > 200 ==> r.maxAgents == 200)
  {
  }

  /** The collection ref, for the kinds that have one. */
  function OverRefs(node: Node): seq<Ref> {
    if node.Fanout? || node.Pipeline? || node.Transform? then [node.over] else []
  }

  function RefsOf(node: Node): seq<Ref> {
    node.needs + OverRefs(node)
  }

  /** Dependency edges into a node: explicit `needs` plus the implicit `over`. */
  function DependenciesOf(node: Node): seq<NodeId> {
    seq(|RefsOf(node)|, k requires 0 <= k < |RefsOf(node)| => RefsOf(node)[k].node)
  }

  lemma DependencyOfRef(node: Node, ref: Ref)
    requires ref in RefsOf(node)
    ensures ref.node in DependenciesOf(node)
  {
    var k :| 0 <= k < |RefsOf(node)| && RefsOf(node)[k] == ref;
    assert DependenciesOf(node)[k] == ref.node;
  }

  function Ids(nodes: seq<Node>): set<NodeId> {
    set n | n in nodes :: n.id
  }

  predicate AgentBearing(node: Node) {
    node.Agent? || node.Fanout? || node.Pipeline?
  }

  /** The dependency graph over declared nodes; a duplicated id keeps its last node. */
  type Graph = map<NodeId, seq<NodeId>>

  function GraphOf(nodes: seq<Node>): (g: Graph)
    ensures forall id :: id in g <==> exists k :: 0 <= k < |nodes| && nodes[k].id == id
    decreases |nodes|
  {
    if nodes == [] then map[]
    else
      var last := nodes[|nodes| - 1];
      var g := GraphOf(nodes[..|nodes| - 1]);
      assert forall k :: 0 <= k < |nodes| - 1 ==> nodes[..|nodes| - 1][k] == nodes[k];
      g[last.id := DependenciesOf(last)]
  }

  ghost predicate UniqueIds(nodes: seq<Node>) {
    forall i, j :: 0 <= i < j < |nodes| ==> nodes[i].id != nodes[j].id
  }

  lemma {:induction false} GraphOfUnique(nodes: seq<Node>, k: nat)
    requires UniqueIds(nodes) && k < |nodes|
    ensures nodes[k].id in GraphOf(nodes)
    ensures GraphOf(nodes)[nodes[k].id] == DependenciesOf(nodes[k])
    decreases |nodes|
  {
    if k < |nodes| - 1 {
      var front := nodes[..|nodes| - 1];
      assert front[k] == nodes[k];
      GraphOfUnique(front, k);
    }
  }

  ghost predicate Edge(g: Graph, u: NodeId, v: NodeId) {
    u in g && v in g && v in g[u]
  }

  /** A rank that drops along every edge: the witness that the graph is acyclic. */
  ghost predicate Ranks(g: Graph, rank: map<NodeId, nat>) {
    rank.Keys == g.Keys && forall u, v :: Edge(g, u, v) ==> rank[v] < rank[u]
  }

  ghost predicate Acyclic(g: Graph) {
    exists rank :: Ranks(g, rank)
  }

  ghost predicate IsPath(g: Graph, p: seq<NodeId>) {
    |p| > 0 && forall k :: 0 <= k < |p| - 1 ==> Edge(g, p[k], p[k + 1])
  }

  ghost predicate IsCycle(g: Graph, p: seq<NodeId>) {
    |p| > 1 && IsPath(g, p) && p[0] == p[|p| - 1]
  }
}
