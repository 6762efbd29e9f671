/**
 Semantic validation of a plan (extensions/agenda/plan-schema.ts): every
 rejection the schema cannot express, found by loops that collect issues.
 */
module PlanValidation {
  import opened PlanSchema
  import CycleDetection

  datatype Issue =
    | TooManyNodes(count: nat)
    | BudgetTooSmall(budget: nat, floor: nat)
    | DuplicateId(id: NodeId)
    | UnknownRole(id: NodeId, role: string)
    | UnusableSchema(id: NodeId)
    | WorktreeIsolation(id: NodeId)
    | RepeatUnsupported(id: NodeId)
    | MissingItem(id: NodeId)
    | DanglingRef(id: NodeId, ref: Ref)
    | SelfReference(id: NodeId)
    | Cycle(cycle: CycleDetection.CycleIssue)

  /** What the validator takes from elsewhere: the known roles and the schema checker. */
  datatype Rules = Rules(roles: seq<string>, usable: Value -> bool)

  predicate Includes(text: string, part: string) {
    exists k | 0 <= k <= |text| :: part <= text[k..]
  }

  /** Worker nodes; a fanout's width is unknown before it runs, so it counts once. */
  function AgentNodeCount(nodes: seq<Node>): nat {
    if nodes == [] then 0
    else
      var last := nodes[|nodes| - 1];
      AgentNodeCount(nodes[..|nodes| - 1]) +
      (if last.Pipeline? then |last.stages| else if last.Agent? || last.Fanout? then 1 else 0)
  }

  /** The workers a plan declares: one for an agent or a fanout, one for every stage of a pipeline. */
  ghost function DeclaredWorkers(nodes: seq<Node>): set<(NodeId, nat)> {
    (set n | n in nodes && (n.Agent? || n.Fanout?) :: (n.id, 0)) +
    (set n, s: nat | n in nodes && n.Pipeline? && s < |n.stages| :: (n.id, s))
  }

  ghost function WorkersOf(node: Node): set<(NodeId, nat)> {
    DeclaredWorkers([node])
  }

  lemma StagesCount(id: NodeId, stages: nat)
    ensures |set s: nat | s < stages :: (id, s)| == stages
  {
    var all := set s: nat | s < stages :: (id, s);
    if stages == 0 {
      assert all == {};
    } else {
      StagesCount(id, stages - 1);
      assert all == (set s: nat | s < stages - 1 :: (id, s)) + {(id, stages - 1)};
    }
  }

  lemma WorkersOfOne(node: Node)
    ensures |WorkersOf(node)| == AgentNodeCount([node])
  {
    assert [node][..0] == [];
    assert forall n :: n in [node] <==> n == node;
    if node.Pipeline? {
      StagesCount(node.id, |node.stages|);
      assert WorkersOf(node) == set s: nat | s < |node.stages| :: (node.id, s);
    } else if node.Agent? || node.Fanout? {
      assert WorkersOf(node) == {(node.id, 0)};
    } else {
      assert WorkersOf(node) == {};
    }
  }

  lemma WorkersGrow(front: seq<Node>, last: Node)
    ensures DeclaredWorkers(front + [last]) == DeclaredWorkers(front) + WorkersOf(last)
  {
    assert forall n :: n in front + [last] <==> n in front || n == last;
    assert forall n :: n in [last] <==> n == last;
  }

  lemma WorkersApart(front: seq<Node>, last: Node)
    requires last.id !in Ids(front)
    ensures DeclaredWorkers(front) !! WorkersOf(last)
  {
    assert forall n :: n in [last] <==> n == last;
  }

  /** With unique ids, `AgentNodeCount` is the number of declared workers. */
  lemma {:induction false} CountsDeclaredWorkers(nodes: seq<Node>)
    requires UniqueIds(nodes)
    ensures AgentNodeCount(nodes) == |DeclaredWorkers(nodes)|
    decreases |nodes|
  {
    if nodes == [] {
      assert DeclaredWorkers(nodes) == {};
    } else {
      var front, last := nodes[..|nodes| - 1], nodes[|nodes| - 1];
      assert nodes == front + [last] && last.id !in Ids(front);
      CountsDeclaredWorkers(front);
      hide DeclaredWorkers, UniqueIds, Ids, WorkersOf;
      CountGrows(front, last);
      WorkersGrow(front, last);
      WorkersApart(front, last);
      WorkersOfOne(last);
    }
  }

  lemma CountGrows(front: seq<Node>, last: Node)
    ensures AgentNodeCount(front + [last]) == AgentNodeCount(front) + AgentNodeCount([last])
  {
    assert (front + [last])[..|front|] == front && [last][..0] == [];
  }

  ghost predicate GoodSpec(rules: Rules, spec: AgentSpec) {
    spec.role in rules.roles && (spec.schema.Some? ==> rules.usable(spec.schema.value)) && !spec.worktree
  }

  /** The prompt has a place for the item. */
  ghost predicate MentionsItem(prompt: string) {
    exists before: string, after: string :: prompt == before + "{item}" + after
  }

  lemma IncludesItem(prompt: string)
    ensures Includes(prompt, "{item}") <==> MentionsItem(prompt)
  {
    if Includes(prompt, "{item}") {
      var k :| 0 <= k <= |prompt| && "{item}" <= prompt[k..];
      assert prompt == prompt[..k] + "{item}" + prompt[k + 6..];
    }
    if MentionsItem(prompt) {
      var before: string, after: string :| prompt == before + "{item}" + after;
      assert prompt[|before|..] == "{item}" + after;
    }
  }

  ghost predicate GoodNode(rules: Rules, node: Node) {
    match node
    case Agent(_, _, spec) => GoodSpec(rules, spec)
    case Fanout(_, _, _, spec) => GoodSpec(rules, spec) && MentionsItem(spec.prompt)
    case Pipeline(_, _, _, stages) => forall k :: 0 <= k < |stages| ==> GoodSpec(rules, stages[k])
    case Repeat(_, _) => false
    case _ => true
  }

  ghost predicate GoodRefs(ids: set<NodeId>, node: Node) {
    forall k :: 0 <= k < |RefsOf(node)| ==> RefsOf(node)[k].node in ids && RefsOf(node)[k].node != node.id
  }

  /** The plans the validator must accept, and no others. */
  ghost predicate Admissible(rules: Rules, plan: Plan) {
    && |plan.nodes| <= 200 && UniqueIds(plan.nodes)
    && (plan.caps.budgetTokens.Some? ==> plan.caps.budgetTokens.value >= 25_000 * |DeclaredWorkers(plan.nodes)|)
    && (forall k :: 0 <= k < |plan.nodes| ==> GoodNode(rules, plan.nodes[k]))
    && (forall k :: 0 <= k < |plan.nodes| ==> GoodRefs(Ids(plan.nodes), plan.nodes[k]))
    && Acyclic(GraphOf(plan.nodes))
  }

  method CheckSpec(rules: Rules, id: NodeId, spec: AgentSpec) returns (issues: seq<Issue>)
    ensures issues == [] <==> GoodSpec(rules, spec)
  {
    issues := [];
    if spec.role !in rules.roles {
      issues := issues + [UnknownRole(id, spec.role)];
    }
    if spec.schema.Some? && !rules.usable(spec.schema.value) {
      issues := issues + [UnusableSchema(id)];
    }
    if spec.worktree {
      issues := issues + [WorktreeIsolation(id)];
    }
  }

  method CheckNode(rules: Rules, node: Node) returns (issues: seq<Issue>)
    ensures issues == [] <==> GoodNode(rules, node)
  {
    if node.Fanout? {
      IncludesItem(node.spec.prompt);
    }
    hide Includes, MentionsItem;
    issues := [];
    if node.Agent? || node.Fanout? {
      issues := CheckSpec(rules, node.id, node.spec);
    }
    if node.Pipeline? {
      for k := 0 to |node.stages|
        invariant issues == [] <==> forall j :: 0 <= j < k ==> GoodSpec(rules, node.stages[j])
      {
        var found := CheckSpec(rules, node.id, node.stages[k]);
        issues := issues + found;
      }
    }
    if node.Repeat? {
      issues := issues + [RepeatUnsupported(node.id)];
    }
    if node.Fanout? && !Includes(node.spec.prompt, "{item}") {
      issues := issues + [MissingItem(node.id)];
    }
  }

  method CheckRefs(ids: set<NodeId>, node: Node) returns (issues: seq<Issue>)
    ensures issues == [] <==> GoodRefs(ids, node)
  {
    issues := [];
    var refs := RefsOf(node);
    for k := 0 to |refs|
      invariant issues == [] <==> forall j :: 0 <= j < k ==> refs[j].node in ids && refs[j].node != node.id
    {
      if refs[k].node !in ids {
        issues := issues + [DanglingRef(node.id, refs[k])];
      }
      if refs[k].node == node.id {
        issues := issues + [SelfReference(node.id)];
      }
    }
  }

  method CheckIds(nodes: seq<Node>) returns (ids: set<NodeId>, issues: seq<Issue>)
    ensures ids == Ids(nodes)
    ensures issues == [] <==> UniqueIds(nodes)
  {
    ids, issues := {}, [];
    for k := 0 to |nodes|
      invariant forall id :: id in ids <==> exists j :: 0 <= j < k && nodes[j].id == id
      invariant issues == [] <==> forall i, j :: 0 <= i < j < k ==> nodes[i].id != nodes[j].id
    {
      if nodes[k].id in ids {
        issues := issues + [DuplicateId(nodes[k].id)];
      }
      ids := ids + {nodes[k].id};
    }
  }

  /** The limits on a plan as a whole. */
  method CheckLimits(plan: Plan) returns (issues: seq<Issue>)
    ensures UniqueIds(plan.nodes) ==>
              (issues == [] <==>
               && |plan.nodes| <= 200
               && (plan.caps.budgetTokens.Some? ==>
                     plan.caps.budgetTokens.value >= 25_000 * |DeclaredWorkers(plan.nodes)|))
  {
    issues := [];
    if |plan.nodes| > MAX_NODES {
      issues := issues + [TooManyNodes(|plan.nodes|)];
    }
    if plan.caps.budgetTokens.Some? {
      var floor := AgentNodeCount(plan.nodes) * MIN_BUDGET_PER_AGENT;
      if plan.caps.budgetTokens.value < floor {
        issues := issues + [BudgetTooSmall(plan.caps.budgetTokens.value, floor)];
      }
    }
    if UniqueIds(plan.nodes) {
      CountsDeclaredWorkers(plan.nodes);
    }
  }

  method CheckNodes(rules: Rules, nodes: seq<Node>) returns (issues: seq<Issue>)
    ensures issues == [] <==> forall k :: 0 <= k < |nodes| ==> GoodNode(rules, nodes[k])
  {
    hide GoodNode;
    issues := [];
    for k := 0 to |nodes|
      invariant issues == [] <==> forall j :: 0 <= j < k ==> GoodNode(rules, nodes[j])
    {
      var found := CheckNode(rules, nodes[k]);
      issues := issues + found;
    }
  }

  method CheckAllRefs(ids: set<NodeId>, nodes: seq<Node>) returns (issues: seq<Issue>)
    ensures issues == [] <==> forall k :: 0 <= k < |nodes| ==> GoodRefs(ids, nodes[k])
  {
    hide GoodRefs;
    issues := [];
    for k := 0 to |nodes|
      invariant issues == [] <==> forall j :: 0 <= j < k ==> GoodRefs(ids, nodes[j])
    {
      var found := CheckRefs(ids, nodes[k]);
      issues := issues + found;
    }
  }

  method CheckCycles(nodes: seq<Node>) returns (issues: seq<Issue>)
    ensures issues == [] <==> Acyclic(GraphOf(nodes))
  {
    hide Acyclic;
    var names := seq(|nodes|, k requires 0 <= k < |nodes| => nodes[k].id);
    assert forall id :: id in GraphOf(nodes) <==> id in names by {
      forall k | 0 <= k < |nodes| ensures nodes[k].id in names {
        assert names[k] == nodes[k].id;
      }
    }
    var cycles := CycleDetection.DetectCycles(GraphOf(nodes), names);
    issues := seq(|cycles|, k requires 0 <= k < |cycles| => Cycle(cycles[k]));
  }

  /** The validator returns no issue exactly for the admissible plans. */
  method ValidatePlan(rules: Rules, plan: Plan) returns (issues: seq<Issue>)
    ensures issues == [] <==> Admissible(rules, plan)
  {
    hide GoodNode, GoodRefs, UniqueIds, Acyclic, Ids, DeclaredWorkers;
    issues := CheckLimits(plan);
    var ids, duplicates := CheckIds(plan.nodes);
    var unfit := CheckNodes(rules, plan.nodes);
    var dangling := CheckAllRefs(ids, plan.nodes);
    var cycles := CheckCycles(plan.nodes);
    issues := issues + duplicates + unfit + dangling + cycles;
  }
}
