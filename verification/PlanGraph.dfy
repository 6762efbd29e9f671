/**
 The scheduler of extensions/agenda/plan-graph.ts: what a plan and the state of
 a run allow to be dispatched next. `NextBatch` is the loop; `BatchSpec` says
 what it must return.
 */
module PlanGraph {
  import opened PlanSchema
  import opened Upstream

  datatype Status = Pending | Running | Done | Failed | Skipped

  /** The keys "n", "n#i" and "n#i@s" of the results and status records. */
  datatype Key =
    | NodeKey(node: NodeId)
    | ItemKey(node: NodeId, item: nat)
    | StageKey(node: NodeId, item: nat, stage: int)

  type Results = map<Key, Value>

  datatype RunState = RunState(results: Results, status: map<Key, Status>, running: set<int>,
                               agentsSpawned: nat, spentTokens: nat)

  const EMPTY_RUN_STATE := RunState(map[], map[], {}, 0, 0)

  /** What a work id is hashed from: never the node id. */
  datatype WorkMaterial = WorkMaterial(kind: string, role: string, prompt: string, schema: Option<Value>,
                                       stageIndex: nat, itemKey: Option<(nat, string)>)

  /** Code that lives elsewhere, as uninterpreted functions. */
  datatype Host = Host(getPath: (Value, seq<string>) -> Value,
                       applyTransform: (Value, TransformOp) -> Value,
                       hash: WorkMaterial -> int,
                       itemKey: Value -> string,
                       substitute: (string, Value) -> string)

  datatype UpstreamInput = UpstreamInput(ref: Ref, value: Value)

  datatype Dispatch = Dispatch(workId: int, nodeId: NodeId, spec: AgentSpec, prompt: string,
                               item: Option<Value>, itemIndex: nat, stageIndex: Option<nat>,
                               inputs: seq<UpstreamInput>)

  datatype Immediate = Publish(value: Value) | Compute(op: TransformOp, input: Value)

  datatype Halt = BudgetHalt | AgentsHalt | AbortedHalt

  datatype Batch = Batch(dispatch: seq<Dispatch>, immediate: seq<(NodeId, Immediate)>, halt: Option<Halt>)

  /** A record lookup: a missing key reads as `undefined`. */
  function Lookup(results: Results, key: Key): Value {
    if key in results then results[key] else Undefined
  }

  function ResolveRef(h: Host, ref: Ref, results: Results): Value {
    if NodeKey(ref.node) !in results then Undefined
    else if ref.path == [] then results[NodeKey(ref.node)]
    else h.getPath(results[NodeKey(ref.node)], ref.path)
  }

  function AsItems(value: Value): seq<Value> {
    match value
    case Arr(items) => items
    case Null => []
    case Undefined => []
    case _ => [value]
  }

  function Items(h: Host, node: Node, results: Results): seq<Value>
    requires node.Fanout? || node.Pipeline?
  {
    AsItems(ResolveRef(h, node.over, results))
  }

  predicate Is(st: RunState, key: Key, status: Status) {
    key in st.status && st.status[key] == status
  }

  predicate Terminal(st: RunState, id: NodeId) {
    Is(st, NodeKey(id), Done) || Is(st, NodeKey(id), Failed) || Is(st, NodeKey(id), Skipped)
  }

  predicate DependenciesSatisfied(node: Node, st: RunState) {
    forall dep | dep in DependenciesOf(node) :: Is(st, NodeKey(dep), Done)
  }

  /** Not finished, and everything it needs is. */
  predicate Ready(node: Node, st: RunState) {
    !Terminal(st, node.id) && !Is(st, NodeKey(node.id), Running) && DependenciesSatisfied(node, st)
  }

  function ResolveInputs(h: Host, refs: seq<Ref>, results: Results): seq<UpstreamInput> {
    seq(|refs|, k requires 0 <= k < |refs| => UpstreamInput(refs[k], ResolveRef(h, refs[k], results)))
  }

  ghost function InputsOf(h: Host, nodes: seq<Node>, node: Node, results: Results): seq<UpstreamInput> {
    ResolveInputs(h, UpstreamRefs(nodes, node.needs), results)
  }

  function AgentWorkId(h: Host, node: Node): int
    requires node.Agent?
  {
    h.hash(WorkMaterial("agent", node.spec.role, node.spec.prompt, node.spec.schema, 0, None))
  }

  function AgentUnit(h: Host, node: Node, inputs: seq<UpstreamInput>): Dispatch
    requires node.Agent?
  {
    Dispatch(AgentWorkId(h, node), node.id, node.spec, node.spec.prompt, None, 0, None, inputs)
  }

  /**
   JavaScript cannot tell an absent `item` from one that is `undefined`: both
   make `dispatch.item !== undefined` false.
   */
  function ItemField(item: Value): Option<Value> {
    if item == Undefined then None else Some(item)
  }

  function FanoutUnit(h: Host, node: Node, item: Value, i: nat, inputs: seq<UpstreamInput>): Dispatch
    requires node.Fanout?
  {
    var id := h.hash(WorkMaterial("fanout", node.spec.role, node.spec.prompt, node.spec.schema, 0,
                                  Some((i, h.itemKey(item)))));
    Dispatch(id, node.id, node.spec, h.substitute(node.spec.prompt, item), ItemField(item), i, None, inputs)
  }

  function StageUnit(h: Host, node: Node, item: Value, i: nat, s: nat, previous: Value,
                     inputs: seq<UpstreamInput>): Dispatch
    requires node.Pipeline? && s < |node.stages|
  {
    var id := h.hash(WorkMaterial("pipeline", "", "", None, s, Some((i, h.itemKey(item)))));
    Dispatch(id, node.id, node.stages[s], h.substitute(node.stages[s].prompt, previous), ItemField(item), i,
             Some(s), inputs)
  }

  ghost function StagesFrom(st: RunState, id: NodeId, i: nat, from: int): set<Key> {
    set key | key in st.status && key.StageKey? && key.node == id && key.item == i && key.stage >= from
  }

  /** How far a pipeline item has advanced: the first stage not done. */
  function StageFor(st: RunState, id: NodeId, i: nat, from: nat): (s: nat)
    ensures from <= s && !Is(st, StageKey(id, i, s), Done)
    ensures forall t :: from <= t < s ==> Is(st, StageKey(id, i, t), Done)
    decreases StagesFrom(st, id, i, from)
  {
    if Is(st, StageKey(id, i, from), Done) then
      assert StageKey(id, i, from) in StagesFrom(st, id, i, from);
      StageFor(st, id, i, from + 1)
    else from
  }

  method PipelineStageFor(st: RunState, id: NodeId, i: nat) returns (stage: nat)
    ensures stage == StageFor(st, id, i, 0)
  {
    stage := 0;
    while Is(st, StageKey(id, i, stage), Done)
      invariant StageFor(st, id, i, stage) == StageFor(st, id, i, 0)
      decreases StagesFrom(st, id, i, stage)
    {
      assert StageKey(id, i, stage) in StagesFrom(st, id, i, stage);
      stage := stage + 1;
    }
  }

  /** The slot whose completion finishes item `i` of a collection node. */
  function FinalSlot(node: Node, i: nat): Key
    requires node.Fanout? || node.Pipeline?
  {
    if node.Fanout? then ItemKey(node.id, i) else StageKey(node.id, i, |node.stages| - 1)
  }

  predicate AllItemsDone(h: Host, node: Node, st: RunState)
    requires node.Fanout? || node.Pipeline?
  {
    forall i | 0 <= i < |Items(h, node, st.results)| :: Is(st, FinalSlot(node, i), Done)
  }

  function Aggregate(h: Host, node: Node, st: RunState): Value
    requires node.Fanout? || node.Pipeline?
  {
    var count := |Items(h, node, st.results)|;
    Arr(seq(count, i requires 0 <= i < count => Lookup(st.results, FinalSlot(node, i))))
  }

  /** A ready node that finishes without spawning anything, and what it publishes. */
  function ImmediateOf(h: Host, node: Node, st: RunState): Option<Immediate> {
    match node
    case Barrier(_, needs) =>
      Some(Publish(Arr(seq(|needs|, k requires 0 <= k < |needs| => ResolveRef(h, needs[k], st.results)))))
    case Transform(_, _, over, op) => Some(Compute(op, ResolveRef(h, over, st.results)))
    case Fanout(_, _, _, _) => if AllItemsDone(h, node, st) then Some(Publish(Aggregate(h, node, st))) else None
    case Pipeline(_, _, _, _) => if AllItemsDone(h, node, st) then Some(Publish(Aggregate(h, node, st))) else None
    case _ => None
  }

  ghost function FanoutUnits(h: Host, nodes: seq<Node>, node: Node, st: RunState, k: nat): seq<Dispatch>
    requires node.Fanout? && k <= |Items(h, node, st.results)|
  {
    if k == 0 then []
    else
      var unit := FanoutUnit(h, node, Items(h, node, st.results)[k - 1], k - 1, InputsOf(h, nodes, node, st.results));
      FanoutUnits(h, nodes, node, st, k - 1) +
      (if unit.workId in st.running || Is(st, ItemKey(node.id, k - 1), Done) then [] else [unit])
  }

  /** The value stage `s` of item `i` starts from. */
  function Previous(node: Node, item: Value, results: Results, i: nat, s: nat): Value {
    if s == 0 then item else Lookup(results, StageKey(node.id, i, s - 1))
  }

  ghost function PipelineUnits(h: Host, nodes: seq<Node>, node: Node, st: RunState, k: nat): seq<Dispatch>
    requires node.Pipeline? && k <= |Items(h, node, st.results)|
  {
    if k == 0 then []
    else
      var front := PipelineUnits(h, nodes, node, st, k - 1);
      var s := StageFor(st, node.id, k - 1, 0);
      if s >= |node.stages| then front
      else
        var item := Items(h, node, st.results)[k - 1];
        var unit := StageUnit(h, node, item, k - 1, s, Previous(node, item, st.results, k - 1, s),
                              InputsOf(h, nodes, node, st.results));
        if unit.workId in st.running then front else front + [unit]
  }

  /** Everything a node could have dispatched now, in order, were there no caps. */
  ghost function UnitsOf(h: Host, nodes: seq<Node>, node: Node, st: RunState): seq<Dispatch> {
    if !Ready(node, st) || ImmediateOf(h, node, st).Some? then []
    else match node
      case Agent(_, _, _) => [AgentUnit(h, node, InputsOf(h, nodes, node, st.results))]
      case Fanout(_, _, _, _) => FanoutUnits(h, nodes, node, st, |Items(h, node, st.results)|)
      case Pipeline(_, _, _, _) => PipelineUnits(h, nodes, node, st, |Items(h, node, st.results)|)
      case _ => []
  }

  ghost function AllUnits(h: Host, nodes: seq<Node>, st: RunState, k: nat): seq<Dispatch>
    requires k <= |nodes|
  {
    if k == 0 then [] else AllUnits(h, nodes, st, k - 1) + UnitsOf(h, nodes, nodes[k - 1], st)
  }

  function AllImmediate(h: Host, nodes: seq<Node>, st: RunState, k: nat): seq<(NodeId, Immediate)>
    requires k <= |nodes|
  {
    if k == 0 then []
    else
      var node := nodes[k - 1];
      AllImmediate(h, nodes, st, k - 1) +
      (if Ready(node, st) && ImmediateOf(h, node, st).Some? then [(node.id, ImmediateOf(h, node, st).value)] else [])
  }

  function Take<T>(s: seq<T>, n: int): seq<T> {
    if n <= 0 then [] else if n >= |s| then s else s[..n]
  }

  function Concurrency(caps: ResolvedCaps): nat {
    if caps.budgetTokens.Some? then 1 else caps.maxConcurrent
  }

  /** Free concurrency slots and remaining admissions, whichever is fewer. */
  function Room(st: RunState, caps: ResolvedCaps): int {
    Min(Concurrency(caps) - |st.running|, caps.maxAgents - st.agentsSpawned)
  }

  /**
   The batch, said without a loop: halt on a spent budget or a spent agent cap;
   otherwise every ready bookkeeping node finishes, and the longest prefix of
   the available work that the caps have room for is dispatched.
   */
  ghost function BatchSpec(h: Host, nodes: seq<Node>, st: RunState, caps: ResolvedCaps): Batch {
    if caps.budgetTokens.Some? && st.spentTokens >= caps.budgetTokens.value then Batch([], [], Some(BudgetHalt))
    else if st.agentsSpawned >= caps.maxAgents then Batch([], [], Some(AgentsHalt))
    else Batch(Take(AllUnits(h, nodes, st, |nodes|), Room(st, caps)), AllImmediate(h, nodes, st, |nodes|), None)
  }

  lemma TakeSplit<T>(a: seq<T>, b: seq<T>, n: int)
    ensures Take(a + b, n) == Take(a, n) + Take(b, n - |Take(a, n)|)
  {
  }

  method UpstreamInputs(h: Host, nodes: seq<Node>, node: Node, st: RunState) returns (inputs: seq<UpstreamInput>)
    ensures inputs == InputsOf(h, nodes, node, st.results)
  {
    var refs := CollectInputs(nodes, node.needs);
    inputs := ResolveInputs(h, refs, st.results);
  }

  method FanoutDispatches(h: Host, nodes: seq<Node>, node: Node, st: RunState, room: int)
    returns (units: seq<Dispatch>)
    requires node.Fanout?
    ensures units == Take(FanoutUnits(h, nodes, node, st, |Items(h, node, st.results)|), room)
  {
    hide FanoutUnit, InputsOf, Items;
    units := [];
    var items := Items(h, node, st.results);
    var inputs := UpstreamInputs(h, nodes, node, st);
    var index := 0;
    while index < |items| && |units| < room
      invariant index <= |items|
      invariant units == Take(FanoutUnits(h, nodes, node, st, index), room)
      invariant |units| < room ==> units == FanoutUnits(h, nodes, node, st, index)
    {
      var unit := FanoutUnit(h, node, items[index], index, inputs);
      if !(unit.workId in st.running || Is(st, ItemKey(node.id, index), Done)) {
        units := units + [unit];
      }
      index := index + 1;
    }
    if |units| >= room {
      FanoutUnitsGrow(h, nodes, node, st, index, |items|);
    }
  }

  lemma {:induction false} FanoutUnitsGrow(h: Host, nodes: seq<Node>, node: Node, st: RunState, j: nat, k: nat)
    requires node.Fanout? && j <= k <= |Items(h, node, st.results)|
    ensures FanoutUnits(h, nodes, node, st, j) <= FanoutUnits(h, nodes, node, st, k)
    decreases k - j
  {
    if j < k {
      FanoutUnitsGrow(h, nodes, node, st, j, k - 1);
    }
  }

  method PipelineDispatches(h: Host, nodes: seq<Node>, node: Node, st: RunState, room: int)
    returns (units: seq<Dispatch>)
    requires node.Pipeline?
    ensures units == Take(PipelineUnits(h, nodes, node, st, |Items(h, node, st.results)|), room)
  {
    hide StageUnit, InputsOf, Items;
    units := [];
    var items := Items(h, node, st.results);
    var inputs := UpstreamInputs(h, nodes, node, st);
    var index := 0;
    while index < |items| && |units| < room
      invariant index <= |items|
      invariant units == Take(PipelineUnits(h, nodes, node, st, index), room)
      invariant |units| < room ==> units == PipelineUnits(h, nodes, node, st, index)
    {
      var stage := PipelineStageFor(st, node.id, index);
      if stage < |node.stages| {
        var previous := Previous(node, items[index], st.results, index, stage);
        var unit := StageUnit(h, node, items[index], index, stage, previous, inputs);
        if unit.workId !in st.running {
          units := units + [unit];
        }
      }
      index := index + 1;
    }
    if |units| >= room {
      PipelineUnitsGrow(h, nodes, node, st, index, |items|);
    }
  }

  lemma {:induction false} PipelineUnitsGrow(h: Host, nodes: seq<Node>, node: Node, st: RunState, j: nat, k: nat)
    requires node.Pipeline? && j <= k <= |Items(h, node, st.results)|
    ensures PipelineUnits(h, nodes, node, st, j) <= PipelineUnits(h, nodes, node, st, k)
    decreases k - j
  {
    if j < k {
      PipelineUnitsGrow(h, nodes, node, st, j, k - 1);
    }
  }

  /** What one ready, non-bookkeeping node contributes to a batch with `room` left. */
  method NodeDispatches(h: Host, nodes: seq<Node>, node: Node, st: RunState, room: int) returns (units: seq<Dispatch>)
    requires Ready(node, st) && ImmediateOf(h, node, st).None?
    ensures units == Take(UnitsOf(h, nodes, node, st), room)
  {
    units := [];
    if room <= 0 {
      return;
    }
    match node
    case Agent(_, _, _) =>
      var inputs := UpstreamInputs(h, nodes, node, st);
      units := [AgentUnit(h, node, inputs)];
    case Fanout(_, _, _, _) =>
      units := FanoutDispatches(h, nodes, node, st, room);
    case Pipeline(_, _, _, _) =>
      units := PipelineDispatches(h, nodes, node, st, room);
    case _ =>
  }

  /** What the loop of `NextBatch` adds for node `k`. */
  lemma OneMoreNode(h: Host, nodes: seq<Node>, st: RunState, k: nat, room: int)
    requires k < |nodes|
    ensures var had := Take(AllUnits(h, nodes, st, k), room);
            Take(AllUnits(h, nodes, st, k + 1), room) ==
            had + Take(UnitsOf(h, nodes, nodes[k], st), room - |had|)
  {
    hide UnitsOf, Take;
    TakeSplit(AllUnits(h, nodes, st, k), UnitsOf(h, nodes, nodes[k], st), room);
  }

  lemma MinMinus(a: int, b: int, d: int)
    ensures Min(a - d, b - d) == Min(a, b) - d
  {
  }

  lemma IdleNode(h: Host, nodes: seq<Node>, node: Node, st: RunState)
    ensures !Ready(node, st) || ImmediateOf(h, node, st).Some? ==> UnitsOf(h, nodes, node, st) == []
  {
    hide Ready, ImmediateOf;
  }

  // ---------- what a batch holds, field by field ----------

  /** A ref reads the named node's result, or what the path finds in it. */
  ghost predicate Reads(h: Host, ref: Ref, results: Results, value: Value) {
    var key := NodeKey(ref.node);
    && (key !in results ==> value == Undefined)
    && (key in results && ref.path == [] ==> value == results[key])
    && (key in results && ref.path != [] ==> value == h.getPath(results[key], ref.path))
  }

  /** The elements of an array, nothing for a missing value, and any other value alone. */
  ghost predicate Holds(value: Value, items: seq<Value>) {
    && (value.Arr? ==> items == value.items)
    && (value == Null || value == Undefined ==> items == [])
    && (!value.Arr? && value != Null && value != Undefined ==> items == [value])
  }

  ghost predicate Collects(h: Host, over: Ref, results: Results, items: seq<Value>) {
    exists value :: Reads(h, over, results, value) && Holds(value, items)
  }

  /** Every node it needs is done, and it is not finished itself. */
  ghost predicate MayRun(node: Node, st: RunState) {
    && (forall ref :: ref in node.needs ==> Is(st, NodeKey(ref.node), Done))
    && (node.Fanout? || node.Pipeline? || node.Transform? ==> Is(st, NodeKey(node.over.node), Done))
    && (NodeKey(node.id) in st.status ==> st.status[NodeKey(node.id)] == Pending)
  }

  /** The finished results that a worker is handed, in order. */
  ghost predicate HandsOver(h: Host, refs: seq<Ref>, results: Results, inputs: seq<UpstreamInput>) {
    && |inputs| == |refs|
    && forall k :: 0 <= k < |refs| ==> inputs[k].ref == refs[k] && Reads(h, refs[k], results, inputs[k].value)
  }

  /** The dispatch of an agent: its own prompt. */
  ghost predicate AsksAgent(h: Host, node: Node, d: Dispatch)
    requires node.Agent?
  {
    && d.spec == node.spec && d.prompt == node.spec.prompt && d.item.None? && d.itemIndex == 0 && d.stageIndex.None?
    && d.workId == h.hash(WorkMaterial("agent", node.spec.role, node.spec.prompt, node.spec.schema, 0, None))
  }

  /** The dispatch of a fanout's item that is still open: the prompt with the item in it. */
  ghost predicate AsksForItem(h: Host, node: Node, st: RunState, items: seq<Value>, d: Dispatch)
    requires node.Fanout?
  {
    && d.itemIndex < |items| && d.stageIndex.None? && !Is(st, ItemKey(node.id, d.itemIndex), Done)
    && var item := items[d.itemIndex];
    && d.spec == node.spec && d.prompt == h.substitute(node.spec.prompt, item)
    && (item != Undefined ==> d.item == Some(item)) && (item == Undefined ==> d.item == None)
    && d.workId == h.hash(WorkMaterial("fanout", node.spec.role, node.spec.prompt, node.spec.schema, 0,
                                       Some((d.itemIndex, h.itemKey(item)))))
  }

  /**
   The dispatch of an item's next stage: the first stage's prompt with the item in
   it, any later one's with the result of the stage before.
   */
  ghost predicate AsksForStage(h: Host, node: Node, st: RunState, items: seq<Value>, d: Dispatch)
    requires node.Pipeline?
  {
    && d.itemIndex < |items| && d.stageIndex.Some? && d.stageIndex.value < |node.stages|
    && var item, i, s := items[d.itemIndex], d.itemIndex, d.stageIndex.value;
    && !Is(st, StageKey(node.id, i, s), Done) && (forall t: nat :: t < s ==> Is(st, StageKey(node.id, i, t), Done))
    && d.spec == node.stages[s]
    && (s == 0 ==> d.prompt == h.substitute(node.stages[s].prompt, item))
    && (s > 0 && StageKey(node.id, i, s - 1) in st.results ==>
          d.prompt == h.substitute(node.stages[s].prompt, st.results[StageKey(node.id, i, s - 1)]))
    && (s > 0 && StageKey(node.id, i, s - 1) !in st.results ==>
          d.prompt == h.substitute(node.stages[s].prompt, Undefined))
    && (item != Undefined ==> d.item == Some(item)) && (item == Undefined ==> d.item == None)
    && d.workId == h.hash(WorkMaterial("pipeline", "", "", None, s, Some((i, h.itemKey(item)))))
  }

  ghost predicate AsksFor(h: Host, nodes: seq<Node>, node: Node, st: RunState, d: Dispatch) {
    && d.nodeId == node.id && MayRun(node, st) && HandsOver(h, UpstreamRefs(nodes, node.needs), st.results, d.inputs)
    && match node
       case Agent(_, _, _) => AsksAgent(h, node, d)
       case Fanout(_, _, over, _) =>
         exists items :: Collects(h, over, st.results, items) && AsksForItem(h, node, st, items, d)
       case Pipeline(_, _, over, _) =>
         exists items :: Collects(h, over, st.results, items) && AsksForStage(h, node, st, items, d)
       case _ => false
  }

  ghost predicate IsAsked(h: Host, nodes: seq<Node>, st: RunState, d: Dispatch) {
    exists node :: node in nodes && AsksFor(h, nodes, node, st, d)
  }

  /** The slots of a collection, in item order. */
  ghost predicate InOrder(results: Results, keys: seq<Key>, values: seq<Value>) {
    && |values| == |keys|
    && forall i :: 0 <= i < |keys| ==> values[i] == if keys[i] in results then results[keys[i]] else Undefined
  }

  ghost function ItemKeys(id: NodeId, count: nat): seq<Key> {
    seq(count, i requires 0 <= i => ItemKey(id, i))
  }

  /** The slots of one stage. */
  ghost function StageKeys(id: NodeId, count: nat, stage: int): seq<Key> {
    seq(count, i requires 0 <= i => StageKey(id, i, stage))
  }

  ghost predicate Finishes(h: Host, node: Node, st: RunState, value: Immediate) {
    && MayRun(node, st)
    && match node
       case Barrier(_, needs) =>
         && value.Publish? && value.value.Arr? && |value.value.items| == |needs|
         && forall k :: 0 <= k < |needs| ==> Reads(h, needs[k], st.results, value.value.items[k])
       case Transform(_, _, over, op) => value.Compute? && value.op == op && Reads(h, over, st.results, value.input)
       case Fanout(id, _, over, _) =>
         && value.Publish? && value.value.Arr?
         && exists items :: Collects(h, over, st.results, items) &&
              FinishedSlots(st, ItemKeys(id, |items|), value.value.items)
       case Pipeline(id, _, over, stages) =>
         && value.Publish? && value.value.Arr?
         && exists items :: Collects(h, over, st.results, items) &&
              FinishedSlots(st, StageKeys(id, |items|, |stages| - 1), value.value.items)
       case _ => false
  }

  ghost predicate FinishedSlots(st: RunState, keys: seq<Key>, values: seq<Value>) {
    (forall i :: 0 <= i < |keys| ==> Is(st, keys[i], Done)) && InOrder(st.results, keys, values)
  }

  ghost predicate IsFinished(h: Host, nodes: seq<Node>, st: RunState, id: NodeId, value: Immediate) {
    exists node :: node in nodes && node.id == id && Finishes(h, node, st, value)
  }

  lemma RefReads(h: Host, ref: Ref, results: Results)
    ensures Reads(h, ref, results, ResolveRef(h, ref, results))
  {
  }

  lemma ItemsAreCollected(h: Host, node: Node, results: Results)
    requires node.Fanout? || node.Pipeline?
    ensures Collects(h, node.over, results, Items(h, node, results))
  {
    RefReads(h, node.over, results);
    hide Reads;
    assert Holds(ResolveRef(h, node.over, results), Items(h, node, results));
  }

  lemma ReadyMayRun(node: Node, st: RunState)
    requires Ready(node, st)
    ensures MayRun(node, st)
  {
    forall ref | ref in RefsOf(node) ensures Is(st, NodeKey(ref.node), Done) {
      DependencyOfRef(node, ref);
    }
  }

  lemma InputsAreHanded(h: Host, nodes: seq<Node>, node: Node, results: Results)
    ensures HandsOver(h, UpstreamRefs(nodes, node.needs), results, InputsOf(h, nodes, node, results))
  {
    var refs := UpstreamRefs(nodes, node.needs);
    forall k | 0 <= k < |refs| ensures Reads(h, refs[k], results, InputsOf(h, nodes, node, results)[k].value) {
      RefReads(h, refs[k], results);
    }
  }

  lemma {:induction false} FanoutAsks(h: Host, nodes: seq<Node>, node: Node, st: RunState, k: nat, d: Dispatch)
    requires node.Fanout? && k <= |Items(h, node, st.results)| && d in FanoutUnits(h, nodes, node, st, k)
    ensures d.nodeId == node.id && d.inputs == InputsOf(h, nodes, node, st.results)
    ensures AsksForItem(h, node, st, Items(h, node, st.results), d)
    decreases k
  {
    hide InputsOf, Items;
    if d in FanoutUnits(h, nodes, node, st, k - 1) {
      FanoutAsks(h, nodes, node, st, k - 1, d);
    }
  }

  lemma {:induction false} PipelineAsks(h: Host, nodes: seq<Node>, node: Node, st: RunState, k: nat, d: Dispatch)
    requires node.Pipeline? && k <= |Items(h, node, st.results)| && d in PipelineUnits(h, nodes, node, st, k)
    ensures d.nodeId == node.id && d.inputs == InputsOf(h, nodes, node, st.results)
    ensures AsksForStage(h, node, st, Items(h, node, st.results), d)
    decreases k
  {
    hide InputsOf, Items;
    if d in PipelineUnits(h, nodes, node, st, k - 1) {
      PipelineAsks(h, nodes, node, st, k - 1, d);
    }
  }

  lemma NodeAsks(h: Host, nodes: seq<Node>, node: Node, st: RunState, d: Dispatch)
    requires d in UnitsOf(h, nodes, node, st)
    ensures AsksFor(h, nodes, node, st, d)
  {
    ReadyMayRun(node, st);
    InputsAreHanded(h, nodes, node, st.results);
    hide MayRun, HandsOver, InputsOf, Ready, Collects, AsksForItem, AsksForStage;
    if node.Fanout? {
      ItemsAreCollected(h, node, st.results);
      FanoutAsks(h, nodes, node, st, |Items(h, node, st.results)|, d);
    } else if node.Pipeline? {
      ItemsAreCollected(h, node, st.results);
      PipelineAsks(h, nodes, node, st, |Items(h, node, st.results)|, d);
    }
  }

  lemma {:induction false} UnitsAreAsked(h: Host, nodes: seq<Node>, st: RunState, k: nat, d: Dispatch)
    requires k <= |nodes| && d in AllUnits(h, nodes, st, k)
    ensures IsAsked(h, nodes, st, d)
    decreases k
  {
    hide UnitsOf, AsksFor;
    if d in AllUnits(h, nodes, st, k - 1) {
      UnitsAreAsked(h, nodes, st, k - 1, d);
    } else {
      NodeAsks(h, nodes, nodes[k - 1], st, d);
    }
  }

  lemma AggregateInOrder(h: Host, node: Node, st: RunState, keys: seq<Key>)
    requires (node.Fanout? || node.Pipeline?) && AllItemsDone(h, node, st)
    requires |keys| == |Items(h, node, st.results)| && forall i: nat :: i < |keys| ==> keys[i] == FinalSlot(node, i)
    ensures FinishedSlots(st, keys, Aggregate(h, node, st).items)
  {
    hide Items;
    forall i: nat | i < |keys| ensures Is(st, keys[i], Done) {
      assert Is(st, FinalSlot(node, i), Done);
    }
  }

  lemma NodeFinishes(h: Host, node: Node, st: RunState)
    requires Ready(node, st) && ImmediateOf(h, node, st).Some?
    ensures Finishes(h, node, st, ImmediateOf(h, node, st).value)
  {
    ReadyMayRun(node, st);
    hide MayRun, Ready, Collects;
    match node
    case Barrier(_, needs) =>
      forall k | 0 <= k < |needs|
        ensures Reads(h, needs[k], st.results, ImmediateOf(h, node, st).value.value.items[k])
      {
        RefReads(h, needs[k], st.results);
      }
    case Transform(_, _, over, _) => RefReads(h, over, st.results);
    case Fanout(id, _, _, _) =>
      ItemsAreCollected(h, node, st.results);
      AggregateInOrder(h, node, st, ItemKeys(id, |Items(h, node, st.results)|));
    case Pipeline(id, _, _, stages) =>
      ItemsAreCollected(h, node, st.results);
      AggregateInOrder(h, node, st, StageKeys(id, |Items(h, node, st.results)|, |stages| - 1));
    case _ =>
  }

  lemma {:induction false} ImmediateIsFinished(h: Host, nodes: seq<Node>, st: RunState, k: nat, e: (NodeId, Immediate))
    requires k <= |nodes| && e in AllImmediate(h, nodes, st, k)
    ensures IsFinished(h, nodes, st, e.0, e.1)
    decreases k
  {
    hide ImmediateOf, Ready, Finishes;
    if e in AllImmediate(h, nodes, st, k - 1) {
      ImmediateIsFinished(h, nodes, st, k - 1, e);
    } else {
      NodeFinishes(h, nodes[k - 1], st);
    }
  }

  /** Everything in a batch is asked for by, or finishes, a node of the plan. */
  lemma BatchIsAsked(h: Host, nodes: seq<Node>, st: RunState, caps: ResolvedCaps)
    ensures forall d :: d in BatchSpec(h, nodes, st, caps).dispatch ==> IsAsked(h, nodes, st, d)
    ensures forall e :: e in BatchSpec(h, nodes, st, caps).immediate ==> IsFinished(h, nodes, st, e.0, e.1)
  {
    hide IsAsked, IsFinished, AllUnits, AllImmediate;
    var batch := BatchSpec(h, nodes, st, caps);
    forall d | d in batch.dispatch ensures IsAsked(h, nodes, st, d) {
      UnitsAreAsked(h, nodes, st, |nodes|, d);
    }
    forall e | e in batch.immediate ensures IsFinished(h, nodes, st, e.0, e.1) {
      ImmediateIsFinished(h, nodes, st, |nodes|, e);
    }
  }

  method NextBatch(h: Host, nodes: seq<Node>, st: RunState, caps: ResolvedCaps) returns (batch: Batch)
    ensures batch == BatchSpec(h, nodes, st, caps)
    ensures forall d :: d in batch.dispatch ==> IsAsked(h, nodes, st, d)
    ensures forall e :: e in batch.immediate ==> IsFinished(h, nodes, st, e.0, e.1)
  {
    BatchIsAsked(h, nodes, st, caps);
    hide UnitsOf, ImmediateOf, Ready, Min, IsAsked, IsFinished;
    if caps.budgetTokens.Some? && st.spentTokens >= caps.budgetTokens.value {
      return Batch([], [], Some(BudgetHalt));
    }
    if st.agentsSpawned >= caps.maxAgents {
      return Batch([], [], Some(AgentsHalt));
    }
    var dispatch, immediate := [], [];
    var slots := Concurrency(caps) - |st.running|;
    var budgetedAgents := caps.maxAgents - st.agentsSpawned;
    ghost var room := Min(slots, budgetedAgents);
    for k := 0 to |nodes|
      invariant dispatch == Take(AllUnits(h, nodes, st, k), room)
      invariant immediate == AllImmediate(h, nodes, st, k)
      invariant Min(slots, budgetedAgents) == room - |dispatch|
    {
      var node := nodes[k];
      OneMoreNode(h, nodes, st, k, room);
      IdleNode(h, nodes, node, st);
      if Ready(node, st) && ImmediateOf(h, node, st).Some? {
        immediate := immediate + [(node.id, ImmediateOf(h, node, st).value)];
      } else if Ready(node, st) {
        var units := NodeDispatches(h, nodes, node, st, Min(slots, budgetedAgents));
        dispatch := dispatch + units;
        MinMinus(slots, budgetedAgents, |units|);
        slots := slots - |units|;
        budgetedAgents := budgetedAgents - |units|;
      }
    }
    batch := Batch(dispatch, immediate, None);
  }

  predicate IsComplete(nodes: seq<Node>, st: RunState) {
    forall k | 0 <= k < |nodes| :: Terminal(st, nodes[k].id)
  }

  /** Can never run: no status yet, and something it depends on failed or was skipped. */
  predicate Doomed(node: Node, st: RunState) {
    && NodeKey(node.id) !in st.status
    && exists dep | dep in DependenciesOf(node) :: Is(st, NodeKey(dep), Failed) || Is(st, NodeKey(dep), Skipped)
  }

  /** The doomed among the first `k` nodes, in plan order. */
  function DoomedIds(nodes: seq<Node>, st: RunState, k: nat): (ids: seq<NodeId>)
    requires k <= |nodes|
    ensures forall id :: id in ids <==> exists j :: 0 <= j < k && nodes[j].id == id && Doomed(nodes[j], st)
  {
    if k == 0 then [] else DoomedIds(nodes, st, k - 1) + if Doomed(nodes[k - 1], st) then [nodes[k - 1].id] else []
  }

  method SkippableAfterFailure(nodes: seq<Node>, st: RunState) returns (doomed: seq<NodeId>)
    ensures forall id :: id in doomed <==> exists k :: 0 <= k < |nodes| && nodes[k].id == id && Doomed(nodes[k], st)
    ensures doomed == DoomedIds(nodes, st, |nodes|)
  {
    hide Doomed;
    doomed := [];
    for k := 0 to |nodes|
      invariant doomed == DoomedIds(nodes, st, k)
    {
      if Doomed(nodes[k], st) {
        doomed := doomed + [nodes[k].id];
      }
    }
  }
}
