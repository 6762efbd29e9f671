/**
 What every step of a run keeps. A run changes its state in three ways: it
 publishes the immediate values of a batch, it settles the dispatched workers,
 and it marks doomed nodes skipped. Each is a fold over the state, as in
 extensions/agenda/executor.ts; the invariant says what every recorded status
 and result means.
 */
module RunInvariant {
  import opened PlanSchema
  import opened Upstream
  import opened PlanGraph

  /** A dispatch's verdict, plus what its whole retry sequence cost. */
  datatype AttemptedResult = AttemptedResult(ok: bool, value: Value, tokens: nat, attempts: nat, error: string)

  datatype Settled = Settled(dispatch: Dispatch, result: AttemptedResult)

  /**
   A plan and the code around it. When `functional` holds, a worker that succeeds
   returns `work` of its dispatch; otherwise workers may return anything.
   */
  datatype World = World(h: Host, nodes: seq<Node>, functional: bool, work: Dispatch -> Value)

  /** What validation and the schema guarantee of a plan, cycles aside. */
  ghost predicate Schedulable(nodes: seq<Node>) {
    && UniqueIds(nodes)
    && (forall n :: n in nodes ==> !n.Repeat? && (n.Pipeline? ==> |n.stages| > 0))
    && (forall n, dep :: n in nodes && dep in DependenciesOf(n) ==> FindNode(nodes, dep).Some?)
  }

  // ---------- the three state changes ----------

  /** Where a dispatch's result is stored. */
  function ResultKey(d: Dispatch): Key {
    if d.stageIndex.Some? && d.item.Some? then StageKey(d.nodeId, d.itemIndex, d.stageIndex.value)
    else if d.item.Some? then ItemKey(d.nodeId, d.itemIndex)
    else NodeKey(d.nodeId)
  }

  function ResolveImmediate(h: Host, value: Immediate): Value {
    match value
    case Publish(v) => v
    case Compute(op, input) => h.applyTransform(input, op)
  }

  function Finish(st: RunState, key: Key, value: Value): RunState {
    st.(results := st.results[key := value], status := st.status[key := Done])
  }

  function ApplyImmediate(h: Host, st: RunState, immediate: seq<(NodeId, Immediate)>): RunState {
    if immediate == [] then st
    else
      var last := immediate[|immediate| - 1];
      Finish(ApplyImmediate(h, st, immediate[..|immediate| - 1]), NodeKey(last.0), ResolveImmediate(h, last.1))
  }

  predicate IsTerminalForNode(nodes: seq<Node>, d: Dispatch) {
    var node := FindNode(nodes, d.nodeId);
    node.None? || node.value.Agent?
  }

  function SettleOne(nodes: seq<Node>, st: RunState, one: Settled): RunState {
    var d, r := one.dispatch, one.result;
    var counted := st.(running := st.running - {d.workId},
                       agentsSpawned := st.agentsSpawned + r.attempts,
                       spentTokens := st.spentTokens + r.tokens);
    if r.ok then
      var done := Finish(counted, ResultKey(d), r.value);
      if IsTerminalForNode(nodes, d) then done.(status := done.status[NodeKey(d.nodeId) := Done]) else done
    else
      counted.(status := counted.status[ResultKey(d) := Failed][NodeKey(d.nodeId) := Failed])
  }

  function SettleAll(nodes: seq<Node>, st: RunState, settled: seq<Settled>): RunState {
    if settled == [] then st
    else SettleOne(nodes, SettleAll(nodes, st, settled[..|settled| - 1]), settled[|settled| - 1])
  }

  function MarkSkipped(st: RunState, ids: seq<NodeId>): RunState {
    if ids == [] then st
    else
      var front := MarkSkipped(st, ids[..|ids| - 1]);
      front.(status := front.status[NodeKey(ids[|ids| - 1]) := Skipped])
  }

  // ---------- the meaning of a node ----------

  ghost predicate HasUndefined(items: seq<Value>) {
    exists i :: 0 <= i < |items| && items[i] == Undefined
  }

  /** Stage `s` of an item is the composition of the stages up to `s`. */
  ghost function StageValue(w: World, node: Node, item: Value, i: nat, s: nat, inputs: seq<UpstreamInput>): Value
    requires node.Pipeline? && s < |node.stages|
  {
    var previous := if s == 0 then item else StageValue(w, node, item, i, s - 1, inputs);
    var spec := node.stages[s];
    w.work(Dispatch(w.h.hash(WorkMaterial("pipeline", "", "", None, s, Some((i, w.h.itemKey(item))))), node.id, spec,
                    w.h.substitute(spec.prompt, previous), if item == Undefined then None else Some(item), i, Some(s),
                    inputs))
  }

  /** An item of a fanout is the work on the prompt with the item in it. */
  ghost function ItemValue(w: World, node: Node, item: Value, i: nat, inputs: seq<UpstreamInput>): Value
    requires node.Fanout?
  {
    var spec := node.spec;
    w.work(Dispatch(w.h.hash(WorkMaterial("fanout", spec.role, spec.prompt, spec.schema, 0,
                                          Some((i, w.h.itemKey(item))))),
                    node.id, spec, w.h.substitute(spec.prompt, item), if item == Undefined then None else Some(item), i,
                    None, inputs))
  }

  /** The value of a node from the results of the nodes it reads. */
  ghost function NodeValue(w: World, node: Node, results: Results): Value {
    match node
    case Agent(id, _, spec) =>
      w.work(Dispatch(w.h.hash(WorkMaterial("agent", spec.role, spec.prompt, spec.schema, 0, None)), id, spec,
                      spec.prompt, None, 0, None, InputsOf(w.h, w.nodes, node, results)))
    case Barrier(_, needs) =>
      Arr(seq(|needs|, k requires 0 <= k < |needs| => ResolveRef(w.h, needs[k], results)))
    case Transform(_, _, over, op) => w.h.applyTransform(ResolveRef(w.h, over, results), op)
    case Fanout(_, _, _, _) =>
      var items, inputs := Items(w.h, node, results), InputsOf(w.h, w.nodes, node, results);
      Arr(seq(|items|, i requires 0 <= i < |items| => ItemValue(w, node, items[i], i, inputs)))
    case Pipeline(_, _, _, stages) =>
      var items, inputs := Items(w.h, node, results), InputsOf(w.h, w.nodes, node, results);
      if stages == [] then Arr([])
      else Arr(seq(|items|, i requires 0 <= i < |items| => StageValue(w, node, items[i], i, |stages| - 1, inputs)))
    case Repeat(_, _) => Undefined
  }

  /** The raw result of the worker of one undefined item. */
  ghost predicate RawItemValue(w: World, node: Node, results: Results, v: Value)
    requires node.Fanout? || (node.Pipeline? && |node.stages| > 0)
  {
    var items, inputs := Items(w.h, node, results), InputsOf(w.h, w.nodes, node, results);
    exists i: nat :: i < |items| && items[i] == Undefined &&
      v == if node.Fanout? then ItemValue(w, node, Undefined, i, inputs)
           else StageValue(w, node, Undefined, i, 0, inputs)
  }

  ghost predicate Hijackable(w: World, node: Node, results: Results) {
    (node.Fanout? || (node.Pipeline? && |node.stages| > 0)) && HasUndefined(Items(w.h, node, results))
  }

  /**
   What a finished node holds: its value, unless its collection has an undefined
   item; then the result of such an item's worker stands for the whole node.
   */
  ghost predicate Explained(w: World, node: Node, results: Results, v: Value) {
    if Hijackable(w, node, results) then RawItemValue(w, node, results, v) else v == NodeValue(w, node, results)
  }

  // ---------- the invariant ----------

  ghost predicate NodeKeyLaw(w: World, st: RunState, node: Node)
    requires NodeKey(node.id) in st.status
  {
    match st.status[NodeKey(node.id)]
    case Done =>
      && DependenciesSatisfied(node, st) && NodeKey(node.id) in st.results
      && (w.functional ==> Explained(w, node, st.results, st.results[NodeKey(node.id)]))
    case Failed => DependenciesSatisfied(node, st) && AgentBearing(node)
    case Skipped =>
      exists dep :: dep in DependenciesOf(node) && (Is(st, NodeKey(dep), Failed) || Is(st, NodeKey(dep), Skipped))
    case _ => false
  }

  ghost predicate ItemKeyLaw(w: World, st: RunState, node: Node, i: nat)
    requires ItemKey(node.id, i) in st.status
  {
    var key := ItemKey(node.id, i);
    && node.Fanout? && DependenciesSatisfied(node, st)
    && i < |Items(w.h, node, st.results)| && Items(w.h, node, st.results)[i] != Undefined
    && match st.status[key]
       case Done =>
         && key in st.results
         && (w.functional ==>
               st.results[key] == w.work(FanoutUnit(w.h, node, Items(w.h, node, st.results)[i], i,
                                                       InputsOf(w.h, w.nodes, node, st.results))))
       case Failed => NodeKey(node.id) in st.status
       case _ => false
  }

  ghost predicate StageKeyLaw(w: World, st: RunState, node: Node, i: nat, s: int)
    requires StageKey(node.id, i, s) in st.status
  {
    var key := StageKey(node.id, i, s);
    && node.Pipeline? && DependenciesSatisfied(node, st)
    && i < |Items(w.h, node, st.results)| && Items(w.h, node, st.results)[i] != Undefined
    && 0 <= s < |node.stages| && (s > 0 ==> Is(st, StageKey(node.id, i, s - 1), Done))
    && match st.status[key]
       case Done =>
         var item := Items(w.h, node, st.results)[i];
         && key in st.results
         && (w.functional ==>
               st.results[key] == w.work(StageUnit(w.h, node, item, i, s, Previous(node, item, st.results, i, s),
                                                   InputsOf(w.h, w.nodes, node, st.results))))
       case Failed => NodeKey(node.id) in st.status
       case _ => false
  }

  ghost predicate KeyLaw(w: World, st: RunState, key: Key)
    requires key in st.status
  {
    var node := FindNode(w.nodes, key.node);
    node.Some? &&
    match key
    case NodeKey(_) => NodeKeyLaw(w, st, node.value)
    case ItemKey(_, i) => ItemKeyLaw(w, st, node.value, i)
    case StageKey(_, i, s) => StageKeyLaw(w, st, node.value, i, s)
  }

  ghost predicate Inv(w: World, st: RunState) {
    forall key :: key in st.status ==> KeyLaw(w, st, key)
  }

  /** Statuses are only added, and a done key keeps its result. */
  ghost predicate Grows(st: RunState, st': RunState) {
    forall key :: key in st.status ==>
      key in st'.status && st'.status[key] == st.status[key] &&
      (st.status[key] == Done && key in st.results ==> key in st'.results && st'.results[key] == st.results[key])
  }

  // ---------- what a node reads never changes once it may run ----------

  lemma DoneHasResult(w: World, st: RunState, id: NodeId)
    requires Inv(w, st) && Is(st, NodeKey(id), Done)
    ensures FindNode(w.nodes, id).Some? && DependenciesSatisfied(FindNode(w.nodes, id).value, st)
    ensures NodeKey(id) in st.results
  {
    assert KeyLaw(w, st, NodeKey(id));
  }

  lemma NeedIsDone(node: Node, st: RunState, ref: Ref)
    requires DependenciesSatisfied(node, st) && ref in RefsOf(node)
    ensures Is(st, NodeKey(ref.node), Done)
  {
    DependencyOfRef(node, ref);
  }

  lemma {:induction false} ChainIsDone(w: World, st: RunState, node: Node, p: seq<Ref>)
    requires Inv(w, st) && DependenciesSatisfied(node, st) && Chain(w.nodes, node.needs, p)
    ensures Is(st, NodeKey(p[|p| - 1].node), Done)
    decreases |p|
  {
    if |p| == 1 {
      NeedIsDone(node, st, p[0]);
    } else {
      var front := p[..|p| - 1];
      ChainIsDone(w, st, node, front);
      var barrier := front[|front| - 1];
      assert IsBarrier(w.nodes, barrier) && p[|p| - 1] in Members(w.nodes, barrier);
      DoneHasResult(w, st, barrier.node);
      NeedIsDone(FindNode(w.nodes, barrier.node).value, st, p[|p| - 1]);
    }
  }

  /** Every result a ready node is handed is finished, behind however many barriers. */
  lemma UpstreamIsDone(w: World, st: RunState, node: Node, ref: Ref)
    requires Inv(w, st) && DependenciesSatisfied(node, st)
    requires ref in RefsOf(node) || ref in UpstreamRefs(w.nodes, node.needs)
    ensures Is(st, NodeKey(ref.node), Done) && NodeKey(ref.node) in st.results
  {
    if ref in RefsOf(node) {
      NeedIsDone(node, st, ref);
    } else {
      UpstreamExact(w.nodes, node.needs);
      var p :| Chain(w.nodes, node.needs, p) && p[|p| - 1] == ref;
      ChainIsDone(w, st, node, p);
    }
    DoneHasResult(w, st, ref.node);
  }

  /** The two results maps agree on every ref a node reads. */
  ghost predicate ReadsAgree(w: World, node: Node, a: Results, b: Results) {
    forall ref :: ref in RefsOf(node) || ref in UpstreamRefs(w.nodes, node.needs) ==>
      ResolveRef(w.h, ref, a) == ResolveRef(w.h, ref, b)
  }

  lemma ReadsStable(w: World, st: RunState, st': RunState, node: Node)
    requires Inv(w, st) && DependenciesSatisfied(node, st) && Grows(st, st')
    ensures ReadsAgree(w, node, st.results, st'.results) && DependenciesSatisfied(node, st')
  {
    forall ref | ref in RefsOf(node) || ref in UpstreamRefs(w.nodes, node.needs)
      ensures ResolveRef(w.h, ref, st.results) == ResolveRef(w.h, ref, st'.results)
    {
      UpstreamIsDone(w, st, node, ref);
    }
  }

  lemma SameInputs(w: World, node: Node, a: Results, b: Results)
    requires ReadsAgree(w, node, a, b)
    ensures InputsOf(w.h, w.nodes, node, a) == InputsOf(w.h, w.nodes, node, b)
    ensures node.Fanout? || node.Pipeline? ==> Items(w.h, node, a) == Items(w.h, node, b)
  {
    var refs := UpstreamRefs(w.nodes, node.needs);
    forall k | 0 <= k < |refs|
      ensures InputsOf(w.h, w.nodes, node, a)[k] == InputsOf(w.h, w.nodes, node, b)[k]
    {
      assert refs[k] in refs;
    }
    if node.Fanout? || node.Pipeline? {
      assert RefsOf(node)[|node.needs|] == node.over;
    }
  }

  lemma SameNodeValue(w: World, node: Node, a: Results, b: Results)
    requires ReadsAgree(w, node, a, b)
    ensures NodeValue(w, node, a) == NodeValue(w, node, b)
  {
    SameInputs(w, node, a, b);
    match node
    case Transform(_, _, over, _) =>
      assert RefsOf(node)[|node.needs|] == over;
    case Barrier(_, needs) =>
      forall k | 0 <= k < |needs| ensures ResolveRef(w.h, needs[k], a) == ResolveRef(w.h, needs[k], b) {
        assert RefsOf(node)[k] == needs[k];
      }
      assert NodeValue(w, node, a).items == NodeValue(w, node, b).items;
    case Fanout(_, _, _, _) =>
      assert NodeValue(w, node, a).items == NodeValue(w, node, b).items;
    case Pipeline(_, _, _, _) =>
      assert NodeValue(w, node, a).items == NodeValue(w, node, b).items;
    case _ =>
  }

  lemma SameExplained(w: World, node: Node, a: Results, b: Results, v: Value)
    requires ReadsAgree(w, node, a, b)
    ensures Explained(w, node, a, v) <==> Explained(w, node, b, v)
  {
    SameInputs(w, node, a, b);
    SameNodeValue(w, node, a, b);
  }

  lemma NodeLawKept(w: World, st: RunState, st': RunState, node: Node)
    requires Inv(w, st) && Grows(st, st') && NodeKey(node.id) in st.status && NodeKeyLaw(w, st, node)
    ensures NodeKeyLaw(w, st', node)
  {
    hide Explained, Hijackable, UpstreamRefs, RefsOf, KeyLaw;
    if DependenciesSatisfied(node, st) {
      ReadsStable(w, st, st', node);
      if st.status[NodeKey(node.id)] == Done && w.functional {
        SameExplained(w, node, st.results, st'.results, st.results[NodeKey(node.id)]);
      }
    }
  }

  lemma ItemLawKept(w: World, st: RunState, st': RunState, node: Node, i: nat)
    requires Inv(w, st) && Grows(st, st') && ItemKey(node.id, i) in st.status && ItemKeyLaw(w, st, node, i)
    ensures ItemKeyLaw(w, st', node, i)
  {
    hide UpstreamRefs, RefsOf, KeyLaw, Items, InputsOf;
    ReadsStable(w, st, st', node);
    SameInputs(w, node, st.results, st'.results);
  }

  lemma StageLawKept(w: World, st: RunState, st': RunState, node: Node, i: nat, s: nat)
    requires Inv(w, st) && Grows(st, st') && StageKey(node.id, i, s) in st.status && StageKeyLaw(w, st, node, i, s)
    requires FindNode(w.nodes, node.id) == Some(node)
    ensures StageKeyLaw(w, st', node, i, s)
  {
    hide UpstreamRefs, RefsOf, Items, InputsOf;
    ReadsStable(w, st, st', node);
    SameInputs(w, node, st.results, st'.results);
    if s > 0 {
      assert KeyLaw(w, st, StageKey(node.id, i, s - 1));
    }
  }

  /** A status that was lawful stays lawful as the run goes on. */
  lemma LawKept(w: World, st: RunState, st': RunState, key: Key)
    requires Inv(w, st) && Grows(st, st') && key in st.status
    ensures KeyLaw(w, st', key)
  {
    assert KeyLaw(w, st, key);
    var node := FindNode(w.nodes, key.node).value;
    hide NodeKeyLaw, ItemKeyLaw, StageKeyLaw, Inv;
    match key
    case NodeKey(_) => NodeLawKept(w, st, st', node);
    case ItemKey(_, i) => ItemLawKept(w, st, st', node, i);
    case StageKey(_, i, s) => StageLawKept(w, st, st', node, i, s);
  }
}
