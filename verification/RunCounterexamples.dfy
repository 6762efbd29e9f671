/**
 Promises of the scheduler's comments that the code does not keep: admissible
 plans and whole runs of them, from the empty state. The exact conditions are in
 RunBudget, RunReservation, RunLimits, RunCapacity and RunMeaning.
 */
module RunCounterexamples {
  import opened PlanSchema
  import opened Upstream
  import opened PlanGraph
  import opened PlanValidation
  import opened RunInvariant
  import opened RunSteps
  import opened RunBudget
  import opened RunWorkers
  import opened RunAccounts
  import opened RunLaws
  import opened RunSemantics
  import opened RunScript
  import opened RunSteady
  import opened RunOutcome
  import opened RunCapacity
  import opened RunProgress
  import opened RunReservation
  import CycleDetection

  const RULES := Rules(["research"], (v: Value) => true)

  function Spec(prompt: string, retries: nat): AgentSpec {
    AgentSpec("research", prompt, "", Some(retries), None, false)
  }

  // ---------- runs, step by step ----------

  /** The outside follows the script and the run stands at `st`, with no failure and no halt. */
  ghost predicate At(w: World, script: Script, caps: ResolvedCaps, schedules: seq<seq<nat>>, st: RunState) {
    var c := RunOf(w, Follows(w, script), caps, schedules);
    IsRun(w, Follows(w, script), caps, schedules) && c.st == st && c.halted.None? && c.failures == []
  }

  lemma BeginsAt(w: World, script: Script, caps: ResolvedCaps)
    ensures At(w, script, caps, [], EMPTY_RUN_STATE)
  {
  }

  /** The state after one dispatch succeeded at the last of its scripted attempts. */
  ghost function AfterOne(w: World, script: Script, st: RunState, d: Dispatch): RunState {
    SettleOne(w.nodes, Launched(st, [d]), ScriptedVerdict(w, script, d))
  }

  /** The pool funds the retries asked of `d`. */
  ghost predicate Funds(w: World, script: Script, caps: ResolvedCaps, st: RunState, d: Dispatch) {
    1 <= script.want(d) <= MaxAttempts(d) &&
    (script.want(d) == 1 || script.want(d) - 1 <= Spare(w.h, w.nodes, Launched(st, [d]), caps, [d]))
  }

  lemma OneFundable(w: World, script: Script, caps: ResolvedCaps, st: RunState, d: Dispatch)
    requires Funds(w, script, caps, st, d)
    ensures Fundable(script, [d], Spare(w.h, w.nodes, Launched(st, [d]), caps, [d]))
  {
    assert Asked(script, [d])[..0] == [] && Sum([]) == 0;
    assert Asked(script, [d])[0] == AskedOf(script, d);
  }

  lemma SettleOnly(nodes: seq<Node>, st: RunState, one: Settled)
    ensures SettleAll(nodes, st, [one]) == SettleOne(nodes, st, one)
  {
    assert [one][..0] == [];
  }

  lemma SettledOne(w: World, script: Script, caps: ResolvedCaps, c: Config, d: Dispatch, schedule: seq<nat>)
    requires Funds(w, script, caps, c.st, d) && c.failures == []
    requires PlayedOut(Worked(w, Follows(w, script), caps, c, [d], schedule))
    ensures var c' := Settle(w, Follows(w, script), caps, c, [d], schedule);
            && c'.st == AfterOne(w, script, c.st, d) && c'.failures == [] && c'.halted.None?
            && c'.bills == c.bills + BillsFor(d, Scripted(script, d, script.want(d)))
  {
    hide Funds, Play, Opening, SettleOne, Spare, Scripted, PlayedOut;
    OneFundable(w, script, caps, c.st, d);
    BatchFollows(w, script, caps, c, [d], schedule);
    var pool := Worked(w, Follows(w, script), caps, c, [d], schedule);
    var verdict := ScriptedVerdict(w, script, d);
    assert Verdicts([d], pool.ps) == [verdict];
    SettleOnly(w.nodes, Launched(c.st, [d]), verdict);
    assert [verdict][..0] == [];
    assert FailuresOf([verdict]) == [] && c.failures + [] == [];
    NoFailureNoCollapse(Follows(w, script));
    assert BatchBills([d], pool.paid, 1) == BatchBills([d], pool.paid, 0) + BillsFor(d, pool.paid[0]);
  }

  /** One iteration that dispatches `d` alone. */
  lemma Dispatches(w: World, script: Script, caps: ResolvedCaps, schedules: seq<seq<nat>>, st: RunState, d: Dispatch)
    returns (all: seq<seq<nat>>)
    requires At(w, script, caps, schedules, st) && !IsComplete(w.nodes, st)
    requires BatchSpec(w.h, w.nodes, st, caps) == Batch([d], [], None) && Funds(w, script, caps, st, d)
    ensures At(w, script, caps, all, AfterOne(w, script, st, d))
    ensures RunOf(w, Follows(w, script), caps, all).bills ==
            RunOf(w, Follows(w, script), caps, schedules).bills + BillsFor(d, Scripted(script, d, script.want(d)))
  {
    hide Funds, BatchSpec, IsComplete, Settle, Worked, PlayedOut, SettleOne, Scripted, RunOf, IsRun, Spare;
    var out := Follows(w, script);
    var c := RunOf(w, out, caps, schedules);
    FollowsIsFaithful(w, script);
    var schedule := IterationPlays(w, out, caps, c);
    NextIsRun(w, out, caps, schedules, schedule);
    NothingPublished(w.h, st);
    SettledOne(w, script, caps, AfterPublishing(w, caps, c), d, schedule);
    all := schedules + [schedule];
  }

  /** One iteration that only publishes. */
  lemma Publishes(w: World, script: Script, caps: ResolvedCaps, schedules: seq<seq<nat>>, st: RunState,
                  immediate: seq<(NodeId, Immediate)>) returns (all: seq<seq<nat>>)
    requires At(w, script, caps, schedules, st) && !IsComplete(w.nodes, st) && immediate != []
    requires BatchSpec(w.h, w.nodes, st, caps) == Batch([], immediate, None)
    ensures At(w, script, caps, all, ApplyImmediate(w.h, st, immediate))
  {
    hide BatchSpec, IsComplete, RunOf, IsRun, ApplyImmediate;
    NextIsRun(w, Follows(w, script), caps, schedules, []);
    all := schedules + [[]];
  }

  /** The run halts by the agent cap, not by failures, with `id` unfinished. */
  ghost predicate CutOff(w: World, out: Outside, caps: ResolvedCaps, schedules: seq<seq<nat>>, id: NodeId) {
    var c := RunOf(w, out, caps, schedules);
    IsRun(w, out, caps, schedules) && CapHalted(out, c) && c.failures == [] && !Terminal(c.st, id)
  }

  lemma Halts(w: World, script: Script, caps: ResolvedCaps, schedules: seq<seq<nat>>, st: RunState, id: NodeId)
    returns (all: seq<seq<nat>>)
    requires At(w, script, caps, schedules, st) && id in Ids(w.nodes) && !Terminal(st, id)
    requires caps.budgetTokens.None? && st.agentsSpawned >= caps.maxAgents
    ensures CutOff(w, Follows(w, script), caps, all, id) && RunOf(w, Follows(w, script), caps, all).st == st
  {
    hide RunOf, IsRun, Terminal;
    assert !IsComplete(w.nodes, st) by {
      var n :| n in w.nodes && n.id == id;
      var k :| 0 <= k < |w.nodes| && w.nodes[k] == n;
    }
    hide IsComplete;
    NoFailureNoCollapse(Follows(w, script));
    NextIsRun(w, Follows(w, script), caps, schedules, []);
    all := schedules + [[]];
  }

  // ---------- the first batch ----------

  /** Workers whose value depends on the node only, and one node that needs `tries` attempts. */
  ghost function Tries(id: NodeId, tries: nat, cost: nat): Script {
    Script((d: Dispatch) => if d.nodeId == id then tries else 1, (d: Dispatch) => cost)
  }

  lemma NoInputs(h: Host, nodes: seq<Node>, node: Node, results: Results)
    requires node.needs == []
    ensures InputsOf(h, nodes, node, results) == []
  {
  }

  function FirstUnit(h: Host, node: Node): Dispatch
    requires node.Agent?
  {
    AgentUnit(h, node, [])
  }

  lemma NotReadyAtStart(h: Host, nodes: seq<Node>, n: Node)
    requires DependenciesOf(n) != []
    ensures !Ready(n, EMPTY_RUN_STATE) && UnitsOf(h, nodes, n, EMPTY_RUN_STATE) == []
  {
    assert DependenciesOf(n)[0] in DependenciesOf(n);
  }

  lemma FreeAgentAtStart(h: Host, nodes: seq<Node>, a: Node)
    requires a.Agent? && a.needs == []
    ensures UnitsOf(h, nodes, a, EMPTY_RUN_STATE) == [FirstUnit(h, a)] && ImmediateOf(h, a, EMPTY_RUN_STATE).None?
  {
    NoInputs(h, nodes, a, EMPTY_RUN_STATE.results);
  }

  lemma {:induction false} OnlyFirst(h: Host, a: Node, rest: seq<Node>, k: nat)
    requires a.Agent? && a.needs == [] && forall n :: n in rest ==> DependenciesOf(n) != []
    requires 1 <= k <= |rest| + 1
    ensures AllUnits(h, [a] + rest, EMPTY_RUN_STATE, k) == [FirstUnit(h, a)]
    ensures AllImmediate(h, [a] + rest, EMPTY_RUN_STATE, k) == []
    decreases k
  {
    hide UnitsOf, ImmediateOf, Ready, FirstUnit, DependenciesOf;
    var nodes, st := [a] + rest, EMPTY_RUN_STATE;
    if k == 1 {
      FreeAgentAtStart(h, nodes, a);
      assert AllUnits(h, nodes, st, 1) == AllUnits(h, nodes, st, 0) + [FirstUnit(h, a)];
    } else {
      OnlyFirst(h, a, rest, k - 1);
      assert nodes[k - 1] == rest[k - 2] && rest[k - 2] in rest;
      NotReadyAtStart(h, nodes, rest[k - 2]);
    }
  }

  /** The first batch of a plan in which only `a` needs nothing. */
  lemma FirstBatch(h: Host, a: Node, rest: seq<Node>, caps: ResolvedCaps)
    requires a.Agent? && a.needs == [] && forall n :: n in rest ==> DependenciesOf(n) != []
    requires caps.maxAgents > 0 && caps.maxConcurrent > 0 && caps.budgetTokens != Some(0)
    ensures BatchSpec(h, [a] + rest, EMPTY_RUN_STATE, caps) == Batch([FirstUnit(h, a)], [], None)
  {
    hide AllUnits, AllImmediate, FirstUnit, DependenciesOf;
    OnlyFirst(h, a, rest, |rest| + 1);
  }

  /** The state once that batch has settled. */
  ghost function FirstDone(w: World, a: Node, tries: nat, cost: nat): RunState
    requires a.Agent? && tries > 0
  {
    RunState(map[NodeKey(a.id) := w.work(FirstUnit(w.h, a))], map[NodeKey(a.id) := Done], {}, tries, cost * (tries - 1))
  }

  lemma {:induction false} TriesCost(id: NodeId, tries: nat, cost: nat, d: Dispatch, n: nat)
    requires n <= Tries(id, tries, cost).want(d)
    ensures Sum(Scripted(Tries(id, tries, cost), d, n)) ==
            cost * if n == 0 then 0 else if n == Tries(id, tries, cost).want(d) then n - 1 else n
    decreases n
  {
    if n > 0 {
      TriesCost(id, tries, cost, d, n - 1);
      assert Scripted(Tries(id, tries, cost), d, n)[..n - 1] == Scripted(Tries(id, tries, cost), d, n - 1);
    }
  }

  /** What a worker of the script adds, stored under the key of its dispatch. */
  lemma AfterAgent(w: World, id: NodeId, tries: nat, cost: nat, st: RunState, d: Dispatch)
    requires st.running == {} && tries > 0 && FindNode(w.nodes, d.nodeId).Some?
    ensures var n := if d.nodeId == id then tries else 1;
            var st' := AfterOne(w, Tries(id, tries, cost), st, d);
            && st'.results == st.results[ResultKey(d) := w.work(d)]
            && st'.status == (if FindNode(w.nodes, d.nodeId).value.Agent?
                              then st.status[ResultKey(d) := Done][NodeKey(d.nodeId) := Done]
                              else st.status[ResultKey(d) := Done])
            && st'.running == {} && st'.agentsSpawned == st.agentsSpawned + n
            && st'.spentTokens == st.spentTokens + cost * (n - 1)
  {
    var script := Tries(id, tries, cost);
    TriesCost(id, tries, cost, d, script.want(d));
    assert InFlight([d]) == {d.workId};
  }

  lemma AfterFirst(w: World, a: Node, id: NodeId, tries: nat, cost: nat)
    requires a.Agent? && FindNode(w.nodes, a.id) == Some(a) && tries > 0
    ensures AfterOne(w, Tries(id, tries, cost), EMPTY_RUN_STATE, FirstUnit(w.h, a)) ==
            FirstDone(w, a, if a.id == id then tries else 1, cost)
  {
    hide AfterOne;
    AfterAgent(w, id, tries, cost, EMPTY_RUN_STATE, FirstUnit(w.h, a));
  }

  /** The run after its first iteration: `a` is done. */
  lemma FirstIteration(w: World, a: Node, rest: seq<Node>, id: NodeId, tries: nat, cost: nat, caps: ResolvedCaps)
    returns (all: seq<seq<nat>>)
    requires w.nodes == [a] + rest && a.Agent? && a.needs == [] && tries > 0
    requires forall n :: n in rest ==> DependenciesOf(n) != []
    requires caps.maxAgents > 0 && caps.maxConcurrent > 0 && caps.budgetTokens != Some(0)
    requires Funds(w, Tries(id, tries, cost), caps, EMPTY_RUN_STATE, FirstUnit(w.h, a))
    ensures At(w, Tries(id, tries, cost), caps, all, FirstDone(w, a, if a.id == id then tries else 1, cost))
    ensures RunOf(w, Follows(w, Tries(id, tries, cost)), caps, all).bills ==
            BillsFor(FirstUnit(w.h, a),
                     Scripted(Tries(id, tries, cost), FirstUnit(w.h, a), if a.id == id then tries else 1))
  {
    hide Funds, BatchSpec, AfterOne, At, Scripted, FirstDone;
    var script, d := Tries(id, tries, cost), FirstUnit(w.h, a);
    FirstBatch(w.h, a, rest, caps);
    BeginsAt(w, script, caps);
    assert !IsComplete(w.nodes, EMPTY_RUN_STATE) by {
      assert !Terminal(EMPTY_RUN_STATE, w.nodes[0].id);
    }
    all := Dispatches(w, script, caps, [], EMPTY_RUN_STATE, d);
    AfterFirst(w, a, id, tries, cost);
    assert [] + BillsFor(d, Scripted(script, d, script.want(d))) == BillsFor(d, Scripted(script, d, script.want(d)));
  }

  // ---------- admissible plans ----------

  /** Every node needs earlier nodes only. */
  ghost predicate Ordered(nodes: seq<Node>) {
    UniqueIds(nodes) && forall k :: 0 <= k < |nodes| ==> NeedsEarlier(nodes, k)
  }

  ghost predicate NeedsEarlier(nodes: seq<Node>, k: nat)
    requires k < |nodes|
  {
    forall i :: 0 <= i < |RefsOf(nodes[k])| ==> RefsOf(nodes[k])[i].node in Ids(nodes[..k])
  }

  lemma EarlierEdge(nodes: seq<Node>, k: nat, v: NodeId)
    requires Ordered(nodes) && k < |nodes| && Edge(GraphOf(nodes), nodes[k].id, v)
    ensures v in Ids(nodes[..k])
  {
    GraphOfUnique(nodes, k);
    assert NeedsEarlier(nodes, k);
  }

  lemma OrderedIsAcyclic(nodes: seq<Node>)
    requires Ordered(nodes)
    ensures Acyclic(GraphOf(nodes))
  {
    hide Ordered;
    var names := seq(|nodes|, k requires 0 <= k < |nodes| => nodes[k].id);
    forall id | id in GraphOf(nodes) ensures id in names {
      var k :| 0 <= k < |nodes| && nodes[k].id == id;
      assert names[k] == id;
    }
    forall k, v | 0 <= k < |names| && Edge(GraphOf(nodes), names[k], v) ensures v in names[..k] {
      EarlierEdge(nodes, k, v);
      var n :| n in nodes[..k] && n.id == v;
      var j :| 0 <= j < k && nodes[j] == n;
      assert names[..k][j] == v;
    }
    CycleDetection.TopologicalGivesRanks(GraphOf(nodes), names);
  }

  lemma OrderedIsAdmissible(plan: Plan)
    requires Ordered(plan.nodes) && |plan.nodes| <= MAX_NODES && forall n :: n in plan.nodes ==> GoodNode(RULES, n)
    requires plan.caps.budgetTokens.Some? ==>
               plan.caps.budgetTokens.value >= AgentNodeCount(plan.nodes) * MIN_BUDGET_PER_AGENT
    ensures Admissible(RULES, plan)
  {
    hide GoodNode, Acyclic, DeclaredWorkers;
    OrderedIsAcyclic(plan.nodes);
    CountsDeclaredWorkers(plan.nodes);
    var nodes := plan.nodes;
    forall k | 0 <= k < |nodes| ensures GoodRefs(Ids(nodes), nodes[k]) {
      assert NeedsEarlier(nodes, k);
      forall i | 0 <= i < |RefsOf(nodes[k])| ensures RefsOf(nodes[k])[i].node in Ids(nodes) - {nodes[k].id} {
        var id := RefsOf(nodes[k])[i].node;
        assert id in Ids(nodes[..k]);
        var n :| n in nodes[..k] && n.id == id;
      }
    }
  }

  /** A free agent and a node that reads it. */
  lemma PairIsAdmissible(a: Node, b: Node, caps: Caps)
    requires a.Agent? && a.needs == [] && RefsOf(b) == [Ref(a.id, [])] && a.id != b.id && caps.budgetTokens.None?
    requires GoodNode(RULES, a) && GoodNode(RULES, b)
    ensures Admissible(RULES, Plan([a, b], caps)) && DependenciesOf(b) == [a.id]
  {
    hide GoodNode, Acyclic;
    var nodes := [a, b];
    assert nodes[..1] == [a] && a in nodes[..1];
    assert NeedsEarlier(nodes, 0) && NeedsEarlier(nodes, 1);
    OrderedIsAdmissible(Plan(nodes, caps));
  }

  lemma ItemPromptIsGood()
    ensures MentionsItem("{item}")
  {
    var none: string := "";
    assert "{item}" == none + "{item}" + none;
  }

  // ---------- the declared nodes do not always fit ----------

  function One(id: NodeId, needs: seq<Ref>, retries: nat): Node {
    Agent(id, needs, Spec("p", retries))
  }

  const TRAILING := Plan([One("a", [], 0), Barrier("b", [Ref("a", [])])], Caps(None, Some(1), None))

  /**
   Bookkeeping: an agent and a barrier over it, with `maxAgents` the number of
   agents and no retry at all. The cap halt comes before the barrier is published.
   */
  lemma TrailingBarrierIsCutOff(w: World) returns (out: Outside, schedules: seq<seq<nat>>)
    requires w.nodes == TRAILING.nodes
    ensures Admissible(RULES, TRAILING) && Faithful(w, out)
    ensures CutOff(w, out, ResolveCaps(TRAILING.caps), schedules, "b")
  {
    hide At, CutOff, Admissible, Faithful, BillsFor;
    var a, b := w.nodes[0], w.nodes[1];
    var script, caps := Tries("a", 1, 0), ResolveCaps(TRAILING.caps);
    out := Follows(w, script);
    FollowsIsFaithful(w, script);
    PairIsAdmissible(a, b, TRAILING.caps);
    assert w.nodes == [a] + [b] && b in w.nodes;
    var all := FirstIteration(w, a, [b], "a", 1, 0, caps);
    schedules := Halts(w, script, caps, all, FirstDone(w, a, 1, 0), "b");
  }

  const SHARED := Plan([One("a", [], 2), One("b", [Ref("a", [])], 2)], Caps(None, Some(2), None))

  /**
   A shared work id: two agents with the same prompt and role. The retry of `a` is
   funded with the admission `b` needs, and `b` never runs.
   */
  lemma SharedWorkIdStarves(w: World) returns (out: Outside, schedules: seq<seq<nat>>)
    requires w.nodes == SHARED.nodes
    ensures Admissible(RULES, SHARED) && Faithful(w, out)
    ensures CutOff(w, out, ResolveCaps(SHARED.caps), schedules, "b")
  {
    hide At, Funds, CutOff, Admissible, Faithful, BillsFor;
    var a, b := w.nodes[0], w.nodes[1];
    var script, caps := Tries("a", 2, 0), ResolveCaps(SHARED.caps);
    out := Follows(w, script);
    FollowsIsFaithful(w, script);
    PairIsAdmissible(a, b, SHARED.caps);
    assert w.nodes == [a] + [b] && b in w.nodes;
    SharedFunds(w);
    var all := FirstIteration(w, a, [b], "a", 2, 0, caps);
    schedules := Halts(w, script, caps, all, FirstDone(w, a, 2, 0), "b");
  }

  /** Nothing is held back for `b`, because its work id is in flight. */
  lemma SharedFunds(w: World)
    requires w.nodes == SHARED.nodes
    ensures Funds(w, Tries("a", 2, 0), ResolveCaps(SHARED.caps), EMPTY_RUN_STATE, FirstUnit(w.h, w.nodes[0]))
  {
    var a, b := w.nodes[0], w.nodes[1];
    var batch := [FirstUnit(w.h, a)];
    var st := Launched(EMPTY_RUN_STATE, batch);
    assert FirstUnit(w.h, a) in batch;
    assert BatchNodes(batch) == {"a"};
    assert AgentWorkId(w.h, a) == AgentWorkId(w.h, b) && AgentWorkId(w.h, b) in st.running;
    assert UnstartedWork(w.h, w.nodes, st, {"a"}, 1) == 0;
    assert UnstartedWork(w.h, w.nodes, st, {"a"}, 2) == 0;
  }

  const STAGED := Plan([One("a", [], 0), Pipeline("p", [], Ref("a", []), [Spec("one", 2), Spec("two", 2)])],
                       Caps(None, Some(3), None))

  /** The state once `a` is done with a single item. */
  function OneItem(): RunState {
    RunState(map[NodeKey("a") := Text("x")], map[NodeKey("a") := Done], {}, 1, 0)
  }

  function StageZero(h: Host): Dispatch {
    StageUnit(h, STAGED.nodes[1], Text("x"), 0, 0, Text("x"), [])
  }

  /** The only work left once `a` is done is the first stage of its one item. */
  lemma StageZeroIsNext(h: Host)
    ensures BatchSpec(h, STAGED.nodes, OneItem(), ResolveCaps(STAGED.caps)) == Batch([StageZero(h)], [], None)
  {
    var nodes, st := STAGED.nodes, OneItem();
    var a, p := nodes[0], nodes[1];
    NoInputs(h, nodes, p, st.results);
    assert DependenciesOf(p) == ["a"];
    assert Items(h, p, st.results) == [Text("x")];
    assert !Is(st, FinalSlot(p, 0), Done);
    assert PipelineUnits(h, nodes, p, st, 0) == [];
    assert StageFor(st, "p", 0, 0) == 0;
    assert PipelineUnits(h, nodes, p, st, 1) == [StageZero(h)];
    assert UnitsOf(h, nodes, p, st) == [StageZero(h)];
    assert UnitsOf(h, nodes, a, st) == [];
    assert AllUnits(h, nodes, st, 1) == [];
    assert AllUnits(h, nodes, st, 2) == [StageZero(h)];
    assert AllImmediate(h, nodes, st, 1) == [];
    assert AllImmediate(h, nodes, st, 2) == [];
  }

  lemma StageZeroFunds(w: World)
    requires w.nodes == STAGED.nodes
    ensures Funds(w, Tries("p", 2, 0), ResolveCaps(STAGED.caps), OneItem(), StageZero(w.h))
  {
    var batch := [StageZero(w.h)];
    var mid := Launched(OneItem(), batch);
    assert StageZero(w.h) in batch;
    assert BatchNodes(batch) == {"p"};
    assert UnstartedWork(w.h, w.nodes, mid, {"p"}, 1) == 0;
    assert UnstartedWork(w.h, w.nodes, mid, {"p"}, 2) == 0;
  }

  /**
   Later stages: a pipeline reserves nothing while one of its stages is in a batch.
   With `maxAgents` the three workers declared, the retry of the first stage is
   funded and the second stage never runs.
   */
  lemma PipelineRetryStarvesNextStage(w: World) returns (out: Outside, schedules: seq<seq<nat>>)
    requires w.nodes == STAGED.nodes && w.work(FirstUnit(w.h, w.nodes[0])) == Text("x")
    ensures Admissible(RULES, STAGED) && Faithful(w, out)
    ensures CutOff(w, out, ResolveCaps(STAGED.caps), schedules, "p")
    ensures StageKey("p", 0, 1) !in RunOf(w, out, ResolveCaps(STAGED.caps), schedules).st.status
  {
    hide At, Funds, CutOff, Admissible, Faithful, BillsFor, BatchSpec, AfterOne, StageZero;
    var a, p := w.nodes[0], w.nodes[1];
    var script, caps := Tries("p", 2, 0), ResolveCaps(STAGED.caps);
    out := Follows(w, script);
    FollowsIsFaithful(w, script);
    PairIsAdmissible(a, p, STAGED.caps);
    assert w.nodes == [a] + [p] && p in w.nodes;
    OneTryIsFunded(w, script, caps, EMPTY_RUN_STATE, FirstUnit(w.h, a));
    var all := FirstIteration(w, a, [p], "p", 2, 0, caps);
    StageZeroIsNext(w.h);
    StageZeroFunds(w);
    assert !Terminal(OneItem(), w.nodes[1].id);
    all := Dispatches(w, script, caps, all, OneItem(), StageZero(w.h));
    AfterStageZero(w);
    schedules := Halts(w, script, caps, all, AfterOne(w, script, OneItem(), StageZero(w.h)), "p");
  }

  lemma OneTryIsFunded(w: World, script: Script, caps: ResolvedCaps, st: RunState, d: Dispatch)
    requires script.want(d) == 1
    ensures Funds(w, script, caps, st, d)
  {
  }

  lemma AfterStageZero(w: World)
    requires w.nodes == STAGED.nodes
    ensures var st := AfterOne(w, Tries("p", 2, 0), OneItem(), StageZero(w.h));
            st.status == map[NodeKey("a") := Done, StageKey("p", 0, 0) := Done] && st.agentsSpawned == 3
  {
    hide AfterOne;
    assert FindNode(w.nodes, "p") == Some(w.nodes[1]);
    AfterAgent(w, "p", 2, 0, OneItem(), StageZero(w.h));
  }

  const WIDE := Plan([Agent("l", [], Spec("list", 0)), One("b", [Ref("l", [])], 2),
                      Fanout("f", [], Ref("l", []), Spec("{item}", 0))], Caps(Some(1), Some(5), None))

  const THREE := Arr([Text("x"), Text("y"), Text("z")])

  /** The state once the list is there: the width of the fanout is known. */
  function ListDone(): RunState {
    RunState(map[NodeKey("l") := THREE], map[NodeKey("l") := Done], {}, 1, 0)
  }

  /** The state once `b` has succeeded at its third attempt. */
  ghost function WorkDone(w: World): RunState {
    RunState(map[NodeKey("l") := THREE, NodeKey("b") := w.work(WorkUnit(w.h))],
             map[NodeKey("l") := Done, NodeKey("b") := Done], {}, 4, 0)
  }

  ghost function WorkUnit(h: Host): Dispatch {
    AgentUnit(h, WIDE.nodes[1], InputsOf(h, WIDE.nodes, WIDE.nodes[1], ListDone().results))
  }

  function ItemUnit(h: Host): Dispatch {
    FanoutUnit(h, WIDE.nodes[2], Text("x"), 0, [])
  }

  lemma WideFacts(h: Host)
    ensures WorkUnit(h).nodeId == "b" && ResultKey(WorkUnit(h)) == NodeKey("b") && MaxAttempts(WorkUnit(h)) == 3
    ensures ItemUnit(h).nodeId == "f" && ResultKey(ItemUnit(h)) == ItemKey("f", 0)
    ensures FindNode(WIDE.nodes, "b") == Some(WIDE.nodes[1]) && FindNode(WIDE.nodes, "f") == Some(WIDE.nodes[2])
  {
    hide InputsOf;
  }

  lemma WideIsAdmissible()
    ensures Admissible(RULES, WIDE)
    ensures DependenciesOf(WIDE.nodes[1]) == ["l"] && DependenciesOf(WIDE.nodes[2]) == ["l"]
  {
    WideIsOrdered();
    ItemPromptIsGood();
    hide Ordered, MentionsItem;
    OrderedIsAdmissible(WIDE);
  }

  lemma WideIsOrdered()
    ensures Ordered(WIDE.nodes)
    ensures DependenciesOf(WIDE.nodes[1]) == ["l"] && DependenciesOf(WIDE.nodes[2]) == ["l"]
  {
    var nodes := WIDE.nodes;
    assert nodes[0] in nodes[..1] && nodes[0] in nodes[..2];
    assert RefsOf(nodes[1]) == [Ref("l", [])] && RefsOf(nodes[2]) == [Ref("l", [])];
    assert NeedsEarlier(nodes, 0) && NeedsEarlier(nodes, 1) && NeedsEarlier(nodes, 2);
  }

  /** With the width known, the fanout has its three units to dispatch whatever else has run. */
  lemma WideUnits(h: Host, st: RunState)
    requires NodeKey("l") in st.results && st.results[NodeKey("l")] == THREE && Is(st, NodeKey("l"), Done)
    requires st.running == {} && NodeKey("f") !in st.status && forall key :: key in st.status ==> key.NodeKey?
    ensures var units := UnitsOf(h, WIDE.nodes, WIDE.nodes[2], st); |units| == 3 && units[0] == ItemUnit(h)
    ensures ImmediateOf(h, WIDE.nodes[2], st).None?
  {
    var nodes, f := WIDE.nodes, WIDE.nodes[2];
    WideIsOrdered();
    NoInputs(h, nodes, f, st.results);
    assert Items(h, f, st.results) == [Text("x"), Text("y"), Text("z")];
    assert !Is(st, FinalSlot(f, 0), Done);
    assert FanoutUnits(h, nodes, f, st, 0) == [];
    assert FanoutUnits(h, nodes, f, st, 1) == [ItemUnit(h)];
    assert |FanoutUnits(h, nodes, f, st, 2)| == 2 && FanoutUnits(h, nodes, f, st, 2)[0] == ItemUnit(h);
    assert |FanoutUnits(h, nodes, f, st, 3)| == 3 && FanoutUnits(h, nodes, f, st, 3)[0] == ItemUnit(h);
  }

  lemma UnitsOfThree(h: Host, nodes: seq<Node>, st: RunState)
    requires |nodes| == 3 && forall n :: n in nodes ==> ImmediateOf(h, n, st).None?
    ensures AllUnits(h, nodes, st, 3) ==
            UnitsOf(h, nodes, nodes[0], st) + UnitsOf(h, nodes, nodes[1], st) + UnitsOf(h, nodes, nodes[2], st)
    ensures AllImmediate(h, nodes, st, 3) == []
  {
    hide UnitsOf, ImmediateOf, Ready;
    assert AllUnits(h, nodes, st, 1) == UnitsOf(h, nodes, nodes[0], st);
    assert AllUnits(h, nodes, st, 2) == AllUnits(h, nodes, st, 1) + UnitsOf(h, nodes, nodes[1], st);
    assert AllImmediate(h, nodes, st, 1) == [];
    assert AllImmediate(h, nodes, st, 2) == [];
  }

  lemma WorkIsReady(h: Host)
    ensures var nodes, st := WIDE.nodes, ListDone();
            UnitsOf(h, nodes, nodes[0], st) == [] && UnitsOf(h, nodes, nodes[1], st) == [WorkUnit(h)]
    ensures ImmediateOf(h, WIDE.nodes[0], ListDone()).None? && ImmediateOf(h, WIDE.nodes[1], ListDone()).None?
  {
    hide InputsOf;
    WideIsOrdered();
  }

  lemma WorkIsNext(h: Host)
    ensures BatchSpec(h, WIDE.nodes, ListDone(), ResolveCaps(WIDE.caps)) == Batch([WorkUnit(h)], [], None)
  {
    hide UnitsOf, ImmediateOf, ItemUnit, WorkUnit, Terminal, Ready, InputsOf;
    var nodes, st := WIDE.nodes, ListDone();
    WideUnits(h, st);
    WorkIsReady(h);
    UnitsOfThree(h, nodes, st);
    FirstOnly([WorkUnit(h)] + UnitsOf(h, nodes, nodes[2], st));
  }

  lemma ItemIsReady(w: World)
    ensures var h, nodes, st := w.h, WIDE.nodes, WorkDone(w);
            UnitsOf(h, nodes, nodes[0], st) == [] && UnitsOf(h, nodes, nodes[1], st) == []
    ensures ImmediateOf(w.h, WIDE.nodes[0], WorkDone(w)).None? && ImmediateOf(w.h, WIDE.nodes[1], WorkDone(w)).None?
  {
    hide WorkUnit;
  }

  lemma ItemIsNext(w: World)
    ensures BatchSpec(w.h, WIDE.nodes, WorkDone(w), ResolveCaps(WIDE.caps)) == Batch([ItemUnit(w.h)], [], None)
  {
    hide UnitsOf, ImmediateOf, ItemUnit, WorkUnit, Terminal, Ready, InputsOf;
    var h, nodes, st := w.h, WIDE.nodes, WorkDone(w);
    WideUnits(h, st);
    ItemIsReady(w);
    UnitsOfThree(h, nodes, st);
    FirstOnly(UnitsOf(h, nodes, nodes[2], st));
  }

  lemma FirstOnly(units: seq<Dispatch>)
    requires units != []
    ensures Take([] + [] + units, 1) == [units[0]]
  {
  }

  /** One admission is held back for the three open items, so both retries of `b` are funded. */
  lemma WorkFunds(w: World)
    requires w.nodes == WIDE.nodes
    ensures Funds(w, Tries("b", 3, 0), ResolveCaps(WIDE.caps), ListDone(), WorkUnit(w.h))
  {
    WideFacts(w.h);
    hide WorkUnit;
    var batch := [WorkUnit(w.h)];
    var mid := Launched(ListDone(), batch);
    assert WorkUnit(w.h) in batch;
    assert BatchNodes(batch) == {"b"};
    WideReserved(w.h, mid);
  }

  lemma WideReserved(h: Host, st: RunState)
    requires st.status == ListDone().status
    ensures UnstartedWork(h, WIDE.nodes, st, {"b"}, |WIDE.nodes|) == 1
  {
    assert UnstartedWork(h, WIDE.nodes, st, {"b"}, 1) == 0;
    assert UnstartedWork(h, WIDE.nodes, st, {"b"}, 2) == 0;
    assert UnstartedWork(h, WIDE.nodes, st, {"b"}, 3) == 1;
  }

  lemma AfterWork(w: World)
    requires w.nodes == WIDE.nodes
    ensures AfterOne(w, Tries("b", 3, 0), ListDone(), WorkUnit(w.h)) == WorkDone(w)
  {
    WideFacts(w.h);
    hide AfterOne, WorkUnit, ItemUnit, ResultKey, FindNode;
    AfterAgent(w, "b", 3, 0, ListDone(), WorkUnit(w.h));
  }

  lemma AfterItem(w: World)
    requires w.nodes == WIDE.nodes
    ensures var st := AfterOne(w, Tries("b", 3, 0), WorkDone(w), ItemUnit(w.h));
            st.status == WorkDone(w).status[ItemKey("f", 0) := Done] && st.agentsSpawned == 5
  {
    WideFacts(w.h);
    hide AfterOne, WorkUnit, ItemUnit, ResultKey, FindNode;
    AfterAgent(w, "b", 3, 0, WorkDone(w), ItemUnit(w.h));
  }

  /** The four admissions left when `b` is dispatched are exactly those that `b` and the three items need. */
  lemma WideNeed(h: Host)
    ensures Need(h, WIDE.nodes, ListDone()) == ResolveCaps(WIDE.caps).maxAgents - ListDone().agentsSpawned
  {
    var nodes, st := WIDE.nodes, ListDone();
    WideNeeds(h);
    hide NeedOf;
    assert nodes[..2] == nodes[..|nodes| - 1];
    assert Need(h, nodes, st) == Need(h, nodes[..2], st) + NeedOf(h, nodes[2], st);
    assert nodes[..2][..1] == nodes[..1] && nodes[..1][..0] == [];
    assert Need(h, nodes[..2], st) == Need(h, nodes[..1], st) + NeedOf(h, nodes[1], st);
    assert Need(h, nodes[..1], st) == Need(h, nodes[..0], st) + NeedOf(h, nodes[0], st);
  }

  lemma WideNeeds(h: Host)
    ensures NeedOf(h, WIDE.nodes[0], ListDone()) == 0 && NeedOf(h, WIDE.nodes[1], ListDone()) == 1
    ensures NeedOf(h, WIDE.nodes[2], ListDone()) == 3
  {
    var st, f := ListDone(), WIDE.nodes[2];
    WideIsOrdered();
    assert Items(h, f, st.results) == [Text("x"), Text("y"), Text("z")];
    forall i: nat ensures i < 3 <==> i < Width(h, f, st) && OpenItem(h, f, st, i) {
    }
    assert OpenUnits(h, f, st) == {ItemKey("f", 0), ItemKey("f", 1), ItemKey("f", 2)};
  }

  /** Lists three items. */
  ghost predicate Lists(w: World) {
    w.nodes == WIDE.nodes && w.work(FirstUnit(w.h, w.nodes[0])) == THREE
  }

  lemma ReachesList(w: World) returns (all: seq<seq<nat>>)
    requires Lists(w)
    ensures At(w, Tries("b", 3, 0), ResolveCaps(WIDE.caps), all, ListDone())
  {
    hide At, Funds, BillsFor, RunOf;
    var l, b, f := w.nodes[0], w.nodes[1], w.nodes[2];
    WideIsAdmissible();
    assert w.nodes == [l] + [b, f];
    OneTryIsFunded(w, Tries("b", 3, 0), ResolveCaps(WIDE.caps), EMPTY_RUN_STATE, FirstUnit(w.h, l));
    all := FirstIteration(w, l, [b, f], "b", 3, 0, ResolveCaps(WIDE.caps));
  }

  lemma ReachesWork(w: World) returns (all: seq<seq<nat>>)
    requires Lists(w)
    ensures At(w, Tries("b", 3, 0), ResolveCaps(WIDE.caps), all, WorkDone(w))
  {
    assert !Terminal(ListDone(), w.nodes[2].id);
    hide At, Funds, BillsFor, RunOf, BatchSpec, AfterOne, WorkUnit, WorkDone, Tries, Terminal;
    all := ReachesList(w);
    WorkIsNext(w.h);
    WorkFunds(w);
    all := Dispatches(w, Tries("b", 3, 0), ResolveCaps(WIDE.caps), all, ListDone(), WorkUnit(w.h));
    AfterWork(w);
  }

  /**
   Items of a known width: a ready fanout outside the batch is held back one
   admission, however many items it has. Retries of `b` take those of two items.
   */
  lemma KnownWidthStarves(w: World) returns (out: Outside, schedules: seq<seq<nat>>)
    requires Lists(w)
    ensures Admissible(RULES, WIDE) && Faithful(w, out)
    ensures CutOff(w, out, ResolveCaps(WIDE.caps), schedules, "f")
    ensures ItemKey("f", 1) !in RunOf(w, out, ResolveCaps(WIDE.caps), schedules).st.status
    ensures ItemKey("f", 2) !in RunOf(w, out, ResolveCaps(WIDE.caps), schedules).st.status
  {
    hide At, Funds, CutOff, Admissible, Faithful, BillsFor, BatchSpec, AfterOne, WorkUnit, ItemUnit, RunOf, Follows;
    var script, caps := Tries("b", 3, 0), ResolveCaps(WIDE.caps);
    out := Follows(w, script);
    FollowsIsFaithful(w, script);
    WideIsAdmissible();
    WideFacts(w.h);
    assert w.nodes[2] in w.nodes && w.nodes[2].id == "f";
    assert !Terminal(WorkDone(w), w.nodes[2].id);
    var all := ReachesWork(w);
    ItemIsNext(w);
    OneTryIsFunded(w, script, caps, WorkDone(w), ItemUnit(w.h));
    all := Dispatches(w, script, caps, all, WorkDone(w), ItemUnit(w.h));
    AfterItem(w);
    schedules := Halts(w, script, caps, all, AfterOne(w, script, WorkDone(w), ItemUnit(w.h)), "f");
  }

  // ---------- a budget is not overshot by one worker ----------

  const BUDGETED := Plan([One("a", [], 3)], Caps(None, None, Some(MIN_BUDGET_PER_AGENT)))

  /** Three of the four workers of one dispatch are started with the budget already spent. */
  lemma ThreeWorkersOverBudget(w: World) returns (out: Outside, schedules: seq<seq<nat>>)
    requires w.nodes == BUDGETED.nodes
    ensures Admissible(RULES, BUDGETED) && Faithful(w, out)
    ensures var caps := ResolveCaps(BUDGETED.caps);
            var bills := RunOf(w, out, caps, schedules).bills;
            && IsRun(w, out, caps, schedules) && |bills| == 4
            && forall k :: 1 <= k < 4 ==> Total(bills[..k]) >= caps.budgetTokens.value
  {
    hide At, Funds, Admissible, Faithful, BillsFor, Scripted;
    var a, d := w.nodes[0], FirstUnit(w.h, w.nodes[0]);
    var script, caps := Tries("a", 4, MIN_BUDGET_PER_AGENT), ResolveCaps(BUDGETED.caps);
    out := Follows(w, script);
    FollowsIsFaithful(w, script);
    assert NeedsEarlier(w.nodes, 0);
    OrderedIsAdmissible(BUDGETED);
    assert w.nodes == [a] + [];
    BudgetedFunds(w);
    schedules := FirstIteration(w, a, [], "a", 4, MIN_BUDGET_PER_AGENT, caps);
    BudgetedBills(d);
    AtIsRun(w, script, caps, schedules, FirstDone(w, a, 4, MIN_BUDGET_PER_AGENT));
  }

  lemma AtIsRun(w: World, script: Script, caps: ResolvedCaps, schedules: seq<seq<nat>>, st: RunState)
    requires At(w, script, caps, schedules, st)
    ensures IsRun(w, Follows(w, script), caps, schedules)
  {
  }

  lemma BudgetedFunds(w: World)
    requires w.nodes == BUDGETED.nodes
    ensures Funds(w, Tries("a", 4, MIN_BUDGET_PER_AGENT), ResolveCaps(BUDGETED.caps), EMPTY_RUN_STATE,
                  FirstUnit(w.h, w.nodes[0]))
  {
    var batch := [FirstUnit(w.h, w.nodes[0])];
    assert FirstUnit(w.h, w.nodes[0]) in batch;
    assert UnstartedWork(w.h, w.nodes, Launched(EMPTY_RUN_STATE, batch), BatchNodes(batch), 1) == 0;
  }

  lemma BudgetedBills(d: Dispatch)
    requires d.nodeId == "a"
    ensures var bills := BillsFor(d, Scripted(Tries("a", 4, MIN_BUDGET_PER_AGENT), d, 4));
            |bills| == 4 && forall k :: 1 <= k < 4 ==> Total(bills[..k]) >= MIN_BUDGET_PER_AGENT
  {
    var bills := BillsFor(d, Scripted(Tries("a", 4, MIN_BUDGET_PER_AGENT), d, 4));
    var first := [Bill(d, MIN_BUDGET_PER_AGENT)];
    assert bills[..1] == first && Total(first) == Total(first[..0]) + MIN_BUDGET_PER_AGENT;
    forall k | 1 <= k < 4 ensures Total(bills[..k]) >= MIN_BUDGET_PER_AGENT {
      TotalAppend(first, bills[1..k]);
      assert bills[..k] == first + bills[1..k];
    }
  }

  // ---------- an undefined item ----------

  const PLUCK := TransformOp("pluck", ["field"])

  const PLUCKED := Plan([One("a", [], 0), Transform("t", [], Ref("a", []), PLUCK),
                         Fanout("f", [], Ref("t", []), Spec("{item}", 0))], Caps(Some(1), None, None))

  /** Two records, the first without the field that is plucked. */
  const RECORDS := Arr([Obj(map[]), Obj(map["field" := Text("y")])])

  function FieldOf(item: Value, field: string): Value {
    if item.Obj? && field in item.fields then item.fields[field] else Undefined
  }

  function Pluck(value: Value, field: string): Value {
    Arr(seq(|AsItems(value)|, k requires 0 <= k < |AsItems(value)| => FieldOf(AsItems(value)[k], field)))
  }

  /** Plucks this field, and its worker `a` returns the records. */
  ghost predicate Plucks(w: World) {
    && w.nodes == PLUCKED.nodes && w.work(FirstUnit(w.h, w.nodes[0])) == RECORDS
    && w.h.applyTransform(RECORDS, PLUCK) == Pluck(RECORDS, "field")
  }

  function UndefinedUnit(h: Host): Dispatch {
    FanoutUnit(h, PLUCKED.nodes[2], Undefined, 0, [])
  }

  function RecordsDone(): RunState {
    RunState(map[NodeKey("a") := RECORDS], map[NodeKey("a") := Done], {}, 1, 0)
  }

  function FieldsDone(): RunState {
    Finish(RecordsDone(), NodeKey("t"), Arr([Undefined, Text("y")]))
  }

  lemma PluckedIsAdmissible()
    ensures Admissible(RULES, PLUCKED)
  {
    PluckedIsOrdered();
    ItemPromptIsGood();
    hide Ordered, MentionsItem;
    OrderedIsAdmissible(PLUCKED);
  }

  lemma PluckedIsOrdered()
    ensures Ordered(PLUCKED.nodes)
  {
    var nodes := PLUCKED.nodes;
    assert nodes[0] in nodes[..1] && nodes[1] in nodes[..2];
    assert RefsOf(nodes[1]) == [Ref("a", [])] && RefsOf(nodes[2]) == [Ref("t", [])];
    assert NeedsEarlier(nodes, 0) && NeedsEarlier(nodes, 1) && NeedsEarlier(nodes, 2);
  }

  lemma PluckIsNext(h: Host)
    ensures BatchSpec(h, PLUCKED.nodes, RecordsDone(), ResolveCaps(PLUCKED.caps)) ==
            Batch([], [("t", Compute(PLUCK, RECORDS))], None)
  {
    var nodes, st := PLUCKED.nodes, RecordsDone();
    assert DependenciesOf(nodes[1]) == ["a"] && DependenciesOf(nodes[2]) == ["t"];
    assert !Ready(nodes[0], st) && !Ready(nodes[2], st) by { assert "t" in DependenciesOf(nodes[2]); }
    assert UnitsOf(h, nodes, nodes[0], st) == UnitsOf(h, nodes, nodes[1], st) == UnitsOf(h, nodes, nodes[2], st) == [];
    assert AllUnits(h, nodes, st, 1) == [];
    assert AllUnits(h, nodes, st, 2) == [];
    assert AllUnits(h, nodes, st, 3) == [];
    assert AllImmediate(h, nodes, st, 1) == [];
    assert AllImmediate(h, nodes, st, 2) == [("t", Compute(PLUCK, RECORDS))];
    assert AllImmediate(h, nodes, st, 3) == AllImmediate(h, nodes, st, 2) + [];
  }

  lemma FieldUnits(h: Host)
    ensures var units := UnitsOf(h, PLUCKED.nodes, PLUCKED.nodes[2], FieldsDone());
            |units| == 2 && units[0] == UndefinedUnit(h)
    ensures ImmediateOf(h, PLUCKED.nodes[2], FieldsDone()).None?
  {
    var nodes, st := PLUCKED.nodes, FieldsDone();
    var f := nodes[2];
    NoInputs(h, nodes, f, st.results);
    assert DependenciesOf(f) == ["t"];
    assert Items(h, f, st.results) == [Undefined, Text("y")];
    assert !Is(st, FinalSlot(f, 0), Done);
    assert FanoutUnits(h, nodes, f, st, 0) == [];
    assert FanoutUnits(h, nodes, f, st, 1) == [UndefinedUnit(h)];
    assert |FanoutUnits(h, nodes, f, st, 2)| == 2 && FanoutUnits(h, nodes, f, st, 2)[0] == UndefinedUnit(h);
  }

  /** One worker at a time, the undefined item goes first. */
  lemma UndefinedIsNext(h: Host)
    ensures BatchSpec(h, PLUCKED.nodes, FieldsDone(), ResolveCaps(PLUCKED.caps)) == Batch([UndefinedUnit(h)], [], None)
  {
    var nodes, st := PLUCKED.nodes, FieldsDone();
    FieldUnits(h);
    assert UnitsOf(h, nodes, nodes[0], st) == UnitsOf(h, nodes, nodes[1], st) == [];
    hide UnitsOf, ImmediateOf, UndefinedUnit;
    assert AllUnits(h, nodes, st, 1) == [];
    assert AllUnits(h, nodes, st, 2) == [];
    assert AllUnits(h, nodes, st, 3) == UnitsOf(h, nodes, nodes[2], st);
    assert AllImmediate(h, nodes, st, 1) == [];
    assert AllImmediate(h, nodes, st, 2) == [];
    assert AllImmediate(h, nodes, st, 3) == [];
  }

  lemma AfterUndefined(w: World)
    requires Plucks(w)
    ensures var st := AfterOne(w, Tries("a", 1, 0), FieldsDone(), UndefinedUnit(w.h));
            && st.results == FieldsDone().results[NodeKey("f") := w.work(UndefinedUnit(w.h))]
            && st.status == map[NodeKey("a") := Done, NodeKey("t") := Done, NodeKey("f") := Done]
  {
    hide AfterOne;
    assert FindNode(w.nodes, "f") == Some(w.nodes[2]);
    AfterAgent(w, "a", 1, 0, FieldsDone(), UndefinedUnit(w.h));
  }

  /** The run once the fields are plucked. */
  lemma ReachesFields(w: World) returns (all: seq<seq<nat>>)
    requires Plucks(w)
    ensures At(w, Tries("a", 1, 0), ResolveCaps(PLUCKED.caps), all, FieldsDone())
  {
    hide At, Funds, BillsFor, BatchSpec, RunOf;
    var a, t, f := w.nodes[0], w.nodes[1], w.nodes[2];
    var script, caps := Tries("a", 1, 0), ResolveCaps(PLUCKED.caps);
    assert w.nodes == [a] + [t, f];
    assert DependenciesOf(t)[0] == "a" && DependenciesOf(f)[0] == "t";
    OneTryIsFunded(w, script, caps, EMPTY_RUN_STATE, FirstUnit(w.h, a));
    all := FirstIteration(w, a, [t, f], "a", 1, 0, caps);
    PluckIsNext(w.h);
    assert !Terminal(RecordsDone(), w.nodes[2].id);
    all := Publishes(w, script, caps, all, RecordsDone(), [("t", Compute(PLUCK, RECORDS))]);
    PluckPublished(w);
  }

  /**
   A run that ends with every node done and nothing reported, and yet the fanout
   holds one worker's raw result and its second item was never dispatched.
   */
  lemma UndefinedItemEndsFanout(w: World) returns (out: Outside, schedules: seq<seq<nat>>)
    requires Plucks(w)
    ensures Admissible(RULES, PLUCKED) && Faithful(w, out)
    ensures var c := RunOf(w, out, ResolveCaps(PLUCKED.caps), schedules);
            var s := Concluded(w.nodes, c);
            && IsRun(w, out, ResolveCaps(PLUCKED.caps), schedules) && !Going(w, c)
            && s.halted.None? && s.failures == [] && s.neverRan == []
            && NodeKey("f") in s.state.results && s.state.results[NodeKey("f")] == w.work(UndefinedUnit(w.h))
            && ItemKey("f", 1) !in s.state.status
  {
    hide At, Funds, Admissible, Faithful, BatchSpec, AfterOne, UndefinedUnit, RunOf, IsRun, Concluded, Going;
    var script, caps := Tries("a", 1, 0), ResolveCaps(PLUCKED.caps);
    out := Follows(w, script);
    FollowsIsFaithful(w, script);
    PluckedIsAdmissible();
    var all := ReachesFields(w);
    UndefinedIsNext(w.h);
    assert !Terminal(FieldsDone(), w.nodes[2].id);
    OneTryIsFunded(w, script, caps, FieldsDone(), UndefinedUnit(w.h));
    schedules := Dispatches(w, script, caps, all, FieldsDone(), UndefinedUnit(w.h));
    AfterUndefined(w);
    EndsAt(w, script, caps, schedules, AfterOne(w, script, FieldsDone(), UndefinedUnit(w.h)));
  }

  lemma PluckPublished(w: World)
    requires Plucks(w)
    ensures ApplyImmediate(w.h, RecordsDone(), [("t", Compute(PLUCK, RECORDS))]) == FieldsDone()
  {
    assert Pluck(RECORDS, "field").items == [Undefined, Text("y")];
    assert [("t", Compute(PLUCK, RECORDS))][..0] == [];
  }

  lemma EndsAt(w: World, script: Script, caps: ResolvedCaps, schedules: seq<seq<nat>>, st: RunState)
    requires At(w, script, caps, schedules, st) && IsComplete(w.nodes, st)
    ensures var c := RunOf(w, Follows(w, script), caps, schedules);
            && IsRun(w, Follows(w, script), caps, schedules) && !Going(w, c)
            && Concluded(w.nodes, c) == RunSummary(st, None, [], [], c.retrySpawns)
  {
    hide RunOf, IsRun, IsComplete, Concluded;
    CompleteLeavesNothing(w.nodes, RunOf(w, Follows(w, script), caps, schedules));
  }
}
