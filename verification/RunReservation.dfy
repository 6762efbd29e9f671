/**
 When the declared nodes fit: what the plan still needs, node by node, against
 what the retry pool holds back for each node, for plans of every kind.
 */
module RunReservation {
  import opened PlanSchema
  import opened Upstream
  import opened PlanGraph
  import opened RunInvariant
  import opened RunSteps
  import opened RunProgress
  import opened RunBudget
  import opened RunWorkers
  import opened RunAccounts
  import opened RunLaws
  import opened RunSemantics
  import opened RunScript
  import opened RunSums

  // ---------- what the plan needs ----------

  /** The units a node would still have to run, now that its dependencies are done. */
  ghost function OpenUnits(h: Host, node: Node, st: RunState): set<Key> {
    match node
    case Agent(id, _, _) => {NodeKey(id)}
    case Fanout(id, _, _, _) => set i: nat | i < Width(h, node, st) && OpenItem(h, node, st, i) :: ItemKey(id, i)
    case Pipeline(id, _, _, _) =>
      set i: nat, s: nat | i < Width(h, node, st) && s < Depth(node) && OpenStage(h, node, st, i, s) ::
        StageKey(id, i, s)
    case _ => {}
  }

  /** The units a node is known to have while its collection is not. */
  function DeclaredUnits(node: Node): nat {
    match node
    case Agent(_, _, _) => 1
    case Fanout(_, _, _, _) => 1
    case Pipeline(_, _, _, stages) => |stages|
    case _ => 0
  }

  /** The admissions a node still needs, were nothing retried. */
  ghost function NeedOf(h: Host, node: Node, st: RunState): nat {
    if Terminal(st, node.id) then 0
    else if DependenciesSatisfied(node, st) then |OpenUnits(h, node, st)|
    else DeclaredUnits(node)
  }

  ghost function Need(h: Host, nodes: seq<Node>, st: RunState): nat {
    if nodes == [] then 0 else Need(h, nodes[..|nodes| - 1], st) + NeedOf(h, nodes[|nodes| - 1], st)
  }

  // ---------- what the code holds back ----------

  /** The admissions that retries may not take: the batch's own, and those reserved for the other nodes. */
  ghost function HeldBack(h: Host, nodes: seq<Node>, st: RunState, batch: seq<Dispatch>): nat {
    |batch| + UnstartedWork(h, nodes, Launched(st, batch), BatchNodes(batch), |nodes|)
  }

  ghost function Share(batch: seq<Dispatch>, id: NodeId): nat {
    if batch == [] then 0
    else Share(batch[..|batch| - 1], id) + if batch[|batch| - 1].nodeId == id then 1 else 0
  }

  /** What is held back for one node: its dispatches in the batch, or its reservation. */
  ghost function Counted(h: Host, node: Node, st: RunState, batch: seq<Dispatch>): nat {
    Share(batch, node.id) + WorkUnits(h, node, Launched(st, batch), BatchNodes(batch))
  }

  ghost function CountedOf(h: Host, nodes: seq<Node>, st: RunState, batch: seq<Dispatch>): nat {
    if nodes == [] then 0
    else CountedOf(h, nodes[..|nodes| - 1], st, batch) + Counted(h, nodes[|nodes| - 1], st, batch)
  }

  ghost function SharesOf(nodes: seq<Node>, batch: seq<Dispatch>): nat {
    if nodes == [] then 0 else SharesOf(nodes[..|nodes| - 1], batch) + Share(batch, nodes[|nodes| - 1].id)
  }

  lemma {:induction false} SharesGrow(nodes: seq<Node>, front: seq<Dispatch>, d: Dispatch)
    requires UniqueIds(nodes)
    ensures SharesOf(nodes, front + [d]) == SharesOf(nodes, front) + if d.nodeId in Ids(nodes) then 1 else 0
    decreases |nodes|
  {
    if nodes != [] {
      SharesGrow(nodes[..|nodes| - 1], front, d);
      LastIsNew(nodes);
      assert (front + [d])[..|front|] == front;
    }
  }

  lemma {:induction false} NoShares(nodes: seq<Node>)
    ensures SharesOf(nodes, []) == 0
    decreases |nodes|
  {
    if nodes != [] {
      NoShares(nodes[..|nodes| - 1]);
    }
  }

  lemma {:induction false} SharesAddUp(nodes: seq<Node>, batch: seq<Dispatch>)
    requires UniqueIds(nodes) && forall d :: d in batch ==> d.nodeId in Ids(nodes)
    ensures SharesOf(nodes, batch) == |batch|
    decreases |batch|
  {
    hide UniqueIds, Ids, SharesOf;
    if batch == [] {
      NoShares(nodes);
    } else {
      var front, last := batch[..|batch| - 1], batch[|batch| - 1];
      assert batch == front + [last] && last in batch;
      SharesAddUp(nodes, front);
      SharesGrow(nodes, front, last);
    }
  }

  lemma {:induction false} CountedPrefix(h: Host, nodes: seq<Node>, st: RunState, batch: seq<Dispatch>, k: nat)
    requires k <= |nodes|
    ensures CountedOf(h, nodes[..k], st, batch) ==
            SharesOf(nodes[..k], batch) + UnstartedWork(h, nodes, Launched(st, batch), BatchNodes(batch), k)
    decreases k
  {
    hide WorkUnits, Launched, BatchNodes;
    if k > 0 {
      CountedPrefix(h, nodes, st, batch, k - 1);
      assert nodes[..k][..k - 1] == nodes[..k - 1];
    }
  }

  lemma StartableIds(w: World, st: RunState, batch: seq<Dispatch>)
    requires Startable(w, st, batch)
    ensures forall d :: d in batch ==> d.nodeId in Ids(w.nodes)
  {
    forall d | d in batch ensures d.nodeId in Ids(w.nodes) {
      assert MayStart(w, st, d);
    }
  }

  /** The loop of `unstartedAgentWork` and the batch's own admissions, told node by node. */
  lemma HeldBackByNode(w: World, st: RunState, batch: seq<Dispatch>)
    requires UniqueIds(w.nodes) && Startable(w, st, batch)
    ensures HeldBack(w.h, w.nodes, st, batch) == CountedOf(w.h, w.nodes, st, batch)
  {
    StartableIds(w, st, batch);
    hide UniqueIds, Startable, UnstartedWork, CountedOf, Ids;
    SharesAddUp(w.nodes, batch);
    CountedPrefix(w.h, w.nodes, st, batch, |w.nodes|);
    assert w.nodes[..|w.nodes|] == w.nodes;
  }

  // ---------- which nodes are undercounted ----------

  ghost predicate Undercounted(h: Host, node: Node, st: RunState, batch: seq<Dispatch>) {
    Counted(h, node, st, batch) < NeedOf(h, node, st)
  }

  ghost predicate Overcounted(h: Host, node: Node, st: RunState, batch: seq<Dispatch>) {
    NeedOf(h, node, st) < Counted(h, node, st, batch)
  }

  /** The slots of the batch's dispatches of one node. */
  ghost function BatchSlots(nodes: seq<Node>, batch: seq<Dispatch>, id: NodeId): set<Key> {
    set d | d in batch && d.nodeId == id :: SlotKey(nodes, d)
  }

  lemma SlotIsOpen(w: World, st: RunState, d: Dispatch)
    requires MayStart(w, st, d)
    ensures SlotKey(w.nodes, d) in OpenUnits(w.h, FindNode(w.nodes, d.nodeId).value, st)
  {
    var node := FindNode(w.nodes, d.nodeId).value;
    if node.Fanout? {
      assert OpenItem(w.h, node, st, d.itemIndex);
    } else if node.Pipeline? {
      assert OpenStage(w.h, node, st, d.itemIndex, d.stageIndex.value);
    }
  }

  lemma SlotsGrow(nodes: seq<Node>, front: seq<Dispatch>, d: Dispatch, id: NodeId)
    ensures BatchSlots(nodes, front + [d], id) ==
            BatchSlots(nodes, front, id) + if d.nodeId == id then {SlotKey(nodes, d)} else {}
  {
    hide SlotKey;
    assert forall e :: e in front + [d] <==> e in front || e == d;
  }

  lemma LastSlotIsNew(w: World, st: RunState, batch: seq<Dispatch>, id: NodeId)
    requires Startable(w, st, batch) && DistinctPlaces(batch) && batch != []
    ensures SlotKey(w.nodes, batch[|batch| - 1]) !in BatchSlots(w.nodes, batch[..|batch| - 1], id)
  {
    hide MayStart, SlotKey, SamePlace;
    var front, last := batch[..|batch| - 1], batch[|batch| - 1];
    forall d | d in front ensures SlotKey(w.nodes, d) != SlotKey(w.nodes, last) {
      var k :| 0 <= k < |front| && front[k] == d;
      assert batch[k] == d && !SamePlace(batch[k], batch[|batch| - 1]);
      assert d in batch && last in batch;
      StartableSlots(w, st, d, last);
    }
  }

  lemma {:induction false} SlotsOfNode(w: World, st: RunState, batch: seq<Dispatch>, id: NodeId)
    requires Startable(w, st, batch) && DistinctPlaces(batch)
    ensures |BatchSlots(w.nodes, batch, id)| == Share(batch, id)
    decreases |batch|
  {
    hide MayStart, SlotKey, SamePlace;
    if batch == [] {
      assert BatchSlots(w.nodes, batch, id) == {};
    } else {
      var front, last := batch[..|batch| - 1], batch[|batch| - 1];
      assert batch == front + [last];
      assert Startable(w, st, front);
      SlotsOfNode(w, st, front, id);
      LastSlotIsNew(w, st, batch, id);
      SlotsGrow(w.nodes, front, last, id);
    }
  }

  lemma SlotsAreOpen(w: World, st: RunState, batch: seq<Dispatch>, node: Node)
    requires FindNode(w.nodes, node.id) == Some(node) && Startable(w, st, batch)
    ensures BatchSlots(w.nodes, batch, node.id) <= OpenUnits(w.h, node, st)
  {
    hide MayStart, SlotKey, OpenUnits;
    forall d | d in batch && d.nodeId == node.id ensures SlotKey(w.nodes, d) in OpenUnits(w.h, node, st) {
      SlotIsOpen(w, st, d);
    }
  }

  lemma {:induction false} NoShare(batch: seq<Dispatch>, id: NodeId)
    requires id !in BatchNodes(batch)
    ensures Share(batch, id) == 0
    decreases |batch|
  {
    if batch != [] {
      var front, last := batch[..|batch| - 1], batch[|batch| - 1];
      assert batch == front + [last] && last in batch;
      NoShare(front, id);
    }
  }

  /** A node of the batch is held back exactly its dispatches there, never more than it needs. */
  lemma InBatch(w: World, st: RunState, batch: seq<Dispatch>, node: Node)
    requires FindNode(w.nodes, node.id) == Some(node) && Startable(w, st, batch) && DistinctPlaces(batch)
    requires node.id in BatchNodes(batch)
    ensures NeedOf(w.h, node, st) == |OpenUnits(w.h, node, st)|
    ensures Counted(w.h, node, st, batch) == |BatchSlots(w.nodes, batch, node.id)| <= NeedOf(w.h, node, st)
    ensures Undercounted(w.h, node, st, batch) <==> BatchSlots(w.nodes, batch, node.id) != OpenUnits(w.h, node, st)
  {
    MemberIsReady(w, st, batch, node);
    SlotsOfNode(w, st, batch, node.id);
    SlotsAreOpen(w, st, batch, node);
    hide OpenUnits, BatchSlots, DistinctPlaces, Startable, DependenciesSatisfied;
    PartOfSet(BatchSlots(w.nodes, batch, node.id), OpenUnits(w.h, node, st));
  }

  lemma MemberIsReady(w: World, st: RunState, batch: seq<Dispatch>, node: Node)
    requires FindNode(w.nodes, node.id) == Some(node) && Startable(w, st, batch) && node.id in BatchNodes(batch)
    ensures DependenciesSatisfied(node, st) && !Terminal(st, node.id)
  {
    hide IsUnit;
    var d :| d in batch && d.nodeId == node.id;
    assert MayStart(w, st, d);
  }

  lemma PartOfSet(a: set<Key>, b: set<Key>)
    requires a <= b
    ensures |a| <= |b| && (|a| < |b| <==> a != b)
  {
    assert b == a + (b - a);
    assert |b| == |a| + |b - a|;
  }

  /**
   Exactly the nodes that are held back too little: a node of the batch with an
   open unit outside it; an agent whose work id is in flight for another node; a
   ready collection with more open units than the one, or the one per stage, that
   it counts for.
   */
  lemma UndercountedExactly(w: World, st: RunState, batch: seq<Dispatch>, node: Node)
    requires UniqueIds(w.nodes) && Startable(w, st, batch) && DistinctPlaces(batch) && node in w.nodes
    ensures Undercounted(w.h, node, st, batch) <==>
            if node.id in BatchNodes(batch) then BatchSlots(w.nodes, batch, node.id) != OpenUnits(w.h, node, st)
            else if Terminal(st, node.id) then false
            else if node.Agent? then AgentWorkId(w.h, node) in Launched(st, batch).running
            else DependenciesSatisfied(node, st) && |OpenUnits(w.h, node, st)| > DeclaredUnits(node)
  {
    FindUnique(w.nodes, node);
    hide Startable, DistinctPlaces, BatchSlots;
    if node.id in BatchNodes(batch) {
      InBatch(w, st, batch, node);
    } else {
      NoShare(batch, node.id);
      hide DependenciesSatisfied, BatchNodes;
    }
  }

  lemma {:induction false} CountedSuffices(h: Host, nodes: seq<Node>, st: RunState, batch: seq<Dispatch>)
    requires forall n :: n in nodes ==> !Undercounted(h, n, st, batch)
    ensures Need(h, nodes, st) <= CountedOf(h, nodes, st, batch)
    decreases |nodes|
  {
    hide NeedOf, Counted;
    if nodes != [] {
      assert nodes[|nodes| - 1] in nodes;
      CountedSuffices(h, nodes[..|nodes| - 1], st, batch);
    }
  }

  lemma {:induction false} CountedFallsShort(h: Host, nodes: seq<Node>, st: RunState, batch: seq<Dispatch>)
    requires forall n :: n in nodes ==> !Overcounted(h, n, st, batch)
    ensures CountedOf(h, nodes, st, batch) <= Need(h, nodes, st)
    ensures (exists n :: n in nodes && Undercounted(h, n, st, batch)) ==>
              CountedOf(h, nodes, st, batch) < Need(h, nodes, st)
    decreases |nodes|
  {
    hide NeedOf, Counted;
    if nodes != [] {
      var front, last := nodes[..|nodes| - 1], nodes[|nodes| - 1];
      assert last in nodes && nodes == front + [last];
      CountedFallsShort(h, front, st, batch);
    }
  }

  /**
   What is held back covers the need if no node is undercounted; and only then,
   unless another node is held back more than it needs.
   */
  lemma HoldsBackEnough(w: World, st: RunState, batch: seq<Dispatch>)
    requires UniqueIds(w.nodes) && Startable(w, st, batch)
    ensures (forall n :: n in w.nodes ==> !Undercounted(w.h, n, st, batch)) ==>
              Need(w.h, w.nodes, st) <= HeldBack(w.h, w.nodes, st, batch)
    ensures (forall n :: n in w.nodes ==> !Overcounted(w.h, n, st, batch)) ==>
              (Need(w.h, w.nodes, st) <= HeldBack(w.h, w.nodes, st, batch) <==>
               forall n :: n in w.nodes ==> !Undercounted(w.h, n, st, batch))
  {
    hide UniqueIds, Startable, Need, HeldBack, CountedOf, Undercounted, Overcounted;
    HeldBackByNode(w, st, batch);
    if forall n :: n in w.nodes ==> !Undercounted(w.h, n, st, batch) {
      CountedSuffices(w.h, w.nodes, st, batch);
    }
    if forall n :: n in w.nodes ==> !Overcounted(w.h, n, st, batch) {
      CountedFallsShort(w.h, w.nodes, st, batch);
    }
  }

  // ---------- what a batch leaves ----------

  /** The cap left after the batch covers what the plan needed beside the batch. */
  ghost predicate LeavesEnough(w: World, out: Outside, caps: ResolvedCaps, c: Config, batch: seq<Dispatch>,
                               schedule: seq<nat>)
  {
    caps.maxAgents - Settle(w, out, caps, c, batch, schedule).st.agentsSpawned >=
    Need(w.h, w.nodes, c.st) - |batch|
  }

  /** However the batch goes. */
  ghost predicate AlwaysLeavesEnough(w: World, caps: ResolvedCaps, c: Config, batch: seq<Dispatch>) {
    forall out, schedule :: Faithful(w, out) && PlayedOut(Worked(w, out, caps, c, batch, schedule)) ==>
      LeavesEnough(w, out, caps, c, batch, schedule)
  }

  /** Scripted numbers of attempts, one where nothing is said; every attempt is free. */
  ghost function Told(m: map<Dispatch, nat>): Script {
    Script((d: Dispatch) => if d in m then m[d] else 1, (d: Dispatch) => 0)
  }

  ghost predicate Allowed(batch: seq<Dispatch>, m: map<Dispatch, nat>) {
    forall d :: d in batch ==> 1 <= Told(m).want(d) <= MaxAttempts(d)
  }

  lemma LastIsNowhereElse(batch: seq<Dispatch>)
    requires DistinctPlaces(batch) && batch != []
    ensures batch[|batch| - 1] !in batch[..|batch| - 1]
  {
    var front := batch[..|batch| - 1];
    forall k | 0 <= k < |front| ensures front[k] != batch[|batch| - 1] {
      assert !SamePlace(batch[k], batch[|batch| - 1]);
    }
  }

  lemma AskedSame(front: seq<Dispatch>, m: map<Dispatch, nat>, d: Dispatch, n: nat)
    requires d !in front
    ensures Asked(Told(m[d := n]), front) == Asked(Told(m), front)
    ensures Allowed(front, m) ==> Allowed(front, m[d := n])
  {
    forall k | 0 <= k < |front| ensures Asked(Told(m[d := n]), front)[k] == Asked(Told(m), front)[k] {
      assert front[k] in front;
    }
  }

  /** Retries can be shared out among a batch to make any number up to what it allows. */
  lemma {:induction false} ShareRetries(batch: seq<Dispatch>, retries: nat) returns (m: map<Dispatch, nat>)
    requires DistinctPlaces(batch) && retries + |batch| <= Ceiling(batch)
    ensures Allowed(batch, m) && Sum(Asked(Told(m), batch)) == retries
    decreases |batch|
  {
    hide DistinctPlaces, Sum, Told;
    if batch == [] {
      m := map[];
      assert Allowed(batch, m) && Asked(Told(m), batch) == [];
      NothingAsked();
    } else {
      var front, last := batch[..|batch| - 1], batch[|batch| - 1];
      CeilingCovers(front);
      var kept: nat := Min(retries, Ceiling(front) - |front|);
      FrontIsDistinct(batch);
      var rest := ShareRetries(front, kept);
      m := rest[last := retries - kept + 1];
      AskedOneMore(batch, rest, retries - kept + 1);
    }
  }

  lemma NothingAsked()
    ensures Sum([]) == 0
  {
  }

  lemma FrontIsDistinct(batch: seq<Dispatch>)
    requires DistinctPlaces(batch) && batch != []
    ensures DistinctPlaces(batch[..|batch| - 1])
  {
  }

  lemma AskedOneMore(batch: seq<Dispatch>, rest: map<Dispatch, nat>, n: nat)
    requires DistinctPlaces(batch) && batch != [] && 1 <= n <= MaxAttempts(batch[|batch| - 1])
    requires Allowed(batch[..|batch| - 1], rest)
    ensures Allowed(batch, rest[batch[|batch| - 1] := n])
    ensures Sum(Asked(Told(rest[batch[|batch| - 1] := n]), batch)) ==
            Sum(Asked(Told(rest), batch[..|batch| - 1])) + n - 1
  {
    var front, last := batch[..|batch| - 1], batch[|batch| - 1];
    LastIsNowhereElse(batch);
    AskedSame(front, rest, last, n);
    hide DistinctPlaces;
    assert Asked(Told(rest[last := n]), batch)[..|batch| - 1] == Asked(Told(rest[last := n]), front);
    assert batch == front + [last];
  }

  lemma {:induction false} CeilingCovers(batch: seq<Dispatch>)
    ensures |batch| <= Ceiling(batch)
    decreases |batch|
  {
    if batch != [] {
      CeilingCovers(batch[..|batch| - 1]);
    }
  }

  lemma {:induction false} ScriptedAttempts(w: World, script: Script, batch: seq<Dispatch>, settled: seq<Settled>)
    requires AllScripted(w, script, batch, settled) && forall d :: d in batch ==> script.want(d) >= 1
    ensures Attempts(settled) == |batch| + Sum(Asked(script, batch))
    decreases |batch|
  {
    if batch != [] {
      var front, last := batch[..|batch| - 1], batch[|batch| - 1];
      assert last in batch && forall d :: d in front ==> d in batch;
      ScriptedAttempts(w, script, front, settled[..|batch| - 1]);
      assert Asked(script, batch)[..|batch| - 1] == Asked(script, front);
    }
  }

  /** Any number of retries that the batch allows and the pool can fund is made in some run of the batch. */
  lemma RetriesHappen(w: World, caps: ResolvedCaps, c: Config, batch: seq<Dispatch>, retries: nat)
    returns (out: Outside, schedule: seq<nat>)
    requires DistinctPlaces(batch) && retries + |batch| <= Ceiling(batch)
    requires retries == 0 || retries <= Spare(w.h, w.nodes, Launched(c.st, batch), caps, batch)
    ensures Faithful(w, out) && PlayedOut(Worked(w, out, caps, c, batch, schedule))
    ensures Settle(w, out, caps, c, batch, schedule).st.agentsSpawned == c.st.agentsSpawned + |batch| + retries
  {
    hide DistinctPlaces, Ceiling, Play, Opening, SettleAll, Spare, Sum, PlayedOut, Told;
    var m := ShareRetries(batch, retries);
    var script := Told(m);
    var spare := Spare(w.h, w.nodes, Launched(c.st, batch), caps, batch);
    assert Fundable(script, batch, spare) by { AskedAreFunded(batch, m, spare); }
    out := Follows(w, script);
    FollowsIsFaithful(w, script);
    schedule := PlayEnds(w, out, batch, spare, c.tick, []);
    BatchFollows(w, script, caps, c, batch, schedule);
    var settled := Verdicts(batch, Worked(w, out, caps, c, batch, schedule).ps);
    ScriptedAttempts(w, script, batch, settled);
    SettleCounts(w.nodes, Launched(c.st, batch), settled);
  }

  lemma AskedAreFunded(batch: seq<Dispatch>, m: map<Dispatch, nat>, spare: int)
    requires Allowed(batch, m) && (Sum(Asked(Told(m), batch)) == 0 || Sum(Asked(Told(m), batch)) <= spare)
    ensures Fundable(Told(m), batch, spare)
  {
    if Sum(Asked(Told(m), batch)) == 0 {
      forall d | d in batch ensures Told(m).want(d) == 1 {
        var k :| 0 <= k < |batch| && batch[k] == d;
        PartOfSum(Asked(Told(m), batch), k);
      }
    }
  }

  lemma {:induction false} PartOfSum(s: seq<nat>, k: nat)
    requires k < |s|
    ensures s[k] <= Sum(s)
    decreases |s|
  {
    if k < |s| - 1 {
      PartOfSum(s[..|s| - 1], k);
    }
  }

  /** A batch spawns no more than its dispatches allow, nor more than the pool lets it. */
  lemma SpawnsAtMost(w: World, out: Outside, caps: ResolvedCaps, c: Config, batch: seq<Dispatch>, schedule: seq<nat>)
    requires Faithful(w, out)
    ensures var spawned := Settle(w, out, caps, c, batch, schedule).st.agentsSpawned - c.st.agentsSpawned;
            && spawned <= |batch| + Max(0, Spare(w.h, w.nodes, Launched(c.st, batch), caps, batch))
            && spawned <= Ceiling(batch)
  {
    hide Play, Opening, SettleAll, Spare, Ceiling, Played, Verdicts, Billed, Outcome, BatchBills;
    var spare := Spare(w.h, w.nodes, Launched(c.st, batch), caps, batch);
    PlayKeeps(w, out, batch, spare, c.tick, schedule);
    var pool := Worked(w, out, caps, c, batch, schedule);
    PlayIsOutcome(w, out, batch, spare, pool);
    var settled := Verdicts(batch, pool.ps);
    SettleCounts(w.nodes, Launched(c.st, batch), settled);
    AttemptsBound(settled);
    BatchBillsCount(batch, settled, pool.paid, |batch|);
    assert settled[..|batch|] == settled && batch[..|batch|] == batch;
  }

  lemma PoolIsRest(w: World, caps: ResolvedCaps, st: RunState, batch: seq<Dispatch>)
    ensures Spare(w.h, w.nodes, Launched(st, batch), caps, batch) ==
            caps.maxAgents - st.agentsSpawned - HeldBack(w.h, w.nodes, st, batch)
  {
  }

  /**
   "The declared nodes always fit", for any plan: a batch leaves what the plan
   needs beside it, however it goes, if and only if the cap held the need to begin
   with and either what is held back covers the need, or the surplus covers every
   retry the batch allows.
   */
  lemma FitsExactly(w: World, caps: ResolvedCaps, c: Config, batch: seq<Dispatch>)
    requires DistinctPlaces(batch)
    ensures var surplus := caps.maxAgents - c.st.agentsSpawned - Need(w.h, w.nodes, c.st);
            AlwaysLeavesEnough(w, caps, c, batch) <==>
            && surplus >= 0
            && (Need(w.h, w.nodes, c.st) <= HeldBack(w.h, w.nodes, c.st, batch) || Ceiling(batch) - |batch| <= surplus)
  {
    hide DistinctPlaces, Need, HeldBack, Ceiling, Settle, PlayedOut, Worked, Spare, Faithful;
    var need, held := Need(w.h, w.nodes, c.st), HeldBack(w.h, w.nodes, c.st, batch);
    var surplus := caps.maxAgents - c.st.agentsSpawned - need;
    PoolIsRest(w, caps, c.st, batch);
    CeilingCovers(batch);
    if surplus < 0 {
      var out, schedule := RetriesHappen(w, caps, c, batch, 0);
      assert !LeavesEnough(w, out, caps, c, batch, schedule);
    } else if need <= held || Ceiling(batch) - |batch| <= surplus {
      forall out, schedule | Faithful(w, out) && PlayedOut(Worked(w, out, caps, c, batch, schedule))
        ensures LeavesEnough(w, out, caps, c, batch, schedule)
      {
        SpawnsAtMost(w, out, caps, c, batch, schedule);
      }
    } else {
      var out, schedule := RetriesHappen(w, caps, c, batch, surplus + 1);
      assert !LeavesEnough(w, out, caps, c, batch, schedule);
    }
  }

  /** Where the cap holds just the need and a retry is allowed, a batch is safe exactly if no node is undercounted. */
  lemma FitsByNode(w: World, caps: ResolvedCaps, c: Config, batch: seq<Dispatch>)
    requires UniqueIds(w.nodes) && Startable(w, c.st, batch) && DistinctPlaces(batch)
    requires caps.maxAgents - c.st.agentsSpawned >= Need(w.h, w.nodes, c.st)
    ensures (forall n :: n in w.nodes ==> !Undercounted(w.h, n, c.st, batch)) ==>
              AlwaysLeavesEnough(w, caps, c, batch)
    ensures (forall n :: n in w.nodes ==> !Overcounted(w.h, n, c.st, batch)) &&
            Ceiling(batch) - |batch| > caps.maxAgents - c.st.agentsSpawned - Need(w.h, w.nodes, c.st) ==>
              (AlwaysLeavesEnough(w, caps, c, batch) <==>
               forall n :: n in w.nodes ==> !Undercounted(w.h, n, c.st, batch))
  {
    hide UniqueIds, Startable, DistinctPlaces, Need, HeldBack, Undercounted, Overcounted, AlwaysLeavesEnough, Ceiling;
    HoldsBackEnough(w, c.st, batch);
    FitsExactly(w, caps, c, batch);
  }
}
