/**
 What a finished run reports, and what every finished run guarantees: a reason
 for each halt, no silent omission, and the plan computed when nothing failed.
 */
module RunOutcome {
  import opened PlanSchema
  import opened Upstream
  import opened PlanGraph
  import opened RunInvariant
  import opened RunSteps
  import opened RunProgress
  import opened RunMeaning
  import opened RunBudget
  import opened RunWorkers
  import opened RunAccounts
  import opened RunLaws
  import opened RunSemantics

  datatype RunSummary = RunSummary(state: RunState, halted: Option<Halt>, failures: seq<Failure>,
                                   neverRan: seq<NodeId>, retrySpawns: nat)

  /** Those of the first `k` nodes that have no status at all. */
  function StatuslessIds(nodes: seq<Node>, st: RunState, k: nat): (ids: seq<NodeId>)
    requires k <= |nodes|
    ensures forall id :: id in ids <==> (exists j :: 0 <= j < k && nodes[j].id == id) && NodeKey(id) !in st.status
  {
    if k == 0 then []
    else
      StatuslessIds(nodes, st, k - 1) + if NodeKey(nodes[k - 1].id) !in st.status then [nodes[k - 1].id] else []
  }

  lemma NoneYet(nodes: seq<Node>, st: RunState)
    ensures StatuslessIds(nodes, st, 0) == []
  {
  }

  lemma OneMoreStatusless(nodes: seq<Node>, st: RunState, k: nat)
    requires k < |nodes|
    ensures StatuslessIds(nodes, st, k + 1) ==
            StatuslessIds(nodes, st, k) + if NodeKey(nodes[k].id) !in st.status then [nodes[k].id] else []
  {
  }

  function NeverRanFailures(ids: seq<NodeId>): seq<Failure> {
    seq(|ids|, k requires 0 <= k < |ids| => Failure(ids[k], "never ran"))
  }

  /** What is reported of a run whose loop ended here. */
  ghost function Concluded(nodes: seq<Node>, c: Config): RunSummary {
    var marked := MarkSkipped(c.st, DoomedIds(nodes, c.st, |nodes|));
    var neverRan := StatuslessIds(nodes, marked, |nodes|);
    RunSummary(MarkSkipped(marked, neverRan), c.halted,
               if c.halted.None? then c.failures + NeverRanFailures(neverRan) else c.failures, neverRan, c.retrySpawns)
  }

  /** Without a halt, every node that never ran is reported as a failure of its own, after all others. */
  lemma NeverRanIsReported(nodes: seq<Node>, c: Config)
    ensures var s := Concluded(nodes, c);
            if c.halted.Some? then s.failures == c.failures
            else
              && c.failures <= s.failures && |s.failures| == |c.failures| + |s.neverRan|
              && forall k :: 0 <= k < |s.neverRan| ==>
                   s.failures[|c.failures| + k] == Failure(s.neverRan[k], "never ran")
    ensures Concluded(nodes, c).halted == c.halted && Concluded(nodes, c).retrySpawns == c.retrySpawns
  {
    hide MarkSkipped, DoomedIds, StatuslessIds;
  }

  ghost predicate IsClean(w: World, rank: map<NodeId, nat>, n: Node) {
    n in w.nodes && CleanBelow(w, rank, n.id) && CleanAt(w, rank, n.id)
  }

  /** Every clean node holds the value that evaluating the plan from its leaves gives it. */
  ghost predicate ComputesPlan(w: World, st: RunState) {
    forall rank, n :: Ranks(GraphOf(w.nodes), rank) && IsClean(w, rank, n) ==>
      && n.id in rank && NodeKey(n.id) in st.results
      && FindNode(w.nodes, n.id).Some? && st.results[NodeKey(n.id)] == ValueOf(w, rank, n.id)
  }

  /** A finished run without failures did every node, and computed the plan. */
  lemma FlawlessRunComputesPlan(w: World, st: RunState)
    requires Inv(w, st) && Schedulable(w.nodes) && Acyclic(GraphOf(w.nodes)) && IsComplete(w.nodes, st)
    requires AllReported(st, [])
    ensures forall n :: n in w.nodes ==> Is(st, NodeKey(n.id), Done)
    ensures w.functional ==> ComputesPlan(w, st)
  {
    hide Inv, Schedulable, Acyclic, Ranks, CleanAt, CleanBelow, ValueOf, DependsThrough;
    SkippedExactly(w, st);
    assert forall id :: !Is(st, NodeKey(id), Failed) by {
      assert forall id :: !Mentions([], id);
    }
    forall n | n in w.nodes ensures Is(st, NodeKey(n.id), Done) {
      var k :| 0 <= k < |w.nodes| && w.nodes[k] == n;
      assert Terminal(st, w.nodes[k].id);
      assert !DependsOnFailure(w.nodes, st, n.id);
    }
    if w.functional {
      forall rank, n | Ranks(GraphOf(w.nodes), rank) && IsClean(w, rank, n)
        ensures n.id in rank && NodeKey(n.id) in st.results && FindNode(w.nodes, n.id).Some?
        ensures st.results[NodeKey(n.id)] == ValueOf(w, rank, n.id)
      {
        FinishedNodeHoldsValue(w, rank, st, n.id);
      }
    }
  }

  // ---------- what every finished run guarantees ----------

  /** A halt has its reason; a cap halt on a plan the cap can hold comes after every agent node. */
  ghost predicate HaltHasReason(w: World, out: Outside, caps: ResolvedCaps, s: RunSummary) {
    match s.halted
    case None => !Collapsed(out, s.failures)
    case Some(BudgetHalt) => caps.budgetTokens.Some? && s.state.spentTokens >= caps.budgetTokens.value
    case Some(AbortedHalt) => exists t: nat :: out.aborted(t)
    case Some(AgentsHalt) =>
      Collapsed(out, s.failures) ||
      (&& s.state.agentsSpawned == caps.maxAgents
       && (Coverable(w, caps) ==> forall n :: n in w.nodes && n.Agent? ==> Terminal(s.state, n.id)))
  }

  /**
   After the loop only statuses are added, all of them `skipped`; reported as
   never run are exactly the nodes that had no status and no failed dependency.
   */
  ghost predicate MarksTheRest(nodes: seq<Node>, reached: RunState, s: RunSummary) {
    && s.state == reached.(status := s.state.status)
    && (forall key :: key in reached.status ==> Is(s.state, key, reached.status[key]))
    && (forall key :: key in s.state.status && key !in reached.status ==> Is(s.state, key, Skipped))
    && (forall n :: n in nodes ==> NodeKey(n.id) in s.state.status)
    && ListsNeverRan(nodes, reached, s.neverRan)
  }

  ghost predicate ListsNeverRan(nodes: seq<Node>, reached: RunState, neverRan: seq<NodeId>) {
    forall id :: id in neverRan <==>
      exists k :: 0 <= k < |nodes| && nodes[k].id == id && NodeKey(id) !in reached.status && !Doomed(nodes[k], reached)
  }

  /** Every failure is reported; with no halt every node is done, failed, or skipped because of a failure. */
  ghost predicate NothingOmitted(w: World, out: Outside, s: RunSummary) {
    && AllReported(s.state, s.failures)
    && (s.halted.None? ==>
          && IsComplete(w.nodes, s.state) && s.neverRan == []
          && forall n :: n in w.nodes ==>
               (Is(s.state, NodeKey(n.id), Skipped) <==> DependsOnFailure(w.nodes, s.state, n.id)))
    && (s.halted.None? && s.failures == [] ==>
          && (forall n :: n in w.nodes ==> Is(s.state, NodeKey(n.id), Done))
          && (w.functional ==> ComputesPlan(w, s.state)))
  }

  lemma NeverRanListed(nodes: seq<Node>, st: RunState)
    requires UniqueIds(nodes)
    ensures var marked := MarkSkipped(st, DoomedIds(nodes, st, |nodes|));
            ListsNeverRan(nodes, st, StatuslessIds(nodes, marked, |nodes|))
  {
    hide MarkSkipped, Doomed;
    MarkSkippedEffect(st, DoomedIds(nodes, st, |nodes|));
  }

  /** Marking nodes without status twice over only adds. */
  lemma TwoMarks(st: RunState, a: seq<NodeId>, b: seq<NodeId>)
    requires forall id :: id in a ==> NodeKey(id) !in st.status
    requires forall id :: id in b ==> NodeKey(id) !in MarkSkipped(st, a).status
    ensures var s := MarkSkipped(MarkSkipped(st, a), b);
            && s == st.(status := s.status)
            && (forall key :: key in st.status ==> Is(s, key, st.status[key]))
            && (forall key :: key in s.status && key !in st.status ==> Is(s, key, Skipped))
  {
    hide MarkSkipped;
    MarkSkippedEffect(st, a);
    MarkSkippedEffect(MarkSkipped(st, a), b);
  }

  lemma EveryNodeMarked(nodes: seq<Node>, st: RunState, n: Node)
    requires n in nodes
    ensures NodeKey(n.id) in MarkSkipped(st, StatuslessIds(nodes, st, |nodes|)).status
  {
    hide MarkSkipped;
    MarkSkippedEffect(st, StatuslessIds(nodes, st, |nodes|));
    var k :| 0 <= k < |nodes| && nodes[k] == n;
  }

  lemma MarkedIsSkipped(nodes: seq<Node>, c: Config)
    requires UniqueIds(nodes)
    ensures MarksTheRest(nodes, c.st, Concluded(nodes, c))
  {
    NeverRanListed(nodes, c.st);
    hide MarkSkipped, Doomed, ListsNeverRan, UniqueIds;
    var doomed := DoomedIds(nodes, c.st, |nodes|);
    var marked := MarkSkipped(c.st, doomed);
    var neverRan := StatuslessIds(nodes, marked, |nodes|);
    forall id | id in doomed ensures NodeKey(id) !in c.st.status {
      DoomedHasNoStatus(nodes, c.st, id);
    }
    forall n | n in nodes ensures NodeKey(n.id) in MarkSkipped(marked, neverRan).status {
      EveryNodeMarked(nodes, marked, n);
    }
    hide DoomedIds;
    TwoMarks(c.st, doomed, neverRan);
  }

  lemma DoomedHasNoStatus(nodes: seq<Node>, st: RunState, id: NodeId)
    requires id in DoomedIds(nodes, st, |nodes|)
    ensures NodeKey(id) !in st.status
  {
    var k :| 0 <= k < |nodes| && nodes[k].id == id && Doomed(nodes[k], st);
  }

  /** Once every node is finished there is nothing left to mark. */
  lemma CompleteLeavesNothing(nodes: seq<Node>, c: Config)
    requires IsComplete(nodes, c.st)
    ensures Concluded(nodes, c) == RunSummary(c.st, c.halted, c.failures, [], c.retrySpawns)
  {
    hide DoomedIds, StatuslessIds;
    assert forall k :: 0 <= k < |nodes| ==> NodeKey(nodes[k].id) in c.st.status by {
      assert forall k :: 0 <= k < |nodes| ==> Terminal(c.st, nodes[k].id);
    }
    NoneOf(DoomedIds(nodes, c.st, |nodes|));
    NoneOf(StatuslessIds(nodes, c.st, |nodes|));
    assert c.failures + NeverRanFailures([]) == c.failures;
  }

  lemma NoneOf(ids: seq<NodeId>)
    ensures (forall id :: id !in ids) ==> ids == []
  {
    assert ids != [] ==> ids[0] in ids;
  }

  lemma HaltKeepsReason(w: World, out: Outside, caps: ResolvedCaps, c: Config)
    requires LawfulConfig(w, out, caps, c) && UniqueIds(w.nodes)
    requires c.halted.None? ==> IsComplete(w.nodes, c.st)
    ensures HaltHasReason(w, out, caps, Concluded(w.nodes, c))
  {
    hide Collapsed, Inv, LogInv, Accounts, WithinOvershoot, Coverable, Concluded;
    MarkedIsSkipped(w.nodes, c);
    SameCounts(w.nodes, c);
    if c.halted.None? {
      CompleteLeavesNothing(w.nodes, c);
    } else if c.halted == Some(AgentsHalt) && c.st.agentsSpawned == caps.maxAgents && Coverable(w, caps) {
      CapHaltMeansAgentsFinished(w.nodes, c.st, caps);
    }
  }

  lemma SameCounts(nodes: seq<Node>, c: Config)
    ensures var s := Concluded(nodes, c);
            s.halted == c.halted && (c.halted.Some? ==> s.failures == c.failures)
  {
  }

  lemma ReportsSurvive(w: World, out: Outside, c: Config)
    requires AllReported(c.st, c.failures) && UniqueIds(w.nodes)
    ensures AllReported(Concluded(w.nodes, c).state, Concluded(w.nodes, c).failures)
  {
    hide MarkSkipped, Doomed, DoomedIds, StatuslessIds, Mentions;
    var marked := MarkSkipped(c.st, DoomedIds(w.nodes, c.st, |w.nodes|));
    var neverRan := StatuslessIds(w.nodes, marked, |w.nodes|);
    SkipReports(c.st, DoomedIds(w.nodes, c.st, |w.nodes|), c.failures);
    SkipReports(marked, neverRan, c.failures);
    forall id | Mentions(c.failures, id) ensures Mentions(c.failures + NeverRanFailures(neverRan), id) {
      MentionsStay(c.failures, NeverRanFailures(neverRan), id);
    }
  }

  lemma MentionsStay(failures: seq<Failure>, more: seq<Failure>, id: NodeId)
    requires Mentions(failures, id)
    ensures Mentions(failures + more, id)
  {
    var k :| 0 <= k < |failures| && failures[k].node == id;
    assert (failures + more)[k] == failures[k];
  }

  lemma NothingIsOmitted(w: World, out: Outside, c: Config)
    requires Inv(w, c.st) && AllReported(c.st, c.failures) && Schedulable(w.nodes) && Acyclic(GraphOf(w.nodes))
    requires c.halted.None? ==> IsComplete(w.nodes, c.st)
    ensures NothingOmitted(w, out, Concluded(w.nodes, c))
  {
    hide Acyclic, Inv, ComputesPlan, AllReported, Concluded, IsComplete, DependsOnFailure;
    ReportsSurvive(w, out, c);
    SameCounts(w.nodes, c);
    if c.halted.None? {
      CompleteLeavesNothing(w.nodes, c);
      SkippedExactly(w, c.st);
      if c.failures == [] {
        FlawlessRunComputesPlan(w, c.st);
      }
    }
  }

  /** Every run that ends keeps all laws, halts for a reason, and omits nothing silently. */
  lemma RunEnds(w: World, out: Outside, caps: ResolvedCaps, schedules: seq<seq<nat>>)
    requires Faithful(w, out) && Schedulable(w.nodes) && Acyclic(GraphOf(w.nodes))
    requires IsRun(w, out, caps, schedules) && !Going(w, RunOf(w, out, caps, schedules))
    ensures var c := RunOf(w, out, caps, schedules);
            var s := Concluded(w.nodes, c);
            && LawfulConfig(w, out, caps, c) && HaltHasReason(w, out, caps, s) && MarksTheRest(w.nodes, c.st, s)
            && NothingOmitted(w, out, s)
  {
    hide RunOf, IsRun, Faithful, Acyclic, Inv, LogInv, Accounts, WithinOvershoot, Collapsed, AllReported, MarksTheRest,
         HaltHasReason, NothingOmitted, Concluded, IsComplete;
    var c := RunOf(w, out, caps, schedules);
    RunIsLawful(w, out, caps, schedules);
    MarkedIsSkipped(w.nodes, c);
    HaltKeepsReason(w, out, caps, c);
    NothingIsOmitted(w, out, c);
  }
}
