/**
 Everything that holds between two iterations of the run loop, and that each of
 the three state changes of an iteration keeps it.
 */
module RunLaws {
  import opened PlanSchema
  import opened Upstream
  import opened PlanGraph
  import opened RunInvariant
  import opened RunSteps
  import opened RunProgress
  import opened RunBudget
  import opened RunWorkers
  import opened RunAccounts

  /** Plans whose declared agent nodes the cap can hold, each with work of its own. */
  ghost predicate Coverable(w: World, caps: ResolvedCaps) {
    && SingleShot(w.nodes) && DistinctWork(w.h, w.nodes)
    && caps.maxAgents >= |WaitingAgents(w.nodes, EMPTY_RUN_STATE)|
  }

  /** The laws of a run: of its state, of every dispatch so far and of every attempt's bill. */
  ghost predicate Lawful(w: World, caps: ResolvedCaps, st: RunState, log: seq<Dispatch>, bills: seq<Bill>) {
    && Inv(w, st) && LogInv(w, st, log) && st.running == {}
    && Accounts(st, log, bills) && st.agentsSpawned <= caps.maxAgents
    && WithinOvershoot(caps, log, bills)
    && (Coverable(w, caps) ==> CapCoversAgents(w.nodes, st, caps))
  }

  lemma EmptyRunIsLawful(w: World, caps: ResolvedCaps)
    ensures Lawful(w, caps, EMPTY_RUN_STATE, [], [])
  {
  }

  lemma LawfulFacts(w: World, caps: ResolvedCaps, st: RunState, log: seq<Dispatch>, bills: seq<Bill>)
    requires Lawful(w, caps, st, log, bills)
    ensures Inv(w, st) && LogInv(w, st, log) && Accounts(st, log, bills)
    ensures st.running == {} && st.agentsSpawned <= caps.maxAgents
  {
  }

  /** Conservation: between two iterations the per-node spend adds up to the spend of the run. */
  lemma SpendConserved(w: World, caps: ResolvedCaps, st: RunState, log: seq<Dispatch>, bills: seq<Bill>,
                       nodeSpend: map<NodeId, nat>)
    requires Lawful(w, caps, st, log, bills) && UniqueIds(w.nodes) && NodeTotals(nodeSpend, bills)
    ensures SpendOver(w.nodes, nodeSpend) == st.spentTokens
  {
    hide Inv, WithinOvershoot, Ceiling, NodeTotals, UniqueIds, CapCoversAgents, Coverable;
    forall b | b in bills ensures FindNode(w.nodes, b.dispatch.nodeId).Some? {
      var k :| 0 <= k < |log| && log[k] == b.dispatch;
      assert Logged(w, st, log[k]);
    }
    SpendIsSum(w.nodes, nodeSpend, bills);
    NodeSpendAddsUp(w.nodes, bills);
  }

  /** A change of statuses alone keeps the laws. */
  lemma RecordsGrow(w: World, caps: ResolvedCaps, st: RunState, st': RunState, log: seq<Dispatch>, bills: seq<Bill>)
    requires Lawful(w, caps, st, log, bills) && Inv(w, st') && Grows(st, st')
    requires st'.(results := st.results, status := st.status) == st
    ensures Lawful(w, caps, st', log, bills)
  {
    hide Inv, WithinOvershoot, Ceiling;
    LogGrows(w, st, st', log);
    StillWaiting(w.nodes, st, st', {});
    SubsetSize(WaitingAgents(w.nodes, st'), WaitingAgents(w.nodes, st));
  }

  lemma PublishIsLawful(w: World, caps: ResolvedCaps, st: RunState, log: seq<Dispatch>, bills: seq<Bill>)
    requires Lawful(w, caps, st, log, bills) && Schedulable(w.nodes)
    ensures Lawful(w, caps, ApplyImmediate(w.h, st, AllImmediate(w.h, w.nodes, st, |w.nodes|)), log, bills)
  {
    var immediate := AllImmediate(w.h, w.nodes, st, |w.nodes|);
    ImmediateStep(w, st);
    ApplyImmediateEffect(w.h, st, immediate);
    RecordsGrow(w, caps, st, ApplyImmediate(w.h, st, immediate), log, bills);
  }

  lemma SkipIsLawful(w: World, caps: ResolvedCaps, st: RunState, log: seq<Dispatch>, bills: seq<Bill>, ids: seq<NodeId>)
    requires Lawful(w, caps, st, log, bills) && Schedulable(w.nodes) && AreDoomed(w.nodes, st, ids)
    ensures Lawful(w, caps, MarkSkipped(st, ids), log, bills)
  {
    SkipStep(w, st, ids);
    MarkSkippedEffect(st, ids);
    RecordsGrow(w, caps, st, MarkSkipped(st, ids), log, bills);
  }

  // ---------- a batch ----------

  ghost function InFlight(batch: seq<Dispatch>): set<int> {
    set d | d in batch :: d.workId
  }

  /** The state while a batch runs. */
  ghost function Launched(st: RunState, batch: seq<Dispatch>): RunState {
    st.(running := st.running + InFlight(batch))
  }

  lemma LaunchKeeps(w: World, st: RunState, batch: seq<Dispatch>)
    requires Inv(w, st) && Startable(w, st, batch)
    ensures Inv(w, Launched(st, batch)) && Startable(w, Launched(st, batch), batch) && Grows(st, Launched(st, batch))
  {
    hide KeyLaw, IsUnit;
    var st' := Launched(st, batch);
    forall key | key in st'.status ensures KeyLaw(w, st', key) {
      LawKept(w, st, st', key);
    }
    forall d | d in batch ensures MayStart(w, st', d) {
      UnitSurvives(w, st, st', FindNode(w.nodes, d.nodeId).value, d);
    }
  }

  /** What the scheduler guarantees of a batch it returns without a halt. */
  ghost predicate Scheduled(w: World, caps: ResolvedCaps, st: RunState, batch: seq<Dispatch>) {
    && Startable(w, st, batch) && DistinctPlaces(batch)
    && |batch| <= caps.maxAgents - st.agentsSpawned && |batch| <= Concurrency(caps)
    && (caps.budgetTokens.Some? ==> st.spentTokens < caps.budgetTokens.value)
  }

  /** In flight at most `maxConcurrent` dispatches, and one only under a budget. */
  lemma BatchIsScheduled(w: World, caps: ResolvedCaps, st: RunState)
    requires Inv(w, st) && Schedulable(w.nodes) && st.running == {}
    requires BatchSpec(w.h, w.nodes, st, caps).halt.None?
    ensures var st' := ApplyImmediate(w.h, st, BatchSpec(w.h, w.nodes, st, caps).immediate);
            Scheduled(w, caps, st', BatchSpec(w.h, w.nodes, st, caps).dispatch)
  {
    var batch := BatchSpec(w.h, w.nodes, st, caps).dispatch;
    BatchStartable(w, st, Room(st, caps));
    AllUnitsDistinct(w, st, |w.nodes|);
    ApplyImmediateEffect(w.h, st, AllImmediate(w.h, w.nodes, st, |w.nodes|));
    assert forall i :: 0 <= i < |batch| ==> batch[i] == AllUnits(w.h, w.nodes, st, |w.nodes|)[i];
  }

  lemma BatchAccounts(w: World, st: RunState, batch: seq<Dispatch>, settled: seq<Settled>, paid: seq<seq<nat>>,
                      log: seq<Dispatch>, bills: seq<Bill>)
    requires Outcome(w, batch, settled) && Billed(batch, settled, paid) && Accounts(st, log, bills)
    ensures Accounts(SettleAll(w.nodes, Launched(st, batch), settled), log + batch,
                     bills + BatchBills(batch, paid, |batch|))
  {
    hide BatchBills, Ceiling, Total;
    BatchBillsCount(batch, settled, paid, |batch|);
    BatchBillsTotal(batch, settled, paid, bills, |batch|);
    BatchBillsNamed(batch, paid, |batch|);
    CeilingAppend(log, batch);
    assert settled[..|batch|] == settled && batch[..|batch|] == batch;
    SettleCounts(w.nodes, Launched(st, batch), settled);
  }

  /** Under a budget a batch is one dispatch, started below the budget. */
  lemma BatchOvershoot(caps: ResolvedCaps, st: RunState, batch: seq<Dispatch>, settled: seq<Settled>,
                       paid: seq<seq<nat>>, log: seq<Dispatch>, bills: seq<Bill>)
    requires Billed(batch, settled, paid) && st.spentTokens == Total(bills) && WithinOvershoot(caps, log, bills)
    requires |batch| <= Concurrency(caps) && (caps.budgetTokens.Some? ==> st.spentTokens < caps.budgetTokens.value)
    ensures WithinOvershoot(caps, log + batch, bills + BatchBills(batch, paid, |batch|))
  {
    var all := bills + BatchBills(batch, paid, |batch|);
    if caps.budgetTokens.Some? && batch == [] {
      assert all == bills && log + batch == log;
    } else if caps.budgetTokens.Some? {
      assert all[..|bills|] == bills;
      assert BatchBills(batch, paid, 1) == BatchBills(batch, paid, 0) + BillsFor(batch[0], paid[0]);
      assert LastDispatchFrom(caps.budgetTokens.value, log + batch, all, |bills|);
    }
  }

  lemma SingleShotNodesDistinct(w: World, st: RunState, batch: seq<Dispatch>)
    requires SingleShot(w.nodes) && Startable(w, st, batch) && DistinctPlaces(batch)
    ensures forall i, j :: 0 <= i < j < |batch| ==> batch[i].nodeId != batch[j].nodeId
  {
    forall i, j | 0 <= i < j < |batch| ensures batch[i].nodeId != batch[j].nodeId {
      assert batch[i] in batch && batch[j] in batch && !SamePlace(batch[i], batch[j]);
      assert MayStart(w, st, batch[i]) && MayStart(w, st, batch[j]);
    }
  }

  lemma BatchCap(w: World, caps: ResolvedCaps, st: RunState, batch: seq<Dispatch>, settled: seq<Settled>)
    requires Inv(w, st) && Schedulable(w.nodes) && st.running == {} && Scheduled(w, caps, st, batch)
    requires Outcome(w, batch, settled)
    requires Retries(settled) <= Max(0, Spare(w.h, w.nodes, Launched(st, batch), caps, batch))
    requires Coverable(w, caps) && CapCoversAgents(w.nodes, st, caps)
    ensures CapCoversAgents(w.nodes, SettleAll(w.nodes, Launched(st, batch), settled), caps)
  {
    LaunchKeeps(w, st, batch);
    SingleShotNodesDistinct(w, st, batch);
    StillWaiting(w.nodes, st, Launched(st, batch), {});
    SubsetSize(WaitingAgents(w.nodes, Launched(st, batch)), WaitingAgents(w.nodes, st));
    RetriesNeverStarve(w, Launched(st, batch), caps, batch, settled);
  }

  /** Whatever the workers return and however their retries interleave, a batch keeps the run lawful. */
  lemma BatchIsLawful(w: World, caps: ResolvedCaps, st: RunState, batch: seq<Dispatch>, settled: seq<Settled>,
                      paid: seq<seq<nat>>, log: seq<Dispatch>, bills: seq<Bill>)
    requires Lawful(w, caps, st, log, bills) && Schedulable(w.nodes) && Scheduled(w, caps, st, batch)
    requires Outcome(w, batch, settled) && Billed(batch, settled, paid)
    requires Retries(settled) <= Max(0, Spare(w.h, w.nodes, Launched(st, batch), caps, batch))
    ensures Lawful(w, caps, SettleAll(w.nodes, Launched(st, batch), settled), log + batch,
                   bills + BatchBills(batch, paid, |batch|))
  {
    hide Inv, LogInv, Accounts, WithinOvershoot, CapCoversAgents, Startable, Outcome, Spare, Coverable;
    var mid := Launched(st, batch);
    LaunchKeeps(w, st, batch);
    SettleStep(w, mid, batch, settled);
    LogGrows(w, st, mid, log);
    LogStep(w, mid, log, batch, settled);
    BatchAccounts(w, st, batch, settled, paid, log, bills);
    AccountsSpent(st, log, bills);
    AdmissionsWithinCap(w.h, w.nodes, mid, caps, batch, settled);
    BatchOvershoot(caps, st, batch, settled, paid, log, bills);
    if Coverable(w, caps) {
      BatchCap(w, caps, st, batch, settled);
    }
    SettledRunsNothing(w, st, batch, settled);
  }

  lemma AccountsSpent(st: RunState, log: seq<Dispatch>, bills: seq<Bill>)
    requires Accounts(st, log, bills)
    ensures st.spentTokens == Total(bills)
  {
  }

  lemma SettledRunsNothing(w: World, st: RunState, batch: seq<Dispatch>, settled: seq<Settled>)
    requires st.running == {} && Outcome(w, batch, settled)
    ensures SettleAll(w.nodes, Launched(st, batch), settled).running == {}
  {
    SettleCounts(w.nodes, Launched(st, batch), settled);
    forall d | d in batch ensures d.workId in WorkIds(settled) {
      var k :| 0 <= k < |batch| && batch[k] == d;
      assert settled[k].dispatch == d;
    }
  }

  /** Publishing and then settling lowers the measure of the loop. */
  lemma IterationProgress(w: World, caps: ResolvedCaps, st: RunState, batch: seq<Dispatch>, settled: seq<Settled>)
    requires Inv(w, st) && Schedulable(w.nodes) && BatchSpec(w.h, w.nodes, st, caps).halt.None?
    requires batch == BatchSpec(w.h, w.nodes, st, caps).dispatch && batch != [] && Outcome(w, batch, settled)
    ensures var mid := ApplyImmediate(w.h, st, BatchSpec(w.h, w.nodes, st, caps).immediate);
            Below(w.h, w.nodes, SettleAll(w.nodes, Launched(mid, batch), settled), st)
  {
    var immediate := AllImmediate(w.h, w.nodes, st, |w.nodes|);
    var mid := ApplyImmediate(w.h, st, immediate);
    ImmediateStep(w, st);
    BatchStartable(w, st, Room(st, caps));
    LaunchKeeps(w, mid, batch);
    SettleProgress(w, Launched(mid, batch), batch, settled);
    SettleStep(w, Launched(mid, batch), batch, settled);
    if immediate == [] {
      assert mid == st;
      SameMeasure(w, st, Launched(mid, batch));
    } else {
      ImmediateProgress(w, st);
      GrowsShrinks(w, mid, SettleAll(w.nodes, Launched(mid, batch), settled));
    }
  }

  lemma SameMeasure(w: World, st: RunState, st': RunState)
    requires st'.status == st.status && st'.results == st.results
    ensures Unfinished(w.nodes, st) == Unfinished(w.nodes, st')
    ensures OpenSlots(w.h, w.nodes, st) == OpenSlots(w.h, w.nodes, st')
  {
  }
}
