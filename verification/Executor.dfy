/**
 The run loop of extensions/agenda/executor.ts: ask the scheduler for a batch,
 run it, fold the results into the shared state, repeat.
 */
module Executor {
  import opened PlanSchema
  import opened Upstream
  import opened PlanGraph
  import opened RunInvariant
  import opened RunSteps
  import opened RunProgress
  import opened RunBudget
  import opened RunWorkers
  import opened RunAccounts
  import opened RunLaws
  import opened RunSemantics
  import opened RunOutcome
  import opened PlanValidation

  class Run {
    const w: World
    const caps: ResolvedCaps
    const out: Outside

    var results: Results
    var status: map<Key, Status>
    var running: set<int>
    var agentsSpawned: nat
    var spentTokens: nat
    var nodeSpend: map<NodeId, nat>
    var retrySpawns: nat
    var failures: seq<Failure>
    var failureSignatures: map<string, nat>
    var halted: Option<Halt>
    /** How often the outside has been asked. */
    var tick: nat

    /** Every dispatch, every worker attempt and every batch's schedule so far. */
    ghost var log: seq<Dispatch>
    ghost var bills: seq<Bill>
    ghost var schedules: seq<seq<nat>>

    constructor (w: World, caps: ResolvedCaps, out: Outside)
      ensures this.w == w && this.caps == caps && this.out == out
      ensures Valid() && Now() == START && schedules == []
    {
      this.w, this.caps, this.out := w, caps, out;
      results, status, running, agentsSpawned, spentTokens := map[], map[], {}, 0, 0;
      nodeSpend, retrySpawns, failures, failureSignatures, halted, tick := map[], 0, [], map[], None, 0;
      log, bills, schedules := [], [], [];
      new;
      assert forall s :: CountSignature(out, [], s) == 0;
    }

    function Snapshot(): RunState
      reads this
    {
      RunState(results, status, running, agentsSpawned, spentTokens)
    }

    ghost function Now(): Config
      reads this
    {
      Config(Snapshot(), failures, halted, tick, retrySpawns, log, bills)
    }

    /** Between two iterations: the fields are where the run of these schedules stands. */
    ghost predicate Valid()
      reads this
    {
      && IsRun(w, out, caps, schedules) && Now() == RunOf(w, out, caps, schedules)
      && NodeTotals(nodeSpend, bills) && SignatureCounts(out, failures, failureSignatures)
    }

    method Publish(immediate: seq<(NodeId, Immediate)>)
      modifies this`results, this`status
      ensures Snapshot() == ApplyImmediate(w.h, old(Snapshot()), immediate)
    {
      for k := 0 to |immediate|
        invariant Snapshot() == ApplyImmediate(w.h, old(Snapshot()), immediate[..k])
      {
        assert immediate[..k + 1][..k] == immediate[..k];
        var key := NodeKey(immediate[k].0);
        results := results[key := ResolveImmediate(w.h, immediate[k].1)];
        status := status[key := Done];
      }
      assert immediate[..|immediate|] == immediate;
    }

    method Skip(ids: seq<NodeId>)
      modifies this`status
      ensures Snapshot() == MarkSkipped(old(Snapshot()), ids)
    {
      for k := 0 to |ids|
        invariant Snapshot() == MarkSkipped(old(Snapshot()), ids[..k])
      {
        assert ids[..k + 1][..k] == ids[..k];
        status := status[NodeKey(ids[k]) := Skipped];
      }
      assert ids[..|ids|] == ids;
    }

    /** Add a settled batch to the per-node spend. */
    method Charge(batch: seq<Dispatch>, settled: seq<Settled>, ghost paid: seq<seq<nat>>)
      requires Billed(batch, settled, paid) && Outcome(w, batch, settled)
      requires NodeTotals(nodeSpend, bills)
      modifies this`nodeSpend, this`bills
      ensures NodeTotals(nodeSpend, bills) && bills == old(bills) + BatchBills(batch, paid, |batch|)
    {
      hide SpendOf, BillsFor;
      for k := 0 to |settled|
        invariant NodeTotals(nodeSpend, bills) && bills == old(bills) + BatchBills(batch, paid, k)
      {
        var id := settled[k].dispatch.nodeId;
        forall other
          ensures SpendOf(bills + BillsFor(batch[k], paid[k]), other) ==
                  SpendOf(bills, other) + if id == other then Sum(paid[k]) else 0
        {
          AppendBills(bills, batch[k], paid[k], other);
        }
        NextBills(batch, paid, old(bills), k + 1);
        nodeSpend := nodeSpend[id := Spent(nodeSpend, id) + settled[k].result.tokens];
        bills := bills + BillsFor(batch[k], paid[k]);
      }
    }

    /** Counted by signature; the third failure of one shape halts the run. */
    ghost predicate FailuresCounted()
      reads this
    {
      && SignatureCounts(out, failures, failureSignatures)
      && halted == if Collapsed(out, failures) then Some(AgentsHalt) else None
    }

    method RecordFailure(failure: Failure)
      requires FailuresCounted()
      modifies this`failures, this`failureSignatures, this`halted
      ensures FailuresCounted() && failures == old(failures) + [failure]
    {
      CountStep(out, failures, failure);
      failures := failures + [failure];
      var signature := out.signature(failure.error);
      var count := (if signature in failureSignatures then failureSignatures[signature] else 0) + 1;
      failureSignatures := failureSignatures[signature := count];
      if count >= IDENTICAL_FAILURE_THRESHOLD {
        halted := Some(AgentsHalt);
      }
    }

    /** Record a worker's verdict and its cost. */
    method StoreVerdict(one: Settled)
      modifies this`results, this`status, this`running, this`agentsSpawned, this`spentTokens, this`retrySpawns
      ensures Snapshot() == SettleOne(w.nodes, old(Snapshot()), one)
      ensures retrySpawns == old(retrySpawns) + Max(0, one.result.attempts - 1)
    {
      var d, r := one.dispatch, one.result;
      running := running - {d.workId};
      agentsSpawned := agentsSpawned + r.attempts;
      retrySpawns := retrySpawns + Max(0, r.attempts - 1);
      spentTokens := spentTokens + r.tokens;
      var key := ResultKey(d);
      if r.ok {
        results := results[key := r.value];
        status := status[key := Done];
        if IsTerminalForNode(w.nodes, d) {
          status := status[NodeKey(d.nodeId) := Done];
        }
      } else {
        status := status[key := Failed];
        status := status[NodeKey(d.nodeId) := Failed];
      }
    }

    /** Fold one settled dispatch into the state. */
    method SettleDispatch(one: Settled)
      requires FailuresCounted()
      modifies this`results, this`status, this`running, this`agentsSpawned, this`spentTokens, this`retrySpawns,
               this`failures, this`failureSignatures, this`halted
      ensures Snapshot() == SettleOne(w.nodes, old(Snapshot()), one)
      ensures failures == old(failures) + if one.result.ok then [] else [Failure(one.dispatch.nodeId, one.result.error)]
      ensures retrySpawns == old(retrySpawns) + Max(0, one.result.attempts - 1) && FailuresCounted()
    {
      hide SettleOne, SignatureCounts, Collapsed;
      StoreVerdict(one);
      if !one.result.ok {
        RecordFailure(Failure(one.dispatch.nodeId, one.result.error));
      }
    }

    method SettleBatch(settled: seq<Settled>)
      requires FailuresCounted()
      modifies this`results, this`status, this`running, this`agentsSpawned, this`spentTokens, this`retrySpawns,
               this`failures, this`failureSignatures, this`halted
      ensures Snapshot() == SettleAll(w.nodes, old(Snapshot()), settled)
      ensures failures == old(failures) + FailuresOf(settled)
      ensures retrySpawns == old(retrySpawns) + Retries(settled) && FailuresCounted()
    {
      hide FailuresCounted, SettleOne, Max;
      for k := 0 to |settled|
        invariant Snapshot() == SettleAll(w.nodes, old(Snapshot()), settled[..k])
        invariant failures == old(failures) + FailuresOf(settled[..k])
        invariant retrySpawns == old(retrySpawns) + Retries(settled[..k])
        invariant FailuresCounted()
      {
        assert settled[..k + 1][..k] == settled[..k];
        SettleDispatch(settled[k]);
      }
      assert settled[..|settled|] == settled;
    }

    /** Start every dispatch of a batch and run all of them to their end. */
    method Launch(batch: seq<Dispatch>) returns (settled: seq<Settled>, ghost schedule: seq<nat>)
      requires Faithful(w, out)
      modifies this`running, this`tick, this`log
      ensures Snapshot() == Launched(old(Snapshot()), batch) && log == old(log) + batch
      ensures var pool := Worked(w, out, caps, old(Now()), batch, schedule);
              PlayedOut(pool) && settled == Verdicts(batch, pool.ps) && tick == pool.tick
    {
      hide Play, Opening;
      running := running + set d | d in batch :: d.workId;
      log := log + batch;
      var reserved := UnstartedAgentWork(w.h, w.nodes, Snapshot(), batch);
      var spare := caps.maxAgents - agentsSpawned - |batch| - reserved;
      settled, tick, schedule := RunBatch(w, out, batch, spare, tick);
    }

    /** Run one scheduled batch to its end. */
    method RunOneBatch(batch: seq<Dispatch>) returns (ghost schedule: seq<nat>)
      requires Faithful(w, out) && halted.None? && FailuresCounted() && NodeTotals(nodeSpend, bills)
      modifies this
      ensures Now() == Settle(w, out, caps, old(Now()), batch, schedule)
      ensures PlayedOut(Worked(w, out, caps, old(Now()), batch, schedule))
      ensures FailuresCounted() && NodeTotals(nodeSpend, bills) && schedules == old(schedules)
    {
      hide Play, Opening, Played, Verdicts, Billed, Outcome, SettleAll, Collapsed, SignatureCounts, NodeTotals,
           BatchBills, Faithful, Spare;
      ghost var before := Now();
      var settled;
      settled, schedule := Launch(batch);
      ghost var pool := Worked(w, out, caps, before, batch, schedule);
      ghost var spare := Spare(w.h, w.nodes, Launched(before.st, batch), caps, batch);
      PlayKeeps(w, out, batch, spare, before.tick, schedule);
      PlayIsOutcome(w, out, batch, spare, pool);
      Charge(batch, settled, pool.paid);
      SettleBatch(settled);
    }

    /** What the loop may rely on. */
    ghost predicate Sensible() {
      Faithful(w, out) && Schedulable(w.nodes) && Acyclic(GraphOf(w.nodes)) && caps.maxConcurrent >= 1
    }

    /** One iteration; the exit for "nothing doomed" is never taken. */
    method Iterate() returns (ghost schedule: seq<nat>)
      requires Valid() && Sensible() && Going(w, Now())
      modifies this
      ensures Now() == Iterated(w, out, caps, old(Now()), schedule) && PlaysOut(w, out, caps, old(Now()), schedule)
      ensures NodeTotals(nodeSpend, bills) && SignatureCounts(out, failures, failureSignatures)
      ensures schedules == old(schedules)
    {
      hide IsRun, RunOf, ApplyImmediate, AllUnits, AllImmediate, Faithful, Schedulable, Acyclic, SettleAll, Collapsed,
           SignatureCounts, NodeTotals, Settle, Worked, IsComplete, Doomed, MarkSkipped, Inv;
      schedule := [];
      CountedSoFar();
      var aborted := out.aborted(tick);
      if aborted {
        tick, halted := tick + 1, Some(AbortedHalt);
        return;
      }
      var batch := NextBatch(w.h, w.nodes, Snapshot(), caps);
      tick := tick + 1;
      NothingPublished(w.h, Snapshot());
      Publish(batch.immediate);
      if batch.halt.Some? {
        halted := batch.halt;
        return;
      }
      if batch.dispatch != [] {
        schedule := RunOneBatch(batch.dispatch);
        return;
      }
      if batch.immediate != [] {
        return; // progress was made; go again
      }
      SomethingIsDoomed();
      var doomed := SkippableAfterFailure(w.nodes, Snapshot());
      Skip(doomed);
    }

    /** A run that goes on has not collapsed. */
    lemma CountedSoFar()
      requires Valid() && Sensible() && halted.None?
      ensures FailuresCounted() && Inv(w, Snapshot()) && running == {}
    {
      RunIsLawful(w, out, caps, schedules);
      LawfulFacts(w, caps, Snapshot(), log, bills);
    }

    lemma SomethingIsDoomed()
      requires Sensible() && Inv(w, Snapshot()) && running == {} && !IsComplete(w.nodes, Snapshot())
      requires BatchSpec(w.h, w.nodes, Snapshot(), caps) == Batch([], [], None)
      ensures DoomedIds(w.nodes, Snapshot(), |w.nodes|) != []
    {
      NeverStalls(w, Snapshot(), caps);
      var n :| n in w.nodes && Doomed(n, Snapshot());
      var k :| 0 <= k < |w.nodes| && w.nodes[k] == n;
      assert n.id in DoomedIds(w.nodes, Snapshot(), |w.nodes|);
    }

    /** An iteration keeps the run a run, and halts it or lowers the measure. */
    method Step()
      requires Valid() && Sensible() && Going(w, Now())
      modifies this
      ensures Valid() && (halted.None? ==> Below(w.h, w.nodes, Snapshot(), old(Snapshot())))
    {
      hide Iterated, PlaysOut, LawfulConfig, Below, Going, Faithful, Schedulable, Acyclic, NodeTotals, SignatureCounts;
      ghost var before, had := Now(), schedules;
      RunIsLawful(w, out, caps, schedules);
      ghost var schedule := Iterate();
      IteratedProgress(w, out, caps, before, schedule);
      schedules := had + [schedule];
      assert schedules[..|schedules| - 1] == had;
    }

    /** The spend per node and the spend of the run are one account. */
    lemma SpendAddsUp()
      requires Valid() && Sensible()
      ensures SpendOver(w.nodes, nodeSpend) == spentTokens
    {
      RunIsLawful(w, out, caps, schedules);
      SpendConserved(w, caps, Snapshot(), log, bills, nodeSpend);
    }

    /** The loop. It ends on every input, with the run halted or every node finished. */
    method Loop()
      requires Valid() && Sensible()
      modifies this
      ensures Valid() && !Going(w, Now()) && SpendOver(w.nodes, nodeSpend) == spentTokens
    {
      SpendAddsUp();
      while halted.None? && !IsComplete(w.nodes, Snapshot())
        invariant Valid() && SpendOver(w.nodes, nodeSpend) == spentTokens
        decreases halted.None?, Unfinished(w.nodes, Snapshot()), OpenSlots(w.h, w.nodes, Snapshot())
      {
        hide Valid, Sensible, Unfinished, OpenSlots, IsComplete;
        Step();
        SpendAddsUp();
      }
    }

    /** Nodes with no status at all, in plan order, are marked and reported. */
    method MarkNeverRan() returns (neverRan: seq<NodeId>)
      modifies this`status
      ensures neverRan == StatuslessIds(w.nodes, old(Snapshot()), |w.nodes|)
      ensures Snapshot() == MarkSkipped(old(Snapshot()), neverRan)
    {
      hide MarkSkipped, StatuslessIds;
      neverRan := [];
      ghost var was := Snapshot();
      NoneYet(w.nodes, was);
      for k := 0 to |w.nodes|
        invariant Snapshot() == was && neverRan == StatuslessIds(w.nodes, was, k)
      {
        OneMoreStatusless(w.nodes, was, k);
        if NodeKey(w.nodes[k].id) !in status {
          neverRan := neverRan + [w.nodes[k].id];
        }
      }
      Skip(neverRan);
    }

    /**
     After the loop: mark what a halt or a failure left out, and report as a
     failure every node that no failure and no halt explains.
     */
    method Conclude() returns (neverRan: seq<NodeId>)
      modifies this`status, this`failures
      ensures RunSummary(Snapshot(), halted, failures, neverRan, retrySpawns) == Concluded(w.nodes, old(Now()))
    {
      hide MarkSkipped, DoomedIds, StatuslessIds;
      var doomed := SkippableAfterFailure(w.nodes, Snapshot());
      Skip(doomed);
      neverRan := MarkNeverRan();
      if halted.None? {
        failures := failures + NeverRanFailures(neverRan);
      }
    }
  }

  /** The minimums the plan schema puts on stages and caps. */
  ghost predicate SchemaShaped(plan: Plan) {
    && (forall n :: n in plan.nodes && n.Pipeline? ==> |n.stages| > 0)
    && (plan.caps.maxConcurrent.Some? ==> plan.caps.maxConcurrent.value >= 1)
  }

  lemma AdmissibleIsSchedulable(rules: Rules, plan: Plan)
    requires Admissible(rules, plan) && SchemaShaped(plan)
    ensures Schedulable(plan.nodes) && Acyclic(GraphOf(plan.nodes)) && ResolveCaps(plan.caps).maxConcurrent >= 1
  {
    var nodes := plan.nodes;
    forall n | n in nodes ensures !n.Repeat? {
      var k :| 0 <= k < |nodes| && nodes[k] == n;
      assert GoodNode(rules, nodes[k]);
    }
    forall n, dep | n in nodes && dep in DependenciesOf(n) ensures FindNode(nodes, dep).Some? {
      var k :| 0 <= k < |nodes| && nodes[k] == n;
      assert GoodRefs(Ids(nodes), nodes[k]);
      var j :| 0 <= j < |RefsOf(n)| && DependenciesOf(n)[j] == dep;
      assert RefsOf(nodes[k])[j].node in Ids(nodes);
    }
  }

  /**
   A whole run of a validated plan. It ends; its summary is that of a run whose
   batches followed some schedules; and what `RunEnds` says of every run holds
   of it, above all that a halt has its reason and that without one no node is
   silently omitted.
   */
  method RunPlan(rules: Rules, plan: Plan, w: World, out: Outside)
    returns (summary: RunSummary, ghost schedules: seq<seq<nat>>)
    requires Admissible(rules, plan) && SchemaShaped(plan) && w.nodes == plan.nodes && Faithful(w, out)
    ensures var caps := ResolveCaps(plan.caps);
            var c := RunOf(w, out, caps, schedules);
            && IsRun(w, out, caps, schedules) && !Going(w, c) && summary == Concluded(w.nodes, c)
            && LawfulConfig(w, out, caps, c) && MarksTheRest(w.nodes, c.st, summary)
    ensures HaltHasReason(w, out, ResolveCaps(plan.caps), summary) && NothingOmitted(w, out, summary)
  {
    hide Admissible, Acyclic, Schedulable, Faithful, LawfulConfig, Going, HaltHasReason, MarksTheRest, NothingOmitted;
    AdmissibleIsSchedulable(rules, plan);
    var run := new Run(w, ResolveCaps(plan.caps), out);
    run.Loop();
    schedules := run.schedules;
    RunEnds(w, out, run.caps, schedules);
    var neverRan := run.Conclude();
    summary := RunSummary(run.Snapshot(), run.halted, run.failures, neverRan, run.retrySpawns);
  }
}
