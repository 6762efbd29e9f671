/**
 A whole run of extensions/agenda/executor.ts as a function: what the outside
 answers and the schedule of every batch decide it. `Executor.RunPlan` is proved
 to compute it; what holds of every run is proved of the function.
 */
module RunSemantics {
  import opened PlanSchema
  import opened Upstream
  import opened PlanGraph
  import opened RunInvariant
  import opened RunSteps
  import opened RunProgress
  import opened RunBudget
  import opened RunWorkers
  import opened RunAccounts
  import opened RunLaws

  /** Where a run stands between two iterations; `log` and `bills` are its history. */
  datatype Config = Config(st: RunState, failures: seq<Failure>, halted: Option<Halt>, tick: nat,
                           retrySpawns: nat, log: seq<Dispatch>, bills: seq<Bill>)

  const START := Config(EMPTY_RUN_STATE, [], None, 0, 0, [], [])

  /** The workers of a batch, when they have taken the turns of the schedule. */
  ghost function Worked(w: World, out: Outside, caps: ResolvedCaps, c: Config, batch: seq<Dispatch>,
                        schedule: seq<nat>): (pool: Pool)
    ensures Fits(batch, pool)
  {
    var spare := Spare(w.h, w.nodes, Launched(c.st, batch), caps, batch);
    Play(out, batch, Opening(out, batch, spare, c.tick), schedule)
  }

  /** A dispatched batch, settled. */
  ghost function Settle(w: World, out: Outside, caps: ResolvedCaps, c: Config, batch: seq<Dispatch>,
                        schedule: seq<nat>): Config
  {
    var pool := Worked(w, out, caps, c, batch, schedule);
    var settled := Verdicts(batch, pool.ps);
    var failures := c.failures + FailuresOf(settled);
    Config(SettleAll(w.nodes, Launched(c.st, batch), settled), failures,
           if Collapsed(out, failures) then Some(AgentsHalt) else None, pool.tick,
           c.retrySpawns + Retries(settled), c.log + batch, c.bills + BatchBills(batch, pool.paid, |batch|))
  }

  /** The state in which the batch of an iteration is dispatched. */
  ghost function AfterPublishing(w: World, caps: ResolvedCaps, c: Config): Config {
    c.(st := ApplyImmediate(w.h, c.st, BatchSpec(w.h, w.nodes, c.st, caps).immediate), tick := c.tick + 1)
  }

  /** One iteration of the loop. */
  ghost function Iterated(w: World, out: Outside, caps: ResolvedCaps, c: Config, schedule: seq<nat>): Config {
    var batch := BatchSpec(w.h, w.nodes, c.st, caps);
    var mid := AfterPublishing(w, caps, c);
    if out.aborted(c.tick) then c.(halted := Some(AbortedHalt), tick := c.tick + 1)
    else if batch.halt.Some? then c.(halted := batch.halt, tick := c.tick + 1)
    else if batch.dispatch != [] then Settle(w, out, caps, mid, batch.dispatch, schedule)
    else if batch.immediate != [] then mid
    else mid.(st := MarkSkipped(mid.st, DoomedIds(w.nodes, mid.st, |w.nodes|)))
  }

  ghost function RunOf(w: World, out: Outside, caps: ResolvedCaps, schedules: seq<seq<nat>>): Config
    decreases |schedules|
  {
    if schedules == [] then START
    else Iterated(w, out, caps, RunOf(w, out, caps, schedules[..|schedules| - 1]), schedules[|schedules| - 1])
  }

  /** The loop goes on. */
  predicate Going(w: World, c: Config) {
    c.halted.None? && !IsComplete(w.nodes, c.st)
  }

  /** If this iteration dispatches a batch, the schedule takes every worker of it to its end. */
  ghost predicate PlaysOut(w: World, out: Outside, caps: ResolvedCaps, c: Config, schedule: seq<nat>) {
    var batch := BatchSpec(w.h, w.nodes, c.st, caps);
    !out.aborted(c.tick) && batch.dispatch != [] ==>
      PlayedOut(Worked(w, out, caps, AfterPublishing(w, caps, c), batch.dispatch, schedule))
  }

  /** The iterations of an actual run, not necessarily all of them. */
  ghost predicate IsRun(w: World, out: Outside, caps: ResolvedCaps, schedules: seq<seq<nat>>)
    decreases |schedules|
  {
    schedules != [] ==>
      var front := schedules[..|schedules| - 1];
      var c := RunOf(w, out, caps, front);
      IsRun(w, out, caps, front) && Going(w, c) && PlaysOut(w, out, caps, c, schedules[|schedules| - 1])
  }

  /** A run that is aborted between two iterations stops there: it is halted, and nothing else has changed. */
  lemma AbortHalts(w: World, out: Outside, caps: ResolvedCaps, schedules: seq<seq<nat>>, schedule: seq<nat>)
    requires out.aborted(RunOf(w, out, caps, schedules).tick)
    ensures var c, c' := RunOf(w, out, caps, schedules), RunOf(w, out, caps, schedules + [schedule]);
            c'.halted == Some(AbortedHalt) && c' == c.(halted := c'.halted, tick := c'.tick) && !Going(w, c')
  {
    assert (schedules + [schedule])[..|schedules|] == schedules;
  }

  // ---------- what holds between any two iterations ----------

  /** Why a run halted; a run that was not halted saw no collapse. */
  ghost predicate HaltExplained(out: Outside, caps: ResolvedCaps, c: Config) {
    match c.halted
    case None => !Collapsed(out, c.failures)
    case Some(BudgetHalt) => caps.budgetTokens.Some? && c.st.spentTokens >= caps.budgetTokens.value
    case Some(AgentsHalt) => c.st.agentsSpawned == caps.maxAgents || Collapsed(out, c.failures)
    case Some(AbortedHalt) => exists t: nat :: out.aborted(t)
  }

  ghost predicate LawfulConfig(w: World, out: Outside, caps: ResolvedCaps, c: Config) {
    && Lawful(w, caps, c.st, c.log, c.bills)
    && AllReported(c.st, c.failures) && HaltExplained(out, caps, c)
  }

  lemma StartIsLawful(w: World, out: Outside, caps: ResolvedCaps)
    ensures LawfulConfig(w, out, caps, START)
  {
    EmptyRunIsLawful(w, caps);
    assert forall s :: CountSignature(out, [], s) == 0;
  }

  lemma PublishedIsLawful(w: World, out: Outside, caps: ResolvedCaps, c: Config)
    requires LawfulConfig(w, out, caps, c) && Schedulable(w.nodes)
    ensures LawfulConfig(w, out, caps, AfterPublishing(w, caps, c))
  {
    hide Lawful, AllReported, ApplyImmediate, AllImmediate, AllUnits;
    var immediate := BatchSpec(w.h, w.nodes, c.st, caps).immediate;
    NothingPublished(w.h, c.st);
    PublishIsLawful(w, caps, c.st, c.log, c.bills);
    PublishReports(w.h, c.st, immediate, c.failures);
    PublishSpends(w.h, c.st, immediate);
  }

  lemma NothingPublished(h: Host, st: RunState)
    ensures ApplyImmediate(h, st, []) == st
  {
  }

  lemma PublishSpends(h: Host, st: RunState, immediate: seq<(NodeId, Immediate)>)
    ensures var st' := ApplyImmediate(h, st, immediate);
            st'.agentsSpawned == st.agentsSpawned && st'.spentTokens == st.spentTokens && st'.running == st.running
  {
    ApplyImmediateEffect(h, st, immediate);
  }

  lemma SkippedIsLawful(w: World, out: Outside, caps: ResolvedCaps, c: Config)
    requires LawfulConfig(w, out, caps, c) && Schedulable(w.nodes)
    ensures LawfulConfig(w, out, caps, c.(st := MarkSkipped(c.st, DoomedIds(w.nodes, c.st, |w.nodes|))))
  {
    hide Lawful, AllReported, MarkSkipped, Doomed;
    var doomed := DoomedIds(w.nodes, c.st, |w.nodes|);
    SkipIsLawful(w, caps, c.st, c.log, c.bills, doomed);
    SkipReports(c.st, doomed, c.failures);
    MarkSkippedEffect(c.st, doomed);
  }

  lemma SettledIsLawful(w: World, out: Outside, caps: ResolvedCaps, c: Config, batch: seq<Dispatch>, schedule: seq<nat>)
    requires LawfulConfig(w, out, caps, c) && Faithful(w, out) && Schedulable(w.nodes)
    requires Scheduled(w, caps, c.st, batch)
    ensures LawfulConfig(w, out, caps, Settle(w, out, caps, c, batch, schedule))
  {
    hide Lawful, AllReported, Scheduled, Faithful, Schedulable, Played, Play, Outcome, Billed, Collapsed, SettleAll,
         Spare, Verdicts;
    var mid := Launched(c.st, batch);
    var spare := Spare(w.h, w.nodes, mid, caps, batch);
    PlayKeeps(w, out, batch, spare, c.tick, schedule);
    var pool := Worked(w, out, caps, c, batch, schedule);
    PlayIsOutcome(w, out, batch, spare, pool);
    BatchIsLawful(w, caps, c.st, batch, Verdicts(batch, pool.ps), pool.paid, c.log, c.bills);
    SameReports(c.st, mid, c.failures);
    SettleAllReports(w.nodes, mid, Verdicts(batch, pool.ps), c.failures);
  }

  lemma IteratedIsLawful(w: World, out: Outside, caps: ResolvedCaps, c: Config, schedule: seq<nat>)
    requires LawfulConfig(w, out, caps, c) && Faithful(w, out) && Schedulable(w.nodes) && c.halted.None?
    ensures LawfulConfig(w, out, caps, Iterated(w, out, caps, c, schedule))
  {
    hide AllReported, Schedulable, Faithful, Settle, Collapsed, AllUnits, AllImmediate, ApplyImmediate, Scheduled, Inv;
    var batch := BatchSpec(w.h, w.nodes, c.st, caps);
    PublishedIsLawful(w, out, caps, c);
    LawfulFacts(w, caps, c.st, c.log, c.bills);
    var mid := AfterPublishing(w, caps, c);
    hide Lawful;
    if batch.halt.None? && batch.dispatch != [] {
      BatchIsScheduled(w, caps, c.st);
      SettledIsLawful(w, out, caps, mid, batch.dispatch, schedule);
    } else if batch.halt.None? && batch.immediate == [] {
      SkippedIsLawful(w, out, caps, mid);
    }
  }

  /** In every run, all laws hold between any two iterations. */
  lemma {:induction false} RunIsLawful(w: World, out: Outside, caps: ResolvedCaps, schedules: seq<seq<nat>>)
    requires Faithful(w, out) && Schedulable(w.nodes) && IsRun(w, out, caps, schedules)
    ensures LawfulConfig(w, out, caps, RunOf(w, out, caps, schedules))
    decreases |schedules|
  {
    hide LawfulConfig, Faithful, Schedulable, Iterated, PlaysOut;
    if schedules == [] {
      StartIsLawful(w, out, caps);
    } else {
      var front := schedules[..|schedules| - 1];
      RunIsLawful(w, out, caps, front);
      IteratedIsLawful(w, out, caps, RunOf(w, out, caps, front), schedules[|schedules| - 1]);
    }
  }

  // ---------- progress ----------

  /** An iteration halts the run or lowers the measure. */
  lemma IteratedProgress(w: World, out: Outside, caps: ResolvedCaps, c: Config, schedule: seq<nat>)
    requires LawfulConfig(w, out, caps, c) && Faithful(w, out) && Schedulable(w.nodes) && Going(w, c)
    requires Acyclic(GraphOf(w.nodes)) && caps.maxConcurrent >= 1
    ensures var c' := Iterated(w, out, caps, c, schedule);
            c'.halted.None? ==> Below(w.h, w.nodes, c'.st, c.st)
  {
    hide AllReported, Schedulable, Faithful, Collapsed, AllUnits, AllImmediate, ApplyImmediate, Inv, Acyclic, Play,
         Unfinished, OpenSlots, SettleAll, IsComplete, Doomed, Outcome, Billed, Played, Verdicts, MarkSkipped;
    LawfulFacts(w, caps, c.st, c.log, c.bills);
    hide Lawful;
    var batch := BatchSpec(w.h, w.nodes, c.st, caps);
    var mid := AfterPublishing(w, caps, c);
    NeverStalls(w, c.st, caps);
    NothingPublished(w.h, c.st);
    if batch.halt.None? && batch.dispatch != [] {
      var spare := Spare(w.h, w.nodes, Launched(mid.st, batch.dispatch), caps, batch.dispatch);
      PlayKeeps(w, out, batch.dispatch, spare, mid.tick, schedule);
      var pool := Worked(w, out, caps, mid, batch.dispatch, schedule);
      PlayIsOutcome(w, out, batch.dispatch, spare, pool);
      IterationProgress(w, caps, c.st, batch.dispatch, Verdicts(batch.dispatch, pool.ps));
    } else if batch.halt.None? && batch.immediate != [] {
      ImmediateProgress(w, c.st);
    } else if batch.halt.None? {
      var doomed := DoomedIds(w.nodes, c.st, |w.nodes|);
      var n :| n in w.nodes && Doomed(n, c.st);
      var k :| 0 <= k < |w.nodes| && w.nodes[k] == n;
      assert n.id in doomed;
      SkipProgress(w, c.st, doomed);
    }
  }

  /** Any iteration can be played to its end. */
  lemma IterationPlays(w: World, out: Outside, caps: ResolvedCaps, c: Config) returns (schedule: seq<nat>)
    requires Faithful(w, out)
    ensures PlaysOut(w, out, caps, c, schedule)
  {
    hide BatchSpec, Play, PlayedOut, Opening, Spare;
    var batch, mid := BatchSpec(w.h, w.nodes, c.st, caps).dispatch, AfterPublishing(w, caps, c);
    schedule := PlayEnds(w, out, batch, Spare(w.h, w.nodes, Launched(mid.st, batch), caps, batch), mid.tick, []);
  }
}
