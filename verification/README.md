# Verified models of the agenda, the test-run barrier and the eval report

Six parts of the repository, modelled in Dafny and proved, each close to its code:

- **The orchestration scheduler** (`extensions/agenda/plan-schema.ts`, `plan-graph.ts`, `executor.ts`): a plan of
  agent, fanout, pipeline, barrier and transform nodes is validated, scheduled batch by batch and run with shared
  retries, an agent cap and a token budget. `PlanSchema`, `PlanValidation`, `CycleDetection`, `Upstream`, `PlanGraph`,
  `PlanBatch` hold the plan and the scheduler; `RunInvariant`, `RunSteps`, `RunProgress`, `RunMeaning`, `RunBudget`,
  `RunWorkers`, `RunVerdicts`, `RunAccounts`, `RunLaws` the theory of its steps; `RunSemantics` and `RunOutcome` whole
  runs; `Executor` the run loop as a class. `RunLimits`, `RunOvershoot`, `RunCapacity` and `RunReservation` say exactly
  when the budget and the agent cap keep what the comments promise, with `RunSums`, `RunScript` and `RunSteady` to
  construct runs; `RunCounterexamples` holds concrete plans whose runs break a promise.
- **The reader/cleanup barrier** (`scripts/test-temp.ts`): any number of readers, cleaners and nested runs, one
  file-system operation a step, death at any point. `ReaderBarrier` is the protocol, `BarrierSafety` its safety,
  `BarrierRelease` what it leaves behind, `BarrierProgress` what it lets happen, `BarrierWitness` where the safety ends.
- **The automatic gate** (`extensions/agenda/gate.ts`, `gate-lease.ts`, `ledger.ts`): durable receipts, notices and
  charges of one session, with a crash between any two writes. `Ledger`, `GateProtocol`; `GateCharges` keeps the books
  of a budget cycle, `GateRecords` says what becomes of receipts and notices, and `GateWitness` shows where
  deduplication and budget end.
- **The goal machine** (`extensions/agenda/goal-state.ts`): `GoalState`.
- **The eval verdict** (`evals/runner/report.ts`): `EvalReport`, in exact reals with the band squared.
- **Handoff seeds** (`extensions/agenda/handoff.ts`): `HandoffSeed`.

`dafny verify dfyconfig.toml` checks everything.

## How to read it

The scheduler's loops are methods proved equal to a declarative batch (`PlanGraph.BatchSpec`). What such a batch holds
is written out field by field in `PlanGraph.AsksFor` and `PlanGraph.Finishes`, which name none of the functions that
build it, and `PlanBatch.BatchIsExact` proves that it holds that and nothing else. The run loop is the class
`Executor.Run`, whose methods fold results into its fields as `runPlan` does. Its state changes are the functions
`ApplyImmediate`, `SettleAll` and `MarkSkipped`, and `RunInvariant.Inv` says what every recorded status and result
means. A whole run is the function `RunSemantics.RunOf` of what the outside answers and of the order in which each
batch's workers take their turns; `Executor.Run` is proved to compute it, for some orders, and whatever holds of every
run is proved of the function: `RunSemantics.LawfulConfig` between two iterations, `RunOutcome.RunEnds` at the end.
Spawner, abort signal, prompt rendering, `getPath`, `applyTransform` and hashing are arbitrary functions (`Host`,
`Outside`), so results hold for all of them. `World.functional` says that a worker's value is determined by its
dispatch; only the meaning theorems use it.

The barrier is proved both ways: nothing bad happens in any behaviour (`BarrierSafety`, `BarrierRelease`), and from any
state what should be possible is (`BarrierProgress`), by steps of one process alone. The gate's books (`GateCharges`)
are functions of a session's steps, not of the model's decisions, so that a settle that should have been charged is
counted whether or not it was.

## Where code and comments disagree

The model follows the code; each point below is proved.

- A collection item that is `undefined` (which `pluck` can produce) makes `resultKey` the node's own id
  (executor.ts:450-456), so one worker's raw result becomes the whole fanout's or pipeline's.
  `RunMeaning.UnitOverwritesNodeExactly` gives the exact condition, `RunMeaning.CollectionResultExactly` what such a
  node holds, `RunCounterexamples.UndefinedItemEndsFanout` a run.
- A budget's overshoot is not "ONE worker" (plan-graph.ts:112-116, 128-133). In every run the spend stays below the
  budget plus what all attempts of the last dispatch cost (`RunLimits.BudgetBound`), and `RunLimits.OneWorkerExactly`
  says of plans of agents when it is one worker: in every run if and only if no agent may be retried. For every plan,
  `RunOvershoot.OneWorkerByDispatch`: if and only if no run comes to dispatch a unit whose retry is allowed and funded.
  `RunCounterexamples.ThreeWorkersOverBudget` is an admissible plan with three workers started over its budget.
- "The declared nodes always fit" (executor.ts:213-224): `RunReservation.FitsExactly` says when, for every plan, cap and
  batch, and `RunReservation.UndercountedExactly` names the nodes that are held back too little. A batch reserves nothing
  for further items and stages of its own collections (`RunCounterexamples.PipelineRetryStarvesNextStage`); an agent that
  shares a work id with one in flight is overlooked (`RunCounterexamples.SharedWorkIdStarves`); and a ready collection
  outside the batch counts once, or once per stage, whatever its number of items
  (`RunCounterexamples.KnownWidthStarves`), where the comment says so only of a width "not known yet"
  (executor.ts:491-497). Bookkeeping nodes behind the last agent need a cap above all attempts that the agents may make:
  `RunCapacity.CapSparesExactly`, with `RunCounterexamples.TrailingBarrierIsCutOff`.
- A registration made under a name that a cleaner gave (`reap-…`) can be admitted while that run is being removed,
  because the recursive removal may already have taken `closing`: `BarrierWitness.ClaimedNameIsNotSafe`.
  `BarrierSafety.NeverUnderALiveReader` proves safety for every registration no lookup of which met a run under
  removal; a path without such names is enough (`BarrierSafety.PlainIsNeverMisled`).
- "The Stop hook will not repeatedly restart this unchanged input" (gate.ts:348) holds only for an attempt that can
  identify its input at once. When the first fingerprint fails and the one after queueing succeeds (gate.ts:343-382),
  nothing compares the input with the receipt, and the check of an unchanged input runs again:
  `GateProtocol.RepeatsOnlyBlindly` proves that this is the only way, `GateProtocol.RepeatsExactly` that it always
  happens then, `GateWitness.BlindAttemptRepeats` shows it.
- `maxInjections` bounds the warnings of a budget cycle (`GateCharges.WarningsWithinBudget`) and its verdicts
  (`GateProtocol.VerdictsWithinBudget`), but not both together: they come to one more than the budget at most
  (`GateCharges.WarningsAndVerdicts`), and with every budget they can. A process dies between writing its verdict and
  charging it, and warnings spend the budget before the verdict is recovered (`GateWitness.BudgetIsExceededByOne`).
- "A spent budget keeps its own ending" (goal-state.ts:224): a wait over a spent budget ends as `budget_exhausted` if
  and only if its reason does not come for the third time (`GoalState.SpentBudgetEndsExactly`); otherwise it ends as
  `blocked_user`, as in `GoalState.RepeatedWaitLosesItsEnding`.
- A goal with `maxIterations` 0 still takes up to 36 evaluations, as with 1: `GoalState.EvaluationBoundIsReached`.

## Model

| member | source | states |
|---|---|---|
| `PlanSchema.GraphOfUnique` | extensions/agenda/plan-schema.ts:370-377 | with unique ids, every declared node's edges in the graph are its own `needs` and `over` |
| `PlanSchema.CapsAreCeiled` | extensions/agenda/plan-schema.ts:185-192 | caps default to 4 workers at once and 40 in all and never exceed 8 and 200; a budget is taken as it is |
| `PlanValidation.ValidatePlan` | extensions/agenda/plan-schema.ts:253-367 | no issue is returned if and only if the plan is admissible: at most 200 nodes, a budget of 25000 for every declared worker, unique ids, usable specs, resolvable refs, no cycle |
| `PlanValidation.CountsDeclaredWorkers` | extensions/agenda/plan-schema.ts:243-251 | with unique ids the count of worker nodes is the size of the set of declared workers: one for an agent or a fanout, one for every stage of a pipeline |
| `PlanValidation.CheckLimits` | extensions/agenda/plan-schema.ts:257-275 | the limits draw no issue exactly for at most 200 nodes and a budget of at least 25000 for every declared worker |
| `PlanValidation.CheckNode` | extensions/agenda/plan-schema.ts:253-346 | per-node issues are absent exactly for known roles, usable schemas, no worktree, no repeat, `{item}` in a fanout prompt |
| `PlanValidation.CheckSpec` | extensions/agenda/plan-schema.ts:253-346 | a worker spec draws no issue exactly when its role is known, its schema usable and its isolation supported |
| `PlanValidation.CheckRefs` | extensions/agenda/plan-schema.ts:348-363 | refs draw no issue exactly when each names another declared node |
| `PlanValidation.CheckIds` | extensions/agenda/plan-schema.ts:253-280 | duplicates are reported exactly when two nodes share an id |
| `CycleDetection.DetectCycles` | extensions/agenda/plan-schema.ts:376-398 | no issue if and only if the graph is acyclic, if and only if no cyclic path exists; every reported path is a real cycle |
| `CycleDetection.Detector.Visit` | extensions/agenda/plan-schema.ts:381-394 | the depth-first search ends; visiting nodes are exactly the stack, done nodes are closed under edges, and every visited node is done or closes a reported cycle |
| `CycleDetection.StackCycle` | extensions/agenda/plan-schema.ts:384-388 | meeting a node on the stack yields a real cycle from the stack's suffix |
| `CycleDetection.PopDone` | extensions/agenda/plan-schema.ts:391-393 | finishing a node keeps the finishing order topological unless a cycle was reported |
| `CycleDetection.TopologicalGivesRanks` | extensions/agenda/plan-schema.ts:376-398 | a finishing order without a report proves the graph acyclic |
| `CycleDetection.CycleRefutesRanks` | extensions/agenda/plan-schema.ts:376-398 | a cyclic path refutes acyclicity |
| `Upstream.UpstreamExact` | extensions/agenda/plan-graph.ts:266-282 | on any plan, cyclic or not, exactly the non-barrier refs reachable from `needs` through barriers, each once |
| `Upstream.ChainIsExpanded` | extensions/agenda/plan-graph.ts:269-280 | a ref reachable through barriers is found whatever trail the search came by, if the trail does not block it |
| `Upstream.ExpansionHasChain` | extensions/agenda/plan-graph.ts:269-280 | nothing is collected that no chain of barriers leads to |
| `Upstream.InputCollector.Visit` | extensions/agenda/plan-graph.ts:269-279 | the search with `seen` and `trail` appends, in first-visit order, what the plain expansion has and was not collected yet |
| `Upstream.InputCollector.VisitAll` | extensions/agenda/plan-graph.ts:274-280 | the same for a list of refs |
| `Upstream.CollectInputs` | extensions/agenda/plan-graph.ts:266-282 | the collected refs are the expansion of `needs` without repeats |
| `PlanGraph.UpstreamInputs` | extensions/agenda/plan-graph.ts:266-287 | every collected ref comes with its resolved result |
| `PlanGraph.StageFor` | extensions/agenda/plan-graph.ts:290-294 | the least stage not done yet |
| `PlanGraph.PipelineStageFor` | extensions/agenda/plan-graph.ts:290-294 | the loop finds that stage, and ends |
| `PlanGraph.FanoutDispatches` | extensions/agenda/plan-graph.ts:195-220 | the first `room` open units of a fanout in item order |
| `PlanGraph.PipelineDispatches` | extensions/agenda/plan-graph.ts:222-252 | the first `room` open units of a pipeline, each item at its own stage |
| `PlanGraph.NextBatch` | extensions/agenda/plan-graph.ts:117-256 | the loop with its slot and agent counters yields the halts, all immediate nodes, and the longest prefix of all startable units that the limits admit; every dispatch has the spec, prompt, item, inputs and hashed material its node and the results before it ask for, every immediate the value they give |
| `PlanBatch.BatchIsExact` | extensions/agenda/plan-graph.ts:117-256 | said without the loops: a batch halts exactly on a spent budget or cap, finishes exactly the bookkeeping that is due, starts only work that is asked for and not under way, never more than the caps admit, and while there is room leaves none of it out |
| `PlanGraph.SkippableAfterFailure` | extensions/agenda/plan-graph.ts:325-335 | exactly the nodes without status that need a failed or skipped one |
| `RunInvariant.UpstreamIsDone` | extensions/agenda/plan-graph.ts:105-107 | everything a ready node is handed is finished, behind however many barriers |
| `RunInvariant.ReadsStable` | extensions/agenda/executor.ts:153-165 | what a ready node reads never changes again |
| `RunInvariant.LawKept` | extensions/agenda/executor.ts:173-312 | the meaning of a recorded status survives every later growth of the state |
| `RunSteps.ImmediateStep` | extensions/agenda/executor.ts:181-188 | publishing a batch's immediate values keeps the invariant and only adds |
| `RunSteps.ImmediateIsValue` | extensions/agenda/plan-graph.ts:142-173 | what a node publishes at once is its value |
| `RunSteps.StageIsComposition` | extensions/agenda/plan-graph.ts:222-252 | done stages are prefix-closed, and a done stage holds the composition of the stages up to it, each worked on the prompt with the value of the one before |
| `RunSteps.AggregateIsValue` | extensions/agenda/plan-graph.ts:151-173 | a collection's aggregate is the in-order map, or the per-item composition |
| `RunSteps.SkipStep` | extensions/agenda/executor.ts:196-206 | marking doomed nodes skipped keeps the invariant |
| `RunSteps.BatchStartable` | extensions/agenda/plan-graph.ts:135-252 | every dispatch of a batch is a unit of a ready node, also after the batch's immediate values are published |
| `RunSteps.SettleEffect` | extensions/agenda/executor.ts:254-309 | settling in order leaves each key with a verdict of the batch or as it was |
| `RunSteps.SettleStep` | extensions/agenda/executor.ts:254-309 | any outcome of a startable batch keeps the invariant |
| `RunProgress.SettleProgress` | extensions/agenda/executor.ts:173-312 | a settled batch lowers (unfinished nodes, open slots) lexicographically |
| `RunProgress.ImmediateProgress` | extensions/agenda/executor.ts:181-197 | so does publishing |
| `RunProgress.SkipProgress` | extensions/agenda/executor.ts:199-206 | so does marking doomed nodes |
| `RunProgress.NoSlotOpens` | extensions/agenda/plan-graph.ts:195-252 | while no node finishes, no collection gets wider |
| `RunProgress.NeverStalls` | extensions/agenda/executor.ts:199-206 | on an acyclic plan an unhalted, empty batch always leaves a doomed node: the "nothing doomed" exit is dead |
| `RunProgress.SkippedExactly` | extensions/agenda/executor.ts:314-316 | in a finished run the skipped nodes are exactly those that transitively depend on a failed one |
| `RunMeaning.FinishedNodeHoldsValue` | extensions/agenda/executor.ts:131-312 | in every reachable state a done node below which no collection has an undefined item holds the direct recursive evaluation of the plan, or, if its own items have one, the raw result of such an item's worker on that evaluation |
| `RunMeaning.ReadIsBelow` | extensions/agenda/plan-graph.ts:266-282 | whatever a node reads, behind however many barriers, it depends on |
| `RunMeaning.RunsAgree` | extensions/agenda/executor.ts:131-312 | two runs under any caps and schedules agree on every node both finished, if neither it nor anything below it is a collection with an undefined item |
| `RunMeaning.UnitOverwritesNodeExactly` | extensions/agenda/executor.ts:450-456 | a unit is stored over its whole node if and only if its item is undefined |
| `RunMeaning.CollectionResultExactly` | extensions/agenda/executor.ts:265-273 | a done collection holds its value unless an item is undefined; then the raw result of such an item's worker |
| `RunBudget.SettleCounts` | extensions/agenda/executor.ts:254-263 | settling adds every attempt and every token and empties the running set |
| `RunBudget.UnstartedAgentWork` | extensions/agenda/executor.ts:498-510 | the loop counts one per open agent or fanout and the stages of each open pipeline, outside the batch |
| `RunBudget.AdmissionsWithinCap` | extensions/agenda/executor.ts:213-230 | `agentsSpawned` stays within `maxAgents` with all retries counted, for every kind of plan |
| `RunBudget.RetriesNeverStarve` | extensions/agenda/executor.ts:213-230 | after any batch the remaining cap covers every unfinished agent node |
| `RunBudget.CapHaltMeansAgentsFinished` | extensions/agenda/plan-graph.ts:124-126 | then a spent cap, for which the scheduler halts, means that every agent node has finished; `RunOutcome.HaltKeepsReason` carries it to whole runs |
| `RunBudget.AllUnitsDistinct` | extensions/agenda/plan-graph.ts:135-252 | one batch names no unit twice |
| `RunBudget.LogStep` | extensions/agenda/executor.ts:208-283 | a batch dispatches only units never dispatched before, each after its dependencies |
| `RunBudget.SkippedNeverDispatched` | extensions/agenda/executor.ts:199-206 | no unit of a skipped node was ever dispatched |
| `RunWorkers.TurnIsSound` | extensions/agenda/executor.ts:512-555 | a turn of the retry loop keeps the tokens the sum of the attempts, makes at most min(retries, 3) + 1 of them, takes at most one from the pool and only for a retry, and comes closer to the end |
| `RunWorkers.PlayIsOutcome` | extensions/agenda/executor.ts:232-248 | however the workers of a batch interleave, each verdict has its own bills and all retries together stay within the shared pool |
| `RunWorkers.PlayEnds` | extensions/agenda/executor.ts:232-248 | every batch, however begun, can be played to its end |
| `RunWorkers.RunBatch` | extensions/agenda/executor.ts:232-248 | the workers of a batch in any order: all end, the verdicts are those of the order taken, and all retries together stay within the shared pool |
| `RunVerdicts.VerdictsHaveReasons` | extensions/agenda/executor.ts:512-555 | whatever the order of a batch: work that could not be rendered was never attempted and says so; a success is what the last attempt, begun before any abort, returned; any other failure had no attempt left, was aborted, or was refused its retry by an empty pool |
| `RunVerdicts.AbortStartsNothing` | extensions/agenda/executor.ts:529-532 | once the signal is set a batch starts no worker, whatever the order of its turns |
| `RunAccounts.NodeSpendAddsUp` | extensions/agenda/executor.ts:250-252 | the nodes' shares of the bills add up to their total |
| `RunLaws.SpendConserved` | extensions/agenda/executor.ts:250-263 | between any two iterations the per-node spend adds up over the plan to the spend of the run |
| `RunAccounts.BatchBillsCount` | extensions/agenda/executor.ts:250-263 | a batch has one bill per attempt, and no more than its dispatches allow |
| `RunAccounts.BatchBillsTotal` | extensions/agenda/executor.ts:250-263 | the bills of a batch total what its workers spent |
| `RunAccounts.FinalSpend` | extensions/agenda/plan-graph.ts:109-116 | a spend is below the budget plus what all attempts of the last dispatch cost, if the bills before them are below the budget |
| `RunAccounts.NoRetryOneWorker` | extensions/agenda/plan-graph.ts:128-133 | where the last dispatch allows no retry, its worker was started below the budget |
| `RunAccounts.CountStep` | extensions/agenda/executor.ts:296-309 | counting by signature detects exactly the histories with three failures of one shape |
| `RunAccounts.SettleReports` | extensions/agenda/executor.ts:284-287 | a verdict fails at most the node it reports |
| `RunAccounts.SettleAllReports` | extensions/agenda/executor.ts:254-309 | after a settled batch every failed node is among the reported failures |
| `RunLaws.BatchIsScheduled` | extensions/agenda/plan-graph.ts:121-133 | a batch has at most `maxConcurrent` dispatches, one under a budget, fits the cap and starts below the budget |
| `RunLaws.BatchOvershoot` | extensions/agenda/plan-graph.ts:128-133 | what a batch adds over a budget belongs to its one dispatch |
| `RunLaws.BatchIsLawful` | extensions/agenda/executor.ts:208-309 | whatever workers return and however retries interleave, all laws of a run survive a batch: invariant, one dispatch per unit, cap, bills, overshoot, reservation |
| `RunLaws.PublishIsLawful` | extensions/agenda/executor.ts:181-188 | they survive publishing |
| `RunLaws.SkipIsLawful` | extensions/agenda/executor.ts:199-206 | they survive marking doomed nodes |
| `RunLaws.IterationProgress` | extensions/agenda/executor.ts:173-312 | publishing and then settling a batch lowers the loop's measure |
| `RunSemantics.IteratedIsLawful` | extensions/agenda/executor.ts:173-312 | one iteration, aborted, halted, dispatching, publishing or skipping, keeps all laws and the reason of a halt |
| `RunSemantics.RunIsLawful` | extensions/agenda/executor.ts:173-312 | in every run of every plan all laws hold between any two iterations |
| `RunSemantics.IteratedProgress` | extensions/agenda/executor.ts:173-312 | on an acyclic plan every iteration halts the run or lowers (unfinished nodes, open slots) |
| `RunSemantics.AbortHalts` | extensions/agenda/executor.ts:173-177 | a run that is aborted between two iterations is halted there, with nothing else changed |
| `RunOutcome.FlawlessRunComputesPlan` | extensions/agenda/executor.ts:131-312 | a finished run without reported failures did every node, and every node without undefined items at or below it holds the evaluation of the plan |
| `RunOutcome.HaltKeepsReason` | extensions/agenda/executor.ts:190-194 | a budget halt has a spent budget, an abort halt an abort, a cap halt a spent cap or three failures of one shape; and if the cap holds the declared agents, each with work of its own, every agent node has finished before it |
| `RunOutcome.MarkedIsSkipped` | extensions/agenda/executor.ts:314-359 | after the loop only `skipped` is added, every node has a status, and reported as never run are exactly the nodes without status and without a failed or skipped dependency |
| `RunOutcome.NothingIsOmitted` | extensions/agenda/executor.ts:314-359 | every failed node is reported; without a halt nothing is left out, and skipped are exactly the nodes that depend on a failure |
| `RunOutcome.NeverRanIsReported` | extensions/agenda/executor.ts:342-359 | without a halt every node that never ran is a failure of its own, after all others; under a halt none is |
| `RunOutcome.RunEnds` | extensions/agenda/executor.ts:131-377 | all of this for every run that has ended |
| `RunScript.BatchFollows` | extensions/agenda/executor.ts:232-248 | workers that fail and succeed by plan, within their retries and the pool, come out by plan whatever their order |
| `RunLimits.BudgetBound` | extensions/agenda/plan-graph.ts:109-116 | every run of every plan: the spend stays below the budget plus what the last dispatch's attempts cost, at most min(retries, 3) + 1 of them |
| `RunLimits.NoRetriesOneWorker` | extensions/agenda/plan-graph.ts:128-133 | every run of a plan without retries started its last worker below the budget |
| `RunLimits.RetryOvershoots` | extensions/agenda/plan-graph.ts:128-133 | if an agent may be retried, some run starts a worker with the budget already spent |
| `RunLimits.OneWorkerExactly` | extensions/agenda/plan-graph.ts:109-133 | for plans of agents and bookkeeping whose cap has room for a retry, every run overshoots a budget by one worker at most if and only if no agent may be retried |
| `RunOvershoot.FundedRetryOvershoots` | extensions/agenda/plan-graph.ts:109-133 | for every plan: from wherever a run comes to dispatch a unit with a retry allowed and funded, some run starts a worker with the budget already spent |
| `RunOvershoot.UnfundedOneWorker` | extensions/agenda/plan-graph.ts:128-133 | for every plan: a run that never comes there started its last worker below the budget |
| `RunOvershoot.OneWorkerByDispatch` | extensions/agenda/plan-graph.ts:109-133 | for every plan under a budget: all runs overshoot it by one worker at most if and only if none comes to dispatch a unit whose retry is allowed and funded |
| `RunCapacity.SpawnsWithinAllowed` | extensions/agenda/executor.ts:521-555 | no run of such a plan spawns more workers than min(retries, 3) + 1 for each agent |
| `RunCapacity.AmpleCapNeverHalts` | extensions/agenda/plan-graph.ts:124-126 | a cap above that sum never halts a run |
| `RunCapacity.TightCapCutsOff` | extensions/agenda/plan-graph.ts:124-126 | any cap up to that sum cuts a node behind all agents off in some run without a failure |
| `RunCapacity.CapSparesExactly` | extensions/agenda/executor.ts:213-224 | with a node behind all agents, no run is cut off by the cap if and only if the cap exceeds that sum |
| `RunReservation.FitsExactly` | extensions/agenda/executor.ts:213-230 | for any plan, cap and batch: however the batch goes it leaves what the plan needs beside it, open units of known widths and declared units of the rest, if and only if the cap held the need and either what is held back covers the need or the surplus covers every retry the batch allows |
| `RunReservation.HeldBackByNode` | extensions/agenda/executor.ts:213-230 | the batch's admissions and the reservation loop are, node by node, a node's dispatches in the batch or its reservation |
| `RunReservation.UndercountedExactly` | extensions/agenda/executor.ts:498-510 | exactly the nodes held back too little: those of the batch with an open unit outside it, agents whose work id is in flight for another node, ready collections with more open units than the one, or the one per stage, they count for |
| `RunReservation.HoldsBackEnough` | extensions/agenda/executor.ts:491-510 | what is held back covers the need if no node is undercounted, and only then unless another is overcounted |
| `RunReservation.FitsByNode` | extensions/agenda/executor.ts:213-230 | a batch is safe if no node is undercounted; where none is overcounted and the surplus does not cover its retries, only then |
| `RunReservation.SpawnsAtMost` | extensions/agenda/executor.ts:225-248 | a batch spawns at most its dispatches plus the pool, and at most what their retries allow |
| `RunReservation.RetriesHappen` | extensions/agenda/executor.ts:225-248 | any number of retries that a batch allows and the pool can fund is made in some run of it |
| `Executor.Run.Publish` | extensions/agenda/executor.ts:183-188 | the state after the loop is the fold of the immediate values |
| `Executor.Run.Charge` | extensions/agenda/executor.ts:250-252 | per-node totals equal the bills of the node, after every batch |
| `Executor.Run.RecordFailure` | extensions/agenda/executor.ts:284-309 | the run halts exactly when some signature has been counted three times |
| `Executor.Run.SettleDispatch` | extensions/agenda/executor.ts:254-309 | one verdict is folded into the state, counted and reported |
| `Executor.Run.SettleBatch` | extensions/agenda/executor.ts:254-309 | the fold over a batch in order, with every failed node reported |
| `Executor.Run.Launch` | extensions/agenda/executor.ts:208-248 | all work ids are in flight at once, and the workers draw on what the rest of the plan does not need |
| `Executor.Run.RunOneBatch` | extensions/agenda/executor.ts:208-309 | the fields after a batch are those of the settled batch, with every bill charged to its node and every failure counted |
| `Executor.Run.Iterate` | extensions/agenda/executor.ts:173-312 | the fields after an iteration are those of the run's next iteration |
| `Executor.Run.Step` | extensions/agenda/executor.ts:173-312 | the run stays a run, and it halts or its measure drops |
| `Executor.Run.Loop` | extensions/agenda/executor.ts:173-312 | the loop ends on every input, halted or with every node finished, and at every turn the per-node spend adds up to the spend of the run |
| `Executor.Run.MarkNeverRan` | extensions/agenda/executor.ts:339-343 | exactly the nodes without status are listed and marked |
| `Executor.Run.Conclude` | extensions/agenda/executor.ts:314-359 | what is reported is `RunOutcome.Concluded` of where the loop ended |
| `Executor.AdmissibleIsSchedulable` | extensions/agenda/plan-schema.ts:253-367 | validation gives what scheduling relies on |
| `Executor.RunPlan` | extensions/agenda/executor.ts:131-377 | on every validated plan it ends, with the summary of an actual run; that run kept all laws (cap, budget, bills, dispatch-once, reservation), its halt has its reason, every failure is reported, nothing is omitted silently, and without failures the plan is computed |
| `RunCounterexamples.TrailingBarrierIsCutOff` | extensions/agenda/plan-graph.ts:124-126 | a run of an admissible plan whose last barrier is cut off with the cap equal to the number of agents and no retry |
| `RunCounterexamples.SharedWorkIdStarves` | extensions/agenda/executor.ts:506-506 | a run of an admissible plan in which a retry takes the admission of an agent with the same work id |
| `RunCounterexamples.PipelineRetryStarvesNextStage` | extensions/agenda/executor.ts:505-507 | a run of an admissible plan in which a retry in a pipeline's first stage takes the admission of its second |
| `RunCounterexamples.KnownWidthStarves` | extensions/agenda/executor.ts:491-510 | a run of an admissible plan in which two retries take the admissions of two items of a fanout whose width is known |
| `RunCounterexamples.WideNeed` | extensions/agenda/executor.ts:213-224 | before those retries the cap left is exactly what the plan needs |
| `RunCounterexamples.ThreeWorkersOverBudget` | extensions/agenda/plan-graph.ts:109-116 | a run of an admissible plan that starts three workers with its budget already spent |
| `RunCounterexamples.UndefinedItemEndsFanout` | extensions/agenda/executor.ts:450-456 | a run of an admissible plan that ends with nothing to report, its fanout holding one worker's raw result and its second item never dispatched |
| `ReaderBarrier.NextLevel` | scripts/test-temp.ts:107-110 | leases are published outermost run first, skipping no run that was found |
| `ReaderBarrier.NeverAgain` | scripts/test-temp.ts:223-227 | a path that stopped naming a run never names it again |
| `ReaderBarrier.PlainIsWhole` | scripts/test-temp.ts:223-228 | no path without a claimed name leads to a run under removal |
| `BarrierSafety.ReaderNextFrame` | scripts/test-temp.ts:102-129 | a registration touches its own leases and nothing else |
| `BarrierSafety.MissedBarrierIsHarmless` | scripts/test-temp.ts:120-126 | a check that finds no barrier saw the run without one, or no longer saw the run |
| `BarrierSafety.CheckStep` | scripts/test-temp.ts:120-126 | publishing before checking keeps every lease guarded |
| `BarrierSafety.RecheckStep` | scripts/test-temp.ts:127-128 | the identity check admits only to the very run the leases are in |
| `BarrierSafety.AdmittedSkippedNothing` | scripts/test-temp.ts:107-110 | an admitted reader holds a lease in every enclosing run |
| `BarrierSafety.HolderFindsItsRun` | scripts/test-temp.ts:208-233 | a cleaner that holds a barrier only ever acts on the run it holds |
| `BarrierSafety.GuardKept` | scripts/test-temp.ts:212-219 | inspecting leases one by one never passes a live one |
| `BarrierSafety.MovedIsUnguarded` | scripts/test-temp.ts:223-228 | a rename or removal happens only past every lease |
| `BarrierSafety.CleanerIsCalm` | scripts/test-temp.ts:188-235 | no cleaner step disturbs a run with a guarded live lease |
| `BarrierSafety.CleanerStepKeeps` | scripts/test-temp.ts:188-235 | every cleaner step keeps the invariant, several cleaners on one run included |
| `BarrierSafety.ReaderStepKeeps` | scripts/test-temp.ts:91-129 | so does every reader step, rollback included |
| `BarrierSafety.StepKeeps` | scripts/test-temp.ts:91-235 | so does every step of the system, deaths included, that misleads no trusted registration |
| `BarrierSafety.ReachableInv` | scripts/test-temp.ts:91-235 | the invariant holds in every reachable state, for every registration no lookup of which met a run under removal |
| `BarrierSafety.PlainIsNeverMisled` | scripts/test-temp.ts:91-110 | a registration whose path has no name that a cleaner gave when it begins never meets a run under removal |
| `BarrierSafety.NeverUnderALiveReader` | scripts/test-temp.ts:91-235 | in every behaviour, no step renames a run or removes any of it while such a reader, admitted to it or to a run inside it, is alive |
| `BarrierSafety.AdmittedPathHolds` | scripts/test-temp.ts:126-128 | the path of such a live admitted reader keeps naming the run it was admitted to |
| `BarrierRelease.NoMarkLeftBehind` | scripts/test-temp.ts:188-235 | in every reachable state a cleaner that is done has left no closing mark of its own in a run that its path still names and that is not being removed |
| `BarrierRelease.NoEntryLeftBehind` | scripts/test-temp.ts:91-100 | nor has a refused registration left a lease or a pending entry of its own, at any level of its path |
| `BarrierRelease.DeadIsRefused` | scripts/test-temp.ts:111-112 | no registration that begins after the death of its process is ever admitted |
| `BarrierRelease.ActsOnWhatItFound` | scripts/test-temp.ts:191-228 | a cleaner renames and removes no run but the one it found when it began, and goes on to remove it only where it finds it again under its new name |
| `BarrierProgress.OpenRunAdmits` | scripts/test-temp.ts:91-129 | from any state, a run that no cleaner closes or removes, nor any run around it, admits a live registering process by its own steps alone, with a lease at every level and nothing else changed |
| `BarrierProgress.CleanerStepsBack` | scripts/test-temp.ts:188-235 | from any state, a cleaner that meets the lease of a live process ends by its own steps alone, with every run as it was |
| `BarrierProgress.UnusedIsRemoved` | scripts/test-temp.ts:188-229 | from any state, a whole run all of whose leases are of dead processes, any number of them, can be removed by one cleaner alone, with every other run as it was |
| `BarrierProgress.SecondReaderIsAdmitted` | scripts/test-temp.ts:91-235 | a behaviour in which a reader is admitted, a cleaner meets its lease and steps back, and a second reader is admitted |
| `BarrierWitness.ClaimedNameIsNotSafe` | scripts/test-temp.ts:120-128 | a behaviour in which a reader registered under a claimed name is admitted and then loses its run |
| `Ledger.OperationsKeepValid` | extensions/agenda/ledger.ts:41-60 | charged notices stay distinct, and no more of them than counted charges |
| `Ledger.RecordNoticeEffect` | extensions/agenda/ledger.ts:46-49 | a notice raises its item's count by one unless charged before, and touches no other item |
| `Ledger.ClearEffect` | extensions/agenda/ledger.ts:55-60 | clearing an item forgets all of its charges and none of any other |
| `Ledger.ReplayCountsDistinct` | extensions/agenda/ledger.ts:45-49 | however notices are replayed, the count rises by the number of distinct new ones |
| `Ledger.RehydrateIsIdentity` | claude/agenda-state.ts:46-75 | reading a written ledger back loses no charge |
| `Ledger.RehydrateIsValid` | claude/agenda-state.ts:46-75 | whatever was written, what is read back is a ledger these operations could have built: every count kept, and of the charges as many distinct, non-empty ones as the count covers |
| `GateProtocol.SettleKeeps` | extensions/agenda/gate.ts:212-246 | a fresh process reads the ledger back and decides without losing a charge |
| `GateProtocol.StampKeeps` | extensions/agenda/gate.ts:343-368 | deduplication and unexecuted attempts keep the invariant |
| `GateProtocol.PublishKeeps` | extensions/agenda/gate.ts:298-305 | leaving a running trace keeps it, with a crash between its two writes |
| `GateProtocol.PassKeeps` | extensions/agenda/gate.ts:403-407 | so does a pass, which leaves no live notice behind |
| `GateProtocol.VerdictKeeps` | extensions/agenda/gate.ts:418-434 | a verdict is written only within the budget, before it is charged |
| `GateProtocol.PersistKeeps` | claude/hooks/stop.ts:217-230 | persisting any outcome keeps the invariant |
| `GateProtocol.AckRemovesItsOwn` | extensions/agenda/gate.ts:306-326 | an acknowledgement removes at most the notice it names |
| `GateProtocol.AcknowledgeKeeps` | extensions/agenda/gate.ts:306-326 | acknowledging keeps every other verdict paid for or pending |
| `GateProtocol.StepKeeps` | extensions/agenda/gate.ts:212-436 | every step of a session keeps the invariant, crashes included |
| `GateProtocol.EachNoticeChargedOnce` | extensions/agenda/gate.ts:327-342 | no notice id raises the count more than once, across replays, crashes and cleared budgets |
| `GateProtocol.VerdictsWithinBudget` | extensions/agenda/gate.ts:403-434 | durable failing, timed-out or incomplete verdicts of one budget cycle never exceed `maxInjections` |
| `GateProtocol.VerdictNeverLost` | extensions/agenda/gate.ts:306-342 | a pending verdict disappears only through an acknowledgement naming it, once charged or beyond the budget |
| `GateProtocol.NoCheckWhilePending` | extensions/agenda/gate.ts:328-355 | no check starts while a verdict is pending or the budget is spent |
| `GateProtocol.LateAckIsHarmless` | extensions/agenda/gate.ts:313-321 | an acknowledgement of another notice leaves a pending one in place |
| `GateProtocol.RepeatsOnlyBlindly` | extensions/agenda/gate.ts:343-384 | a check of an input whose last attempt still has its receipt is about to start only in an attempt whose first fingerprint failed |
| `GateProtocol.RepeatsExactly` | extensions/agenda/gate.ts:369-384 | an attempt that gets past its second look at the input repeats a check if and only if that look finds the input whose check was started and whose receipt still stands; only a blind attempt can |
| `GateCharges.SessionPrices` | extensions/agenda/gate.ts:266-436 | a settle records a charge without a notice exactly if it ended for want of the gate with budget left, and clears the ledger exactly if it ended with a pass; the count never exceeds the budget |
| `GateCharges.BooksBalance` | extensions/agenda/gate.ts:266-436 | in every session the count of a budget cycle is the number of its persisted warnings and of the distinct notices charged in it, and also the number of its continuations less those that cost nothing |
| `GateCharges.WarningCostsOne` | extensions/agenda/gate.ts:266-276 | a persisted warning raises the count by exactly one, within the budget, and charges no notice |
| `GateCharges.WarningsWithinBudget` | extensions/agenda/gate.ts:266-276 | the warnings of a budget cycle never exceed the count, nor the count the budget |
| `GateCharges.InjectionsWithinBudget` | extensions/agenda/gate.ts:266-436 | all continuations of a budget cycle, warnings and notices, are within the budget plus those that cost nothing: repeated, beyond the budget, or of a known input that was not checked |
| `GateCharges.WarningsAndVerdicts` | extensions/agenda/gate.ts:266-434 | warnings and verdicts of one cycle exceed the count by one at most, and then a verdict waits to be charged or the budget is spent |
| `GateCharges.PassRestoresBudget` | extensions/agenda/gate.ts:403-407 | once a pass is persisted the count is zero, no notice is charged and no verdict waits |
| `GateRecords.AckForgetsNothingElse` | extensions/agenda/gate.ts:306-326 | an acknowledgement ends the notice it names, and keeps every other notice and every attempt with its outcome |
| `GateRecords.AcknowledgedIsGone` | extensions/agenda/gate.ts:306-326 | an acknowledged notice never comes back, across settles and crashes |
| `GateRecords.DeliveredCanBeAcknowledged` | extensions/agenda/gate.ts:306-326 | a delivered notice can be acknowledged whenever nobody holds the lease, until it was |
| `GateRecords.SilenceIsExplained` | extensions/agenda/gate.ts:343-355 | an attempt with an identity ends without a word only if its input passed, its notice was delivered, the session found it so, or the budget is spent; never over an interrupted check of that input |
| `GateRecords.PassedIsLeftAlone` | extensions/agenda/gate.ts:343-355 | an input that passed is neither checked, reported nor charged again while every look finds it unchanged |
| `GateWitness.BlindAttemptRepeats` | extensions/agenda/gate.ts:343-384 | a session in which that happens |
| `GateWitness.BudgetIsExceededByOne` | extensions/agenda/gate.ts:266-342 | for every budget, a session whose warnings and verdicts of one cycle come to one more |
| `GoalState.RankDrops` | extensions/agenda/goal-state.ts:183-287 | an evaluation ends an active goal or lowers its rank; a revision buys nothing back |
| `GoalState.EvaluationBound` | extensions/agenda/goal-state.ts:139-287 | a new goal leaves `active` within max(1, `maxIterations`) * 12 * 3 evaluations, revised or not |
| `GoalState.EvaluationBoundIsReached` | extensions/agenda/goal-state.ts:139-287 | some run of every new goal without a budget takes exactly that many |
| `GoalState.DefaultGoalBound` | extensions/agenda/goal-state.ts:119-165 | a goal made without a limit of its own is evaluated at most 288 times |
| `GoalState.DefaultGoalBoundIsReached` | extensions/agenda/goal-state.ts:119-165 | and some run takes that many |
| `GoalState.ThirdRepetitionBlocks` | extensions/agenda/goal-state.ts:236-245 | two unmet verdicts of one reason leave a goal active, the third blocks it |
| `GoalState.LedgerIsTheHistory` | extensions/agenda/goal-state.ts:190-213 | the ledger of an active goal is the account of its history: charged verdicts, streaks, failures, tokens |
| `GoalState.EndsAsHistorySays` | extensions/agenda/goal-state.ts:183-287 | each evaluation leaves the goal in the state the whole history decides |
| `GoalState.OnlyElapsedTimeCounts` | extensions/agenda/goal-state.ts:289-295 | the same history at another time of day ends the same way: shifting the making of the goal and all events by one amount shifts every stamp and changes no ending |
| `GoalState.WallClockRunsFromCreation` | extensions/agenda/goal-state.ts:289-295 | under a wall-clock budget a goal is active one millisecond before it is up and ended when it is |
| `GoalState.NothingIsForgotten` | extensions/agenda/goal-state.ts:409-416 | a goal keeps its condition, every condition it had before, and its last evaluator failure |
| `GoalState.RevisionIsRecorded` | extensions/agenda/goal-state.ts:409-416 | a revision changes the condition and the trail and nothing of what was spent |
| `GoalState.SpentBudgetEndsExactly` | extensions/agenda/goal-state.ts:218-252 | a wait over a spent budget ends as `budget_exhausted` if and only if its reason comes for the first or second time in a row, else as `blocked_user` |
| `GoalState.RepeatedWaitLosesItsEnding` | extensions/agenda/goal-state.ts:218-252 | three blocked verdicts of one reason, the last over the budget, end as `blocked_user` |
| `EvalReport.GroupByTask` | evals/runner/report.ts:77-78 | every graded trial lands in its task's group, and nothing else does |
| `EvalReport.Summarise` | evals/runner/report.ts:74-117 | the counts of one arm are the numbers of places in the list that hold its trials, its graded and its passed ones, and of its graded and consistent tasks; everything passed exactly when every task is consistent |
| `EvalReport.VarianceBounds` | evals/runner/report.ts:181-186 | the adjusted variance lies between its saturated and its 50% value |
| `EvalReport.BandCoversOneTrial` | evals/runner/report.ts:181-213 | from four graded trials up, one arm's band alone is wider than one of its trials |
| `EvalReport.VerdictExactly` | evals/runner/report.ts:214-264 | no verdict on arms without graded trials or with different numbers of tasks, none below four trials, and a better or worse one exactly if the rates are further apart than every number within two standard errors |
| `EvalReport.VerdictExceedsOneTrial` | evals/runner/report.ts:208-264 | a verdict's delta is wider than one trial of the smaller arm |
| `EvalReport.OneFlipKeepsTheOrder` | evals/runner/report.ts:208-264 | flipping any one trial leaves a better arm ahead |
| `EvalReport.CompareIsAntisymmetric` | evals/runner/report.ts:214-264 | swapping the arms flips the verdict and the delta, not the band |
| `EvalReport.TotalFlipNeedsFourTrials` | evals/runner/report.ts:23-32 | the band would let a total flip pass on any sample; a verdict on one comes exactly from four trials per arm up |
| `EvalReport.TrialsNeededIsLeast` | evals/runner/report.ts:360-367 | the least number from four up that clears the 50%/50% band |
| `EvalReport.TrialsNeededSuffices` | evals/runner/report.ts:360-367 | with that many or more, the band is below the delta for every pair of pass counts |
| `EvalReport.EvenArmsNeedThatMany` | evals/runner/report.ts:346-367 | for even arms, exactly from that many on |
| `EvalReport.EnoughTrialsGiveAVerdict` | evals/runner/report.ts:239-264 | the promised number of trials at the same delta gives a verdict |
| `HandoffSeed.Order` | extensions/agenda/handoff.ts:353-355 | all positions, each once, higher drop rank first and later position first among equals |
| `HandoffSeed.WorstFirstIsPrefix` | extensions/agenda/handoff.ts:353-375 | a set that leaves no section kept that ranks before a dropped one is a prefix of that order |
| `HandoffSeed.Assemble` | extensions/agenda/handoff.ts:352-379 | the seed has at most 12000 characters and drops the smallest worst-first set that lets it fit; it fails exactly when no such set does |
| `HandoffSeed.HeadAndFooterSurvive` | extensions/agenda/handoff.ts:345-367 | a seed opens with its head and closes with its footer, whatever is dropped |
| `HandoffSeed.NoSectionVanishes` | extensions/agenda/handoff.ts:358-367 | each section stands in the seed whole, or a line names it there: its heading as a quoted title, and its way of recovery |
| `HandoffSeed.SeedCountsDropped` | extensions/agenda/handoff.ts:358-367 | a seed that drops sections says in decimal how many; one that drops none has all sections in order and no such notice |

## Left out

- Scheduler: resuming through `RunOptions.completed`, whose key space the code does not settle; dollar costs, the
  journal, the wording of `haltDetail` and of the never-ran failures, and the estimates `suggestCaps` and
  `estimateAgents`.
- Scheduler: string keys such as `n#2@1` are a datatype, so node ids are taken not to look like slot keys; refs are a
  node id and a path. The shape the plan schema enforces (at least one stage, `maxConcurrent` at least 1) is the
  precondition `SchemaShaped`.
- Scheduler: prompt rendering, `getPath`, `applyTransform`, `workId`'s hash, `stableItemKey`, `errorSignature` and the
  schema checker are arbitrary functions; the fanout width limit outside the scheduler is not modelled.
- RunBudget.RetriesNeverStarve: for plans of agent, barrier and transform nodes with distinct work ids, because it is
  false of the others; `RunReservation.FitsExactly` says when a batch is safe in any plan.
- RunBudget.CapHaltMeansAgentsFinished: of agent nodes only; `RunCapacity.CapSparesExactly` is about bookkeeping nodes.
- RunMeaning.FinishedNodeHoldsValue: for nodes below which no collection has an undefined item, since from such a
  collection on the result depends on which of its workers settles last.
- RunMeaning.RunsAgree: for the same nodes, if they have no undefined item themselves.
- RunLimits.RetryOvershoots: from the plan alone, for agents of plans without collections whose cap has room for a retry;
  `RunOvershoot.FundedRetryOvershoots` has every kind of unit.
- RunLimits.OneWorkerExactly: for such plans, with a positive budget; `RunOvershoot.OneWorkerByDispatch` has every plan.
- RunCapacity.CapSparesExactly: for plans of agents with distinct work and bookkeeping; how many units a fanout has is
  not known before a run.
- RunReservation.FitsExactly: of what is known when the batch starts; widths that become known later are not foreseen.
- BarrierSafety.NeverUnderALiveReader: for registrations no lookup of which met a run under removal;
  `BarrierWitness.ClaimedNameIsNotSafe` shows why.
- BarrierSafety.AdmittedPathHolds: for the same registrations.
- Barrier: names of runs are never drawn twice (`mkdtemp`, `randomUUID`). The checks on owner, token, runner, process
  group and domain, and the search for observable readers, only refuse; they are the choice to retain. `createRun`
  makes a run with its owner record and reader directory in one step; liveness is exact and death permanent.
- Barrier: while a run is being removed any entry may be missing for others, but the removal's own entries are not
  listed one by one.
- Gate: one session, settles one after another; the lease is taken to be exclusive, writes by rename to be atomic and
  notice ids to be new. Deadlines, fingerprints, configuration changes and process outcomes are free choices; the
  in-memory stamps, notice wording and the equality of content and configuration in an acknowledgement are not kept.
- Gate: a settle that its abort signal ends is modelled as one that a crash ends.
- GateCharges.InjectionsWithinBudget: notices that cost nothing are not bounded, because each changed input may have
  one.
- BarrierProgress.OpenRunAdmits: one process at a time; under interleaving a cleaner may always come first.
- Ledger: an absent `noticeCharges` is the empty map.
- Goal: rehydration from session entries, `withState` and outcome messages; a resumed goal is not a new one.
- EvalReport.Summarise: without usage, cost, turn and timing statistics.
- Eval report: floating-point slack and rounding.
- Handoff: how the sections are built, and the files seeds are written to and consumed from. Length is counted in
  characters of the model's strings, one for each UTF-16 unit of the source's.
