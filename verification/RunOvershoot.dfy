/**
 When a budget is overshot by one worker only, for plans of every kind: exactly
 if no run dispatches a unit whose retry the plan allows and the pool can fund.
 */
module RunOvershoot {
  import opened PlanSchema
  import opened Upstream
  import opened PlanGraph
  import opened RunInvariant
  import opened RunSteps
  import opened RunBudget
  import opened RunWorkers
  import opened RunAccounts
  import opened RunLaws
  import opened RunSemantics
  import opened RunSteady
  import opened RunLimits

  // ---------- two outsides that agree so far ----------

  /** They answer alike until `end`, but for the rendering of one dispatch. */
  ghost predicate Agree(out: Outside, out': Outside, end: nat, but: Dispatch) {
    && (forall d, n: nat, t: nat :: t < end ==> out.spawn(d, n, t) == out'.spawn(d, n, t))
    && (forall t: nat :: t < end ==> out.aborted(t) == out'.aborted(t))
    && (forall d :: d != but ==> out.renderError(d) == out'.renderError(d))
    && (forall s :: out.signature(s) == out'.signature(s))
  }

  lemma {:induction false} CountAgrees(out: Outside, out': Outside, failures: seq<Failure>, s: string)
    requires forall e :: out.signature(e) == out'.signature(e)
    ensures CountSignature(out, failures, s) == CountSignature(out', failures, s)
    decreases |failures|
  {
    if failures != [] {
      CountAgrees(out, out', failures[..|failures| - 1], s);
    }
  }

  lemma CollapseAgrees(out: Outside, out': Outside, failures: seq<Failure>)
    requires forall e :: out.signature(e) == out'.signature(e)
    ensures Collapsed(out, failures) == Collapsed(out', failures)
  {
    forall s ensures CountSignature(out, failures, s) == CountSignature(out', failures, s) {
      CountAgrees(out, out', failures, s);
    }
  }

  lemma {:induction false} PlayTakesTime(out: Outside, batch: seq<Dispatch>, pool: Pool, schedule: seq<nat>)
    requires Fits(batch, pool)
    ensures Play(out, batch, pool, schedule).tick >= pool.tick
    decreases |schedule|
  {
    hide TurnOf;
    if schedule != [] {
      PlayTakesTime(out, batch, pool, schedule[..|schedule| - 1]);
    }
  }

  lemma OpeningAgrees(out: Outside, out': Outside, end: nat, but: Dispatch, batch: seq<Dispatch>, spare: int, tick: nat)
    requires Agree(out, out', end, but) && but !in batch
    ensures Opening(out, batch, spare, tick) == Opening(out', batch, spare, tick)
  {
    forall k | 0 <= k < |batch| ensures Start(out, batch[k]) == Start(out', batch[k]) {
      assert batch[k] in batch;
    }
  }

  lemma TurnAgrees(out: Outside, out': Outside, end: nat, but: Dispatch, batch: seq<Dispatch>, pool: Pool, i: nat)
    requires Agree(out, out', end, but) && Fits(batch, pool) && PlayOne(out, batch, pool, i).tick <= end
    ensures PlayOne(out, batch, pool, i) == PlayOne(out', batch, pool, i)
  {
  }

  lemma {:induction false} PlayAgrees(out: Outside, out': Outside, end: nat, but: Dispatch, batch: seq<Dispatch>,
                                      pool: Pool, schedule: seq<nat>)
    requires Agree(out, out', end, but) && Fits(batch, pool) && Play(out, batch, pool, schedule).tick <= end
    ensures Play(out, batch, pool, schedule) == Play(out', batch, pool, schedule)
    decreases |schedule|
  {
    hide Agree, TurnOf;
    if schedule != [] {
      var front, i := schedule[..|schedule| - 1], schedule[|schedule| - 1];
      PlayAgrees(out, out', end, but, batch, pool, front);
      TurnAgrees(out, out', end, but, batch, Play(out, batch, pool, front), i);
    }
  }

  /** A batch without the one dispatch comes out alike, if it ends in time. */
  lemma WorkedAgrees(w: World, out: Outside, out': Outside, end: nat, but: Dispatch, caps: ResolvedCaps, c: Config,
                     batch: seq<Dispatch>, schedule: seq<nat>)
    requires Agree(out, out', end, but) && but !in batch && Worked(w, out, caps, c, batch, schedule).tick <= end
    ensures Worked(w, out', caps, c, batch, schedule) == Worked(w, out, caps, c, batch, schedule)
  {
    hide Agree, Opening, Spare, Play;
    var spare := Spare(w.h, w.nodes, Launched(c.st, batch), caps, batch);
    OpeningAgrees(out, out', end, but, batch, spare, c.tick);
    PlayAgrees(out, out', end, but, batch, Opening(out, batch, spare, c.tick), schedule);
  }

  lemma SettleAgrees(w: World, out: Outside, out': Outside, end: nat, but: Dispatch, caps: ResolvedCaps, c: Config,
                     batch: seq<Dispatch>, schedule: seq<nat>)
    requires Agree(out, out', end, but) && but !in batch && Settle(w, out, caps, c, batch, schedule).tick <= end
    ensures Settle(w, out', caps, c, batch, schedule) == Settle(w, out, caps, c, batch, schedule)
  {
    CollapseAgrees(out, out', Settle(w, out, caps, c, batch, schedule).failures);
    hide Agree, Worked, Collapsed, SettleAll, BatchBills;
    WorkedAgrees(w, out, out', end, but, caps, c, batch, schedule);
  }

  lemma IterationTakesTime(w: World, out: Outside, caps: ResolvedCaps, c: Config, schedule: seq<nat>)
    ensures Iterated(w, out, caps, c, schedule).tick > c.tick
    ensures c.log <= Iterated(w, out, caps, c, schedule).log
  {
    hide BatchSpec, Play, Opening, SettleAll, Spare, ApplyImmediate, MarkSkipped, DoomedIds, Collapsed, BatchBills;
    var batch, mid := BatchSpec(w.h, w.nodes, c.st, caps).dispatch, AfterPublishing(w, caps, c);
    var spare := Spare(w.h, w.nodes, Launched(mid.st, batch), caps, batch);
    PlayTakesTime(out, batch, Opening(out, batch, spare, mid.tick), schedule);
    OpeningTick(out, batch, spare, mid.tick);
  }

  lemma OpeningTick(out: Outside, batch: seq<Dispatch>, spare: int, tick: nat)
    ensures Opening(out, batch, spare, tick).tick == tick
  {
  }

  lemma IterationAgrees(w: World, out: Outside, out': Outside, end: nat, but: Dispatch, caps: ResolvedCaps, c: Config,
                        schedule: seq<nat>)
    requires Agree(out, out', end, but) && Iterated(w, out, caps, c, schedule).tick <= end
    requires but !in Iterated(w, out, caps, c, schedule).log
    ensures Iterated(w, out', caps, c, schedule) == Iterated(w, out, caps, c, schedule)
    ensures PlaysOut(w, out, caps, c, schedule) ==> PlaysOut(w, out', caps, c, schedule)
  {
    IterationTakesTime(w, out, caps, c, schedule);
    assert out.aborted(c.tick) == out'.aborted(c.tick);
    var batch, mid := BatchSpec(w.h, w.nodes, c.st, caps), AfterPublishing(w, caps, c);
    hide Agree, BatchSpec, Worked, ApplyImmediate, MarkSkipped, DoomedIds;
    if !out.aborted(c.tick) && batch.dispatch != [] && batch.halt.None? {
      SettleLogs(w, out, caps, mid, batch.dispatch, schedule);
      hide Settle;
      WorkedInTime(w, out, caps, mid, batch.dispatch, schedule);
      WorkedAgrees(w, out, out', end, but, caps, mid, batch.dispatch, schedule);
      SettleAgrees(w, out, out', end, but, caps, mid, batch.dispatch, schedule);
    } else {
      HaltedDispatchesNothing(w, caps, c);
    }
  }

  lemma HaltedDispatchesNothing(w: World, caps: ResolvedCaps, c: Config)
    ensures BatchSpec(w.h, w.nodes, c.st, caps).halt.Some? ==> BatchSpec(w.h, w.nodes, c.st, caps).dispatch == []
  {
  }

  lemma SettleLogs(w: World, out: Outside, caps: ResolvedCaps, c: Config, batch: seq<Dispatch>, schedule: seq<nat>)
    ensures forall d :: d in batch ==> d in Settle(w, out, caps, c, batch, schedule).log
  {
  }

  lemma WorkedInTime(w: World, out: Outside, caps: ResolvedCaps, c: Config, batch: seq<Dispatch>, schedule: seq<nat>)
    ensures Settle(w, out, caps, c, batch, schedule).tick == Worked(w, out, caps, c, batch, schedule).tick
  {
  }

  /** A run that dispatched all but the one, and is no further than `end`, is a run of both outsides. */
  lemma {:induction false} RunAgrees(w: World, out: Outside, out': Outside, end: nat, but: Dispatch, caps: ResolvedCaps,
                                     schedules: seq<seq<nat>>)
    requires Agree(out, out', end, but) && IsRun(w, out, caps, schedules)
    requires RunOf(w, out, caps, schedules).tick <= end && but !in RunOf(w, out, caps, schedules).log
    ensures IsRun(w, out', caps, schedules) && RunOf(w, out', caps, schedules) == RunOf(w, out, caps, schedules)
    decreases |schedules|
  {
    hide Agree, Iterated, PlaysOut, Going;
    if schedules != [] {
      var front, last := schedules[..|schedules| - 1], schedules[|schedules| - 1];
      var c := RunOf(w, out, caps, front);
      IterationTakesTime(w, out, caps, c, last);
      RunAgrees(w, out, out', end, but, caps, front);
      IterationAgrees(w, out, out', end, but, caps, c, last);
    }
  }

  // ---------- a retry over the budget ----------

  /** The next iteration dispatches `d`, whose retry the plan allows and the pool can fund. */
  ghost predicate RetryFunded(w: World, caps: ResolvedCaps, c: Config, d: Dispatch) {
    && Going(w, c) && BatchSpec(w.h, w.nodes, c.st, caps).halt.None?
    && BatchSpec(w.h, w.nodes, c.st, caps).dispatch == [d] && MaxAttempts(d) > 1
    && Spare(w.h, w.nodes, Launched(AfterPublishing(w, caps, c).st, [d]), caps, [d]) > 0
  }

  /** As `out` until now; from now on nothing aborts and `d` fails once, at the price of the budget. */
  ghost function FailsOnce(w: World, out: Outside, now: nat, d: Dispatch, budget: nat): Outside {
    Outside((e: Dispatch, n: nat, t: nat) =>
              if t < now then out.spawn(e, n, t)
              else if n == 0 then WorkerResult(false, Null, budget, "not yet")
              else WorkerResult(true, w.work(e), 0, ""),
            (t: nat) => t < now && out.aborted(t),
            (e: Dispatch) => if e == d then None else out.renderError(e),
            out.signature)
  }

  lemma FailsOnceAgrees(w: World, out: Outside, now: nat, d: Dispatch, budget: nat)
    requires Faithful(w, out)
    ensures Agree(out, FailsOnce(w, out, now, d, budget), now, d) && Faithful(w, FailsOnce(w, out, now, d, budget))
  {
  }

  /** Two turns of the one worker sequence: a failure that spends the budget, and a retry that succeeds. */
  lemma TwoTurns(w: World, out: Outside, now: nat, d: Dispatch, budget: nat, spare: int, tick: nat)
    requires tick >= now && MaxAttempts(d) > 1 && spare > 0
    ensures var out' := FailsOnce(w, out, now, d, budget);
            var pool := Play(out', [d], Opening(out', [d], spare, tick), [0, 0]);
            PlayedOut(pool) && pool.paid == [[budget, 0]]
  {
    hide TurnOf, Start, FailsOnce;
    var out' := FailsOnce(w, out, now, d, budget);
    var opening := Opening(out', [d], spare, tick);
    var failed := WorkerResult(false, Null, budget, "not yet");
    FirstTurn(w, out, now, d, budget, spare, tick);
    var one := Pool([Progress(1, budget, failed, false)], [[budget]], spare, tick + 1);
    assert opening == Pool([Progress(0, 0, WorkerResult(false, Null, 0, "never ran"), false)], [[]], spare, tick);
    assert PlayOne(out', [d], opening, 0) == one by {
      assert opening.paid[0] + [budget] == [budget];
    }
    assert [0, 0][..1] == [0] && [0][..0] == [];
    assert Play(out', [d], opening, [0]) == one;
    var two := PlayOne(out', [d], one, 0);
    assert Play(out', [d], opening, [0, 0]) == two;
    assert two.paid == [[budget] + [0]] && [budget] + [0] == [budget, 0];
  }

  lemma FirstTurn(w: World, out: Outside, now: nat, d: Dispatch, budget: nat, spare: int, tick: nat)
    requires tick >= now && MaxAttempts(d) > 1 && spare > 0
    ensures var out' := FailsOnce(w, out, now, d, budget);
            var failed := WorkerResult(false, Null, budget, "not yet");
            && Start(out', d) == Progress(0, 0, WorkerResult(false, Null, 0, "never ran"), false)
            && TurnOf(out', d, Start(out', d), spare, tick) == (Progress(1, budget, failed, false), spare, [budget])
            && TurnOf(out', d, Progress(1, budget, failed, false), spare, tick + 1) ==
                 (Progress(2, budget, WorkerResult(true, w.work(d), 0, ""), true), spare - 1, [0])
  {
  }

  lemma TwoBills(w: World, out: Outside, caps: ResolvedCaps, c: Config, d: Dispatch, budget: nat)
    requires MaxAttempts(d) > 1 && Spare(w.h, w.nodes, Launched(c.st, [d]), caps, [d]) > 0 && c.tick > 0
    ensures var out' := FailsOnce(w, out, c.tick - 1, d, budget);
            && PlayedOut(Worked(w, out', caps, c, [d], [0, 0]))
            && Settle(w, out', caps, c, [d], [0, 0]).bills == c.bills + [Bill(d, budget), Bill(d, 0)]
  {
    hide Play, Opening, SettleAll, Spare, FailsOnce;
    var out' := FailsOnce(w, out, c.tick - 1, d, budget);
    TwoTurns(w, out, c.tick - 1, d, budget, Spare(w.h, w.nodes, Launched(c.st, [d]), caps, [d]), c.tick);
    var pool := Worked(w, out', caps, c, [d], [0, 0]);
    assert BatchBills([d], pool.paid, 1) == BatchBills([d], pool.paid, 0) + BillsFor(d, pool.paid[0]);
    assert BillsFor(d, [budget, 0]) == [Bill(d, budget), Bill(d, 0)];
  }

  lemma NextIsNew(w: World, out: Outside, caps: ResolvedCaps, c: Config, d: Dispatch)
    requires LawfulConfig(w, out, caps, c) && Schedulable(w.nodes) && RetryFunded(w, caps, c, d)
    ensures d !in c.log
  {
    hide AllReported, HaltExplained, AllUnits, AllImmediate, ApplyImmediate, Spare, IsComplete, Inv, Schedulable;
    LawfulFacts(w, caps, c.st, c.log, c.bills);
    PublishedIsLawful(w, out, caps, c);
    BatchIsScheduled(w, caps, c.st);
    var mid := AfterPublishing(w, caps, c);
    LawfulFacts(w, caps, mid.st, c.log, c.bills);
    hide Lawful, BatchSpec;
    assert d in [d] && MayStart(w, mid.st, d);
    hide MayStart, Logged;
    forall k | 0 <= k < |c.log| ensures c.log[k] != d {
      MayStartIsFresh(w, mid.st, d, c.log[k]);
    }
  }

  /** From wherever a retry is funded, some run starts a worker with the budget already spent. */
  lemma FundedRetryOvershoots(w: World, out: Outside, caps: ResolvedCaps, schedules: seq<seq<nat>>, d: Dispatch)
    returns (out': Outside, schedules': seq<seq<nat>>)
    requires Faithful(w, out) && Schedulable(w.nodes) && IsRun(w, out, caps, schedules) && caps.budgetTokens.Some?
    requires RetryFunded(w, caps, RunOf(w, out, caps, schedules), d)
    ensures Faithful(w, out') && IsRun(w, out', caps, schedules')
    ensures !OneWorkerOvershoot(caps, RunOf(w, out', caps, schedules').bills)
  {
    var c, budget := RunOf(w, out, caps, schedules), caps.budgetTokens.value;
    RunIsLawful(w, out, caps, schedules);
    hide RunOf, IsRun, Agree, FailsOnce, Faithful, LawfulConfig, Schedulable, BatchSpec, Spare, ApplyImmediate, Settle,
         Worked, PlayedOut, OneWorkerOvershoot, IsComplete;
    NextIsNew(w, out, caps, c, d);
    out' := FailsOnce(w, out, c.tick, d, budget);
    FailsOnceAgrees(w, out, c.tick, d, budget);
    RunAgrees(w, out, out', c.tick, d, caps, schedules);
    TwoBills(w, out, caps, AfterPublishing(w, caps, c), d, budget);
    NotAborted(w, out, c.tick, d, budget);
    NextIsRun(w, out', caps, schedules, [0, 0]);
    schedules' := schedules + [[0, 0]];
    LateStart(caps, c.bills, d, budget);
  }

  lemma NotAborted(w: World, out: Outside, now: nat, d: Dispatch, budget: nat)
    ensures !FailsOnce(w, out, now, d, budget).aborted(now)
  {
  }

  // ---------- no retry over the budget ----------

  ghost predicate NeverFunded(w: World, caps: ResolvedCaps, c: Config) {
    forall d :: !RetryFunded(w, caps, c, d)
  }

  lemma BillsOfOne(d: Dispatch, paid: seq<seq<nat>>)
    requires |paid| == 1
    ensures BatchBills([d], paid, 1) == BillsFor(d, paid[0])
  {
    assert BatchBills([d], paid, 1) == BatchBills([d], paid, 0) + BillsFor(d, paid[0]);
  }

  /** Without a funded retry a dispatch makes one attempt at most. */
  lemma OneAttempt(w: World, out: Outside, caps: ResolvedCaps, c: Config, d: Dispatch, schedule: seq<nat>)
    requires Faithful(w, out)
    requires MaxAttempts(d) == 1 || Spare(w.h, w.nodes, Launched(c.st, [d]), caps, [d]) <= 0
    ensures var bills := Settle(w, out, caps, c, [d], schedule).bills;
            bills == c.bills || exists b :: bills == c.bills + [b]
  {
    hide Play, Opening, SettleAll, Spare, Played, Verdicts, Outcome;
    var spare := Spare(w.h, w.nodes, Launched(c.st, [d]), caps, [d]);
    PlayKeeps(w, out, [d], spare, c.tick, schedule);
    var pool := Worked(w, out, caps, c, [d], schedule);
    PlayIsOutcome(w, out, [d], spare, pool);
    var settled := Verdicts([d], pool.ps);
    BillsOfOne(d, pool.paid);
    assert Retries(settled[..0]) == 0 && |pool.paid[0]| <= 1;
    if pool.paid[0] == [] {
      assert c.bills + BillsFor(d, pool.paid[0]) == c.bills;
    } else {
      assert BillsFor(d, pool.paid[0]) == [Bill(d, pool.paid[0][0])];
    }
  }

  lemma OneMoreWorker(caps: ResolvedCaps, bills: seq<Bill>, bills': seq<Bill>)
    requires OneWorkerOvershoot(caps, bills) && (caps.budgetTokens.Some? ==> Total(bills) < caps.budgetTokens.value)
    requires bills' == bills || exists b :: bills' == bills + [b]
    ensures OneWorkerOvershoot(caps, bills')
  {
    if bills' != bills {
      assert bills'[..|bills'| - 1] == bills;
    }
  }

  lemma UnderBudget(w: World, caps: ResolvedCaps, st: RunState)
    requires BatchSpec(w.h, w.nodes, st, caps).halt.None? && caps.budgetTokens.Some?
    ensures st.spentTokens < caps.budgetTokens.value && |BatchSpec(w.h, w.nodes, st, caps).dispatch| <= 1
  {
  }

  lemma IterationKeepsOne(w: World, out: Outside, caps: ResolvedCaps, c: Config, schedule: seq<nat>)
    requires Faithful(w, out) && LawfulConfig(w, out, caps, c) && Going(w, c) && caps.budgetTokens.Some?
    requires NeverFunded(w, caps, c) && OneWorkerOvershoot(caps, c.bills)
    ensures OneWorkerOvershoot(caps, Iterated(w, out, caps, c, schedule).bills)
  {
    hide Faithful, AllReported, HaltExplained, Inv, LogInv, ApplyImmediate, Settle, Spare, MarkSkipped, DoomedIds,
         IsComplete, BatchSpec, OneWorkerOvershoot;
    var batch, mid := BatchSpec(w.h, w.nodes, c.st, caps), AfterPublishing(w, caps, c);
    HaltedDispatchesNothing(w, caps, c);
    if batch.dispatch != [] {
      UnderBudget(w, caps, c.st);
      var d := batch.dispatch[0];
      assert batch.dispatch == [d] && !RetryFunded(w, caps, c, d);
      OneAttempt(w, out, caps, mid, d, schedule);
      OneMoreWorker(caps, c.bills, Settle(w, out, caps, mid, [d], schedule).bills);
    }
  }

  /** No retry funded anywhere on the way: the last worker was started below the budget. */
  lemma {:induction false} UnfundedOneWorker(w: World, out: Outside, caps: ResolvedCaps, schedules: seq<seq<nat>>)
    requires Faithful(w, out) && Schedulable(w.nodes) && IsRun(w, out, caps, schedules) && caps.budgetTokens.Some?
    requires forall k :: 0 <= k < |schedules| ==> NeverFunded(w, caps, RunOf(w, out, caps, schedules[..k]))
    ensures OneWorkerOvershoot(caps, RunOf(w, out, caps, schedules).bills)
    decreases |schedules|
  {
    hide Faithful, Schedulable, Iterated, PlaysOut, NeverFunded, LawfulConfig;
    if schedules != [] {
      var front := schedules[..|schedules| - 1];
      forall k | 0 <= k < |front| ensures NeverFunded(w, caps, RunOf(w, out, caps, front[..k])) {
        assert front[..k] == schedules[..k];
      }
      UnfundedOneWorker(w, out, caps, front);
      RunIsLawful(w, out, caps, front);
      IterationKeepsOne(w, out, caps, RunOf(w, out, caps, front), schedules[|schedules| - 1]);
    }
  }

  lemma {:induction false} PrefixIsRun(w: World, out: Outside, caps: ResolvedCaps, schedules: seq<seq<nat>>, k: nat)
    requires IsRun(w, out, caps, schedules) && k <= |schedules|
    ensures IsRun(w, out, caps, schedules[..k])
    decreases |schedules|
  {
    hide RunOf, Going, PlaysOut;
    if k == |schedules| {
      assert schedules[..k] == schedules;
    } else {
      PrefixIsRun(w, out, caps, schedules[..|schedules| - 1], k);
      assert schedules[..|schedules| - 1][..k] == schedules[..k];
    }
  }

  /**
   "The maximum overshoot is one worker", for every plan under a budget: all runs
   keep it if and only if none comes to dispatch a unit whose retry is allowed and
   funded.
   */
  lemma OneWorkerByDispatch(w: World, caps: ResolvedCaps)
    requires Schedulable(w.nodes) && caps.budgetTokens.Some?
    ensures (forall out, schedules :: Faithful(w, out) && IsRun(w, out, caps, schedules) ==>
               OneWorkerOvershoot(caps, RunOf(w, out, caps, schedules).bills)) <==>
            (forall out, schedules :: Faithful(w, out) && IsRun(w, out, caps, schedules) ==>
               NeverFunded(w, caps, RunOf(w, out, caps, schedules)))
  {
    hide Faithful, Schedulable, IsRun, RunOf, OneWorkerOvershoot, NeverFunded;
    if forall out, schedules :: Faithful(w, out) && IsRun(w, out, caps, schedules) ==>
         NeverFunded(w, caps, RunOf(w, out, caps, schedules)) {
      forall out, schedules | Faithful(w, out) && IsRun(w, out, caps, schedules)
        ensures OneWorkerOvershoot(caps, RunOf(w, out, caps, schedules).bills)
      {
        forall k | 0 <= k < |schedules| ensures NeverFunded(w, caps, RunOf(w, out, caps, schedules[..k])) {
          PrefixIsRun(w, out, caps, schedules, k);
        }
        UnfundedOneWorker(w, out, caps, schedules);
      }
    } else {
      var out, schedules :| Faithful(w, out) && IsRun(w, out, caps, schedules) &&
                            !NeverFunded(w, caps, RunOf(w, out, caps, schedules));
      var d := SomeFunded(w, caps, RunOf(w, out, caps, schedules));
      var out', schedules' := FundedRetryOvershoots(w, out, caps, schedules, d);
    }
  }

  lemma SomeFunded(w: World, caps: ResolvedCaps, c: Config) returns (d: Dispatch)
    requires !NeverFunded(w, caps, c)
    ensures RetryFunded(w, caps, c, d)
  {
    d :| RetryFunded(w, caps, c, d);
  }
}
