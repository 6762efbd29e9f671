/**
 The goal machine of extensions/agenda/goal-state.ts: verdicts and evaluator
 failures folded into an immutable goal whose ledger bounds the whole run.
 */
module GoalState {
  datatype Option<+T> = None | Some(value: T)

  datatype Status = Active | Paused | Achieved | Capped | BlockedUser | BudgetExhausted | Cleared

  datatype Budget = Budget(tokens: Option<int>, wallClockMs: Option<int>)

  datatype GoalLedger = GoalLedger(iterations: nat, maxIterations: int, turnsEvaluated: nat, judgeErrors: nat,
                                   noProgressStreak: nat, pendingStreak: nat, tokens: int, budget: Option<Budget>)

  datatype Revision = Revision(at: int, from: string)
  datatype JudgeError = JudgeError(message: string, at: int)

  datatype Goal = Goal(id: string, state: Status, condition: string, createdAt: int, updatedAt: int,
                       lastReason: Option<string>, lastJudgeError: Option<JudgeError>,
                       ledger: GoalLedger, revisions: seq<Revision>)

  datatype Verdict = Verdict(ok: bool, reason: string, pending: bool, blocked: bool)

  const DEFAULT_MAX_ITERATIONS: int := 8
  const MAX_JUDGE_ERRORS: nat := 3
  const MAX_JUDGE_ERROR_CHARS: nat := 300
  const MAX_NO_PROGRESS: nat := 3
  const MAX_PENDING: nat := 12

  function CreateGoal(id: string, condition: string, now: int, maxIterations: Option<int>,
                      budget: Option<Budget>): Goal {
    var max := if maxIterations.Some? then maxIterations.value else DEFAULT_MAX_ITERATIONS;
    Goal(id, Active, condition, now, now, None, None, GoalLedger(0, max, 0, 0, 0, 0, 0, budget), [])
  }

  predicate IsBudgetExhausted(ledger: GoalLedger, createdAt: int, now: int) {
    && ledger.budget.Some?
    && var budget := ledger.budget.value;
       || (budget.tokens.Some? && ledger.tokens >= budget.tokens.value)
       || (budget.wallClockMs.Some? && now - createdAt >= budget.wallClockMs.value)
  }

  /** The work the condition names is still in flight, or waits on a person. */
  predicate Waiting(verdict: Verdict) {
    (verdict.pending || verdict.blocked) && !verdict.ok
  }

  /** What is left of an unmet verdict once it can no longer wait. */
  function ChargeUnmet(base: Goal, now: int): Goal {
    var ledger := base.ledger;
    if ledger.noProgressStreak >= MAX_NO_PROGRESS then base.(state := BlockedUser)
    else if IsBudgetExhausted(ledger, base.createdAt, now) then base.(state := BudgetExhausted)
    else
      var charged := base.(ledger := ledger.(iterations := ledger.iterations + 1));
      if ledger.iterations + 1 >= ledger.maxIterations then charged.(state := Capped) else charged
  }

  function ApplyVerdict(goal: Goal, verdict: Verdict, now: int, spentTokens: int): Goal {
    var sameReason := goal.lastReason == Some(verdict.reason);
    var ledger := goal.ledger.(
      turnsEvaluated := goal.ledger.turnsEvaluated + 1,
      judgeErrors := 0,
      pendingStreak := if Waiting(verdict) then goal.ledger.pendingStreak else 0,
      tokens := goal.ledger.tokens + spentTokens,
      noProgressStreak := if verdict.ok then 0 else if sameReason then goal.ledger.noProgressStreak + 1 else 1);
    var base := goal.(lastReason := Some(verdict.reason), updatedAt := now, ledger := ledger);
    var waiting := base.(ledger := ledger.(pendingStreak := goal.ledger.pendingStreak + 1));
    var spent := IsBudgetExhausted(waiting.ledger, base.createdAt, now);
    if Waiting(verdict) && waiting.ledger.pendingStreak < MAX_PENDING && !spent then waiting
    else if Waiting(verdict) && verdict.blocked && !spent then base.(state := BlockedUser)
    else if verdict.ok then base.(state := Achieved)
    else ChargeUnmet(base, now)
  }

  function ApplyJudgeError(goal: Goal, message: string, now: int, spentTokens: int): Goal {
    var judgeErrors := goal.ledger.judgeErrors + 1;
    var kept := if |message| <= MAX_JUDGE_ERROR_CHARS then message else message[..MAX_JUDGE_ERROR_CHARS];
    goal.(updatedAt := now,
          ledger := goal.ledger.(judgeErrors := judgeErrors, tokens := goal.ledger.tokens + spentTokens),
          state := if judgeErrors >= MAX_JUDGE_ERRORS then Paused else goal.state,
          lastJudgeError := Some(JudgeError(kept, now)))
  }

  function ReviseGoal(goal: Goal, condition: string, now: int): Goal {
    goal.(condition := condition, updatedAt := now, revisions := goal.revisions + [Revision(now, goal.condition)])
  }

  // ---------- runs ----------

  datatype Event =
    | Judged(verdict: Verdict, now: int, spentTokens: int)
    | JudgeFailed(message: string, now: int, spentTokens: int)
    | Revised(condition: string, now: int)

  function Apply(goal: Goal, e: Event): Goal {
    match e
    case Judged(verdict, now, spent) => ApplyVerdict(goal, verdict, now, spent)
    case JudgeFailed(message, now, spent) => ApplyJudgeError(goal, message, now, spent)
    case Revised(condition, now) => ReviseGoal(goal, condition, now)
  }

  function After(goal: Goal, events: seq<Event>): Goal {
    if events == [] then goal else Apply(After(goal, events[..|events| - 1]), events[|events| - 1])
  }

  /** Only an active goal is evaluated or revised. */
  ghost predicate ActiveRun(goal: Goal, events: seq<Event>) {
    forall k :: 0 <= k < |events| ==> After(goal, events[..k]).state.Active?
  }

  function Evaluations(events: seq<Event>): nat {
    if events == [] then 0
    else Evaluations(events[..|events| - 1]) + if events[|events| - 1].Revised? then 0 else 1
  }

  lemma ActivePrefix(goal: Goal, events: seq<Event>)
    requires ActiveRun(goal, events) && events != []
    ensures ActiveRun(goal, events[..|events| - 1]) && After(goal, events[..|events| - 1]).state.Active?
  {
    var front := events[..|events| - 1];
    forall k | 0 <= k < |front| ensures After(goal, front[..k]).state.Active? {
      assert front[..k] == events[..k];
    }
  }

  // ---------- the bound ----------

  function EffectiveMax(maxIterations: int): nat {
    if maxIterations < 1 then 1 else maxIterations
  }

  /** Iterations left, then patience left, then evaluator failures left. */
  function Rank(ledger: GoalLedger): int {
    (EffectiveMax(ledger.maxIterations) - ledger.iterations - 1) * (MAX_PENDING * MAX_JUDGE_ERRORS)
    + (MAX_PENDING - ledger.pendingStreak - 1) * MAX_JUDGE_ERRORS
    + (MAX_JUDGE_ERRORS - ledger.judgeErrors)
  }

  predicate WithinLimits(ledger: GoalLedger) {
    && ledger.iterations < EffectiveMax(ledger.maxIterations)
    && ledger.pendingStreak < MAX_PENDING
    && ledger.judgeErrors < MAX_JUDGE_ERRORS
  }

  /** Every evaluation of an active goal ends it or uses up some rank; a revision buys none back. */
  lemma RankDrops(goal: Goal, e: Event)
    requires goal.state.Active? && WithinLimits(goal.ledger)
    ensures var next := Apply(goal, e);
            next.state.Active? ==>
              && WithinLimits(next.ledger)
              && next.ledger.maxIterations == goal.ledger.maxIterations
              && 0 < Rank(next.ledger) <= Rank(goal.ledger) - if e.Revised? then 0 else 1
  {
  }

  lemma {:induction false} RankBoundsEvaluations(goal: Goal, events: seq<Event>)
    requires goal.state.Active? && WithinLimits(goal.ledger) && ActiveRun(goal, events)
    requires After(goal, events).state.Active?
    ensures WithinLimits(After(goal, events).ledger)
    ensures 0 < Rank(After(goal, events).ledger) <= Rank(goal.ledger) - Evaluations(events)
    decreases |events|
  {
    if events != [] {
      ActivePrefix(goal, events);
      RankBoundsEvaluations(goal, events[..|events| - 1]);
      RankDrops(After(goal, events[..|events| - 1]), events[|events| - 1]);
    }
  }

  /** A new goal is evaluated at most iterations * patience * failures times, however it is judged. */
  lemma EvaluationBound(id: string, condition: string, now: int, max: Option<int>, budget: Option<Budget>,
                        events: seq<Event>)
    requires ActiveRun(CreateGoal(id, condition, now, max, budget), events)
    ensures var goal := CreateGoal(id, condition, now, max, budget);
            Evaluations(events) <= EffectiveMax(goal.ledger.maxIterations) * MAX_PENDING * MAX_JUDGE_ERRORS
  {
    var goal := CreateGoal(id, condition, now, max, budget);
    if events != [] {
      ActivePrefix(goal, events);
      RankBoundsEvaluations(goal, events[..|events| - 1]);
    }
  }

  // ---------- the bound is reached ----------

  function LongestEvent(j: nat): Event {
    if j % 3 < 2 then JudgeFailed("no answer", 0, 0)
    else if j % 36 < 33 then Judged(Verdict(false, "still running", true, false), 0, 0)
    else Judged(Verdict(false, "not met", false, false), 0, 0)
  }

  function LongestRun(j: nat): (events: seq<Event>)
    ensures |events| == j
    ensures forall k :: 0 <= k < j ==> events[k] == LongestEvent(k)
  {
    seq(j, k requires 0 <= k => LongestEvent(k))
  }

  lemma {:induction false} LongestRunState(goal: Goal, j: nat)
    requires goal.state.Active? && goal.ledger.budget.None?
    requires goal.ledger.(maxIterations := 0) == GoalLedger(0, 0, 0, 0, 0, 0, 0, None)
    requires j <= EffectiveMax(goal.ledger.maxIterations) * 36
    ensures var after := After(goal, LongestRun(j));
            && after.ledger.maxIterations == goal.ledger.maxIterations && after.ledger.budget.None?
            && after.ledger.iterations == j / 36
            && after.ledger.pendingStreak == j % 36 / 3
            && after.ledger.judgeErrors == j % 3
            && (0 < j % 36 / 3 ==> after.lastReason == Some("still running"))
            && after.state == if j < EffectiveMax(goal.ledger.maxIterations) * 36 then Active else Capped
  {
    hide Apply, LongestEvent, LongestRun;
    Place(j, j / 36, j % 36);
    if j > 0 {
      var q, r := (j - 1) / 36, (j - 1) % 36;
      LongestRunState(goal, j - 1);
      assert LongestRun(j)[..j - 1] == LongestRun(j - 1);
      assert After(goal, LongestRun(j)) == Apply(After(goal, LongestRun(j - 1)), LongestEvent(j - 1));
      Place(j - 1, q, r);
      LongestRunStep(After(goal, LongestRun(j - 1)), goal.ledger.maxIterations, q, r);
      if r == 35 {
        Place(j, q + 1, 0);
      } else {
        Place(j, q, r + 1);
      }
    }
  }

  lemma Place(j: nat, q: nat, r: nat)
    requires j == 36 * q + r && r < 36
    ensures j / 36 == q && j % 36 == r && j % 3 == r % 3 && LongestEvent(j) == LongestEvent(r)
  {
    hide LongestEvent;
    var third := r / 3;
    assert j == 3 * (12 * q + third) + r % 3;
    SameEvent(j, r);
  }

  lemma SameEvent(j: nat, r: nat)
    requires j % 36 == r && j % 3 == r % 3
    ensures LongestEvent(j) == LongestEvent(r)
  {
    assert r % 36 == r;
  }

  /** Event `r` of the 36 that use up iteration `q`. */
  lemma LongestRunStep(goal: Goal, max: int, q: nat, r: nat)
    requires q < EffectiveMax(max) && r < 36
    requires goal.state.Active? && goal.ledger.budget.None? && goal.ledger.maxIterations == max
    requires goal.ledger.iterations == q && goal.ledger.pendingStreak == r / 3 && goal.ledger.judgeErrors == r % 3
    requires 0 < r / 3 ==> goal.lastReason == Some("still running")
    ensures var after := Apply(goal, LongestEvent(r));
            && after.ledger.maxIterations == max && after.ledger.budget.None?
            && (if r == 35 then
                  && after.ledger.(noProgressStreak := 0, turnsEvaluated := 0, tokens := 0) ==
                       GoalLedger(q + 1, max, 0, 0, 0, 0, 0, None)
                  && after.state == (if q + 1 < EffectiveMax(max) then Active else Capped)
                else
                  && after.ledger.iterations == q && after.ledger.pendingStreak == (r + 1) / 3
                  && after.ledger.judgeErrors == (r + 1) % 3 && after.state == Active
                  && (0 < (r + 1) / 3 ==> after.lastReason == Some("still running")))
  {
    if r == 35 {
      assert "not met" != "still running" by { assert |"not met"| != |"still running"|; }
    }
  }

  lemma {:induction false} OnlyEvaluations(events: seq<Event>)
    requires forall k :: 0 <= k < |events| ==> !events[k].Revised?
    ensures Evaluations(events) == |events|
  {
    if events != [] {
      OnlyEvaluations(events[..|events| - 1]);
    }
  }

  /** The bound is exact: without a budget some run of every new goal takes that many evaluations. */
  lemma EvaluationBoundIsReached(id: string, condition: string, now: int, max: Option<int>)
    ensures var goal := CreateGoal(id, condition, now, max, None);
            var bound := EffectiveMax(goal.ledger.maxIterations) * MAX_PENDING * MAX_JUDGE_ERRORS;
            && ActiveRun(goal, LongestRun(bound)) && Evaluations(LongestRun(bound)) == bound
            && After(goal, LongestRun(bound)).state == Capped
  {
    hide Apply, EffectiveMax, After, Evaluations;
    var goal := CreateGoal(id, condition, now, max, None);
    var bound := EffectiveMax(goal.ledger.maxIterations) * MAX_PENDING * MAX_JUDGE_ERRORS;
    forall k | 0 <= k < bound ensures After(goal, LongestRun(bound)[..k]).state.Active? {
      assert LongestRun(bound)[..k] == LongestRun(k);
      LongestRunState(goal, k);
    }
    LongestRunState(goal, bound);
    forall k | 0 <= k < bound ensures !LongestRun(bound)[k].Revised? {
      assert LongestRun(bound)[k] == LongestEvent(k);
    }
    OnlyEvaluations(LongestRun(bound));
  }

  // ---------- what the ledger says about the history ----------

  /** Evaluator failures since the last verdict. */
  function TrailingFailures(events: seq<Event>): nat {
    if events == [] then 0
    else
      var front := events[..|events| - 1];
      match events[|events| - 1]
      case Judged(_, _, _) => 0
      case JudgeFailed(_, _, _) => TrailingFailures(front) + 1
      case Revised(_, _) => TrailingFailures(front)
  }

  /** Verdicts of the history, in order. */
  function Verdicts(events: seq<Event>): seq<Verdict> {
    if events == [] then []
    else
      Verdicts(events[..|events| - 1]) +
      if events[|events| - 1].Judged? then [events[|events| - 1].verdict] else []
  }

  /** Not met, and neither the worker nor an iteration is to blame. */
  predicate CanOnlyWait(verdict: Verdict) {
    !verdict.ok && (verdict.blocked || verdict.pending)
  }

  /** How many verdicts at the end could only wait. */
  function TrailingWaits(verdicts: seq<Verdict>): nat {
    if verdicts == [] || !CanOnlyWait(verdicts[|verdicts| - 1]) then 0
    else TrailingWaits(verdicts[..|verdicts| - 1]) + 1
  }

  /** How many verdicts at the end carry this reason. */
  function TrailingReason(verdicts: seq<Verdict>, reason: string): nat {
    if verdicts == [] || verdicts[|verdicts| - 1].reason != reason then 0
    else TrailingReason(verdicts[..|verdicts| - 1], reason) + 1
  }

  /** A verdict is charged unless it waits and fewer than MAX_PENDING - 1 waited before it. */
  predicate IsCharged(before: seq<Verdict>, verdict: Verdict) {
    !CanOnlyWait(verdict) || TrailingWaits(before) + 1 >= MAX_PENDING
  }

  function ChargedCount(verdicts: seq<Verdict>): nat {
    if verdicts == [] then 0
    else
      var front := verdicts[..|verdicts| - 1];
      ChargedCount(front) + if IsCharged(front, verdicts[|verdicts| - 1]) then 1 else 0
  }

  function Spent(events: seq<Event>): int {
    if events == [] then 0
    else Spent(events[..|events| - 1]) + if events[|events| - 1].Revised? then 0 else events[|events| - 1].spentTokens
  }

  function Min(a: int, b: int): int { if a < b then a else b }

  /** The ledger of a goal that is still active, read off its history alone. */
  ghost predicate Accounts(created: Goal, events: seq<Event>, ledger: GoalLedger) {
    var verdicts := Verdicts(events);
    && ledger.maxIterations == created.ledger.maxIterations && ledger.budget == created.ledger.budget
    && ledger.turnsEvaluated == |verdicts|
    && ledger.iterations == ChargedCount(verdicts)
    && ledger.judgeErrors == TrailingFailures(events)
    && ledger.pendingStreak == Min(TrailingWaits(verdicts), MAX_PENDING - 1)
    && ledger.tokens == Spent(events)
    && (verdicts != [] ==>
          ledger.noProgressStreak == TrailingReason(verdicts, verdicts[|verdicts| - 1].reason))
  }

  ghost predicate Fresh(goal: Goal) {
    && goal.state.Active? && goal.lastReason.None?
    && goal.ledger == GoalLedger(0, goal.ledger.maxIterations, 0, 0, 0, 0, 0, goal.ledger.budget)
  }

  /** The ledger and the last reason of an active goal are the history's. */
  ghost predicate Tells(created: Goal, events: seq<Event>, goal: Goal) {
    var verdicts := Verdicts(events);
    && goal.state.Active? && goal.createdAt == created.createdAt
    && goal.lastReason == (if verdicts == [] then None else Some(verdicts[|verdicts| - 1].reason))
    && Accounts(created, events, goal.ledger)
  }

  /** While a goal is active its ledger is exactly the account of what happened to it. */
  lemma {:induction false} LedgerIsTheHistory(created: Goal, events: seq<Event>)
    requires Fresh(created) && ActiveRun(created, events) && After(created, events).state.Active?
    ensures Tells(created, events, After(created, events))
    decreases |events|
  {
    hide Apply, Accounts, Verdicts;
    if events == [] {
      AccountsStart(created);
    } else {
      ActivePrefix(created, events);
      var front, last := events[..|events| - 1], events[|events| - 1];
      LedgerIsTheHistory(created, front);
      assert events == front + [last];
      assert After(created, events) == Apply(After(created, front), last);
      if last.Judged? {
        AccountsVerdict(created, front, After(created, front), last);
      } else {
        AccountsOther(created, front, After(created, front), last);
      }
    }
  }

  lemma AccountsStart(created: Goal)
    requires Fresh(created)
    ensures Tells(created, [], created)
  {
  }

  lemma OneMoreEvent(front: seq<Event>, last: Event)
    ensures Verdicts(front + [last]) == Verdicts(front) + if last.Judged? then [last.verdict] else []
    ensures Spent(front + [last]) == Spent(front) + if last.Revised? then 0 else last.spentTokens
    ensures TrailingFailures(front + [last]) ==
            if last.Judged? then 0 else TrailingFailures(front) + if last.JudgeFailed? then 1 else 0
  {
    assert (front + [last])[..|front|] == front;
  }

  lemma OneMoreVerdict(front: seq<Verdict>, last: Verdict)
    ensures ChargedCount(front + [last]) == ChargedCount(front) + if IsCharged(front, last) then 1 else 0
    ensures TrailingWaits(front + [last]) == if CanOnlyWait(last) then TrailingWaits(front) + 1 else 0
    ensures TrailingReason(front + [last], last.reason) == TrailingReason(front, last.reason) + 1
  {
    assert (front + [last])[..|front|] == front;
  }

  lemma AccountsOther(created: Goal, front: seq<Event>, goal: Goal, last: Event)
    requires Tells(created, front, goal) && !last.Judged? && Apply(goal, last).state.Active?
    ensures Tells(created, front + [last], Apply(goal, last))
  {
    hide Verdicts, Spent, TrailingFailures, TrailingWaits, TrailingReason, ChargedCount, ApplyVerdict;
    OneMoreEvent(front, last);
    assert Verdicts(front + [last]) == Verdicts(front);
  }

  lemma AccountsVerdict(created: Goal, front: seq<Event>, goal: Goal, last: Event)
    requires Tells(created, front, goal) && last.Judged? && Apply(goal, last).state.Active?
    ensures Tells(created, front + [last], Apply(goal, last))
  {
    hide Verdicts, Spent, TrailingFailures, TrailingWaits, ChargedCount;
    OneMoreEvent(front, last);
    OneMoreVerdict(Verdicts(front), last.verdict);
    ReasonStreak(goal, created, front, last.verdict);
  }

  /** What was spent so far reaches the token budget, or the time since the goal was made its wall-clock budget. */
  predicate OverBudget(created: Goal, events: seq<Event>, now: int) {
    match created.ledger.budget
    case None => false
    case Some(Budget(tokens, wallClockMs)) =>
      || (tokens.Some? && tokens.value <= Spent(events))
      || (wallClockMs.Some? && created.createdAt + wallClockMs.value <= now)
  }

  /** How an evaluation leaves a goal, told from the history alone. */
  function Ending(created: Goal, before: seq<Event>, e: Event): Status {
    match e
    case Revised(_, _) => Active
    case JudgeFailed(_, _, _) => if TrailingFailures(before) + 1 >= MAX_JUDGE_ERRORS then Paused else Active
    case Judged(verdict, now, _) =>
      var verdicts := Verdicts(before);
      var over := OverBudget(created, before + [e], now);
      if verdict.ok then Achieved
      else if CanOnlyWait(verdict) && !over && TrailingWaits(verdicts) + 1 < MAX_PENDING then Active
      else if CanOnlyWait(verdict) && !over && verdict.blocked then BlockedUser
      else if TrailingReason(verdicts, verdict.reason) + 1 >= MAX_NO_PROGRESS then BlockedUser
      else if over then BudgetExhausted
      else if ChargedCount(verdicts) + 1 >= created.ledger.maxIterations then Capped
      else Active
  }

  /** The streaks and counters kept across calls decide exactly as the whole history would. */
  lemma EndsAsHistorySays(created: Goal, before: seq<Event>, e: Event)
    requires Fresh(created) && ActiveRun(created, before) && After(created, before).state.Active?
    ensures After(created, before + [e]).state == Ending(created, before, e)
  {
    LedgerIsTheHistory(created, before);
    assert (before + [e])[..|before|] == before;
    assert After(created, before + [e]) == Apply(After(created, before), e);
    hide After, ActiveRun;
    LedgerDecides(created, before, After(created, before), e);
  }

  lemma LedgerDecides(created: Goal, before: seq<Event>, goal: Goal, e: Event)
    requires Tells(created, before, goal)
    ensures Apply(goal, e).state == Ending(created, before, e)
  {
    hide Verdicts, Spent, TrailingFailures, TrailingWaits, TrailingReason, ChargedCount;
    OneMoreEvent(before, e);
    if e.Judged? {
      ReasonStreak(goal, created, before, e.verdict);
    }
  }

  /** A wait over a spent budget gets the budget's own ending unless its reason comes for the third time. */
  lemma SpentBudgetEndsExactly(created: Goal, before: seq<Event>, e: Event)
    requires Fresh(created) && ActiveRun(created, before) && After(created, before).state.Active?
    requires e.Judged? && CanOnlyWait(e.verdict) && OverBudget(created, before + [e], e.now)
    ensures var ending := After(created, before + [e]).state;
            && (ending == BudgetExhausted <==> TrailingReason(Verdicts(before), e.verdict.reason) + 1 < MAX_NO_PROGRESS)
            && (ending == BudgetExhausted || ending == BlockedUser)
  {
    EndsAsHistorySays(created, before, e);
  }

  function StillBlocked(spentTokens: int): Event {
    Judged(Verdict(false, "waiting for review", false, true), 0, spentTokens)
  }

  /** The third verdict of one reason spends the budget and loses it its ending. */
  lemma RepeatedWaitLosesItsEnding(id: string, condition: string, max: Option<int>)
    ensures var goal := CreateGoal(id, condition, 0, max, Some(Budget(Some(1), None)));
            var events := [StillBlocked(0), StillBlocked(0), StillBlocked(1)];
            && ActiveRun(goal, events) && OverBudget(goal, events, 0) && After(goal, events).state == BlockedUser
  {
    var goal := CreateGoal(id, condition, 0, max, Some(Budget(Some(1), None)));
    var one, two := [StillBlocked(0)], [StillBlocked(0), StillBlocked(0)];
    var three := two + [StillBlocked(1)];
    assert one[..0] == [] && two[..1] == one && three[..2] == two && three[..1] == one && three[..0] == [];
    assert After(goal, one) == Apply(goal, StillBlocked(0));
    assert After(goal, two) == Apply(After(goal, one), StillBlocked(0));
    assert Spent(one) == 0 && Spent(two) == 0 && Spent(three) == 1;
    assert three == [StillBlocked(0), StillBlocked(0), StillBlocked(1)];
  }

  lemma ReasonStreak(goal: Goal, created: Goal, before: seq<Event>, verdict: Verdict)
    requires Accounts(created, before, goal.ledger)
    requires var verdicts := Verdicts(before);
             goal.lastReason == if verdicts == [] then None else Some(verdicts[|verdicts| - 1].reason)
    ensures (if goal.lastReason == Some(verdict.reason) then goal.ledger.noProgressStreak + 1 else 1)
            == TrailingReason(Verdicts(before), verdict.reason) + 1
  {
  }

  // ---------- the wall clock ----------

  function ShiftEvent(e: Event, shift: int): Event {
    match e
    case Judged(verdict, now, spent) => Judged(verdict, now + shift, spent)
    case JudgeFailed(message, now, spent) => JudgeFailed(message, now + shift, spent)
    case Revised(condition, now) => Revised(condition, now + shift)
  }

  function ShiftEvents(events: seq<Event>, shift: int): seq<Event> {
    seq(|events|, k requires 0 <= k < |events| => ShiftEvent(events[k], shift))
  }

  function ShiftFailure(failure: Option<JudgeError>, shift: int): Option<JudgeError> {
    match failure
    case None => None
    case Some(JudgeError(message, at)) => Some(JudgeError(message, at + shift))
  }

  function ShiftRevisions(revisions: seq<Revision>, shift: int): seq<Revision> {
    seq(|revisions|, k requires 0 <= k < |revisions| => Revision(revisions[k].at + shift, revisions[k].from))
  }

  function ShiftGoal(goal: Goal, shift: int): Goal {
    goal.(createdAt := goal.createdAt + shift, updatedAt := goal.updatedAt + shift,
          lastJudgeError := ShiftFailure(goal.lastJudgeError, shift),
          revisions := ShiftRevisions(goal.revisions, shift))
  }

  lemma ShiftVerdict(goal: Goal, verdict: Verdict, now: int, spent: int, shift: int)
    ensures ApplyVerdict(ShiftGoal(goal, shift), verdict, now + shift, spent) ==
            ShiftGoal(ApplyVerdict(goal, verdict, now, spent), shift)
  {
    hide ShiftFailure, ShiftRevisions;
  }

  lemma ShiftApply(goal: Goal, e: Event, shift: int)
    ensures Apply(ShiftGoal(goal, shift), ShiftEvent(e, shift)) == ShiftGoal(Apply(goal, e), shift)
  {
    hide ApplyVerdict;
    match e
    case Judged(verdict, now, spent) => ShiftVerdict(goal, verdict, now, spent, shift);
    case JudgeFailed(message, now, spent) => hide ShiftRevisions;
    case Revised(condition, now) =>
      var more := goal.revisions + [Revision(now, goal.condition)];
      assert ShiftRevisions(more, shift) ==
             ShiftRevisions(goal.revisions, shift) + [Revision(now + shift, goal.condition)];
  }

  /** Only time that passes counts: the same history at another time of day ends the same way. */
  lemma {:induction false} OnlyElapsedTimeCounts(goal: Goal, events: seq<Event>, shift: int)
    ensures After(ShiftGoal(goal, shift), ShiftEvents(events, shift)) == ShiftGoal(After(goal, events), shift)
    ensures After(ShiftGoal(goal, shift), ShiftEvents(events, shift)).state == After(goal, events).state
    decreases |events|
  {
    if events != [] {
      var front, last := events[..|events| - 1], events[|events| - 1];
      OnlyElapsedTimeCounts(goal, front, shift);
      assert ShiftEvents(events, shift)[..|events| - 1] == ShiftEvents(front, shift);
      ShiftApply(After(goal, front), last, shift);
    }
  }

  function NotMet(now: int): Event {
    Judged(Verdict(false, "not met", false, false), now, 0)
  }

  /** A wall-clock budget runs from the making of the goal: active a millisecond before it is up, ended when it is. */
  lemma WallClockRunsFromCreation(id: string, condition: string, now: int, wallClockMs: int)
    requires wallClockMs > 0
    ensures var goal := CreateGoal(id, condition, now, None, Some(Budget(None, Some(wallClockMs))));
            && After(goal, [NotMet(now + wallClockMs - 1)]).state == Active
            && After(goal, [NotMet(now + wallClockMs)]).state == BudgetExhausted
  {
    assert [NotMet(now + wallClockMs)][..0] == [] && [NotMet(now + wallClockMs - 1)][..0] == [];
  }

  /** A goal made without a limit of its own is evaluated at most 8 * 12 * 3 times. */
  lemma DefaultGoalBound(id: string, condition: string, now: int, budget: Option<Budget>, events: seq<Event>)
    requires ActiveRun(CreateGoal(id, condition, now, None, budget), events)
    ensures Evaluations(events) <= 288
  {
    EvaluationBound(id, condition, now, None, budget, events);
  }

  /** And some run takes that many. */
  lemma DefaultGoalBoundIsReached(id: string, condition: string, now: int)
    ensures var goal := CreateGoal(id, condition, now, None, None);
            && ActiveRun(goal, LongestRun(288)) && Evaluations(LongestRun(288)) == 288
            && After(goal, LongestRun(288)).state == Capped
  {
    DefaultBoundIs288(id, condition, now);
    hide After, ActiveRun, Evaluations, LongestRun;
    EvaluationBoundIsReached(id, condition, now, None);
  }

  lemma DefaultBoundIs288(id: string, condition: string, now: int)
    ensures var limit := CreateGoal(id, condition, now, None, None).ledger.maxIterations;
            EffectiveMax(limit) * MAX_PENDING * MAX_JUDGE_ERRORS == 288
  {
  }

  /** Two unmet verdicts of one reason leave a goal active, the third blocks it. */
  lemma ThirdRepetitionBlocks(id: string, condition: string, now: int)
    ensures var goal, same := CreateGoal(id, condition, now, None, None), NotMet(now);
            && After(goal, [same]).state == After(goal, [same, same]).state == Active
            && After(goal, [same, same, same]).state == BlockedUser
  {
    var goal, same := CreateGoal(id, condition, now, None, None), NotMet(now);
    var one, two, three := [same], [same, same], [same, same, same];
    assert one[..0] == [] && two[..1] == one && three[..2] == two;
    assert After(goal, one) == Apply(goal, same);
    assert After(goal, two) == Apply(After(goal, one), same);
  }

  // ---------- what a goal keeps of its history ----------

  /** A new goal is what was asked for, with nothing spent. */
  lemma NewGoal(id: string, condition: string, now: int, max: Option<int>, budget: Option<Budget>)
    ensures var goal := CreateGoal(id, condition, now, max, budget);
            && Fresh(goal) && goal.id == id && goal.condition == condition && goal.revisions == []
            && goal.createdAt == goal.updatedAt == now && goal.lastJudgeError.None?
            && goal.ledger.budget == budget && (max.Some? ==> goal.ledger.maxIterations == max.value)
  {
  }

  /** The last failure of the evaluator, its message cut off. */
  function LastFailure(events: seq<Event>): Option<JudgeError> {
    if events == [] then None
    else
      match events[|events| - 1]
      case JudgeFailed(message, now, _) => Some(JudgeError(if |message| > 300 then message[..300] else message, now))
      case _ => LastFailure(events[..|events| - 1])
  }

  /** The conditions a goal has had, the latest last. */
  function Conditions(created: Goal, events: seq<Event>): (conditions: seq<string>)
    ensures conditions != []
  {
    if events == [] then [created.condition]
    else
      Conditions(created, events[..|events| - 1]) +
      if events[|events| - 1].Revised? then [events[|events| - 1].condition] else []
  }

  function TimeOf(e: Event): int {
    e.now
  }

  /** What one event changes beside the ledger. */
  lemma ApplyRemembers(goal: Goal, e: Event)
    ensures var next := Apply(goal, e);
            && next.id == goal.id && next.createdAt == goal.createdAt && next.updatedAt == TimeOf(e)
            && next.condition == (if e.Revised? then e.condition else goal.condition)
            && next.revisions == goal.revisions + (if e.Revised? then [Revision(e.now, goal.condition)] else [])
            && (e.JudgeFailed? ==> next.lastJudgeError == LastFailure([e]))
            && (!e.JudgeFailed? ==> next.lastJudgeError == goal.lastJudgeError)
  {
  }

  /**
   Whatever happens, a goal names its latest condition and every one it left
   behind, in order; keeps the last failure of its evaluator, through verdicts
   too; and was last updated by the last event.
   */
  lemma {:induction false} NothingIsForgotten(created: Goal, events: seq<Event>)
    requires created.revisions == [] && created.lastJudgeError.None?
    ensures var goal, conditions := After(created, events), Conditions(created, events);
            && goal.id == created.id && goal.createdAt == created.createdAt
            && goal.condition == conditions[|conditions| - 1]
            && |goal.revisions| == |conditions| - 1
            && (forall k :: 0 <= k < |goal.revisions| ==> goal.revisions[k].from == conditions[k])
            && goal.lastJudgeError == LastFailure(events)
            && (events != [] ==> goal.updatedAt == TimeOf(events[|events| - 1]))
    decreases |events|
  {
    hide Apply;
    if events != [] {
      NothingIsForgotten(created, events[..|events| - 1]);
      ApplyRemembers(After(created, events[..|events| - 1]), events[|events| - 1]);
    }
  }

  /** A revision is recorded with its time, and spends nothing. */
  lemma RevisionIsRecorded(created: Goal, events: seq<Event>, condition: string, now: int)
    ensures var goal, next := After(created, events), After(created, events + [Revised(condition, now)]);
            && next.ledger == goal.ledger && next.state == goal.state
            && next.revisions == goal.revisions + [Revision(now, goal.condition)]
  {
    assert (events + [Revised(condition, now)])[..|events|] == events;
  }
}
