/**
 Why a worker's verdict is what it is (`spawnWithRetry` in
 extensions/agenda/executor.ts), whatever the order of the attempts in its batch:
 a success was returned by its last attempt, and a failure has one of four reasons.
 */
module RunVerdicts {
  import opened PlanSchema
  import opened PlanGraph
  import opened RunSteps
  import opened RunWorkers
  import opened RunInvariant

  /** Two retries unless the plan says otherwise, and never more than three. */
  ghost function AttemptsAllowed(d: Dispatch): nat {
    match d.spec.retries
    case None => 3
    case Some(n) => if n <= 3 then n + 1 else 4
  }

  /** An attempt of this dispatch, begun while there was no abort, returned this. */
  ghost predicate Returned(out: Outside, d: Dispatch, attempt: nat, tick: nat, result: WorkerResult) {
    exists t: nat :: t < tick && !out.aborted(t) && out.spawn(d, attempt, t) == result
  }

  ghost predicate AbortedBefore(out: Outside, tick: nat) {
    exists t: nat :: t < tick && out.aborted(t)
  }

  ghost predicate SaysWithheld(error: string) {
    exists cause ::
      error == cause + (" (retry withheld: the remaining agent cap is reserved for nodes that have not run yet — " +
                        "raise caps.maxAgents to allow retries)")
  }

  /** No attempts left, an abort, or a retry that the pool could not pay. */
  ghost predicate GaveUp(out: Outside, d: Dispatch, p: Progress, spare: int, tick: nat) {
    || p.attempts == AttemptsAllowed(d)
    || (p.last.error == "aborted" && AbortedBefore(out, tick))
    || (0 < p.attempts && spare <= 0 && SaysWithheld(p.last.error))
  }

  ghost predicate Reasoned(out: Outside, d: Dispatch, p: Progress, spare: int, tick: nat) {
    && p.attempts <= AttemptsAllowed(d)
    && match out.renderError(d)
       case Some(error) => p.finished && !p.last.ok && p.attempts == 0 && p.tokens == 0 && p.last.error == error
       case None =>
         && (p.last.ok ==> p.finished && 0 < p.attempts && Returned(out, d, p.attempts - 1, tick, p.last))
         && (p.finished && !p.last.ok ==> GaveUp(out, d, p, spare, tick))
  }

  lemma StartIsReasoned(out: Outside, d: Dispatch, spare: int, tick: nat)
    ensures Reasoned(out, d, Start(out, d), spare, tick)
  {
  }

  /** Later turns of others leave a reason standing. */
  lemma StaysReasoned(out: Outside, d: Dispatch, p: Progress, spare: int, tick: nat, spare': int, tick': nat)
    requires Reasoned(out, d, p, spare, tick) && spare' <= spare && tick <= tick'
    ensures Reasoned(out, d, p, spare', tick')
  {
  }

  lemma TurnIsReasoned(out: Outside, d: Dispatch, p: Progress, spare: int, tick: nat)
    requires Reasoned(out, d, p, spare, tick) && !p.finished
    ensures var (p', spare', bill) := TurnOf(out, d, p, spare, tick);
            Reasoned(out, d, p', spare', tick + 1) && spare' <= spare
  {
    assert MaxAttempts(d) == AttemptsAllowed(d);
  }

  ghost predicate AllReasoned(out: Outside, batch: seq<Dispatch>, pool: Pool) {
    Fits(batch, pool) && forall k :: 0 <= k < |batch| ==> Reasoned(out, batch[k], pool.ps[k], pool.spare, pool.tick)
  }

  lemma PlayOneIsReasoned(out: Outside, batch: seq<Dispatch>, pool: Pool, i: nat)
    requires AllReasoned(out, batch, pool)
    ensures AllReasoned(out, batch, PlayOne(out, batch, pool, i))
  {
    hide TurnOf, Reasoned;
    if i < |batch| && !pool.ps[i].finished {
      TurnIsReasoned(out, batch[i], pool.ps[i], pool.spare, pool.tick);
      var pool' := PlayOne(out, batch, pool, i);
      forall k | 0 <= k < |batch| ensures Reasoned(out, batch[k], pool'.ps[k], pool'.spare, pool'.tick) {
        if k != i {
          StaysReasoned(out, batch[k], pool.ps[k], pool.spare, pool.tick, pool'.spare, pool'.tick);
        }
      }
    }
  }

  lemma {:induction false} PlayIsReasoned(out: Outside, batch: seq<Dispatch>, spare: int, tick: nat,
                                          schedule: seq<nat>)
    ensures AllReasoned(out, batch, Play(out, batch, Opening(out, batch, spare, tick), schedule))
    decreases |schedule|
  {
    hide PlayOne, Reasoned;
    if schedule == [] {
      forall k | 0 <= k < |batch| ensures Reasoned(out, batch[k], Start(out, batch[k]), spare, tick) {
        StartIsReasoned(out, batch[k], spare, tick);
      }
    } else {
      var front := schedule[..|schedule| - 1];
      PlayIsReasoned(out, batch, spare, tick, front);
      var pool := Play(out, batch, Opening(out, batch, spare, tick), front);
      PlayOneIsReasoned(out, batch, pool, schedule[|schedule| - 1]);
    }
  }

  /** An attempt of this dispatch, begun while there was no abort, succeeded with this value. */
  ghost predicate Succeeded(out: Outside, d: Dispatch, attempt: nat, tick: nat, value: Value) {
    exists t: nat ::
      t < tick && !out.aborted(t) && out.spawn(d, attempt, t).ok && out.spawn(d, attempt, t).value == value
  }

  ghost predicate HasReason(out: Outside, d: Dispatch, r: AttemptedResult, spare: int, tick: nat) {
    && r.attempts <= AttemptsAllowed(d)
    && match out.renderError(d)
       case Some(error) => !r.ok && r.attempts == 0 && r.tokens == 0 && r.error == error
       case None =>
         if r.ok then r.attempts > 0 && Succeeded(out, d, r.attempts - 1, tick, r.value)
         else
           || r.attempts == AttemptsAllowed(d)
           || (r.error == "aborted" && AbortedBefore(out, tick))
           || (r.attempts > 0 && spare <= 0 && SaysWithheld(r.error))
  }

  lemma ReasonedHasReason(out: Outside, d: Dispatch, p: Progress, spare: int, tick: nat)
    requires Reasoned(out, d, p, spare, tick) && p.finished
    ensures HasReason(out, d, Verdict(d, p).result, spare, tick)
  {
  }

  /**
   Every verdict of a batch has its reason: work that could not be rendered was
   never attempted and says so; a success is what the last attempt returned; any
   other failure had no attempt left, was aborted, or was refused its retry.
   */
  lemma VerdictsHaveReasons(out: Outside, batch: seq<Dispatch>, spare: int, tick: nat, schedule: seq<nat>, k: nat)
    requires k < |batch| && PlayedOut(Play(out, batch, Opening(out, batch, spare, tick), schedule))
    ensures var pool := Play(out, batch, Opening(out, batch, spare, tick), schedule);
            var verdict := Verdicts(batch, pool.ps)[k];
            verdict.dispatch == batch[k] && HasReason(out, batch[k], verdict.result, pool.spare, pool.tick)
  {
    hide Play, Reasoned, HasReason, Opening;
    PlayIsReasoned(out, batch, spare, tick, schedule);
    var pool := Play(out, batch, Opening(out, batch, spare, tick), schedule);
    ReasonedHasReason(out, batch[k], pool.ps[k], pool.spare, pool.tick);
  }

  // ---------- after an abort ----------

  ghost predicate AbortedFrom(out: Outside, tick: nat) {
    forall t: nat :: t >= tick ==> out.aborted(t)
  }

  ghost predicate Untouched(out: Outside, batch: seq<Dispatch>, pool: Pool, tick: nat) {
    && Fits(batch, pool) && pool.tick >= tick
    && forall k :: 0 <= k < |batch| ==> pool.ps[k].attempts == 0 && !pool.ps[k].last.ok && pool.paid[k] == []
  }

  /** Once the signal is set, a batch starts no worker, whatever the order of its turns. */
  lemma {:induction false} AbortStartsNothing(out: Outside, batch: seq<Dispatch>, spare: int, tick: nat,
                                              schedule: seq<nat>)
    requires AbortedFrom(out, tick)
    ensures Untouched(out, batch, Play(out, batch, Opening(out, batch, spare, tick), schedule), tick)
    decreases |schedule|
  {
    if schedule != [] {
      AbortStartsNothing(out, batch, spare, tick, schedule[..|schedule| - 1]);
    }
  }
}
