/**
 Running one batch of workers: every dispatch retries on its own, in any
 interleaving with the others, and all retries draw on one shared pool.
 */
module RunWorkers {
  import opened PlanSchema
  import opened PlanGraph
  import opened RunInvariant
  import opened RunSteps
  import opened RunBudget

  datatype WorkerResult = WorkerResult(ok: bool, value: Value, tokens: nat, error: string)

  /**
   The outside of a run. `spawn` also takes the number of the attempt, and like
   `aborted` how often the outside has been asked before, so they stand for any
   spawner and any signal.
   */
  datatype Outside = Outside(spawn: (Dispatch, nat, nat) -> WorkerResult,
                             aborted: nat -> bool,
                             renderError: Dispatch -> Option<string>,
                             signature: string -> string)

  const DEFAULT_RETRIES := 2
  const RETRY_CEILING := 3
  const WITHHELD :=
    " (retry withheld: the remaining agent cap is reserved for nodes that have not run yet — " +
    "raise caps.maxAgents to allow retries)"

  /** How far the retry loop of one dispatch has come. */
  datatype Progress = Progress(attempts: nat, tokens: nat, last: WorkerResult, finished: bool)

  function MaxAttempts(d: Dispatch): nat {
    Min(d.spec.retries.GetOr(DEFAULT_RETRIES), RETRY_CEILING) + 1
  }

  ghost predicate Faithful(w: World, out: Outside) {
    w.functional ==> forall d, n, t :: out.spawn(d, n, t).ok ==> out.spawn(d, n, t).value == w.work(d)
  }

  function Start(out: Outside, d: Dispatch): Progress {
    var problem := out.renderError(d);
    Progress(0, 0, WorkerResult(false, Null, 0, problem.GetOr("never ran")), problem.Some?)
  }

  ghost function Sum(s: seq<nat>): nat {
    if s == [] then 0 else Sum(s[..|s| - 1]) + s[|s| - 1]
  }

  lemma {:induction false} SumUpdate(s: seq<nat>, i: nat, v: nat)
    requires i < |s|
    ensures Sum(s[i := v]) == Sum(s) - s[i] + v
    decreases |s|
  {
    var t := s[i := v];
    if i == |s| - 1 {
      assert t[..|t| - 1] == s[..|s| - 1];
    } else {
      assert t[..|t| - 1] == s[..|s| - 1][i := v];
      SumUpdate(s[..|s| - 1], i, v);
    }
  }

  /** What is left to do of one dispatch: zero exactly when it is finished. */
  ghost function StepsLeft(d: Dispatch, p: Progress): nat {
    if p.finished || p.attempts > MaxAttempts(d) then 0 else 1 + MaxAttempts(d) - p.attempts
  }

  ghost function Extra(p: Progress): nat {
    if p.attempts == 0 then 0 else p.attempts - 1
  }

  /** What is true of a dispatch at every point of its retries; `paid` lists its attempts' tokens. */
  ghost predicate Sound(w: World, d: Dispatch, p: Progress, paid: seq<nat>) {
    && p.attempts == |paid| <= MaxAttempts(d) && p.tokens == Sum(paid)
    && (p.last.ok ==> p.finished && (w.functional ==> p.last.value == w.work(d)))
  }

  /** One turn of the retry loop: the progress, the pool, and what the turn was billed. */
  ghost function TurnOf(out: Outside, d: Dispatch, p: Progress, spare: int, tick: nat): (Progress, int, seq<nat>) {
    if p.attempts >= MaxAttempts(d) then (p.(finished := true), spare, [])
    else if out.aborted(tick) then (p.(finished := true, last := p.last.(error := "aborted")), spare, [])
    else if p.attempts > 0 && spare <= 0 then
      (p.(finished := true, last := p.last.(error := p.last.error + WITHHELD)), spare, [])
    else
      var last := out.spawn(d, p.attempts, tick);
      (Progress(p.attempts + 1, p.tokens + last.tokens, last, last.ok), if p.attempts > 0 then spare - 1 else spare,
       [last.tokens])
  }

  /** Stop, or take an admission and run one worker. */
  method Turn(out: Outside, d: Dispatch, p: Progress, spare: int, tick: nat) returns (p': Progress, spare': int)
    ensures (p', spare') == (TurnOf(out, d, p, spare, tick).0, TurnOf(out, d, p, spare, tick).1)
  {
    p', spare' := p, spare;
    if p.attempts >= MaxAttempts(d) {
      p' := p.(finished := true);
    } else if out.aborted(tick) {
      p' := p.(finished := true, last := p.last.(error := "aborted"));
    } else if p.attempts > 0 && spare <= 0 {
      p' := p.(finished := true, last := p.last.(error := p.last.error + WITHHELD));
    } else {
      if p.attempts > 0 {
        spare' := spare - 1;
      }
      var last := out.spawn(d, p.attempts, tick);
      p' := Progress(p.attempts + 1, p.tokens + last.tokens, last, last.ok);
    }
  }

  /** A turn keeps the account of its dispatch, comes closer to its end and takes one from the pool at most. */
  lemma TurnIsSound(w: World, out: Outside, d: Dispatch, p: Progress, spare: int, tick: nat, paid: seq<nat>)
    requires Faithful(w, out) && Sound(w, d, p, paid) && !p.finished
    ensures var (p', spare', bill) := TurnOf(out, d, p, spare, tick);
            && Sound(w, d, p', paid + bill) && StepsLeft(d, p') < StepsLeft(d, p)
            && spare - spare' == Extra(p') - Extra(p) && Extra(p) <= Extra(p') && (spare' < spare ==> spare' >= 0)
  {
    var bill := TurnOf(out, d, p, spare, tick).2;
    if bill != [] {
      assert (paid + bill)[..|paid|] == paid;
    } else {
      assert paid + bill == paid;
    }
  }

  ghost predicate AllSound(w: World, batch: seq<Dispatch>, ps: seq<Progress>, paid: seq<seq<nat>>) {
    && |ps| == |batch| == |paid|
    && forall k :: 0 <= k < |batch| ==> Sound(w, batch[k], ps[k], paid[k])
  }

  ghost function Left(batch: seq<Dispatch>, ps: seq<Progress>): seq<nat>
    requires |ps| == |batch|
  {
    seq(|ps|, k requires 0 <= k < |ps| => StepsLeft(batch[k], ps[k]))
  }

  ghost function Extras(ps: seq<Progress>): seq<nat> {
    seq(|ps|, k requires 0 <= k < |ps| => Extra(ps[k]))
  }

  lemma ReplaceOne(batch: seq<Dispatch>, ps: seq<Progress>, i: nat, p: Progress)
    requires |ps| == |batch| && i < |ps|
    ensures Sum(Left(batch, ps[i := p])) == Sum(Left(batch, ps)) - StepsLeft(batch[i], ps[i]) + StepsLeft(batch[i], p)
    ensures Sum(Extras(ps[i := p])) == Sum(Extras(ps)) - Extra(ps[i]) + Extra(p)
  {
    assert Left(batch, ps[i := p]) == Left(batch, ps)[i := StepsLeft(batch[i], p)];
    assert Extras(ps[i := p]) == Extras(ps)[i := Extra(p)];
    SumUpdate(Left(batch, ps), i, StepsLeft(batch[i], p));
    SumUpdate(Extras(ps), i, Extra(p));
  }

  function Verdict(d: Dispatch, p: Progress): Settled {
    Settled(d, AttemptedResult(p.last.ok, p.last.value, p.tokens, p.attempts, p.last.error))
  }

  ghost function Verdicts(batch: seq<Dispatch>, ps: seq<Progress>): seq<Settled>
    requires |ps| == |batch|
  {
    seq(|batch|, k requires 0 <= k < |batch| => Verdict(batch[k], ps[k]))
  }

  lemma {:induction false} RetriesAreExtras(settled: seq<Settled>, ps: seq<Progress>)
    requires |settled| == |ps|
    requires forall k :: 0 <= k < |ps| ==> settled[k].result.attempts == ps[k].attempts
    ensures Retries(settled) == Sum(Extras(ps))
    decreases |ps|
  {
    if ps != [] {
      var front := ps[..|ps| - 1];
      RetriesAreExtras(settled[..|settled| - 1], front);
      assert Extras(ps)[..|ps| - 1] == Extras(front);
    }
  }

  lemma {:induction false} StartHasNoExtras(ps: seq<Progress>)
    requires forall k :: 0 <= k < |ps| ==> ps[k].attempts == 0
    ensures Sum(Extras(ps)) == 0
    decreases |ps|
  {
    if ps != [] {
      StartHasNoExtras(ps[..|ps| - 1]);
      assert Extras(ps)[..|ps| - 1] == Extras(ps[..|ps| - 1]);
    }
  }

  /** What a batch cost and who paid: every attempt once, and retries only from the pool. */
  ghost predicate Billed(batch: seq<Dispatch>, settled: seq<Settled>, paid: seq<seq<nat>>) {
    && |settled| == |batch| == |paid|
    && forall k :: 0 <= k < |batch| ==>
         && settled[k].result.attempts == |paid[k]| <= MaxAttempts(batch[k])
         && settled[k].result.tokens == Sum(paid[k])
  }

  // ---------- a batch at work ----------

  /** The workers of a batch at some point: their progress, their bills, the shared pool and the clock. */
  datatype Pool = Pool(ps: seq<Progress>, paid: seq<seq<nat>>, spare: int, tick: nat)

  ghost predicate Fits(batch: seq<Dispatch>, pool: Pool) {
    |pool.ps| == |batch| == |pool.paid|
  }

  ghost function Opening(out: Outside, batch: seq<Dispatch>, spare: int, tick: nat): (pool: Pool)
    ensures Fits(batch, pool)
  {
    Pool(seq(|batch|, k requires 0 <= k < |batch| => Start(out, batch[k])), seq(|batch|, k => []), spare, tick)
  }

  /** One turn of the dispatch at `i`; the others stand still. */
  ghost function PlayOne(out: Outside, batch: seq<Dispatch>, pool: Pool, i: nat): (pool': Pool)
    requires Fits(batch, pool)
    ensures Fits(batch, pool')
  {
    if i >= |batch| || pool.ps[i].finished then pool
    else
      var (p, spare, bill) := TurnOf(out, batch[i], pool.ps[i], pool.spare, pool.tick);
      Pool(pool.ps[i := p], pool.paid[i := pool.paid[i] + bill], spare, pool.tick + 1)
  }

  /** The turns of a whole schedule, which names the dispatch of each turn. */
  ghost function Play(out: Outside, batch: seq<Dispatch>, pool: Pool, schedule: seq<nat>): (pool': Pool)
    requires Fits(batch, pool)
    ensures Fits(batch, pool')
    decreases |schedule|
  {
    if schedule == [] then pool
    else PlayOne(out, batch, Play(out, batch, pool, schedule[..|schedule| - 1]), schedule[|schedule| - 1])
  }

  ghost predicate PlayedOut(pool: Pool) {
    forall k :: 0 <= k < |pool.ps| ==> pool.ps[k].finished
  }

  /** What is true of a batch at every point of every schedule. */
  ghost predicate Played(w: World, batch: seq<Dispatch>, spare: int, pool: Pool) {
    && AllSound(w, batch, pool.ps, pool.paid)
    && Sum(Extras(pool.ps)) == spare - pool.spare && (pool.spare < spare ==> pool.spare >= 0)
  }

  lemma OpeningIsPlayed(w: World, out: Outside, batch: seq<Dispatch>, spare: int, tick: nat)
    ensures Played(w, batch, spare, Opening(out, batch, spare, tick))
  {
    StartHasNoExtras(Opening(out, batch, spare, tick).ps);
  }

  lemma PlayOneKeeps(w: World, out: Outside, batch: seq<Dispatch>, spare: int, pool: Pool, i: nat)
    requires Faithful(w, out) && Played(w, batch, spare, pool) && i < |batch| && !pool.ps[i].finished
    ensures Played(w, batch, spare, PlayOne(out, batch, pool, i))
    ensures Sum(Left(batch, PlayOne(out, batch, pool, i).ps)) < Sum(Left(batch, pool.ps))
  {
    hide TurnOf, Sum, StepsLeft, Extra;
    TurnIsSound(w, out, batch[i], pool.ps[i], pool.spare, pool.tick, pool.paid[i]);
    ReplaceOne(batch, pool.ps, i, TurnOf(out, batch[i], pool.ps[i], pool.spare, pool.tick).0);
  }

  lemma {:induction false} PlayKeeps(w: World, out: Outside, batch: seq<Dispatch>, spare: int, tick: nat,
                                     schedule: seq<nat>)
    requires Faithful(w, out)
    ensures Played(w, batch, spare, Play(out, batch, Opening(out, batch, spare, tick), schedule))
    decreases |schedule|
  {
    hide Played, PlayOne;
    if schedule == [] {
      OpeningIsPlayed(w, out, batch, spare, tick);
    } else {
      var front, i := schedule[..|schedule| - 1], schedule[|schedule| - 1];
      PlayKeeps(w, out, batch, spare, tick, front);
      PlayOneOrStill(w, out, batch, spare, Play(out, batch, Opening(out, batch, spare, tick), front), i);
    }
  }

  lemma PlayOneOrStill(w: World, out: Outside, batch: seq<Dispatch>, spare: int, pool: Pool, i: nat)
    requires Faithful(w, out) && Played(w, batch, spare, pool)
    ensures Fits(batch, pool) && Played(w, batch, spare, PlayOne(out, batch, pool, i))
  {
    if i < |batch| && !pool.ps[i].finished {
      PlayOneKeeps(w, out, batch, spare, pool, i);
    }
  }

  /** What comes of a batch, whatever the schedule: verdicts, their bills, and retries within the pool. */
  lemma PlayIsOutcome(w: World, out: Outside, batch: seq<Dispatch>, spare: int, pool: Pool)
    requires Played(w, batch, spare, pool)
    ensures Outcome(w, batch, Verdicts(batch, pool.ps)) && Billed(batch, Verdicts(batch, pool.ps), pool.paid)
    ensures Retries(Verdicts(batch, pool.ps)) <= Max(0, spare)
  {
    RetriesAreExtras(Verdicts(batch, pool.ps), pool.ps);
  }

  /** Every batch can be played to its end. */
  lemma {:induction false} PlayEnds(w: World, out: Outside, batch: seq<Dispatch>, spare: int, tick: nat,
                                    begun: seq<nat>) returns (schedule: seq<nat>)
    requires Faithful(w, out)
    ensures PlayedOut(Play(out, batch, Opening(out, batch, spare, tick), schedule))
    decreases Sum(Left(batch, Play(out, batch, Opening(out, batch, spare, tick), begun).ps))
  {
    hide Played, PlayOne, Sum;
    var opening := Opening(out, batch, spare, tick);
    var pool := Play(out, batch, opening, begun);
    if PlayedOut(pool) {
      schedule := begun;
    } else {
      var i: nat :| i < |pool.ps| && !pool.ps[i].finished;
      PlayKeeps(w, out, batch, spare, tick, begun);
      PlayOneKeeps(w, out, batch, spare, pool, i);
      assert (begun + [i])[..|begun|] == begun;
      schedule := PlayEnds(w, out, batch, spare, tick, begun + [i]);
    }
  }

  /**
   All dispatches of a batch to their end. The order of their attempts is left
   open; `schedule` records the one taken.
   */
  method RunBatch(ghost w: World, out: Outside, batch: seq<Dispatch>, spare: int, tick: nat)
    returns (settled: seq<Settled>, tick': nat, ghost schedule: seq<nat>)
    requires Faithful(w, out)
    ensures var pool := Play(out, batch, Opening(out, batch, spare, tick), schedule);
            PlayedOut(pool) && settled == Verdicts(batch, pool.ps) && tick' == pool.tick
    ensures Outcome(w, batch, settled) && Retries(settled) <= Max(0, spare)
  {
    hide TurnOf, Played, Sum, Outcome, Retries, Max;
    var ps := seq(|batch|, k requires 0 <= k < |batch| => Start(out, batch[k]));
    var pool := spare;
    tick', schedule := tick, [];
    ghost var opening := Opening(out, batch, spare, tick);
    ghost var now := opening;
    while exists i | 0 <= i < |ps| :: !ps[i].finished
      invariant now == Play(out, batch, opening, schedule)
      invariant ps == now.ps && pool == now.spare && tick' == now.tick
      decreases Sum(Left(batch, now.ps))
    {
      var i :| 0 <= i < |ps| && !ps[i].finished;
      PlayKeeps(w, out, batch, spare, tick, schedule);
      PlayOneKeeps(w, out, batch, spare, now, i);
      var p;
      p, pool := Turn(out, batch[i], ps[i], pool, tick');
      assert (schedule + [i])[..|schedule|] == schedule;
      ps, tick', schedule := ps[i := p], tick' + 1, schedule + [i];
      now := PlayOne(out, batch, now, i);
    }
    settled := seq(|batch|, k requires 0 <= k < |batch| => Verdict(batch[k], ps[k]));
    PlayKeeps(w, out, batch, spare, tick, schedule);
    PlayIsOutcome(w, out, batch, spare, now);
  }
}
