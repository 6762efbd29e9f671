/**
 An outside in which every worker fails as often as it is told and then
 succeeds, and what becomes of a batch under it.
 */
module RunScript {
  import opened PlanSchema
  import opened Upstream
  import opened PlanGraph
  import opened RunInvariant
  import opened RunSteps
  import opened RunProgress
  import opened RunBudget
  import opened RunWorkers
  import opened RunAccounts
  import opened RunLaws
  import opened RunSemantics

  /** How many attempts each dispatch takes, and what each failing one costs. */
  datatype Script = Script(want: Dispatch -> nat, cost: Dispatch -> nat)

  /** An outside that follows the script: no abort, no rendering problem, no failure in the end. */
  ghost function Follows(w: World, script: Script): Outside {
    Outside((d: Dispatch, n: nat, t: nat) =>
              if n + 1 < script.want(d) then WorkerResult(false, Null, script.cost(d), "not yet")
              else WorkerResult(true, w.work(d), 0, ""),
            (t: nat) => false, (d: Dispatch) => None, (s: string) => s)
  }

  lemma FollowsIsFaithful(w: World, script: Script)
    ensures Faithful(w, Follows(w, script))
  {
  }

  ghost function CostOf(script: Script, d: Dispatch, j: nat): nat {
    if j + 1 < script.want(d) then script.cost(d) else 0
  }

  /** The bills of a worker sequence that has made `n` attempts. */
  ghost function Scripted(script: Script, d: Dispatch, n: nat): seq<nat> {
    seq(n, j requires 0 <= j < n => CostOf(script, d, j))
  }

  // ---------- one batch ----------

  ghost predicate OnTrack(w: World, script: Script, d: Dispatch, p: Progress, paid: seq<nat>) {
    && p.attempts <= script.want(d) && paid == Scripted(script, d, p.attempts) && p.tokens == Sum(paid)
    && (p.finished <==> p.attempts == script.want(d))
    && (p.finished ==> p.last == WorkerResult(true, w.work(d), 0, ""))
  }

  ghost function AskedOf(script: Script, d: Dispatch): nat {
    if script.want(d) == 0 then 0 else script.want(d) - 1
  }

  /** The attempts beyond the first that the script asks of each dispatch. */
  ghost function Asked(script: Script, batch: seq<Dispatch>): seq<nat> {
    seq(|batch|, k requires 0 <= k < |batch| => AskedOf(script, batch[k]))
  }

  /** Every dispatch may take the attempts asked of it, and the pool can fund them. */
  ghost predicate Fundable(script: Script, batch: seq<Dispatch>, spare: int) {
    && (forall d :: d in batch ==> 1 <= script.want(d) <= MaxAttempts(d))
    && (Sum(Asked(script, batch)) <= spare || forall d :: d in batch ==> script.want(d) == 1)
  }

  lemma {:induction false} SumLess(a: seq<nat>, b: seq<nat>, i: nat)
    requires |a| == |b| && (forall k :: 0 <= k < |a| ==> a[k] <= b[k]) && i < |a| && a[i] < b[i]
    ensures Sum(a) < Sum(b)
    decreases |a|
  {
    if i == |a| - 1 {
      SumAtMost(a[..|a| - 1], b[..|b| - 1]);
    } else {
      SumLess(a[..|a| - 1], b[..|b| - 1], i);
    }
  }

  lemma {:induction false} SumAtMost(a: seq<nat>, b: seq<nat>)
    requires |a| == |b| && forall k :: 0 <= k < |a| ==> a[k] <= b[k]
    ensures Sum(a) <= Sum(b)
    decreases |a|
  {
    if a != [] {
      SumAtMost(a[..|a| - 1], b[..|b| - 1]);
    }
  }

  ghost predicate AllOnTrack(w: World, script: Script, batch: seq<Dispatch>, pool: Pool)
    requires Fits(batch, pool)
  {
    forall k :: 0 <= k < |batch| ==> OnTrack(w, script, batch[k], pool.ps[k], pool.paid[k])
  }

  lemma OpeningOnTrack(w: World, script: Script, batch: seq<Dispatch>, spare: int, tick: nat)
    requires Fundable(script, batch, spare)
    ensures AllOnTrack(w, script, batch, Opening(Follows(w, script), batch, spare, tick))
  {
    forall k | 0 <= k < |batch| ensures 1 <= script.want(batch[k]) {
      assert batch[k] in batch;
    }
  }

  lemma OneTurnOnTrack(w: World, script: Script, d: Dispatch, p: Progress, spare: int, tick: nat, paid: seq<nat>)
    requires OnTrack(w, script, d, p, paid) && !p.finished && script.want(d) <= MaxAttempts(d)
    requires p.attempts > 0 ==> spare > 0
    ensures var (p', _, bill) := TurnOf(Follows(w, script), d, p, spare, tick); OnTrack(w, script, d, p', paid + bill)
  {
    var bill := TurnOf(Follows(w, script), d, p, spare, tick).2;
    assert paid + bill == Scripted(script, d, p.attempts + 1);
    assert (paid + bill)[..|paid|] == paid;
  }

  /** As long as an attempt asked for is still to come, the pool can fund it. */
  lemma PoolSuffices(w: World, script: Script, batch: seq<Dispatch>, spare: int, pool: Pool, i: nat)
    requires Fundable(script, batch, spare) && Played(w, batch, spare, pool) && Fits(batch, pool)
    requires AllOnTrack(w, script, batch, pool) && i < |batch| && !pool.ps[i].finished && pool.ps[i].attempts > 0
    ensures pool.spare > 0
  {
    hide Sum, Scripted;
    assert batch[i] in batch;
    forall k | 0 <= k < |batch| ensures Extras(pool.ps)[k] <= Asked(script, batch)[k] {
      assert OnTrack(w, script, batch[k], pool.ps[k], pool.paid[k]);
    }
    assert OnTrack(w, script, batch[i], pool.ps[i], pool.paid[i]);
    SumLess(Extras(pool.ps), Asked(script, batch), i);
  }

  lemma {:induction false} PlayOnTrack(w: World, script: Script, batch: seq<Dispatch>, spare: int, tick: nat,
                                       schedule: seq<nat>)
    requires Fundable(script, batch, spare)
    ensures var out := Follows(w, script);
            AllOnTrack(w, script, batch, Play(out, batch, Opening(out, batch, spare, tick), schedule))
    decreases |schedule|
  {
    hide OnTrack, TurnOf, Played, Fundable;
    var out := Follows(w, script);
    var opening := Opening(out, batch, spare, tick);
    if schedule == [] {
      OpeningOnTrack(w, script, batch, spare, tick);
    } else {
      var front, i := schedule[..|schedule| - 1], schedule[|schedule| - 1];
      PlayOnTrack(w, script, batch, spare, tick, front);
      FollowsIsFaithful(w, script);
      PlayKeeps(w, out, batch, spare, tick, front);
      StepOnTrack(w, script, batch, spare, Play(out, batch, opening, front), i);
    }
  }

  lemma StepOnTrack(w: World, script: Script, batch: seq<Dispatch>, spare: int, pool: Pool, i: nat)
    requires Fundable(script, batch, spare) && Fits(batch, pool) && Played(w, batch, spare, pool)
    requires AllOnTrack(w, script, batch, pool)
    ensures AllOnTrack(w, script, batch, PlayOne(Follows(w, script), batch, pool, i))
  {
    hide OnTrack, TurnOf, Played;
    if i < |batch| && !pool.ps[i].finished {
      assert batch[i] in batch;
      if pool.ps[i].attempts > 0 {
        PoolSuffices(w, script, batch, spare, pool, i);
      }
      OneTurnOnTrack(w, script, batch[i], pool.ps[i], pool.spare, pool.tick, pool.paid[i]);
    }
  }

  /** A dispatch's verdict under the script. */
  ghost function ScriptedVerdict(w: World, script: Script, d: Dispatch): Settled {
    var paid := Scripted(script, d, script.want(d));
    Settled(d, AttemptedResult(true, w.work(d), Sum(paid), |paid|, ""))
  }

  ghost predicate AllScripted(w: World, script: Script, batch: seq<Dispatch>, settled: seq<Settled>) {
    |settled| == |batch| && forall k :: 0 <= k < |batch| ==> settled[k] == ScriptedVerdict(w, script, batch[k])
  }

  ghost predicate AsScripted(w: World, script: Script, batch: seq<Dispatch>, settled: seq<Settled>,
                              paid: seq<seq<nat>>)
  {
    && AllScripted(w, script, batch, settled) && |paid| == |batch|
    && forall k :: 0 <= k < |batch| ==> paid[k] == Scripted(script, batch[k], script.want(batch[k]))
  }

  /** Whatever the schedule, a batch played out under the script comes out as scripted. */
  lemma BatchFollows(w: World, script: Script, caps: ResolvedCaps, c: Config, batch: seq<Dispatch>, schedule: seq<nat>)
    requires Fundable(script, batch, Spare(w.h, w.nodes, Launched(c.st, batch), caps, batch))
    requires PlayedOut(Worked(w, Follows(w, script), caps, c, batch, schedule))
    ensures var pool := Worked(w, Follows(w, script), caps, c, batch, schedule);
            AsScripted(w, script, batch, Verdicts(batch, pool.ps), pool.paid)
  {
    hide Play, Opening, Fundable, Sum, Spare;
    PlayOnTrack(w, script, batch, Spare(w.h, w.nodes, Launched(c.st, batch), caps, batch), c.tick, schedule);
    var pool := Worked(w, Follows(w, script), caps, c, batch, schedule);
    forall k | 0 <= k < |batch|
      ensures pool.ps[k].attempts == script.want(batch[k]) && pool.ps[k].last.ok
      ensures OnTrack(w, script, batch[k], pool.ps[k], pool.paid[k])
    {
    }
  }
}
