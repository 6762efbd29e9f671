/**
 Turning trials into a verdict (evals/runner/report.ts), in exact reals: the
 two-standard-error band is kept squared, so that no square root is needed.
 */
module EvalReport {
  datatype Option<+T> = None | Some(value: T)

  datatype Trial = Trial(taskId: string, arm: string, passed: bool, error: bool)

  datatype ArmSummary = ArmSummary(arm: string, trials: nat, errored: nat, passed: nat, passRate: real,
                                   tasks: nat, consistentTasks: nat)

  datatype Verdict = Better | Worse | Inconclusive | Unusable

  /** `marginSquared` is None for the infinite band of an arm without graded trials. */
  datatype Comparison = Comparison(verdict: Verdict, deltaPp: real, marginSquared: Option<real>)

  const MIN_GRADED_TRIALS_PER_ARM: int := 4

  // ---------- summarising ----------

  function OfArm(trials: seq<Trial>, arm: string): seq<Trial> {
    if trials == [] then []
    else OfArm(trials[..|trials| - 1], arm) +
         if trials[|trials| - 1].arm == arm then [trials[|trials| - 1]] else []
  }

  function GradedOf(trials: seq<Trial>): seq<Trial> {
    if trials == [] then []
    else GradedOf(trials[..|trials| - 1]) + if trials[|trials| - 1].error then [] else [trials[|trials| - 1]]
  }

  function PassedCount(trials: seq<Trial>): nat {
    if trials == [] then 0
    else PassedCount(trials[..|trials| - 1]) + if trials[|trials| - 1].passed then 1 else 0
  }

  function TaskIds(trials: seq<Trial>): set<string> {
    set trial | trial in trials :: trial.taskId
  }

  predicate EveryRepetitionPassed(trials: seq<Trial>, task: string) {
    forall trial :: trial in trials && trial.taskId == task ==> trial.passed
  }

  function ConsistentIds(trials: seq<Trial>): set<string> {
    set task | task in TaskIds(trials) && EveryRepetitionPassed(trials, task)
  }

  function PassRate(passed: nat, graded: nat): real {
    if graded == 0 then 0.0 else 100.0 * passed as real / graded as real
  }

  ghost predicate GroupedBy(byTask: map<string, seq<Trial>>, trials: seq<Trial>) {
    && (forall task :: task in byTask <==> task in TaskIds(trials))
    && forall task, trial :: task in byTask ==>
         (trial in byTask[task] <==> trial in trials && trial.taskId == task)
  }

  lemma GroupOneMore(byTask: map<string, seq<Trial>>, trials: seq<Trial>, trial: Trial)
    requires GroupedBy(byTask, trials)
    ensures var group := if trial.taskId in byTask then byTask[trial.taskId] else [];
            GroupedBy(byTask[trial.taskId := group + [trial]], trials + [trial])
  {
    assert TaskIds(trials + [trial]) == TaskIds(trials) + {trial.taskId};
    assert trial.taskId !in byTask ==> forall other: Trial :: other in trials ==> other.taskId != trial.taskId;
  }

  /** Every graded trial lands in the group of its task. */
  method GroupByTask(graded: seq<Trial>) returns (byTask: map<string, seq<Trial>>)
    ensures GroupedBy(byTask, graded)
  {
    byTask := map[];
    var i := 0;
    while i < |graded|
      invariant 0 <= i <= |graded| && GroupedBy(byTask, graded[..i])
    {
      var trial := graded[i];
      var group := if trial.taskId in byTask then byTask[trial.taskId] else [];
      GroupOneMore(byTask, graded[..i], trial);
      assert graded[..i + 1] == graded[..i] + [trial];
      byTask := byTask[trial.taskId := group + [trial]];
      i := i + 1;
    }
    assert graded[..i] == graded;
  }

  ghost function Places(trials: seq<Trial>, wanted: Trial -> bool): set<nat> {
    set k: nat | k < |trials| && wanted(trials[k])
  }

  /** The trials of an arm, by their place in the list. */
  ghost function PlacesOf(trials: seq<Trial>, arm: string): set<nat> {
    Places(trials, (trial: Trial) => trial.arm == arm)
  }

  /** Those that were graded: an errored trial says nothing about the arm. */
  ghost function GradedPlaces(trials: seq<Trial>, arm: string): set<nat> {
    Places(trials, (trial: Trial) => trial.arm == arm && !trial.error)
  }

  ghost function PassedPlaces(trials: seq<Trial>, arm: string): set<nat> {
    Places(trials, (trial: Trial) => trial.arm == arm && !trial.error && trial.passed)
  }

  ghost function TasksGraded(trials: seq<Trial>, arm: string): set<string> {
    set k: nat | k in GradedPlaces(trials, arm) :: trials[k].taskId
  }

  /** The tasks none of whose graded trials failed. */
  ghost function TasksConsistent(trials: seq<Trial>, arm: string): set<string> {
    set task | task in TasksGraded(trials, arm) &&
               forall k :: k in GradedPlaces(trials, arm) && trials[k].taskId == task ==> trials[k].passed
  }

  lemma OnePlaceMore(front: seq<Trial>, last: Trial, wanted: Trial -> bool)
    ensures |Places(front + [last], wanted)| == |Places(front, wanted)| + if wanted(last) then 1 else 0
  {
    assert Places(front + [last], wanted) == Places(front, wanted) + if wanted(last) then {|front|} else {};
  }

  lemma PlacesOneMore(front: seq<Trial>, last: Trial, arm: string)
    ensures var more := front + [last];
            && |PlacesOf(more, arm)| == |PlacesOf(front, arm)| + (if last.arm == arm then 1 else 0)
            && |GradedPlaces(more, arm)|
               == |GradedPlaces(front, arm)| + (if last.arm == arm && !last.error then 1 else 0)
            && |PassedPlaces(more, arm)|
               == |PassedPlaces(front, arm)| + if last.arm == arm && !last.error && last.passed then 1 else 0
  {
    OnePlaceMore(front, last, (trial: Trial) => trial.arm == arm);
    OnePlaceMore(front, last, (trial: Trial) => trial.arm == arm && !trial.error);
    OnePlaceMore(front, last, (trial: Trial) => trial.arm == arm && !trial.error && trial.passed);
    hide Places;
  }

  ghost predicate FiltersKeep(trials: seq<Trial>, arm: string) {
    var graded := GradedOf(OfArm(trials, arm));
    && |OfArm(trials, arm)| == |PlacesOf(trials, arm)|
    && |graded| == |GradedPlaces(trials, arm)|
    && PassedCount(graded) == |PassedPlaces(trials, arm)|
    && forall trial :: trial in graded <==> trial in trials && trial.arm == arm && !trial.error
  }

  /** The filters keep the right trials, each as often as it occurs. */
  lemma {:induction false} FiltersCount(trials: seq<Trial>, arm: string)
    ensures FiltersKeep(trials, arm)
    decreases |trials|
  {
    if trials == [] {
      assert PlacesOf(trials, arm) == {} && GradedPlaces(trials, arm) == {} && PassedPlaces(trials, arm) == {};
    } else {
      var front, last := trials[..|trials| - 1], trials[|trials| - 1];
      FiltersCount(front, arm);
      hide FiltersKeep;
      assert trials == front + [last];
      KeepsOneMore(front, last, arm);
    }
  }

  lemma KeepsOneMore(front: seq<Trial>, last: Trial, arm: string)
    requires FiltersKeep(front, arm)
    ensures FiltersKeep(front + [last], arm)
  {
    PlacesOneMore(front, last, arm);
    FiltersOneMore(front, last, arm);
    hide OfArm, GradedOf, PassedCount, PlacesOf, GradedPlaces, PassedPlaces;
  }

  lemma OfArmMore(front: seq<Trial>, last: Trial, arm: string)
    ensures OfArm(front + [last], arm) == OfArm(front, arm) + if last.arm == arm then [last] else []
  {
    assert (front + [last])[..|front|] == front;
  }

  lemma GradedMore(mine: seq<Trial>, last: Trial)
    ensures GradedOf(mine + [last]) == GradedOf(mine) + if last.error then [] else [last]
  {
    assert (mine + [last])[..|mine|] == mine;
  }

  lemma PassedMore(graded: seq<Trial>, last: Trial)
    ensures PassedCount(graded + [last]) == PassedCount(graded) + if last.passed then 1 else 0
  {
    assert (graded + [last])[..|graded|] == graded;
  }

  lemma FiltersOneMore(front: seq<Trial>, last: Trial, arm: string)
    ensures var more, graded := front + [last], GradedOf(OfArm(front, arm));
            && OfArm(more, arm) == OfArm(front, arm) + (if last.arm == arm then [last] else [])
            && GradedOf(OfArm(more, arm)) == graded + (if last.arm == arm && !last.error then [last] else [])
            && PassedCount(GradedOf(OfArm(more, arm)))
               == PassedCount(graded) + if last.arm == arm && !last.error && last.passed then 1 else 0
  {
    hide OfArm, GradedOf, PassedCount;
    var mine, graded := OfArm(front, arm), GradedOf(OfArm(front, arm));
    OfArmMore(front, last, arm);
    GradedMore(mine, last);
    PassedMore(graded, last);
    assert mine + [] == mine && graded + [] == graded;
  }

  lemma GradedTasks(trials: seq<Trial>, arm: string)
    ensures var graded := GradedOf(OfArm(trials, arm));
            TaskIds(graded) == TasksGraded(trials, arm) && ConsistentIds(graded) == TasksConsistent(trials, arm)
  {
    var graded := GradedOf(OfArm(trials, arm));
    FiltersCount(trials, arm);
    hide OfArm, GradedOf;
    forall task | task in TaskIds(graded) ensures task in TasksGraded(trials, arm) {
      var trial :| trial in graded && trial.taskId == task;
      var k :| 0 <= k < |trials| && trials[k] == trial;
      assert k in GradedPlaces(trials, arm);
    }
    forall k | k in GradedPlaces(trials, arm) ensures trials[k] in graded && trials[k].taskId in TaskIds(graded) {
    }
    forall task | task in TasksGraded(trials, arm)
      ensures task in ConsistentIds(graded) <==> task in TasksConsistent(trials, arm)
    {
      ConsistentTask(trials, arm, graded, task);
    }
  }

  lemma ConsistentTask(trials: seq<Trial>, arm: string, graded: seq<Trial>, task: string)
    requires forall trial :: trial in graded <==> trial in trials && trial.arm == arm && !trial.error
    ensures EveryRepetitionPassed(graded, task) <==>
            forall k :: k in GradedPlaces(trials, arm) && trials[k].taskId == task ==> trials[k].passed
  {
    if forall k :: k in GradedPlaces(trials, arm) && trials[k].taskId == task ==> trials[k].passed {
      forall trial | trial in graded && trial.taskId == task ensures trial.passed {
        var k :| 0 <= k < |trials| && trials[k] == trial;
        assert k in GradedPlaces(trials, arm);
      }
    }
  }

  /** The counts of one arm, from its graded trials grouped by task. */
  method Summarise(trials: seq<Trial>, arm: string) returns (s: ArmSummary)
    ensures s.arm == arm && s.trials == |PlacesOf(trials, arm)|
    ensures s.errored == s.trials - |GradedPlaces(trials, arm)| && s.passed == |PassedPlaces(trials, arm)|
    ensures s.tasks == |TasksGraded(trials, arm)| && s.consistentTasks == |TasksConsistent(trials, arm)|
    ensures Sound(s)
    ensures s.passed == Graded(s) <==> s.consistentTasks == s.tasks
  {
    hide OfArm, GradedOf, PassedCount, PassRate, PlacesOf, GradedPlaces, PassedPlaces, TasksGraded, TasksConsistent;
    var mine := OfArm(trials, arm);
    var graded := GradedOf(mine);
    var byTask := GroupByTask(graded);
    var consistent := set task | task in byTask && forall trial: Trial :: trial in byTask[task] ==> trial.passed;
    assert byTask.Keys == TaskIds(graded);
    assert consistent == ConsistentIds(graded);
    SummaryFacts(mine);
    FiltersCount(trials, arm);
    GradedTasks(trials, arm);
    s := ArmSummary(arm, |mine|, |mine| - |graded|, PassedCount(graded), PassRate(PassedCount(graded), |graded|),
                    |byTask.Keys|, |consistent|);
  }

  /** What `summarise` guarantees about its counts. */
  predicate Sound(s: ArmSummary) {
    && s.errored <= s.trials && s.passed <= Graded(s) && s.consistentTasks <= s.tasks <= Graded(s)
    && s.passRate == PassRate(s.passed, Graded(s))
  }

  /** The pass rate is the percentage of the graded trials that passed, and zero without any. */
  lemma RateIsPercentage(passed: nat, graded: nat)
    ensures graded == 0 ==> PassRate(passed, graded) == 0.0
    ensures graded > 0 ==> PassRate(passed, graded) * graded as real == 100.0 * passed as real
  {
  }

  function Graded(s: ArmSummary): int { s.trials - s.errored }

  lemma SummaryFacts(mine: seq<Trial>)
    ensures var graded := GradedOf(mine);
            && |graded| <= |mine| && PassedCount(graded) <= |graded|
            && |ConsistentIds(graded)| <= |TaskIds(graded)| <= |graded|
            && (PassedCount(graded) == |graded| <==> |ConsistentIds(graded)| == |TaskIds(graded)|)
  {
    var graded := GradedOf(mine);
    GradedIsShorter(mine);
    PassedBound(graded);
    TasksBound(graded);
    SubsetCard(ConsistentIds(graded), TaskIds(graded));
    if ConsistentIds(graded) == TaskIds(graded) {
      forall trial | trial in graded ensures trial.passed {
        assert trial.taskId in ConsistentIds(graded);
      }
    }
    if forall trial :: trial in graded ==> trial.passed {
      assert ConsistentIds(graded) == TaskIds(graded);
    }
  }

  lemma SubsetCard(a: set<string>, b: set<string>)
    requires a <= b
    ensures |a| <= |b| && (|a| == |b| <==> a == b)
  {
    assert b == a + (b - a);
    assert |b| == |a| + |b - a|;
  }

  lemma {:induction false} GradedIsShorter(trials: seq<Trial>)
    ensures |GradedOf(trials)| <= |trials|
  {
    if trials != [] { GradedIsShorter(trials[..|trials| - 1]); }
  }

  lemma {:induction false} PassedBound(trials: seq<Trial>)
    ensures PassedCount(trials) <= |trials|
    ensures PassedCount(trials) == |trials| <==> forall trial :: trial in trials ==> trial.passed
  {
    if trials != [] {
      PassedBound(trials[..|trials| - 1]);
      assert trials == trials[..|trials| - 1] + [trials[|trials| - 1]];
    }
  }

  lemma {:induction false} TasksBound(trials: seq<Trial>)
    ensures |TaskIds(trials)| <= |trials|
  {
    if trials != [] {
      var front, last := trials[..|trials| - 1], trials[|trials| - 1];
      TasksBound(front);
      assert trials == front + [last];
      assert TaskIds(trials) == TaskIds(front) + {last.taskId};
    }
  }

  // ---------- the band ----------

  /** Agresti-Caffo: one notional pass and one notional failure are added to every arm. */
  function Variance(passed: nat, graded: nat): real {
    var adjusted := (passed + 1) as real / (graded + 2) as real;
    adjusted * (1.0 - adjusted) / (graded + 2) as real
  }

  function BandSquared(passedA: nat, gradedA: nat, passedB: nat, gradedB: nat): real {
    40000.0 * (Variance(passedA, gradedA) + Variance(passedB, gradedB))
  }

  function Compare(baseline: ArmSummary, candidate: ArmSummary): Comparison
    requires Sound(baseline) && Sound(candidate)
  {
    var deltaPp := candidate.passRate - baseline.passRate;
    var b, c := Graded(baseline), Graded(candidate);
    if b == 0 || c == 0 then Comparison(Unusable, deltaPp, None)
    else
      var margin := BandSquared(baseline.passed, b, candidate.passed, c);
      var verdict :=
        if baseline.tasks != candidate.tasks then Unusable
        else if Min(b, c) < MIN_GRADED_TRIALS_PER_ARM then Inconclusive
        else if deltaPp * deltaPp <= margin then Inconclusive
        else if deltaPp > 0.0 then Better else Worse;
      Comparison(verdict, deltaPp, Some(margin))
  }

  function Min(a: int, b: int): int { if a < b then a else b }

  function Abs(x: real): real { if x < 0.0 then -x else x }

  lemma ScaleStrict(x: real, y: real, m: real)
    requires x > y && m > 0.0
    ensures x * m > y * m
  {
    var gap := x - y;
    assert gap * m > 0.0;
    assert gap * m == x * m - y * m;
  }

  lemma Cancel(x: real, y: real, m: real)
    requires m > 0.0 && x * m > y * m
    ensures x > y
  {
    var gap := y - x;
    assert gap >= 0.0 ==> gap * m >= 0.0;
    assert gap * m == y * m - x * m;
  }

  /** `x` is the adjusted rate a/m; times m cubed the variance is a product of whole numbers. */
  lemma VarianceBounds(passed: nat, graded: nat)
    requires passed <= graded
    ensures var m := (graded + 2) as real;
            && 0.0 < (m - 1.0) <= Variance(passed, graded) * m * m * m
            && Variance(passed, graded) * 4.0 * m <= 1.0
            && 0.0 < Variance(passed, graded)
  {
    var m, a := (graded + 2) as real, (passed + 1) as real;
    var x := a / m;
    var v := Variance(passed, graded);
    assert x * m == a;
    assert v * m == x * (1.0 - x);
    assert (2.0 * x - 1.0) * (2.0 * x - 1.0) >= 0.0;
    assert 4.0 * (x * (1.0 - x)) <= 1.0;
    assert v * m * m * m == a * (m - a) by {
      assert v * m * m * m == (x * (1.0 - x)) * m * m;
      assert (x * (1.0 - x)) * m * m == (x * m) * ((1.0 - x) * m);
      assert (1.0 - x) * m == m - x * m;
    }
    assert (a - 1.0) * (m - 1.0 - a) >= 0.0;
    assert a * (m - a) >= m - 1.0;
    Cancel(v, 0.0, m * m * m);
  }

  /** The band of one arm alone is already wider than one of its trials. */
  lemma BandCoversOneTrial(passed: nat, graded: nat)
    requires 4 <= graded && passed <= graded
    ensures 40000.0 * Variance(passed, graded) > (100.0 / graded as real) * (100.0 / graded as real)
  {
    hide Variance;
    var n, m := graded as real, (graded + 2) as real;
    VarianceOfCube(passed, graded);
    CubeIsNarrower(n, m);
    ShareOfSquare(n);
    CompareCubes(40000.0 * Variance(passed, graded), (100.0 / n) * (100.0 / n), 4.0 * (n + 1.0), n * n, m * m * m);
  }

  lemma VarianceOfCube(passed: nat, graded: nat)
    requires passed <= graded
    ensures var n, m := graded as real, (graded + 2) as real;
            (40000.0 * Variance(passed, graded)) * (m * m * m) >= 10000.0 * (4.0 * (n + 1.0))
  {
    hide Variance;
    var v, m := Variance(passed, graded), (graded + 2) as real;
    VarianceBounds(passed, graded);
    Regroup(v, m);
    Regroup40000(v, m * m * m);
  }

  lemma Regroup40000(v: real, cube: real)
    ensures (40000.0 * v) * cube == 40000.0 * (v * cube)
  {
  }

  lemma CubeIsNarrower(n: real, m: real)
    requires n >= 4.0 && m == n + 2.0
    ensures 4.0 * (n + 1.0) * (n * n) > m * m * m > 0.0
  {
    FlipIsNarrower(n);
    assert m * m > 0.0;
    ScaleStrict(m * m, 0.0, m);
  }

  /** One trial's share, squared, and the square of the number of trials. */
  lemma ShareOfSquare(n: real)
    requires n >= 4.0
    ensures ((100.0 / n) * (100.0 / n)) * (n * n) == 10000.0 && (100.0 / n) * (100.0 / n) > 0.0
  {
    var q := 100.0 / n;
    assert q * n == 100.0 && q > 0.0;
    SquareOfProduct(q, n);
    ScaleStrict(q, 0.0, q);
  }

  lemma Regroup(v: real, m: real)
    ensures v * m * m * m == v * (m * m * m)
  {
  }

  lemma SquareOfProduct(q: real, n: real)
    ensures (q * q) * (n * n) == (q * n) * (q * n)
  {
    assert (q * q) * (n * n) == q * (q * (n * n));
    assert q * (n * n) == (q * n) * n;
    assert (q * n) * (q * n) == q * (n * (q * n));
  }

  lemma CompareCubes(w: real, share: real, k: real, square: real, cube: real)
    requires cube > 0.0 && share > 0.0 && k * square > cube
    requires share * square == 10000.0 && w * cube >= 10000.0 * k
    ensures w > share
  {
    ScaleStrict(k * square, cube, share);
    assert k * square * share == k * (share * square);
    Cancel(w, share, cube);
  }

  lemma FlipIsNarrower(n: real)
    requires n >= 4.0
    ensures 4.0 * (n + 1.0) * (n * n) > (n + 2.0) * (n + 2.0) * (n + 2.0)
  {
    var s := n * n;
    assert s >= 4.0 * n;
    var c := n * s;
    assert c >= 4.0 * s;
    assert 4.0 * (n + 1.0) * s == 4.0 * c + 4.0 * s;
    assert (n + 2.0) * (n + 2.0) == s + 4.0 * n + 4.0;
    assert (s + 4.0 * n + 4.0) * (n + 2.0) == c + 6.0 * s + 12.0 * n + 8.0;
  }

  lemma SquareRootOrder(x: real, y: real)
    requires x >= 0.0 && y >= 0.0 && x * x > y * y
    ensures x > y
  {
    var gap := y - x;
    assert gap >= 0.0 ==> gap * (x + y) >= 0.0;
    assert gap * (x + y) == y * y - x * x;
  }

  /** A verdict never rests on one flipped trial: the delta is wider than one trial of the smaller arm. */
  lemma VerdictExceedsOneTrial(baseline: ArmSummary, candidate: ArmSummary)
    requires Sound(baseline) && Sound(candidate)
    requires Compare(baseline, candidate).verdict.Better? || Compare(baseline, candidate).verdict.Worse?
    ensures Abs(Compare(baseline, candidate).deltaPp) > 100.0 / Min(Graded(baseline), Graded(candidate)) as real
  {
    hide Variance, Compare;
    var delta := Compare(baseline, candidate).deltaPp;
    VerdictClearsTheBand(baseline, candidate);
    var smaller := if Graded(baseline) <= Graded(candidate) then baseline else candidate;
    BandCoversOneTrial(smaller.passed, Graded(smaller));
    assert Abs(delta) * Abs(delta) == delta * delta;
    SquareRootOrder(Abs(delta), 100.0 / Graded(smaller) as real);
  }

  lemma VerdictClearsTheBand(baseline: ArmSummary, candidate: ArmSummary)
    requires Sound(baseline) && Sound(candidate)
    requires Compare(baseline, candidate).verdict.Better? || Compare(baseline, candidate).verdict.Worse?
    ensures var d2 := Compare(baseline, candidate).deltaPp * Compare(baseline, candidate).deltaPp;
            && d2 > 40000.0 * Variance(baseline.passed, Graded(baseline))
            && d2 > 40000.0 * Variance(candidate.passed, Graded(candidate))
    ensures Min(Graded(baseline), Graded(candidate)) >= MIN_GRADED_TRIALS_PER_ARM
  {
    hide Variance, PassRate;
    VarianceBounds(baseline.passed, Graded(baseline));
    VarianceBounds(candidate.passed, Graded(candidate));
  }

  /** Undoing any one trial leaves the arms in the order that was reported. */
  lemma OneFlipKeepsTheOrder(baseline: ArmSummary, candidate: ArmSummary)
    requires Sound(baseline) && Sound(candidate) && Compare(baseline, candidate).verdict.Better?
    ensures PassRate(candidate.passed, Graded(candidate)) > PassRate(baseline.passed + 1, Graded(baseline))
    ensures candidate.passed > 0 &&
            PassRate(candidate.passed - 1, Graded(candidate)) > PassRate(baseline.passed, Graded(baseline))
  {
    hide Variance, BandSquared;
    var b, c := Graded(baseline), Graded(candidate);
    VerdictExceedsOneTrial(baseline, candidate);
    OneMorePass(baseline.passed, b);
    OneTrialShare(b, Min(b, c));
    OneTrialShare(c, Min(b, c));
    assert PassRate(0, c) == 0.0;
    RateIsNonNegative(baseline.passed, b);
    assert candidate.passed > 0;
    OneMorePass(candidate.passed - 1, c);
  }

  lemma OneMorePass(passed: nat, graded: nat)
    requires graded > 0
    ensures PassRate(passed + 1, graded) == PassRate(passed, graded) + 100.0 / graded as real
  {
    var g := graded as real;
    assert 100.0 * (passed + 1) as real == 100.0 * passed as real + 100.0;
    assert (100.0 * passed as real + 100.0) / g == 100.0 * passed as real / g + 100.0 / g;
  }

  lemma OneTrialShare(graded: nat, least: nat)
    requires 0 < least <= graded
    ensures 100.0 / graded as real <= 100.0 / least as real
  {
    var q := 100.0 / graded as real;
    var r := 100.0 / least as real;
    assert q * graded as real == 100.0 && r * least as real == 100.0;
    assert r > 0.0;
    assert r * graded as real >= r * least as real;
    if q > r {
      ScaleStrict(q, r, graded as real);
    }
  }

  lemma RateIsNonNegative(passed: nat, graded: nat)
    ensures PassRate(passed, graded) >= 0.0
  {
  }

  function Flip(verdict: Verdict): Verdict {
    match verdict
    case Better => Worse
    case Worse => Better
    case _ => verdict
  }

  /** Swapping the arms reports the same band, the opposite delta and the opposite verdict. */
  lemma CompareIsAntisymmetric(a: ArmSummary, b: ArmSummary)
    requires Sound(a) && Sound(b)
    ensures Compare(b, a) == Comparison(Flip(Compare(a, b).verdict), -Compare(a, b).deltaPp,
                                        Compare(a, b).marginSquared)
  {
    hide Variance;
    var delta := Compare(a, b).deltaPp;
    assert (-delta) * (-delta) == delta * delta;
    if Compare(a, b).verdict.Better? || Compare(a, b).verdict.Worse? {
      VerdictExceedsOneTrial(a, b);
    }
    if Compare(b, a).verdict.Better? || Compare(b, a).verdict.Worse? {
      VerdictExceedsOneTrial(b, a);
    }
  }

  function AllOrNothing(passed: bool, graded: nat): ArmSummary {
    var count := if passed then graded else 0;
    ArmSummary("", graded, 0, count, PassRate(count, graded), 1, if passed then 1 else 0)
  }

  /** The band alone would let a total flip pass on any sample; the floor of four refuses the small ones. */
  lemma TotalFlipNeedsFourTrials(graded: nat)
    requires graded > 0
    ensures var c := Compare(AllOrNothing(false, graded), AllOrNothing(true, graded));
            && c.deltaPp == 100.0 && c.marginSquared.Some? && c.marginSquared.value < 100.0 * 100.0
            && c.verdict == if graded >= MIN_GRADED_TRIALS_PER_ARM then Better else Inconclusive
  {
    hide Variance;
    SaturatedVariance(0, graded);
    SaturatedVariance(graded, graded);
    assert PassRate(graded, graded) == 100.0 && PassRate(0, graded) == 0.0;
  }

  lemma SaturatedVariance(passed: nat, graded: nat)
    requires graded > 0 && (passed == 0 || passed == graded)
    ensures 40000.0 * Variance(passed, graded) < 5000.0
  {
    var m := (graded + 2) as real;
    var x := (passed + 1) as real / m;
    var y := 1.0 / m;
    assert y * m == 1.0 && y <= 1.0 / 3.0;
    assert x == y || x == 1.0 - y;
    assert Variance(passed, graded) == y * (1.0 - y) * y;
  }

  predicate InBand(r: real, marginSquared: real) {
    0.0 <= r && r * r <= marginSquared
  }

  /** A difference clears a band exactly if it exceeds every number within it. */
  lemma ClearsExactly(delta: real, marginSquared: real)
    requires marginSquared >= 0.0
    ensures delta > 0.0 && delta * delta > marginSquared <==>
              forall r :: InBand(r, marginSquared) ==> delta > r
  {
    if delta > 0.0 && delta * delta > marginSquared {
      forall r | InBand(r, marginSquared) ensures delta > r {
        SquareRootOrder(delta, r);
      }
    } else {
      assert InBand(0.0, marginSquared);
      assert delta > 0.0 ==> InBand(delta, marginSquared);
    }
  }

  /** Comparable arms with at least four graded trials each. */
  ghost predicate Enough(baseline: ArmSummary, candidate: ArmSummary) {
    baseline.tasks == candidate.tasks && Graded(baseline) >= 4 && Graded(candidate) >= 4
  }

  /** `gain` exceeds every number within two standard errors of the difference, in percentage points. */
  ghost predicate ClearsBand(gain: real, baseline: ArmSummary, candidate: ArmSummary)
    requires Sound(baseline) && Sound(candidate)
  {
    var margin := BandSquared(baseline.passed, Graded(baseline), candidate.passed, Graded(candidate));
    forall r :: InBand(r, margin) ==> gain > r
  }

  lemma VerdictByMargin(baseline: ArmSummary, candidate: ArmSummary, margin: real)
    requires Sound(baseline) && Sound(candidate) && Enough(baseline, candidate)
    requires margin == BandSquared(baseline.passed, Graded(baseline), candidate.passed, Graded(candidate)) > 0.0
    ensures var verdict, gain := Compare(baseline, candidate).verdict, candidate.passRate - baseline.passRate;
            && !verdict.Unusable?
            && (verdict.Better? <==> (gain > 0.0 && gain * gain > margin))
            && (verdict.Worse? <==> (gain < 0.0 && gain * gain > margin))
  {
    hide BandSquared;
  }

  lemma NoVerdict(baseline: ArmSummary, candidate: ArmSummary)
    requires Sound(baseline) && Sound(candidate)
    ensures var c := Compare(baseline, candidate);
            && c.deltaPp == candidate.passRate - baseline.passRate
            && (c.verdict.Unusable? <==>
                  (baseline.trials == baseline.errored || candidate.trials == candidate.errored ||
                   baseline.tasks != candidate.tasks))
            && (c.verdict.Better? || c.verdict.Worse? ==> Enough(baseline, candidate))
  {
    hide BandSquared;
  }

  /**
   When each verdict is given: none on arms that cannot be compared, none on fewer
   than four trials, and a better or worse one exactly if the rates are further
   apart than every number within the band.
   */
  lemma VerdictExactly(baseline: ArmSummary, candidate: ArmSummary)
    requires Sound(baseline) && Sound(candidate)
    ensures var c, gain := Compare(baseline, candidate), candidate.passRate - baseline.passRate;
            && c.deltaPp == gain
            && (c.verdict.Unusable? <==>
                  (baseline.trials == baseline.errored || candidate.trials == candidate.errored ||
                   baseline.tasks != candidate.tasks))
            && (c.verdict.Better? <==> (Enough(baseline, candidate) && ClearsBand(gain, baseline, candidate)))
            && (c.verdict.Worse? <==> (Enough(baseline, candidate) && ClearsBand(-gain, baseline, candidate)))
  {
    hide BandSquared, Variance, Compare, ClearsBand, PassRate;
    var gain := candidate.passRate - baseline.passRate;
    NoVerdict(baseline, candidate);
    if Enough(baseline, candidate) {
      var margin := BandSquared(baseline.passed, Graded(baseline), candidate.passed, Graded(candidate));
      VarianceBounds(baseline.passed, Graded(baseline));
      VarianceBounds(candidate.passed, Graded(candidate));
      BandIsPositive(baseline.passed, Graded(baseline), candidate.passed, Graded(candidate));
      VerdictByMargin(baseline, candidate, margin);
      ClearsBandExactly(gain, baseline, candidate);
      ClearsBandExactly(-gain, baseline, candidate);
      SquareOfNegative(gain);
      hide *;
    }
  }

  lemma ClearsBandExactly(gain: real, baseline: ArmSummary, candidate: ArmSummary)
    requires Sound(baseline) && Sound(candidate)
    requires BandSquared(baseline.passed, Graded(baseline), candidate.passed, Graded(candidate)) > 0.0
    ensures ClearsBand(gain, baseline, candidate) <==>
              (gain > 0.0 && gain * gain > BandSquared(baseline.passed, Graded(baseline), candidate.passed,
                                                       Graded(candidate)))
  {
    hide BandSquared, InBand;
    ClearsExactly(gain, BandSquared(baseline.passed, Graded(baseline), candidate.passed, Graded(candidate)));
  }

  lemma BandIsPositive(passedA: nat, gradedA: nat, passedB: nat, gradedB: nat)
    requires Variance(passedA, gradedA) > 0.0 && Variance(passedB, gradedB) > 0.0
    ensures BandSquared(passedA, gradedA, passedB, gradedB) > 0.0
  {
    hide Variance;
  }

  lemma SquareOfNegative(x: real)
    ensures (-x) * (-x) == x * x
  {
  }

  // ---------- planning ----------

  /** None is the answer for a delta of zero: no sample size clears any band. */
  function TrialsNeededFor(deltaPp: real): Option<int> {
    if deltaPp == 0.0 then None
    else
      var bound := (20000.0 / (deltaPp * deltaPp) - 2.0).Floor + 1;
      Some(if bound < MIN_GRADED_TRIALS_PER_ARM then MIN_GRADED_TRIALS_PER_ARM else bound)
  }

  lemma WorstCase(graded: nat, d2: real)
    requires d2 > 0.0
    ensures 20000.0 / (graded + 2) as real < d2 <==> (20000.0 / d2 - 2.0).Floor + 1 <= graded
  {
    var m, x := (graded + 2) as real, 20000.0 / d2;
    var y := 20000.0 / m;
    assert x * d2 == 20000.0 && y * m == 20000.0;
    if y < d2 {
      ScaleStrict(d2, y, m);
      Cancel(m, x, d2);
    } else if x < m {
      ScaleStrict(m, x, d2);
      Cancel(d2, y, m);
    }
    assert y < d2 <==> x < m;
    assert x < m <==> x - 2.0 < graded as real;
  }

  /** The answer is the least number of trials, from the floor of four up, that clears the 50%/50% band. */
  lemma TrialsNeededIsLeast(deltaPp: real, graded: nat)
    requires deltaPp != 0.0
    ensures (MIN_GRADED_TRIALS_PER_ARM <= graded && 20000.0 / (graded + 2) as real < deltaPp * deltaPp)
            <==> graded >= TrialsNeededFor(deltaPp).value
  {
    assert deltaPp * deltaPp > 0.0;
    WorstCase(graded, deltaPp * deltaPp);
  }

  lemma BandIsBelowWorstCase(passedA: nat, passedB: nat, graded: nat)
    requires passedA <= graded && passedB <= graded
    ensures BandSquared(passedA, graded, passedB, graded) <= 20000.0 / (graded + 2) as real
  {
    hide Variance;
    var m := (graded + 2) as real;
    var u, v := Variance(passedA, graded), Variance(passedB, graded);
    VarianceBounds(passedA, graded);
    VarianceBounds(passedB, graded);
    var y := 20000.0 / m;
    assert y * m == 20000.0;
    assert 40000.0 * (u + v) * m == 10000.0 * (u * 4.0 * m) + 10000.0 * (v * 4.0 * m);
    if 40000.0 * (u + v) > y {
      ScaleStrict(40000.0 * (u + v), y, m);
    }
  }

  /** With an even number of trials per arm the worst case is a real outcome: half of them pass. */
  lemma WorstCaseIsAttained(half: nat)
    ensures BandSquared(half, 2 * half, half, 2 * half) == 20000.0 / (2 * half + 2) as real
  {
    var m := (2 * half + 2) as real;
    assert (half + 1) as real / m == 0.5;
    assert Variance(half, 2 * half) == 0.25 / m;
    assert 40000.0 * (0.25 / m + 0.25 / m) == 20000.0 / m;
  }

  /** That many trials per arm are enough whatever passes, and for even arms fewer are not. */
  lemma TrialsNeededSuffices(deltaPp: real, graded: nat)
    requires deltaPp != 0.0 && graded >= TrialsNeededFor(deltaPp).value
    ensures forall p: nat, q: nat :: p <= graded && q <= graded ==>
              BandSquared(p, graded, q, graded) < deltaPp * deltaPp
  {
    hide Variance, TrialsNeededFor, BandSquared;
    TrialsNeededIsLeast(deltaPp, graded);
    forall p: nat, q: nat | p <= graded && q <= graded
      ensures BandSquared(p, graded, q, graded) < deltaPp * deltaPp
    {
      BandIsBelowWorstCase(p, q, graded);
    }
  }

  lemma EvenArmsNeedThatMany(deltaPp: real, half: nat)
    requires deltaPp != 0.0 && half >= 2
    ensures 2 * half >= TrialsNeededFor(deltaPp).value <==>
            forall p: nat, q: nat :: p <= 2 * half && q <= 2 * half ==>
              BandSquared(p, 2 * half, q, 2 * half) < deltaPp * deltaPp
  {
    hide Variance, BandSquared;
    TrialsNeededIsLeast(deltaPp, 2 * half);
    if 2 * half >= TrialsNeededFor(deltaPp).value {
      TrialsNeededSuffices(deltaPp, 2 * half);
    } else {
      WorstCaseIsAttained(half);
      assert !(BandSquared(half, 2 * half, half, 2 * half) < deltaPp * deltaPp);
    }
  }

  /** The promise made with an inconclusive delta: that delta on that many trials is a verdict. */
  lemma EnoughTrialsGiveAVerdict(baseline: ArmSummary, candidate: ArmSummary, deltaPp: real)
    requires Sound(baseline) && Sound(candidate) && baseline.tasks == candidate.tasks
    requires deltaPp != 0.0 && candidate.passRate - baseline.passRate == deltaPp
    requires Graded(baseline) == Graded(candidate) >= TrialsNeededFor(deltaPp).value
    ensures Compare(baseline, candidate).verdict == if deltaPp > 0.0 then Better else Worse
  {
    hide Variance, BandSquared;
    var graded := Graded(baseline);
    TrialsNeededSuffices(deltaPp, graded);
    assert BandSquared(baseline.passed, graded, candidate.passed, graded) < deltaPp * deltaPp;
  }
}
