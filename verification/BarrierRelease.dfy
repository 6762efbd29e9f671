/**
 What the barrier leaves behind: nothing. A cleaner that is done has taken its
 closing mark back, a refused registration its entries, and a run that was
 retained admits readers again.
 */
module BarrierRelease {
  import opened PlanSchema
  import opened ReaderBarrier
  import opened BarrierSafety

  // ---------- a cleaner that is done ----------

  /** No run that the cleaner's path still names, and that is not being removed, bears its mark. */
  ghost predicate Released(s: State, c: nat, cl: Cleaner) {
    cl.phase.Finished? ==>
      forall r :: At(s, cl.path, r) && !Crumbling(s, r) ==> r in s.runs && s.runs[r].closing != Some(c)
  }

  /** A claimed run has left the cleaner's path. */
  ghost predicate Moved(s: State, cl: Cleaner) {
    (cl.phase.Verify? || cl.phase.Delete?) && cl.held.Some? && cl.held.value in s.runs && |cl.path| > 0 ==>
      s.runs[cl.held.value].name != cl.path[|cl.path| - 1]
  }

  ghost predicate AllReleased(s: State) {
    forall c :: c in s.cleaners ==> Released(s, c, s.cleaners[c]) && Moved(s, s.cleaners[c])
  }

  /** Nobody else sets this cleaner's mark. */
  ghost predicate MarksKept(s: State, s': State, c: nat) {
    forall x :: x in s'.runs && s'.runs[x].closing == Some(c) ==> x in s.runs && s.runs[x].closing == Some(c)
  }

  lemma AtEnd(s: State, p: Path, r: RunId)
    requires At(s, p, r)
    ensures r in s.runs && s.runs[r].name == p[|p| - 1]
  {
    assert r[..|r|] == r;
  }

  /** What a path of known names leads to, it led to before, and whole runs were whole. */
  lemma WasThere(s: State, s': State, p: Path, r: RunId)
    requires FsGrows(s, s') && InUsed(s, p) && At(s', p, r) && !Crumbling(s', r)
    ensures At(s, p, r) && !Crumbling(s, r)
  {
    forall k | 0 < k <= |r| ensures r[..k] in s.runs {
      assert p[k - 1] in p;
    }
    NeverAgain(s, s', p, r);
    forall k | 0 < k <= |r| && r[..k] in s.runs ensures !s.runs[r[..k]].erasing {
      assert r[..k] in s'.runs;
    }
  }

  lemma ReleasedStays(s: State, s': State, c: nat, cl: Cleaner)
    requires FsGrows(s, s') && MarksKept(s, s', c) && InUsed(s, cl.path) && Released(s, c, cl) && Moved(s, cl)
    requires cl.phase.Verify? || cl.phase.Delete? ==> cl.held.Some? && cl.held.value in s.runs
    ensures Released(s', c, cl) && Moved(s', cl)
  {
    forall r | At(s', cl.path, r) && !Crumbling(s', r) && cl.phase.Finished?
      ensures r in s'.runs && s'.runs[r].closing != Some(c)
    {
      WasThere(s, s', cl.path, r);
      AtEnd(s', cl.path, r);
    }
    if |cl.path| > 0 {
      assert cl.path[|cl.path| - 1] in cl.path;
    }
  }

  lemma OtherMarks(s: State, c: nat, found: Option<RunId>, choice: Choice, other: nat)
    requires c in s.cleaners && (found.Some? ==> found.value in s.runs) && other != c
    ensures MarksKept(s, CleanerNext(s, c, found, choice), other)
  {
  }

  /** The cleaner's own step: what it marked it unmarks, or no longer reaches. */
  lemma OwnRelease(s: State, c: nat, found: Option<RunId>, choice: Choice)
    requires Inv(s, {}) && AllReleased(s) && c in s.cleaners && CleanerFound(s, s.cleaners[c], found, choice)
    ensures var s' := CleanerNext(s, c, found, choice); Released(s', c, s'.cleaners[c]) && Moved(s', s'.cleaners[c])
  {
    var cl, s' := s.cleaners[c], CleanerNext(s, c, found, choice);
    assert CleanerInv(s, c, cl) && Moved(s, cl);
    match cl.phase
    case Start => UnmarkedIsReleased(s, c, found, choice);
    case Close => UnmarkedIsReleased(s, c, found, choice);
    case Claim => ClaimMoves(s, c, found, choice);
    case Verify(_) => MovedIsReleased(s, c, found, choice);
    case Delete(_) => MovedIsReleased(s, c, found, choice);
    case Release => ReleaseUnmarks(s, c, found, choice);
    case _ =>
  }

  lemma UnmarkedIsReleased(s: State, c: nat, found: Option<RunId>, choice: Choice)
    requires Inv(s, {}) && c in s.cleaners && CleanerFound(s, s.cleaners[c], found, choice)
    requires s.cleaners[c].phase.Start? || s.cleaners[c].phase.Close?
    ensures var s' := CleanerNext(s, c, found, choice); Released(s', c, s'.cleaners[c]) && Moved(s', s'.cleaners[c])
  {
    var s' := CleanerNext(s, c, found, choice);
    assert CleanerInv(s, c, s.cleaners[c]);
    if s'.cleaners[c].phase.Finished? {
      assert s'.runs == s.runs;
      forall r | At(s', s'.cleaners[c].path, r) && !Crumbling(s', r)
        ensures r in s'.runs && s'.runs[r].closing != Some(c)
      {
        AtEnd(s', s'.cleaners[c].path, r);
        assert HeldBy(s, r);
      }
    }
  }

  lemma ClaimMoves(s: State, c: nat, found: Option<RunId>, choice: Choice)
    requires Inv(s, {}) && c in s.cleaners && CleanerFound(s, s.cleaners[c], found, choice)
    requires s.cleaners[c].phase.Claim?
    ensures var s' := CleanerNext(s, c, found, choice); Released(s', c, s'.cleaners[c]) && Moved(s', s'.cleaners[c])
  {
    var cl := s.cleaners[c];
    assert CleanerInv(s, c, cl);
    if found.Some? {
      HolderFindsItsRun(s, c, cl, found, choice);
      assert cl.path[|cl.path| - 1] in cl.path;
    }
  }

  lemma MovedIsReleased(s: State, c: nat, found: Option<RunId>, choice: Choice)
    requires Inv(s, {}) && c in s.cleaners && CleanerFound(s, s.cleaners[c], found, choice) && Moved(s, s.cleaners[c])
    requires s.cleaners[c].phase.Verify? || s.cleaners[c].phase.Delete?
    ensures var s' := CleanerNext(s, c, found, choice); Released(s', c, s'.cleaners[c]) && Moved(s', s'.cleaners[c])
  {
    var cl, s' := s.cleaners[c], CleanerNext(s, c, found, choice);
    RemovalKeepsNames(s, c, found, choice);
    forall r | At(s', cl.path, r) ensures r in s'.runs && s'.runs[r].closing != Some(c) {
      AtEnd(s', cl.path, r);
      MarkIsMoved(s, c, r);
    }
  }

  /** Verifying and removing a claimed run leaves every name and every mark. */
  lemma RemovalKeepsNames(s: State, c: nat, found: Option<RunId>, choice: Choice)
    requires c in s.cleaners && (found.Some? ==> found.value in s.runs)
    requires s.cleaners[c].phase.Verify? || s.cleaners[c].phase.Delete?
    ensures var cl, s' := s.cleaners[c], CleanerNext(s, c, found, choice);
            && s'.runs.Keys == s.runs.Keys && c in s'.cleaners
            && s'.cleaners[c].path == cl.path && s'.cleaners[c].held == cl.held
            && forall x :: x in s.runs ==>
                 s'.runs[x].name == s.runs[x].name && s'.runs[x].closing == s.runs[x].closing
  {
  }

  /** The run that bears the mark of such a cleaner has left its path. */
  lemma MarkIsMoved(s: State, c: nat, r: RunId)
    requires Inv(s, {}) && c in s.cleaners && Moved(s, s.cleaners[c]) && r in s.runs && |s.cleaners[c].path| > 0
    requires s.cleaners[c].phase.Verify? || s.cleaners[c].phase.Delete?
    requires s.runs[r].name == s.cleaners[c].path[|s.cleaners[c].path| - 1]
    ensures s.runs[r].closing != Some(c)
  {
    assert CleanerInv(s, c, s.cleaners[c]);
    assert HeldBy(s, r);
  }

  lemma ReleaseUnmarks(s: State, c: nat, found: Option<RunId>, choice: Choice)
    requires Inv(s, {}) && c in s.cleaners && CleanerFound(s, s.cleaners[c], found, choice)
    requires s.cleaners[c].phase.Release?
    ensures var s' := CleanerNext(s, c, found, choice); Released(s', c, s'.cleaners[c]) && Moved(s', s'.cleaners[c])
  {
    var cl, s' := s.cleaners[c], CleanerNext(s, c, found, choice);
    forall r | At(s', cl.path, r) && !Crumbling(s', r) ensures r in s'.runs && s'.runs[r].closing != Some(c) {
      AtEnd(s', cl.path, r);
      SameTree(s, s', cl.path, r);
      if found.Some? {
        AtEnd(s, cl.path, found.value);
        AtEnd(s, cl.path, r);
        assert r == found.value;
      }
    }
  }

  /** Marks alone do not change where a path leads or what is being removed. */
  lemma SameTree(s: State, s': State, p: Path, r: RunId)
    requires s'.runs.Keys == s.runs.Keys
    requires forall x :: x in s.runs ==> s'.runs[x].name == s.runs[x].name && s'.runs[x].deleted == s.runs[x].deleted &&
                                         s'.runs[x].erasing == s.runs[x].erasing
    ensures At(s', p, r) <==> At(s, p, r)
    ensures Crumbling(s', r) <==> Crumbling(s, r)
  {
  }

  lemma StepReleases(s: State, a: Action, s': State)
    requires Inv(s, {}) && AllReleased(s) && Step(s, a, s')
    ensures AllReleased(s')
  {
    forall c | c in s'.cleaners ensures Released(s', c, s'.cleaners[c]) && Moved(s', s'.cleaners[c]) {
      CleanerReleases(s, a, s', c);
    }
  }

  lemma CleanerReleases(s: State, a: Action, s': State, c: nat)
    requires Inv(s, {}) && AllReleased(s) && Step(s, a, s') && c in s'.cleaners
    ensures Released(s', c, s'.cleaners[c]) && Moved(s', s'.cleaners[c])
  {
    hide Inv, Released, Moved, CleanerNext, ReaderNext;
    if a.CleanerStep? && a.id == c {
      OwnRelease(s, c, a.found, a.choice);
    } else if c in s.cleaners {
      StepGrows(s, a, s');
      StepKeepsMarks(s, a, s', c);
      HeldIsRun(s, c);
      hide FsGrows, MarksKept, Enabled, Step, Apply;
      ReleasedStays(s, s', c, s.cleaners[c]);
    } else {
      hide Enabled;
      NewCleaner(s, a, s', c);
    }
  }

  lemma NewCleaner(s: State, a: Action, s': State, c: nat)
    requires Step(s, a, s') && c in s'.cleaners && c !in s.cleaners
    ensures Released(s', c, s'.cleaners[c]) && Moved(s', s'.cleaners[c])
  {
    hide NextLevel, Resolves;
  }

  lemma HeldIsRun(s: State, c: nat)
    requires Inv(s, {}) && c in s.cleaners
    ensures InUsed(s, s.cleaners[c].path)
    ensures var cl := s.cleaners[c]; cl.phase.Verify? || cl.phase.Delete? ==> cl.held.Some? && cl.held.value in s.runs
  {
    assert CleanerInv(s, c, s.cleaners[c]);
  }

  lemma StepKeepsMarks(s: State, a: Action, s': State, c: nat)
    requires Inv(s, {}) && Step(s, a, s') && c in s.cleaners && !(a.CleanerStep? && a.id == c)
    ensures MarksKept(s, s', c) && c in s'.cleaners && s'.cleaners[c] == s.cleaners[c]
  {
    match a
    case ReaderStep(j, found) => ReaderNextFrame(s, j, found);
    case CleanerStep(d, found, choice) =>
      OtherMarks(s, d, found, choice, c);
      CleanerNextFrame(s, {}, d, found, choice);
    case _ =>
  }

  lemma {:induction false} ReachableReleased(states: seq<State>, actions: seq<Action>, k: nat)
    requires Behaviour(states, actions) && k < |states|
    ensures AllReleased(states[k])
    decreases k
  {
    hide Inv, Step, AllReleased;
    if k == 0 {
      InitialReleased(states[0]);
    } else {
      ReachableReleased(states, actions, k - 1);
      ReachableInv(states, actions, k - 1, {});
      StepReleases(states[k - 1], actions[k - 1], states[k]);
    }
  }

  lemma InitialReleased(s: State)
    requires Initial(s)
    ensures AllReleased(s)
  {
  }

  /** A cleaner that is done leaves no closing mark of its own in a whole run that its path still names. */
  lemma NoMarkLeftBehind(states: seq<State>, actions: seq<Action>, k: nat, c: nat, r: RunId)
    requires Behaviour(states, actions) && k < |states| && c in states[k].cleaners
    requires states[k].cleaners[c].phase.Finished? && At(states[k], states[k].cleaners[c].path, r)
    requires !Crumbling(states[k], r)
    ensures r in states[k].runs && states[k].runs[r].closing != Some(c)
  {
    ReachableReleased(states, actions, k);
  }

  // ---------- a registration that was refused ----------

  predicate Entered(dir: Dir, n: Nonce) {
    n in dir.leases || n in dir.pendings
  }

  /** Entries are made at the level they are named for. */
  ghost predicate InPlace(s: State, i: nat) {
    forall x, n: Nonce :: x in s.runs && n.0 == i && Entered(s.runs[x], n) ==> |x| == n.1
  }

  /** The levels whose entries have been taken back. */
  ghost predicate Undone(phase: ReaderPhase, k: nat) {
    phase.Refused? || (phase.Rollback? && k > phase.level)
  }

  ghost predicate TakenBack(s: State, i: nat, rd: Reader) {
    forall k, r :: 0 < k <= |rd.path| && Undone(rd.phase, k) && At(s, rd.path[..k], r) && !Crumbling(s, r) ==>
      r in s.runs && !Entered(s.runs[r], (i, k))
  }

  ghost predicate AllTakenBack(s: State) {
    forall i :: i in s.readers ==> InPlace(s, i) && TakenBack(s, i, s.readers[i])
  }

  /** Nobody else makes an entry of this registration. */
  ghost predicate EntriesKept(s: State, s': State, i: nat) {
    forall x, n: Nonce :: x in s'.runs && n.0 == i && Entered(s'.runs[x], n) ==> x in s.runs && Entered(s.runs[x], n)
  }

  /** No entry is made under an id before its registration. */
  ghost predicate NoneBefore(s: State) {
    forall x, n: Nonce :: x in s.runs && Entered(s.runs[x], n) ==> n.0 in s.readers
  }

  lemma TakenBackStays(s: State, s': State, i: nat, rd: Reader)
    requires FsGrows(s, s') && EntriesKept(s, s', i) && InUsed(s, rd.path) && InPlace(s, i) && TakenBack(s, i, rd)
    ensures InPlace(s', i) && TakenBack(s', i, rd)
  {
    forall k, r | 0 < k <= |rd.path| && Undone(rd.phase, k) && At(s', rd.path[..k], r) && !Crumbling(s', r)
      ensures r in s'.runs && !Entered(s'.runs[r], (i, k))
    {
      WasThere(s, s', rd.path[..k], r);
      AtEnd(s', rd.path[..k], r);
    }
  }

  lemma ReaderEntries(s: State, i: nat, found: Option<RunId>, other: nat)
    requires i in s.readers && (found.Some? ==> found.value in s.runs) && other != i
    ensures EntriesKept(s, ReaderNext(s, i, found), other)
  {
    hide NextLevel;
  }

  lemma FoundKeepsEntries(s: State, c: nat, r: RunId, choice: Choice)
    requires c in s.cleaners && r in s.runs
    ensures var s' := CleanerNext(s, c, Some(r), choice);
            r in s'.runs && s'.runs[r].leases == s.runs[r].leases && s'.runs[r].pendings == s.runs[r].pendings
  {
    match s.cleaners[c].phase
    case Inspect(_) =>
    case Claim =>
    case Delete(_) =>
    case _ =>
  }

  lemma CleanerLeavesEntries(s: State, c: nat, found: Option<RunId>, choice: Choice, x: RunId)
    requires c in s.cleaners && (found.Some? ==> found.value in s.runs) && x in CleanerNext(s, c, found, choice).runs
    ensures x in s.runs
    ensures CleanerNext(s, c, found, choice).runs[x].leases == s.runs[x].leases
    ensures CleanerNext(s, c, found, choice).runs[x].pendings == s.runs[x].pendings
  {
    hide CleanerNext;
    CleanerNextRuns(s, c, found, choice);
    if found == Some(x) {
      FoundKeepsEntries(s, c, x, choice);
    }
  }

  lemma CleanerEntries(s: State, c: nat, found: Option<RunId>, choice: Choice, i: nat)
    requires c in s.cleaners && (found.Some? ==> found.value in s.runs)
    ensures EntriesKept(s, CleanerNext(s, c, found, choice), i)
  {
    hide CleanerNext;
    forall x | x in CleanerNext(s, c, found, choice).runs
      ensures x in s.runs
      ensures CleanerNext(s, c, found, choice).runs[x].leases == s.runs[x].leases
      ensures CleanerNext(s, c, found, choice).runs[x].pendings == s.runs[x].pendings
    {
      CleanerLeavesEntries(s, c, found, choice, x);
    }
  }

  /** A reader's own step changes entries of its own level only, in the run it found there. */
  lemma OwnEntries(s: State, i: nat, found: Option<RunId>, x: RunId, n: Nonce)
    requires i in s.readers && (found.Some? ==> found.value in s.runs)
    requires x in ReaderNext(s, i, found).runs && n.0 == i && Entered(ReaderNext(s, i, found).runs[x], n)
    ensures x in s.runs && (Entered(s.runs[x], n) || (n.1 == Level(s.readers[i].phase) && found == Some(x) &&
                                                     !s.readers[i].phase.Rollback?))
  {
    hide NextLevel;
  }

  lemma RollsBack(s: State, i: nat, found: Option<RunId>)
    requires i in s.readers && (found.Some? ==> found.value in s.runs)
    ensures var rd, s' := s.readers[i], ReaderNext(s, i, found);
            && i in s'.readers && s'.readers[i].path == rd.path
            && (rd.phase.Rollback? && rd.phase.level > 0 ==>
                  && s'.readers[i].phase == Rollback(rd.phase.level - 1)
                  && (found.Some? ==> found.value in s'.runs && !Entered(s'.runs[found.value], (i, rd.phase.level))))
            && (rd.phase == Rollback(0) ==> s'.readers[i].phase.Refused? && s'.runs == s.runs)
            && (rd.phase.Refused? ==> s' == s)
            && (!rd.phase.Rollback? && !rd.phase.Refused? ==>
                  !s'.readers[i].phase.Refused? &&
                  (s'.readers[i].phase.Rollback? ==> s'.readers[i].phase.level == |rd.path|))
  {
    hide NextLevel;
  }

  lemma OwnTakesBack(s: State, i: nat, found: Option<RunId>)
    requires Inv(s, {}) && Enabled(s, ReaderStep(i, found)) && (found.Some? ==> found.value in s.runs)
    requires InPlace(s, i) && TakenBack(s, i, s.readers[i])
    ensures var s' := ReaderNext(s, i, found); InPlace(s', i) && TakenBack(s', i, s'.readers[i])
  {
    var rd, s' := s.readers[i], ReaderNext(s, i, found);
    RollsBack(s, i, found);
    ReaderNextFrame(s, i, found);
    assert InUsed(s, rd.path) by { assert ReaderInv(s, {}, i, rd); }
    OwnInPlace(s, i, found);
    hide InPlace, Entered, ReaderNext, Inv, FsGrows, ReaderFrame;
    forall k, r | 0 < k <= |rd.path| && Undone(s'.readers[i].phase, k) && At(s', rd.path[..k], r) && !Crumbling(s', r)
      ensures r in s'.runs && !Entered(s'.runs[r], (i, k))
    {
      LevelTakenBack(s, i, found, k, r);
    }
  }

  lemma OwnInPlace(s: State, i: nat, found: Option<RunId>)
    requires Enabled(s, ReaderStep(i, found)) && (found.Some? ==> found.value in s.runs) && InPlace(s, i)
    ensures InPlace(ReaderNext(s, i, found), i)
  {
    var s' := ReaderNext(s, i, found);
    forall x, n: Nonce | x in s'.runs && n.0 == i && Entered(s'.runs[x], n) ensures |x| == n.1 {
      OwnEntries(s, i, found, x, n);
    }
  }

  lemma LevelTakenBack(s: State, i: nat, found: Option<RunId>, k: nat, r: RunId)
    requires Inv(s, {}) && Enabled(s, ReaderStep(i, found)) && (found.Some? ==> found.value in s.runs)
    requires TakenBack(s, i, s.readers[i]) && 0 < k <= |s.readers[i].path|
    requires var s' := ReaderNext(s, i, found);
             Undone(s'.readers[i].phase, k) && At(s', s.readers[i].path[..k], r) && !Crumbling(s', r)
    ensures var s' := ReaderNext(s, i, found); r in s'.runs && !Entered(s'.runs[r], (i, k))
  {
    var rd, s' := s.readers[i], ReaderNext(s, i, found);
    var p := rd.path[..k];
    RollsBack(s, i, found);
    ReaderNextFrame(s, i, found);
    SameTree(s, s', p, r);
    AtEnd(s', p, r);
    AtEnd(s, p, r);
    if Entered(s'.runs[r], (i, k)) {
      OwnEntries(s, i, found, r, (i, k));
    }
    hide ReaderNext, ReaderFrame, Entered;
    if rd.phase.Rollback? && rd.phase.level == k && found.Some? {
      AtEnd(s, p, found.value);
      assert r == found.value;
    }
  }

  lemma StepTakesBack(s: State, a: Action, s': State)
    requires Inv(s, {}) && AllTakenBack(s) && NoneBefore(s) && Step(s, a, s')
    ensures AllTakenBack(s') && NoneBefore(s')
  {
    StepNoneBefore(s, a, s');
    forall i | i in s'.readers ensures InPlace(s', i) && TakenBack(s', i, s'.readers[i]) {
      ReaderTakesBack(s, a, s', i);
    }
  }

  lemma ReaderTakesBack(s: State, a: Action, s': State, i: nat)
    requires Inv(s, {}) && AllTakenBack(s) && NoneBefore(s) && Step(s, a, s') && i in s'.readers
    ensures InPlace(s', i) && TakenBack(s', i, s'.readers[i])
  {
    hide Inv, TakenBack, InPlace;
    if a.ReaderStep? && a.id == i {
      hide ReaderNext;
      OwnTakesBack(s, i, a.found);
    } else if i in s.readers {
      StepKeepsEntries(s, a, s', i);
      StepGrows(s, a, s');
      KnownPath(s, i);
      hide FsGrows, EntriesKept, Enabled, Apply, Step;
      TakenBackStays(s, s', i, s.readers[i]);
    } else {
      NewReader(s, a, s', i);
    }
  }

  lemma KnownPath(s: State, i: nat)
    requires Inv(s, {}) && i in s.readers
    ensures InUsed(s, s.readers[i].path)
  {
    assert ReaderInv(s, {}, i, s.readers[i]);
  }

  lemma OnlyRegisterAdds(s: State, a: Action, s': State, i: nat)
    requires Step(s, a, s') && i in s'.readers && i !in s.readers
    ensures s'.runs == s.runs && s'.readers[i].phase.Before?
  {
    hide NextLevel, Resolves;
  }

  lemma NewReader(s: State, a: Action, s': State, i: nat)
    requires NoneBefore(s) && Step(s, a, s') && i in s'.readers && i !in s.readers
    ensures InPlace(s', i) && TakenBack(s', i, s'.readers[i])
  {
    OnlyRegisterAdds(s, a, s', i);
    hide Step;
  }

  lemma StepKeepsEntries(s: State, a: Action, s': State, i: nat)
    requires Inv(s, {}) && Step(s, a, s') && i in s.readers && !(a.ReaderStep? && a.id == i)
    ensures EntriesKept(s, s', i) && i in s'.readers && s'.readers[i] == s.readers[i]
  {
    match a
    case ReaderStep(j, found) =>
      ReaderEntries(s, j, found, i);
      ReaderNextFrame(s, j, found);
    case CleanerStep(d, found, choice) =>
      CleanerEntries(s, d, found, choice, i);
      CleanerNextFrame(s, {}, d, found, choice);
    case _ =>
  }

  lemma StepNoneBefore(s: State, a: Action, s': State)
    requires Inv(s, {}) && NoneBefore(s) && Step(s, a, s')
    ensures NoneBefore(s')
  {
    forall x, n: Nonce | x in s'.runs && Entered(s'.runs[x], n) ensures n.0 in s'.readers {
      match a
      case ReaderStep(j, found) =>
        ReaderNextFrame(s, j, found);
        if n.0 != j {
          ReaderEntries(s, j, found, n.0);
        }
      case CleanerStep(d, found, choice) =>
        CleanerEntries(s, d, found, choice, n.0);
        CleanerNextFrame(s, {}, d, found, choice);
      case _ =>
    }
  }

  lemma {:induction false} ReachableTakenBack(states: seq<State>, actions: seq<Action>, k: nat)
    requires Behaviour(states, actions) && k < |states|
    ensures AllTakenBack(states[k]) && NoneBefore(states[k])
    decreases k
  {
    hide Inv, Step, AllTakenBack, NoneBefore;
    if k == 0 {
      InitialTakenBack(states[0]);
    } else {
      ReachableTakenBack(states, actions, k - 1);
      ReachableInv(states, actions, k - 1, {});
      StepTakesBack(states[k - 1], actions[k - 1], states[k]);
    }
  }

  lemma InitialTakenBack(s: State)
    requires Initial(s)
    ensures AllTakenBack(s) && NoneBefore(s)
  {
  }

  /** A refused registration leaves no entry of its own in a whole run that its path still names. */
  lemma NoEntryLeftBehind(states: seq<State>, actions: seq<Action>, k: nat, i: nat, level: nat, r: RunId, n: Nonce)
    requires Behaviour(states, actions) && k < |states| && i in states[k].readers
    requires states[k].readers[i].phase.Refused? && 0 < level <= |states[k].readers[i].path| && n.0 == i
    requires At(states[k], states[k].readers[i].path[..level], r) && !Crumbling(states[k], r)
    ensures r in states[k].runs && n !in states[k].runs[r].leases && n !in states[k].runs[r].pendings
  {
    ReachableTakenBack(states, actions, k);
    AtEnd(states[k], states[k].readers[i].path[..level], r);
    assert InPlace(states[k], i) && TakenBack(states[k], i, states[k].readers[i]);
    assert Entered(states[k].runs[r], n) ==> n == (i, level);
  }

  // ---------- a registration for a dead process ----------

  /** The registration for this process, if this is one, has published nothing. */
  ghost predicate Outside(s: State, i: nat, pid: Pid) {
    i in s.readers && s.readers[i].pid == pid ==>
      !s.readers[i].phase.Commit? && !s.readers[i].phase.Check? && !s.readers[i].phase.Recheck? &&
      !s.readers[i].phase.Admitted?
  }

  lemma StaysOutside(s: State, i: nat, found: Option<RunId>, pid: Pid)
    requires i in s.readers && (found.Some? ==> found.value in s.runs) && Outside(s, i, pid) && pid in s.dead
    ensures Outside(ReaderNext(s, i, found), i, pid)
  {
    hide NextLevel;
  }

  lemma StepStaysOutside(s: State, a: Action, s': State, i: nat, pid: Pid)
    requires Inv(s, {}) && Step(s, a, s') && Outside(s, i, pid) && pid in s.dead
    ensures Outside(s', i, pid) && pid in s'.dead
  {
    hide Inv, ReaderNext;
    StepGrows(s, a, s');
    if a.ReaderStep? && a.id == i {
      StaysOutside(s, i, a.found, pid);
    } else if i in s.readers {
      StepKeepsEntries(s, a, s', i);
    } else if i in s'.readers {
      OnlyRegisterAdds(s, a, s', i);
    }
  }

  /** No registration that begins after the death of its process is admitted. */
  lemma {:induction false} DeadIsRefused(states: seq<State>, actions: seq<Action>, j: nat, k: nat, i: nat, pid: Pid)
    requires Behaviour(states, actions) && j <= k < |states|
    requires i !in states[j].readers && pid in states[j].dead
    ensures pid in states[k].dead && Outside(states[k], i, pid)
    decreases k - j
  {
    hide Inv, Step;
    if j < k {
      DeadIsRefused(states, actions, j, k - 1, i, pid);
      ReachableInv(states, actions, k - 1, {});
      StepStaysOutside(states[k - 1], actions[k - 1], states[k], i, pid);
    }
  }

  // ---------- the run a cleaner acts on ----------

  /** What it found when it began is what it holds. */
  ghost predicate Recalls(s: State, cl: Cleaner) {
    && (cl.phase.Close? ==> Bound(s, cl.path, cl.before))
    && (!cl.phase.Start? && !cl.phase.Close? && !cl.phase.Finished? ==> cl.held == Some(cl.before))
  }

  ghost predicate AllRecall(s: State) {
    forall c :: c in s.cleaners ==> Recalls(s, s.cleaners[c])
  }

  lemma StartRecalls(s: State, c: nat, found: Option<RunId>, choice: Choice)
    requires Inv(s, {}) && c in s.cleaners && CleanerFound(s, s.cleaners[c], found, choice)
    requires s.cleaners[c].phase.Start? || s.cleaners[c].phase.Close?
    requires Recalls(s, s.cleaners[c])
    ensures var s' := CleanerNext(s, c, found, choice); Recalls(s', s'.cleaners[c])
  {
    var cl, s' := s.cleaners[c], CleanerNext(s, c, found, choice);
    if found.Some? {
      FoundIsBound(s, cl.path, found.value);
      if cl.phase.Close? {
        assert cl.path[..|cl.path|] == cl.path && cl.before[..|cl.path|] == cl.before;
        FoundIsPrefix(s, cl.path, cl.before, |cl.path|, found.value);
      }
    }
    hide At, Bound, Inv, CleanerFound;
  }

  lemma HolderRecalls(s: State, c: nat, found: Option<RunId>, choice: Choice)
    requires Inv(s, {}) && c in s.cleaners && CleanerFound(s, s.cleaners[c], found, choice)
    requires !s.cleaners[c].phase.Start? && !s.cleaners[c].phase.Close? && Recalls(s, s.cleaners[c])
    ensures var s' := CleanerNext(s, c, found, choice); Recalls(s', s'.cleaners[c])
  {
    hide Inv, Bound;
    var cl := s.cleaners[c];
    if !cl.phase.Finished? {
      HolderHolds(s, c, found, choice);
      CleanerNextHeld(s, c, found, choice);
      hide CleanerNext;
    }
  }

  lemma HolderHolds(s: State, c: nat, found: Option<RunId>, choice: Choice)
    requires Inv(s, {}) && c in s.cleaners && CleanerFound(s, s.cleaners[c], found, choice)
    requires var cl := s.cleaners[c]; !cl.phase.Start? && !cl.phase.Close? && !cl.phase.Finished?
    ensures Holding(s, c, s.cleaners[c]) && (found.Some? ==> found == s.cleaners[c].held)
  {
    assert CleanerInv(s, c, s.cleaners[c]);
    if found.Some? {
      HolderFindsItsRun(s, c, s.cleaners[c], found, choice);
    }
  }

  lemma StepRecalls(s: State, a: Action, s': State, c: nat)
    requires Inv(s, {}) && AllRecall(s) && Step(s, a, s') && c in s'.cleaners
    ensures Recalls(s', s'.cleaners[c])
  {
    hide Inv, CleanerNext, ReaderNext, Bound;
    if a.CleanerStep? && a.id == c {
      if s.cleaners[c].phase.Start? || s.cleaners[c].phase.Close? {
        StartRecalls(s, c, a.found, a.choice);
      } else {
        HolderRecalls(s, c, a.found, a.choice);
      }
    } else if c in s.cleaners {
      StepGrows(s, a, s');
      StepKeepsMarks(s, a, s', c);
      HeldIsRun(s, c);
      hide Step;
      if s.cleaners[c].phase.Close? {
        BoundStays(s, s', s.cleaners[c].path, s.cleaners[c].before);
      }
    } else {
      StartsAnew(s, a, s', c);
    }
  }

  lemma StartsAnew(s: State, a: Action, s': State, c: nat)
    requires Step(s, a, s') && c in s'.cleaners && c !in s.cleaners
    ensures s'.cleaners[c].phase.Start?
  {
    hide NextLevel, Resolves;
  }

  lemma {:induction false} ReachableRecalls(states: seq<State>, actions: seq<Action>, k: nat)
    requires Behaviour(states, actions) && k < |states|
    ensures AllRecall(states[k])
    decreases k
  {
    hide Inv, Step, Recalls;
    if k > 0 {
      ReachableRecalls(states, actions, k - 1);
      ReachableInv(states, actions, k - 1, {});
      forall c | c in states[k].cleaners ensures Recalls(states[k], states[k].cleaners[c]) {
        StepRecalls(states[k - 1], actions[k - 1], states[k], c);
      }
    }
  }

  /**
   A cleaner renames and removes no run but the one it found when it began. It
   goes on to remove it only where it finds it again under its new name, and
   whatever it finds there is that run.
   */
  lemma ActsOnWhatItFound(states: seq<State>, actions: seq<Action>, k: nat, x: RunId)
    requires Behaviour(states, actions) && k < |actions| && actions[k].CleanerStep?
    ensures actions[k].id in states[k].cleaners && actions[k].id in states[k + 1].cleaners
    ensures var cl, cl' := states[k].cleaners[actions[k].id], states[k + 1].cleaners[actions[k].id];
            && (Disturbs(states[k], states[k + 1], x) ==> x == cl.before)
            && (cl.phase.Verify? && actions[k].found.Some? ==> actions[k].found == Some(cl.before))
            && (cl.phase.Verify? && cl'.phase.Delete? ==> At(states[k], cl.phase.claimed, cl.before))
  {
    hide Inv;
    assert Step(states[k], actions[k], states[k + 1]);
    var s, c := states[k], actions[k].id;
    ReachableInv(states, actions, k, {});
    ReachableRecalls(states, actions, k);
    var cl := s.cleaners[c];
    if cl.phase.Claim? || cl.phase.Verify? || cl.phase.Delete? {
      HolderHolds(s, c, actions[k].found, actions[k].choice);
      hide At, Holding;
    }
  }
}
