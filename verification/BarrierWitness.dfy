/**
 Where the barrier's promise ends: a registration under a name that a cleaner
 gave can be admitted while that cleaner is removing the run.
 */
module BarrierWitness {
  import opened PlanSchema
  import opened ReaderBarrier
  import opened BarrierSafety

  const RUN: RunId := [0]
  const CLAIMED: Path := [1]
  const LEASE: Nonce := (0, 1)
  const ON: Choice := GoOn((0, 0), 1, false)
  const FINISH: Choice := GoOn((0, 0), 2, false)

  /** One run, at most one cleaner and at most one reader, all processes alive. */
  function Scene(dir: Dir, cleaner: Cleaner, readers: map<nat, Reader>): State {
    State(map[RUN := dir], if dir.name == 0 then {0} else {0, 1}, if dir.name == 0 then {} else {1},
          readers, map[0 := cleaner], {})
  }

  function Cleaning(phase: CleanerPhase): Cleaner {
    Cleaner(8, [0], if phase.Start? then [] else RUN, if phase.Start? || phase.Close? then None else Some(RUN), phase)
  }

  function Reading(phase: ReaderPhase): map<nat, Reader> {
    map[0 := Reader(7, 7, CLAIMED, if phase.Before? then map[] else map[1 := RUN], phase)]
  }

  const WHOLE := Dir(0, None, {}, map[], false, false)
  const CLOSED := WHOLE.(closing := Some(0))
  const MOVED := CLOSED.(name := 1)
  const PENDING := MOVED.(pendings := {LEASE})
  const LEASED := MOVED.(leases := map[LEASE := 7])
  const FALLING := LEASED.(erasing := true)
  const DELETING := Cleaning(Delete(CLAIMED))

  /** A cleaner claims the run; a reader registers under the claimed name; the removal overtakes its check. */
  function StoryState(k: nat): State
    requires k <= 17
  {
    match k
    case 0 => State(map[], {}, {}, map[], map[], {})
    case 1 => State(map[RUN := WHOLE], {0}, {}, map[], map[], {})
    case 2 => Scene(WHOLE, Cleaning(Start), map[])
    case 3 => Scene(WHOLE, Cleaning(Close), map[])
    case 4 => Scene(CLOSED, Cleaning(Snapshot), map[])
    case 5 => Scene(CLOSED, Cleaning(Inspect({})), map[])
    case 6 => Scene(CLOSED, Cleaning(Claim), map[])
    case 7 => Scene(MOVED, Cleaning(Verify(CLAIMED)), map[])
    case 8 => Scene(MOVED, DELETING, map[])
    case 9 => Scene(MOVED, DELETING, Reading(Before(1)))
    case 10 => Scene(MOVED, DELETING, Reading(Seek(0)))
    case 11 => Scene(MOVED, DELETING, Reading(Publish(1)))
    case 12 => Scene(PENDING, DELETING, Reading(Commit(1)))
    case 13 => Scene(LEASED, DELETING, Reading(Check(1)))
    case 14 => Scene(FALLING, DELETING, Reading(Check(1)))
    case 15 => Scene(FALLING, DELETING, Reading(Recheck(1)))
    case 16 => Scene(FALLING, DELETING, Reading(Admitted))
    case 17 => Scene(FALLING.(deleted := true), Cleaning(Finished), Reading(Admitted))
  }

  function StoryAction(k: nat): Action {
    match k
    case 0 => Create(RUN, 0)
    case 1 => BeginClean(0, 8, [0])
    case 8 => Register(0, 7, 7, CLAIMED)
    case 10 => ReaderStep(0, None)
    case 14 => ReaderStep(0, None)
    case _ => if k < 8 || k == 13 || k == 16 then CleanerStep(0, Some(RUN), if k < 7 then ON else FINISH)
              else ReaderStep(0, Some(RUN))
  }

  ghost predicate Follows(k: nat) {
    k <= 16 && Step(StoryState(k), StoryAction(k), StoryState(k + 1))
  }

  lemma RunIsThere(s: State)
    requires RUN in s.runs && !s.runs[RUN].deleted
    ensures At(s, [s.runs[RUN].name], RUN)
  {
    assert forall k :: 0 < k <= |RUN| ==> RUN[..k] == RUN;
  }

  /** The run is there, so the cleaner's step is decided by its phase alone. */
  lemma CleanerMoves(dir: Dir, cl: Cleaner, readers: map<nat, Reader>, choice: Choice)
    requires !dir.deleted && dir.name <= 1 && cl.agent == 8 && CleanerPath(cl) == [dir.name]
    requires choice.GoOn? ==> choice.newName > dir.name
    ensures var s := Scene(dir, cl, readers);
            Step(s, CleanerStep(0, Some(RUN), choice), CleanerNext(s, 0, Some(RUN), choice))
  {
    hide CleanerNext;
    RunIsThere(Scene(dir, cl, readers));
  }

  lemma ReaderMoves(dir: Dir, phase: ReaderPhase, found: Option<RunId>)
    requires !dir.deleted && dir.name == 1 && Level(phase) <= 1
    requires found == (if Level(phase) == 0 then None else Some(RUN)) || (found.None? && dir.erasing)
    ensures var s := Scene(dir, DELETING, Reading(phase));
            Step(s, ReaderStep(0, found), ReaderNext(s, 0, found))
  {
    hide ReaderNext;
    var s := Scene(dir, DELETING, Reading(phase));
    RunIsThere(s);
    assert CLAIMED[..1] == CLAIMED;
    if found.None? && Level(phase) == 1 {
      forall r | At(s, CLAIMED, r) ensures Crumbling(s, r) {
        assert r[..1] == r;
      }
    }
  }

  lemma Opening()
    ensures Follows(0) && Follows(1) && Follows(8)
  {
  }

  lemma SceneChanges(dir: Dir, cl: Cleaner, phase: ReaderPhase, dir': Dir, cl': Cleaner, phase': ReaderPhase)
    requires dir.name == dir'.name
    ensures Put(SetCleaner(Scene(dir, cl, map[]), 0, cl'), RUN, dir') == Scene(dir', cl', map[])
    ensures SetCleaner(Scene(dir, cl, map[]), 0, cl') == Scene(dir, cl', map[])
    ensures Put(SetCleaner(Scene(dir, cl, Reading(phase)), 0, cl'), RUN, dir') == Scene(dir', cl', Reading(phase))
    ensures Put(Scene(dir, cl, Reading(phase)), RUN, dir') == Scene(dir', cl, Reading(phase))
    ensures !phase.Before? && !phase'.Before? ==>
              SetReader(Scene(dir, cl, Reading(phase)), 0, Reading(phase')[0]) == Scene(dir, cl, Reading(phase')) &&
              Put(SetReader(Scene(dir, cl, Reading(phase)), 0, Reading(phase')[0]), RUN, dir')
              == Scene(dir', cl, Reading(phase'))
  {
  }

  lemma CleanerStarts()
    ensures Follows(2) && Follows(3)
  {
    hide Put, SetCleaner, Scene;
    CleanerMoves(WHOLE, Cleaning(Start), map[], ON);
    CleanerMoves(WHOLE, Cleaning(Close), map[], ON);
    SceneChanges(WHOLE, Cleaning(Start), Admitted, WHOLE, Cleaning(Close), Admitted);
    SceneChanges(WHOLE, Cleaning(Close), Admitted, CLOSED, Cleaning(Snapshot), Admitted);
    Fields(WHOLE, Cleaning(Start), map[]);
    Fields(WHOLE, Cleaning(Close), map[]);
  }

  lemma Fields(dir: Dir, cl: Cleaner, readers: map<nat, Reader>)
    ensures var s := Scene(dir, cl, readers);
            0 in s.cleaners && s.cleaners[0] == cl && RUN in s.runs && s.runs[RUN] == dir && s.readers == readers &&
            s.dead == {}
  {
  }

  lemma CleanerLooks()
    ensures Follows(4) && Follows(5)
  {
    hide Put, SetCleaner, Scene;
    CleanerMoves(CLOSED, Cleaning(Snapshot), map[], ON);
    CleanerMoves(CLOSED, Cleaning(Inspect({})), map[], ON);
    assert WHOLE.leases.Keys == {};
    SceneChanges(CLOSED, Cleaning(Snapshot), Admitted, CLOSED, Cleaning(Inspect({})), Admitted);
    SceneChanges(CLOSED, Cleaning(Inspect({})), Admitted, CLOSED, Cleaning(Claim), Admitted);
    Fields(CLOSED, Cleaning(Snapshot), map[]);
    Fields(CLOSED, Cleaning(Inspect({})), map[]);
  }

  lemma CleanerClaims()
    ensures Follows(6)
  {
    CleanerMoves(CLOSED, Cleaning(Claim), map[], ON);
    assert [0][0 := 1] == CLAIMED;
    assert {0} + {1} == {0, 1};
  }

  lemma CleanerVerifies()
    ensures Follows(7)
  {
    CleanerMoves(MOVED, Cleaning(Verify(CLAIMED)), map[], FINISH);
    SceneChanges(MOVED, Cleaning(Verify(CLAIMED)), Admitted, MOVED, DELETING, Admitted);
    Fields(MOVED, Cleaning(Verify(CLAIMED)), map[]);
  }

  lemma ReaderStats()
    ensures Follows(9) && Follows(10)
  {
    hide Put, SetReader, Scene;
    ReaderMoves(MOVED, Before(1), Some(RUN));
    ReaderMoves(MOVED, Seek(0), None);
    Fields(MOVED, DELETING, Reading(Before(1)));
    Fields(MOVED, DELETING, Reading(Seek(0)));
    SeeksFrom();
    SceneChanges(MOVED, DELETING, Seek(0), MOVED, DELETING, Publish(1));
  }

  lemma SeeksFrom()
    ensures SetReader(Scene(MOVED, DELETING, Reading(Before(1))), 0, Reading(Seek(0))[0])
            == Scene(MOVED, DELETING, Reading(Seek(0)))
    ensures map[][1 := RUN] == map[1 := RUN]
  {
  }

  lemma ReaderPublishes()
    ensures Follows(11)
  {
    hide Put, SetReader, Scene;
    ReaderMoves(MOVED, Publish(1), Some(RUN));
    Fields(MOVED, DELETING, Reading(Publish(1)));
    assert {} + {LEASE} == {LEASE};
    SceneChanges(MOVED, DELETING, Publish(1), PENDING, DELETING, Commit(1));
  }

  lemma ReaderCommits()
    ensures Follows(12)
  {
    hide Put, SetReader, Scene;
    ReaderMoves(PENDING, Commit(1), Some(RUN));
    Fields(PENDING, DELETING, Reading(Commit(1)));
    assert {LEASE} - {LEASE} == {} && map[][LEASE := 7] == map[LEASE := 7];
    SceneChanges(PENDING, DELETING, Commit(1), LEASED, DELETING, Check(1));
  }

  lemma RemovalOvertakes()
    ensures Follows(13) && Follows(14)
  {
    hide Put, SetReader, SetCleaner, Scene;
    CleanerMoves(LEASED, DELETING, Reading(Check(1)), FINISH);
    ReaderMoves(FALLING, Check(1), None);
    Fields(LEASED, DELETING, Reading(Check(1)));
    Fields(FALLING, DELETING, Reading(Check(1)));
    SceneChanges(LEASED, DELETING, Check(1), FALLING, DELETING, Check(1));
    SceneChanges(FALLING, DELETING, Check(1), FALLING, DELETING, Recheck(1));
  }

  lemma ReaderIsAdmitted()
    ensures Follows(15)
  {
    hide Put, SetReader, SetCleaner, Scene, NextLevel;
    ReaderMoves(FALLING, Recheck(1), Some(RUN));
    Fields(FALLING, DELETING, Reading(Recheck(1)));
    SceneChanges(FALLING, DELETING, Recheck(1), FALLING, DELETING, Admitted);
  }

  lemma RemovalEnds()
    ensures Follows(16)
  {
    hide Put, SetReader, SetCleaner, Scene;
    CleanerMoves(FALLING, DELETING, Reading(Admitted), FINISH);
    Fields(FALLING, DELETING, Reading(Admitted));
    SceneChanges(FALLING, DELETING, Admitted, FALLING.(deleted := true), Cleaning(Finished), Admitted);
  }

  lemma StoryHolds(k: nat)
    requires k <= 16
    ensures Follows(k)
  {
    hide Follows;
    Opening();
    CleanerStarts();
    CleanerLooks();
    CleanerClaims();
    CleanerVerifies();
    ReaderStats();
    ReaderPublishes();
    ReaderCommits();
    RemovalOvertakes();
    ReaderIsAdmitted();
    RemovalEnds();
  }

  /** Registering under a claimed name is not safe: an admitted live reader loses its run. */
  lemma ClaimedNameIsNotSafe()
    ensures exists states: seq<State>, actions: seq<Action>, k: nat ::
              Behaviour(states, actions) && k < |actions| && Disturbs(states[k], states[k + 1], RUN) &&
              AdmittedTo(states[k], 0, RUN) && states[k].readers[0].pid !in states[k].dead
  {
    hide StoryState, StoryAction;
    var states := seq(18, k requires 0 <= k < 18 => StoryState(k));
    var actions := seq(17, k requires 0 <= k < 17 => StoryAction(k));
    forall k | 0 <= k < 17 ensures Step(states[k], actions[k], states[k + 1]) {
      StoryHolds(k);
    }
    StoryEnds();
    assert Behaviour(states, actions) && Disturbs(states[16], states[16 + 1], RUN) && AdmittedTo(states[16], 0, RUN);
  }

  lemma StoryEnds()
    ensures Initial(StoryState(0)) && Disturbs(StoryState(16), StoryState(17), RUN)
    ensures AdmittedTo(StoryState(16), 0, RUN) && StoryState(16).readers[0].pid !in StoryState(16).dead
  {
  }
}
