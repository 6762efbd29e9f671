/**
 The reader/cleanup barrier of scripts/test-temp.ts as a transition system: any
 number of readers and cleaners, nested runs, one file-system operation a step,
 and processes that may die at any point.

 A run directory has an identity that never changes, the chain of the runs that
 enclose it down to itself, and a name that a cleaner changes when it claims the
 run. Processes know only paths, that is, names. A claimed run is not removed at
 once: while its removal is under way any of its entries may already be gone.
 */
module ReaderBarrier {
  import opened PlanSchema

  type RunId = seq<nat>
  type Path = seq<nat>
  type Pid = nat
  /** Which registration published a lease, and at which level of its path. */
  type Nonce = (nat, nat)

  datatype Dir = Dir(name: nat, closing: Option<nat>, pendings: set<Nonce>, leases: map<Nonce, Pid>,
                     erasing: bool, deleted: bool)

  /** Where a registration stands; a level is a length of its path. */
  datatype ReaderPhase =
    | Before(level: nat)   // stat the run and read its owner
    | Seek(level: nat)     // look for an enclosing run, outwards
    | Publish(level: nat)  // write the pending lease
    | Commit(level: nat)   // rename it into a lease
    | Check(level: nat)    // look for the closing barrier
    | Recheck(level: nat)  // stat the run again
    | Rollback(level: nat) // remove what was published
    | Admitted
    | Refused

  datatype Reader = Reader(pid: Pid, agent: Pid, path: Path, before: map<nat, RunId>, phase: ReaderPhase)

  datatype CleanerPhase =
    | Start                        // stat the run, check its owner and runner
    | Close                        // create the closing barrier
    | Snapshot                     // list the leases
    | Inspect(todo: set<Nonce>)    // one lease after another
    | Claim                        // rename the run
    | Verify(claimed: Path)        // is it still the run it was?
    | Delete(claimed: Path)        // remove it, entry by entry
    | Release                      // remove the own barrier
    | Finished

  datatype Cleaner = Cleaner(agent: Pid, path: Path, before: RunId, held: Option<RunId>, phase: CleanerPhase)

  /** Every name given to a run so far, and those a cleaner gave. */
  datatype State = State(runs: map<RunId, Dir>, used: set<nat>, claimed: set<nat>, readers: map<nat, Reader>,
                         cleaners: map<nat, Cleaner>, dead: set<Pid>)

  // ---------- the file system ----------

  /** The path names this run now: every name along it is current and nothing on it is deleted. */
  ghost predicate At(s: State, p: Path, r: RunId) {
    && |p| == |r| > 0
    && forall k :: 0 < k <= |r| ==> r[..k] in s.runs && s.runs[r[..k]].name == p[k - 1] && !s.runs[r[..k]].deleted
  }

  /** The removal of this run, or of one around it, is under way. */
  ghost predicate Crumbling(s: State, r: RunId) {
    exists k :: 0 < k <= |r| && r[..k] in s.runs && s.runs[r[..k]].erasing
  }

  /** What a lookup of the path, or of an entry there, meets; removal may have been faster. */
  ghost predicate Resolves(s: State, p: Path, found: Option<RunId>) {
    match found
    case Some(r) => At(s, p, r)
    case None => forall r :: At(s, p, r) ==> Crumbling(s, r)
  }

  function Put(s: State, r: RunId, dir: Dir): State {
    s.(runs := s.runs[r := dir])
  }

  // ---------- readers ----------

  function SetReader(s: State, i: nat, rd: Reader): State {
    s.(readers := s.readers[i := rd])
  }

  /** The next level of the path, outermost first, whose run was found. */
  function NextLevel(rd: Reader, k: nat): (j: nat)
    ensures k < |rd.path| && |rd.path| in rd.before ==> k < j <= |rd.path| && j in rd.before
    ensures k < |rd.path| ==> forall l :: k < l < j ==> l !in rd.before
    decreases |rd.path| - k
  {
    if k + 1 in rd.before || k + 1 >= |rd.path| then k + 1 else NextLevel(rd, k + 1)
  }

  function Level(phase: ReaderPhase): nat {
    match phase
    case Admitted => 0
    case Refused => 0
    case _ => phase.level
  }

  /** One step of `registerReader`, given what its current path resolves to. */
  function ReaderNext(s: State, i: nat, found: Option<RunId>): State
    requires i in s.readers && (found.Some? ==> found.value in s.runs)
  {
    var rd := s.readers[i];
    var k := Level(rd.phase);
    var n := (i, k);
    var fail := SetReader(s, i, rd.(phase := Rollback(|rd.path|)));
    match rd.phase
    case Before(_) =>
      if found.Some? && k > 0 then
        SetReader(s, i, rd.(before := rd.before[k := found.value], phase := Seek(k - 1)))
      else fail
    case Seek(_) =>
      if k == 0 then SetReader(s, i, rd.(phase := Publish(NextLevel(rd, 0))))
      else if found.Some? then SetReader(s, i, rd.(phase := Before(k)))
      else SetReader(s, i, rd.(phase := Seek(k - 1)))
    case Publish(_) =>
      if found.Some? && rd.pid !in s.dead then
        var dir := s.runs[found.value];
        Put(SetReader(s, i, rd.(phase := Commit(k))), found.value, dir.(pendings := dir.pendings + {n}))
      else fail
    case Commit(_) =>
      if found.Some? && n in s.runs[found.value].pendings then
        var dir := s.runs[found.value];
        Put(SetReader(s, i, rd.(phase := Check(k))), found.value,
            dir.(pendings := dir.pendings - {n}, leases := dir.leases[n := rd.pid]))
      else fail
    case Check(_) =>
      if found.Some? && s.runs[found.value].closing.Some? then fail
      else SetReader(s, i, rd.(phase := Recheck(k)))
    case Recheck(_) =>
      if found.Some? && k in rd.before && rd.before[k] == found.value then
        SetReader(s, i, rd.(phase := if k >= |rd.path| then Admitted else Publish(NextLevel(rd, k))))
      else fail
    case Rollback(_) =>
      if k == 0 then SetReader(s, i, rd.(phase := Refused))
      else
        var back := SetReader(s, i, rd.(phase := Rollback(k - 1)));
        if found.Some? then
          var dir := s.runs[found.value];
          Put(back, found.value, dir.(pendings := dir.pendings - {n}, leases := dir.leases - {n}))
        else back
    case Admitted => s
    case Refused => s
  }

  // ---------- cleaners ----------

  /**
   What a cleaner step leaves open: to go on, or to retain the run. `gone` tells
   that the entry it looks for was already removed by another cleaner.
   */
  datatype Choice = GoOn(lease: Nonce, newName: nat, gone: bool) | Retain

  function SetCleaner(s: State, c: nat, cl: Cleaner): State {
    s.(cleaners := s.cleaners[c := cl])
  }

  function CleanerPath(cl: Cleaner): Path {
    match cl.phase
    case Verify(claimed) => claimed
    case Delete(claimed) => claimed
    case _ => cl.path
  }

  predicate Gone(s: State, r: RunId, choice: Choice)
    requires r in s.runs
  {
    s.runs[r].erasing && choice.GoOn? && choice.gone
  }

  /** One step of `cleanRun`, given what its current path resolves to. */
  function CleanerNext(s: State, c: nat, found: Option<RunId>, choice: Choice): State
    requires c in s.cleaners && (found.Some? ==> found.value in s.runs)
  {
    var cl := s.cleaners[c];
    var finish := SetCleaner(s, c, cl.(phase := Finished));
    var release := SetCleaner(s, c, cl.(phase := Release));
    match cl.phase
    case Start =>
      if found.None? || choice.Retain? then finish
      else SetCleaner(s, c, cl.(before := found.value, phase := Close))
    case Close =>
      if found.None? || choice.Retain? then finish
      else if s.runs[found.value].closing.Some? && !Gone(s, found.value, choice) then finish
      else
        Put(SetCleaner(s, c, cl.(held := found, phase := Snapshot)), found.value,
            s.runs[found.value].(closing := Some(c)))
    case Snapshot =>
      if found.None? || choice.Retain? then release
      else SetCleaner(s, c, cl.(phase := Inspect(if Gone(s, found.value, choice) then {}
                                                 else s.runs[found.value].leases.Keys)))
    case Inspect(todo) =>
      if todo == {} then SetCleaner(s, c, cl.(phase := Claim))
      else if found.None? || choice.Retain? then release
      else
        var leases := s.runs[found.value].leases;
        if choice.lease in todo && choice.lease in leases && leases[choice.lease] in s.dead then
          SetCleaner(s, c, cl.(phase := Inspect(todo - {choice.lease})))
        else release
    case Claim =>
      if found.None? || choice.Retain? || |cl.path| == 0 then release
      else
        var renamed := Put(SetCleaner(s, c, cl.(phase := Verify(cl.path[|cl.path| - 1 := choice.newName]))),
                           found.value, s.runs[found.value].(name := choice.newName));
        renamed.(used := s.used + {choice.newName}, claimed := s.claimed + {choice.newName})
    case Verify(claimed) =>
      if found == Some(cl.before) then SetCleaner(s, c, cl.(phase := Delete(claimed))) else finish
    case Delete(_) =>
      if found.None? then finish
      else if !s.runs[found.value].erasing then Put(s, found.value, s.runs[found.value].(erasing := true))
      else if choice.Retain? then finish
      else Put(finish, found.value, s.runs[found.value].(deleted := true))
    case Release =>
      if found.None? then finish else Put(finish, found.value, s.runs[found.value].(closing := None))
    case Finished => s
  }

  // ---------- steps ----------

  datatype Action =
    | Create(run: RunId, name: nat)
    | Die(pid: Pid)
    | Register(id: nat, pid: Pid, agent: Pid, path: Path)
    | ReaderStep(id: nat, found: Option<RunId>)
    | BeginClean(id: nat, agent: Pid, path: Path)
    | CleanerStep(id: nat, found: Option<RunId>, choice: Choice)

  ghost predicate Enabled(s: State, a: Action) {
    match a
    // names of runs are drawn at random and never met again
    case Create(r, name) => |r| > 0 && r !in s.runs && name !in s.used
    case Die(_) => true
    case Register(i, _, agent, path) =>
      i !in s.readers && agent !in s.dead && |path| > 0 && forall n :: n in path ==> n in s.used
    case ReaderStep(i, found) =>
      && i in s.readers && s.readers[i].agent !in s.dead
      && Level(s.readers[i].phase) <= |s.readers[i].path|
      && Resolves(s, s.readers[i].path[..Level(s.readers[i].phase)], found)
    case BeginClean(c, agent, path) =>
      c !in s.cleaners && agent !in s.dead && |path| > 0 && forall n :: n in path ==> n in s.used
    case CleanerStep(c, found, choice) =>
      && c in s.cleaners && s.cleaners[c].agent !in s.dead
      && Resolves(s, CleanerPath(s.cleaners[c]), found)
      && (choice.GoOn? ==> choice.newName !in s.used)
  }

  function Apply(s: State, a: Action): State
    requires a.ReaderStep? ==> a.id in s.readers && (a.found.Some? ==> a.found.value in s.runs)
    requires a.CleanerStep? ==> a.id in s.cleaners && (a.found.Some? ==> a.found.value in s.runs)
  {
    match a
    case Create(r, name) => Put(s, r, Dir(name, None, {}, map[], false, false)).(used := s.used + {name})
    case Die(pid) => s.(dead := s.dead + {pid})
    case Register(i, pid, agent, path) => SetReader(s, i, Reader(pid, agent, path, map[], Before(|path|)))
    case ReaderStep(i, found) => ReaderNext(s, i, found)
    case BeginClean(c, agent, path) => SetCleaner(s, c, Cleaner(agent, path, [], None, Start))
    case CleanerStep(c, found, choice) => CleanerNext(s, c, found, choice)
  }

  ghost predicate Step(s: State, a: Action, s': State) {
    && Enabled(s, a)
    && (a.ReaderStep? && a.found.Some? ==> a.found.value in s.runs)
    && (a.CleanerStep? && a.found.Some? ==> a.found.value in s.runs)
    && s' == Apply(s, a)
  }

  ghost predicate Initial(s: State) {
    s == State(map[], {}, {}, map[], map[], {})
  }

  // ---------- what stays true of names ----------

  ghost predicate InUsed(s: State, p: Path) {
    forall n :: n in p ==> n in s.used
  }

  /** Every prefix of the identity is a run. */
  ghost predicate Rooted(s: State, r: RunId) {
    forall k :: 0 < k <= |r| ==> r[..k] in s.runs
  }

  /** A name of the path, if any run has it, is the name of the run at its place in `r`. */
  ghost predicate Bound(s: State, p: Path, r: RunId) {
    && |p| == |r|
    && forall k, x :: 0 < k <= |p| && x in s.runs && s.runs[x].name == p[k - 1] ==> x == r[..k]
  }

  ghost predicate Names(s: State) {
    && s.claimed <= s.used
    && (forall r :: r in s.runs ==>
          |r| > 0 && s.runs[r].name in s.used && (s.runs[r].erasing ==> s.runs[r].name in s.claimed))
    && (forall x, y :: x in s.runs && y in s.runs && s.runs[x].name == s.runs[y].name ==> x == y)
  }

  /** Runs are never forgotten; a name changes only to a fresh one. */
  ghost predicate FsGrows(s: State, s': State) {
    && s.used <= s'.used && s.dead <= s'.dead && s.claimed <= s'.claimed
    && (forall n :: n in s.used && n in s'.claimed ==> n in s.claimed)
    && (forall r :: r in s.runs ==>
          && r in s'.runs
          && (s'.runs[r].name == s.runs[r].name || s'.runs[r].name !in s.used)
          && (s.runs[r].erasing ==> s'.runs[r].erasing) && (s.runs[r].deleted ==> s'.runs[r].deleted))
    && (forall r :: r in s'.runs && r !in s.runs ==> s'.runs[r].name !in s.used)
  }

  /** A path that stopped naming a run never names it again. */
  lemma NeverAgain(s: State, s': State, p: Path, r: RunId)
    requires FsGrows(s, s') && InUsed(s, p) && Rooted(s, r) && At(s', p, r)
    ensures At(s, p, r)
  {
    forall k | 0 < k <= |r| ensures s.runs[r[..k]].name == p[k - 1] && !s.runs[r[..k]].deleted {
      assert p[k - 1] in p;
    }
  }

  lemma BoundStays(s: State, s': State, p: Path, r: RunId)
    requires FsGrows(s, s') && InUsed(s, p) && Bound(s, p, r)
    ensures Bound(s', p, r) && InUsed(s', p)
  {
    forall k, x | 0 < k <= |p| && x in s'.runs && s'.runs[x].name == p[k - 1] ensures x == r[..k] {
      assert p[k - 1] in p;
    }
  }

  lemma FoundIsBound(s: State, p: Path, r: RunId)
    requires Names(s) && At(s, p, r)
    ensures Bound(s, p, r) && Rooted(s, r) && InUsed(s, p)
  {
    forall n | n in p ensures n in s.used {
      var k :| 0 <= k < |p| && p[k] == n;
      assert r[..k + 1] in s.runs && s.runs[r[..k + 1]].name == p[k + 1 - 1];
    }
  }

  /** A prefix of a bound path can only resolve to the prefix of its run. */
  lemma FoundIsPrefix(s: State, p: Path, r: RunId, k: nat, x: RunId)
    requires Bound(s, p, r) && 0 < k <= |p| && At(s, p[..k], x)
    ensures x == r[..k]
  {
    assert x[..k] == x;
    assert s.runs[x].name == p[..k][k - 1];
  }

  lemma AtPrefix(s: State, p: Path, r: RunId, k: nat)
    requires At(s, p, r) && 0 < k <= |p|
    ensures At(s, p[..k], r[..k])
  {
    forall l | 0 < l <= k
      ensures r[..k][..l] in s.runs && s.runs[r[..k][..l]].name == p[..k][l - 1] && !s.runs[r[..k][..l]].deleted
    {
      assert r[..k][..l] == r[..l];
    }
  }

  /** A path without names that cleaners gave. */
  ghost predicate Plain(s: State, p: Path) {
    forall n :: n in p ==> n !in s.claimed
  }

  /** A run that is being removed is out of reach of such a path. */
  lemma PlainIsWhole(s: State, p: Path, r: RunId)
    requires Names(s) && Plain(s, p) && At(s, p, r)
    ensures !Crumbling(s, r)
  {
    forall k | 0 < k <= |r| ensures !s.runs[r[..k]].erasing {
      assert p[k - 1] in p;
    }
  }
}
