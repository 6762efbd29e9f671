/**
 Safety of the reader/cleanup barrier: in every run of the transition system, a
 run directory is renamed or removed only when every reader admitted to it, or
 to a run inside it, is dead, unless a lookup of its registration met a run
 under removal; that can happen only under a name that a cleaner had given.
 */
module BarrierSafety {
  import opened PlanSchema
  import opened ReaderBarrier

  // ---------- the invariant ----------

  /** The holder has passed this lease by, or is about to move or remove the run. */
  ghost predicate Unsafe(phase: CleanerPhase, n: Nonce) {
    match phase
    case Inspect(todo) => n !in todo
    case Claim => true
    case Verify(_) => true
    case Delete(_) => true
    case _ => false
  }

  /** The run is whole, and the barrier is absent or its holder will still meet this lease. */
  ghost predicate Guard(s: State, x: RunId, n: Nonce)
    requires x in s.runs
  {
    var closing := s.runs[x].closing;
    && !s.runs[x].erasing
    && (closing.Some? && closing.value in s.cleaners ==> !Unsafe(s.cleaners[closing.value].phase, n))
  }

  /** Levels above this one have been looked up. */
  function Lowest(phase: ReaderPhase): nat {
    if phase.Before? || phase.Seek? then phase.level else 0
  }

  /** The lease of level `k` is published. */
  predicate Committed(phase: ReaderPhase, k: nat) {
    match phase
    case Publish(l) => k < l
    case Commit(l) => k < l
    case Check(l) => k <= l
    case Recheck(l) => k <= l
    case Admitted => true
    case _ => false
  }

  /** The barrier of level `k` has been looked for. */
  predicate Passed(phase: ReaderPhase, k: nat) {
    match phase
    case Publish(l) => k < l
    case Commit(l) => k < l
    case Check(l) => k < l
    case Recheck(l) => k <= l
    case Admitted => true
    case _ => false
  }

  predicate Ascending(phase: ReaderPhase) {
    phase.Publish? || phase.Commit? || phase.Check? || phase.Recheck?
  }

  ghost predicate LevelInRange(rd: Reader) {
    match rd.phase
    case Before(l) => 0 < l < |rd.path|
    case Seek(l) => l < |rd.path|
    case Admitted => true
    case _ => Ascending(rd.phase) && rd.phase.level in rd.before
  }

  /** A level that was passed over no longer leads to the run, and never will. */
  ghost predicate SkipsAreDead(s: State, rd: Reader, t: RunId)
    requires |t| == |rd.path|
  {
    forall k :: Lowest(rd.phase) < k < |rd.path| && k !in rd.before ==> !At(s, rd.path[..k], t[..k])
  }

  ghost predicate LeasesPublished(s: State, i: nat, rd: Reader, t: RunId)
    requires |t| == |rd.path| && Rooted(s, t)
  {
    forall k :: k in rd.before && 0 < k <= |t| && Committed(rd.phase, k) ==>
      (i, k) in s.runs[t[..k]].leases && s.runs[t[..k]].leases[(i, k)] == rd.pid
  }

  ghost predicate LeasesGuard(s: State, i: nat, rd: Reader, t: RunId)
    requires |t| == |rd.path| && Rooted(s, t)
  {
    forall k :: k in rd.before && 0 < k <= |t| && Passed(rd.phase, k) && rd.pid !in s.dead &&
                At(s, rd.path[..k], t[..k]) ==>
      Guard(s, t[..k], (i, k))
  }

  ghost predicate AdmissionHolds(s: State, rd: Reader, t: RunId)
    requires |t| == |rd.path|
  {
    rd.phase.Admitted? ==>
      && (forall k :: 0 < k <= |t| ==> k in rd.before)
      && (rd.pid !in s.dead ==> At(s, rd.path, t))
  }

  /** The run this registration is about. */
  ghost predicate Tracking(s: State, i: nat, rd: Reader) {
    && |rd.path| in rd.before && LevelInRange(rd)
    && var t := rd.before[|rd.path|];
    && Bound(s, rd.path, t) && Rooted(s, t)
    && (forall k :: k in rd.before ==> 0 < k <= |rd.path| && rd.before[k] == t[..k])
    && SkipsAreDead(s, rd, t) && LeasesPublished(s, i, rd, t) && LeasesGuard(s, i, rd, t) && AdmissionHolds(s, rd, t)
  }

  /** `trusted` are registrations that no lookup has misled so far. */
  ghost predicate ReaderInv(s: State, trusted: set<nat>, i: nat, rd: Reader) {
    && |rd.path| > 0 && InUsed(s, rd.path)
    && (i !in trusted || rd.phase.Rollback? || rd.phase.Refused? ||
        (rd.phase == Before(|rd.path|) && rd.before == map[]) || Tracking(s, i, rd))
  }

  ghost predicate Holding(s: State, c: nat, cl: Cleaner) {
    && cl.held.Some? && cl.held.value in s.runs
    && (s.runs[cl.held.value].closing == Some(c) || s.runs[cl.held.value].erasing)
    && Bound(s, cl.path, cl.held.value)
  }

  ghost predicate ClaimedPath(s: State, p: Path) {
    InUsed(s, p) && |p| > 0 && p[|p| - 1] in s.claimed
  }

  ghost predicate CleanerInv(s: State, c: nat, cl: Cleaner) {
    && |cl.path| > 0 && InUsed(s, cl.path)
    && match cl.phase
       case Start => cl.held.None?
       case Close => cl.held.None?
       case Snapshot => Holding(s, c, cl)
       case Inspect(_) => Holding(s, c, cl)
       case Claim => Holding(s, c, cl)
       case Release => Holding(s, c, cl)
       case Verify(claimed) => Holding(s, c, cl) && ClaimedPath(s, claimed) && Bound(s, claimed, cl.held.value)
       case Delete(claimed) => Holding(s, c, cl) && ClaimedPath(s, claimed) && Bound(s, claimed, cl.held.value)
       case Finished => true
  }

  ghost predicate HeldBy(s: State, x: RunId)
    requires x in s.runs
  {
    var closing := s.runs[x].closing;
    closing.Some? ==> closing.value in s.cleaners && s.cleaners[closing.value].held == Some(x)
  }

  ghost predicate Inv(s: State, trusted: set<nat>) {
    && Names(s)
    && (forall i :: i in s.readers ==> ReaderInv(s, trusted, i, s.readers[i]))
    && (forall c :: c in s.cleaners ==> CleanerInv(s, c, s.cleaners[c]))
    && (forall x :: x in s.runs ==> HeldBy(s, x))
  }

  // ---------- what other processes may do to a reader ----------

  /**
   Steps of others: they leave this reader's leases alone, keep guarding the
   leases of live processes, and move or remove only unguarded runs.
   */
  ghost predicate Calm(s: State, s': State, i: nat) {
    && FsGrows(s, s')
    && (forall x, n: Nonce :: x in s.runs && n.0 == i ==>
          (n in s.runs[x].leases <==> n in s'.runs[x].leases) &&
          (n in s.runs[x].leases ==> s.runs[x].leases[n] == s'.runs[x].leases[n]))
    && (forall x, n :: x in s.runs && n in s.runs[x].leases && s.runs[x].leases[n] !in s'.dead && Guard(s, x, n) ==>
          Guard(s', x, n) && s'.runs[x].name == s.runs[x].name && s'.runs[x].deleted == s.runs[x].deleted)
  }

  lemma PrefixRooted(s: State, t: RunId, k: nat)
    requires Rooted(s, t) && k <= |t|
    ensures Rooted(s, t[..k])
  {
    forall l | 0 < l <= k ensures t[..k][..l] in s.runs {
      assert t[..k][..l] == t[..l];
    }
  }

  lemma RootedStays(s: State, s': State, t: RunId)
    requires FsGrows(s, s') && Rooted(s, t)
    ensures Rooted(s', t)
  {
  }

  lemma StillUnreachable(s: State, s': State, p: Path, t: RunId, k: nat)
    requires FsGrows(s, s') && InUsed(s, p) && Rooted(s, t) && |t| == |p| && 0 < k <= |p|
    ensures At(s', p[..k], t[..k]) ==> At(s, p[..k], t[..k])
  {
    if At(s', p[..k], t[..k]) {
      PrefixRooted(s, t, k);
      NeverAgain(s, s', p[..k], t[..k]);
    }
  }

  /** An admitted live reader holds a guarded lease at every level of its path. */
  lemma AdmittedLease(s: State, i: nat, rd: Reader, t: RunId, k: nat)
    requires Tracking(s, i, rd) && t == rd.before[|rd.path|] && rd.phase.Admitted? && rd.pid !in s.dead
    requires 0 < k <= |t|
    ensures At(s, rd.path, t) && t[..k] in s.runs && Guard(s, t[..k], (i, k))
    ensures (i, k) in s.runs[t[..k]].leases && s.runs[t[..k]].leases[(i, k)] == rd.pid
  {
    AtPrefix(s, rd.path, t, k);
  }

  /** An admitted live reader's path survives every step of the others. */
  lemma PathSurvives(s: State, s': State, i: nat, rd: Reader, t: RunId)
    requires Calm(s, s', i) && Tracking(s, i, rd) && t == rd.before[|rd.path|]
    requires rd.phase.Admitted? && rd.pid !in s'.dead
    ensures At(s', rd.path, t)
  {
    assert At(s, rd.path, t);
    hide Tracking, Guard;
    forall k | 0 < k <= |t|
      ensures t[..k] in s'.runs && s'.runs[t[..k]].name == rd.path[k - 1] && !s'.runs[t[..k]].deleted
    {
      AdmittedLease(s, i, rd, t, k);
    }
  }

  lemma GuardsStay(s: State, s': State, i: nat, rd: Reader, t: RunId)
    requires Calm(s, s', i) && Tracking(s, i, rd) && t == rd.before[|rd.path|] && InUsed(s, rd.path)
    ensures Rooted(s', t) && LeasesPublished(s', i, rd, t) && LeasesGuard(s', i, rd, t)
  {
    RootedStays(s, s', t);
    forall k | k in rd.before && 0 < k <= |t| && Passed(rd.phase, k) && rd.pid !in s'.dead &&
               At(s', rd.path[..k], t[..k])
      ensures Guard(s', t[..k], (i, k))
    {
      StillUnreachable(s, s', rd.path, t, k);
    }
  }

  lemma ReaderStable(s: State, s': State, trusted: set<nat>, i: nat, rd: Reader)
    requires ReaderInv(s, trusted, i, rd) && Calm(s, s', i)
    ensures ReaderInv(s', trusted, i, rd)
  {
    if Tracking(s, i, rd) {
      var t := rd.before[|rd.path|];
      BoundStays(s, s', rd.path, t);
      GuardsStay(s, s', i, rd, t);
      forall k | Lowest(rd.phase) < k < |rd.path| && k !in rd.before ensures !At(s', rd.path[..k], t[..k]) {
        StillUnreachable(s, s', rd.path, t, k);
      }
      if rd.phase.Admitted? && rd.pid !in s'.dead {
        PathSurvives(s, s', i, rd, t);
      }
      assert Tracking(s', i, rd);
    }
  }

  // ---------- what other processes may do to a cleaner ----------

  /** Steps of others never touch a barrier that is held. */
  ghost predicate BarrierKept(s: State, s': State, c: nat) {
    && FsGrows(s, s')
    && forall x :: x in s.runs && s.runs[x].closing == Some(c) ==>
         s'.runs[x].closing == Some(c) || s'.runs[x].erasing
  }

  lemma CleanerStable(s: State, s': State, c: nat, cl: Cleaner)
    requires CleanerInv(s, c, cl) && BarrierKept(s, s', c)
    ensures CleanerInv(s', c, cl)
  {
    if cl.held.Some? && Bound(s, cl.path, cl.held.value) {
      BoundStays(s, s', cl.path, cl.held.value);
    }
    if (cl.phase.Verify? || cl.phase.Delete?) && cl.held.Some? {
      BoundStays(s, s', cl.phase.claimed, cl.held.value);
    }
  }

  // ---------- steps of a reader ----------

  ghost predicate SameShape(d: Dir, d': Dir) {
    d'.name == d.name && d'.closing == d.closing && d'.erasing == d.erasing && d'.deleted == d.deleted
  }

  /** A reader touches its own leases and nothing else. */
  ghost predicate ReaderFrame(s: State, s': State, i: nat) {
    && s'.used == s.used && s'.claimed == s.claimed && s'.dead == s.dead && s'.cleaners == s.cleaners
    && s'.runs.Keys == s.runs.Keys
    && s'.readers.Keys == s.readers.Keys && (forall j :: j in s.readers && j != i ==> s'.readers[j] == s.readers[j])
    && (forall x :: x in s.runs ==> SameShape(s.runs[x], s'.runs[x]))
    && (forall x, n: Nonce :: x in s.runs && n.0 != i ==>
          (n in s.runs[x].leases <==> n in s'.runs[x].leases) &&
          (n in s.runs[x].leases ==> s.runs[x].leases[n] == s'.runs[x].leases[n]))
  }

  /** A reader's change to one directory: its own leases only. */
  ghost predicate OwnLeases(d: Dir, d': Dir, i: nat) {
    && SameShape(d, d')
    && forall n: Nonce :: n.0 != i ==>
         (n in d.leases <==> n in d'.leases) && (n in d.leases ==> d.leases[n] == d'.leases[n])
  }

  lemma FrameOfParts(s: State, s': State, i: nat, at: Option<RunId>)
    requires i in s.readers && s'.used == s.used && s'.claimed == s.claimed
    requires s'.dead == s.dead && s'.cleaners == s.cleaners
    requires s'.readers.Keys == s.readers.Keys && s'.readers == s.readers[i := s'.readers[i]]
    requires match at
             case None => s'.runs == s.runs
             case Some(x) => x in s.runs && x in s'.runs && s'.runs == s.runs[x := s'.runs[x]] &&
                             OwnLeases(s.runs[x], s'.runs[x], i)
    ensures ReaderFrame(s, s', i)
  {
    if at.Some? {
      forall y | y in s.runs && y != at.value ensures s'.runs[y] == s.runs[y] {
      }
    }
  }

  lemma ReaderNextFrame(s: State, i: nat, found: Option<RunId>)
    requires i in s.readers && (found.Some? ==> found.value in s.runs)
    ensures ReaderFrame(s, ReaderNext(s, i, found), i)
  {
    hide ReaderFrame, NextLevel;
    var s' := ReaderNext(s, i, found);
    assert s'.readers == s.readers[i := s'.readers[i]];
    FrameOfParts(s, s', i, if s'.runs == s.runs then None else found);
  }

  lemma FrameAt(s: State, s': State, i: nat, p: Path, r: RunId)
    requires ReaderFrame(s, s', i)
    ensures At(s', p, r) <==> At(s, p, r)
  {
  }

  lemma FrameGuard(s: State, s': State, i: nat)
    requires ReaderFrame(s, s', i)
    ensures forall x, n :: x in s.runs ==> (Guard(s', x, n) <==> Guard(s, x, n))
  {
  }

  /** A new tracking state: facts about paths and guards may be shown in the old state. */
  lemma Retrack(s: State, s': State, i: nat, rd: Reader, rd': Reader, t: RunId)
    requires ReaderFrame(s, s', i) && InUsed(s, rd.path) && Bound(s, rd.path, t) && Rooted(s, t)
    requires rd'.path == rd.path && rd'.pid == rd.pid
    requires |rd.path| in rd'.before && rd'.before[|rd.path|] == t && LevelInRange(rd')
    requires forall k :: k in rd'.before ==> 0 < k <= |rd.path| && rd'.before[k] == t[..k]
    requires SkipsAreDead(s, rd', t) && LeasesGuard(s, i, rd', t) && AdmissionHolds(s, rd', t)
    requires Rooted(s', t) && LeasesPublished(s', i, rd', t)
    ensures Tracking(s', i, rd')
  {
    FrameGuard(s, s', i);
    forall p, r ensures At(s', p, r) <==> At(s, p, r) {
      FrameAt(s, s', i, p, r);
    }
    hide At, Guard;
  }

  lemma FrameRooted(s: State, s': State, i: nat, t: RunId)
    requires ReaderFrame(s, s', i) && Rooted(s, t)
    ensures Rooted(s', t)
  {
  }

  /** What a lookup on a tracked path returned is the run of that level. */
  ghost predicate FoundAt(s: State, rd: Reader, found: Option<RunId>) {
    && (found.Some? ==> found.value in s.runs) && Level(rd.phase) <= |rd.path|
    && var p := rd.path[..Level(rd.phase)];
       match found
       case Some(r) => At(s, p, r)
       case None => forall r :: !At(s, p, r)
  }

  /** What the registration is about to look up is in no run under removal. */
  ghost predicate Clear(s: State, i: nat) {
    i in s.readers && Level(s.readers[i].phase) <= |s.readers[i].path| ==>
      var p := s.readers[i].path[..Level(s.readers[i].phase)];
      forall r :: At(s, p, r) ==> !Crumbling(s, r)
  }

  /** Then nothing is removed behind the reader's back: what it does not find is not there. */
  lemma ClearLookup(s: State, i: nat, found: Option<RunId>)
    requires Enabled(s, ReaderStep(i, found)) && Clear(s, i) && (found.Some? ==> found.value in s.runs)
    ensures FoundAt(s, s.readers[i], found)
  {
    hide At, Crumbling;
  }

  lemma FirstStat(s: State, trusted: set<nat>, i: nat, found: Option<RunId>)
    requires Names(s) && i in s.readers && FoundAt(s, s.readers[i], found) && found.Some?
    requires var rd := s.readers[i]; rd.phase == Before(|rd.path|) && rd.before == map[] && |rd.path| > 0
    ensures var s' := ReaderNext(s, i, found); ReaderInv(s', trusted, i, s'.readers[i])
  {
    var rd, s' := s.readers[i], ReaderNext(s, i, found);
    assert rd.path[..|rd.path|] == rd.path;
    FoundIsBound(s, rd.path, found.value);
    ReaderNextFrame(s, i, found);
    FrameRooted(s, s', i, found.value);
    assert found.value[..|rd.path|] == found.value;
    hide At, Guard, Bound;
    Retrack(s, s', i, rd, s'.readers[i], found.value);
  }

  lemma StatNext(s: State, i: nat, found: Option<RunId>)
    requires i in s.readers && FoundAt(s, s.readers[i], found) && found.Some? && s.readers[i].phase.Before?
    requires s.readers[i].phase.level > 0
    ensures var s' := ReaderNext(s, i, found);
            i in s'.readers && s'.readers[i].path == s.readers[i].path && s'.used == s.used
    ensures var rd, s' := s.readers[i], ReaderNext(s, i, found);
            var k := rd.phase.level;
            s'.runs == s.runs && s'.readers[i] == rd.(before := rd.before[k := found.value], phase := Seek(k - 1))
  {
  }

  lemma LaterStat(s: State, trusted: set<nat>, i: nat, found: Option<RunId>)
    requires i in s.readers && FoundAt(s, s.readers[i], found) && found.Some?
    requires var rd := s.readers[i]; InUsed(s, rd.path) && |rd.path| > 0 && rd.phase.Before? && Tracking(s, i, rd)
    ensures var s' := ReaderNext(s, i, found); ReaderInv(s', trusted, i, s'.readers[i])
  {
    hide ReaderFrame, Guard;
    var rd, s' := s.readers[i], ReaderNext(s, i, found);
    var t := rd.before[|rd.path|];
    FoundIsPrefix(s, rd.path, t, rd.phase.level, found.value);
    ReaderNextFrame(s, i, found);
    StatNext(s, i, found);
    hide ReaderNext, At;
    assert SkipsAreDead(s, s'.readers[i], t);
    Retrack(s, s', i, rd, s'.readers[i], t);
  }

  lemma SeekNext(s: State, i: nat, found: Option<RunId>)
    requires i in s.readers && FoundAt(s, s.readers[i], found) && s.readers[i].phase.Seek?
    ensures var s' := ReaderNext(s, i, found);
            i in s'.readers && s'.readers[i].path == s.readers[i].path && s'.used == s.used
    ensures var rd, s' := s.readers[i], ReaderNext(s, i, found);
            var k := rd.phase.level;
            s'.runs == s.runs &&
            s'.readers[i] == rd.(phase := if k == 0 then Publish(NextLevel(rd, 0))
                                          else if found.Some? then Before(k) else Seek(k - 1))
  {
  }

  lemma SeekStep(s: State, trusted: set<nat>, i: nat, found: Option<RunId>)
    requires i in s.readers && FoundAt(s, s.readers[i], found)
    requires var rd := s.readers[i]; InUsed(s, rd.path) && |rd.path| > 0 && rd.phase.Seek? && Tracking(s, i, rd)
    ensures var s' := ReaderNext(s, i, found); ReaderInv(s', trusted, i, s'.readers[i])
  {
    var rd, s' := s.readers[i], ReaderNext(s, i, found);
    ReaderNextFrame(s, i, found);
    SeekNext(s, i, found);
    hide ReaderNext, At, Guard;
    var rd', t := s'.readers[i], rd.before[|rd.path|];
    assert SkipsAreDead(s, rd', t);
    Retrack(s, s', i, rd, rd', t);
  }

  lemma PublishNext(s: State, i: nat, found: Option<RunId>)
    requires i in s.readers && FoundAt(s, s.readers[i], found)
    requires s.readers[i].phase.Publish? || s.readers[i].phase.Commit?
    ensures var s' := ReaderNext(s, i, found);
            i in s'.readers && s'.readers[i].path == s.readers[i].path && s'.used == s.used
    ensures var rd, s' := s.readers[i], ReaderNext(s, i, found);
            s'.readers[i].phase.Rollback? ||
            (found.Some? &&
             s'.readers[i] == rd.(phase := if rd.phase.Publish? then Commit(rd.phase.level) else Check(rd.phase.level)))
  {
  }

  lemma PublishStep(s: State, trusted: set<nat>, i: nat, found: Option<RunId>)
    requires i in s.readers && FoundAt(s, s.readers[i], found)
    requires var rd := s.readers[i];
             InUsed(s, rd.path) && |rd.path| > 0 && (rd.phase.Publish? || rd.phase.Commit?) && Tracking(s, i, rd)
    ensures var s' := ReaderNext(s, i, found); ReaderInv(s', trusted, i, s'.readers[i])
  {
    hide ReaderNext, Guard, ReaderFrame, LeasesPublished;
    var rd, s' := s.readers[i], ReaderNext(s, i, found);
    var t := rd.before[|rd.path|];
    ReaderNextFrame(s, i, found);
    PublishNext(s, i, found);
    if !s'.readers[i].phase.Rollback? {
      FoundIsPrefix(s, rd.path, t, rd.phase.level, found.value);
      FrameRooted(s, s', i, t);
      PublishedAfter(s, i, found, t);
      hide At;
      Retrack(s, s', i, rd, s'.readers[i], t);
    }
  }

  lemma PublishedAfter(s: State, i: nat, found: Option<RunId>, t: RunId)
    requires i in s.readers && found.Some? && found.value in s.runs
    requires var rd := s.readers[i];
             (rd.phase.Publish? || rd.phase.Commit?) && |t| == |rd.path| && Rooted(s, t) &&
             0 < rd.phase.level <= |t| && found.value == t[..rd.phase.level] && LeasesPublished(s, i, rd, t)
    requires var s' := ReaderNext(s, i, found); !s'.readers[i].phase.Rollback? && Rooted(s', t)
    ensures var s' := ReaderNext(s, i, found); LeasesPublished(s', i, s'.readers[i], t)
  {
  }

  lemma CheckNext(s: State, i: nat, found: Option<RunId>)
    requires i in s.readers && FoundAt(s, s.readers[i], found) && s.readers[i].phase.Check?
    ensures var rd, s' := s.readers[i], ReaderNext(s, i, found);
            s'.runs == s.runs &&
            (s'.readers[i].phase.Rollback? ||
             (s'.readers[i] == rd.(phase := Recheck(rd.phase.level)) &&
              (found.Some? ==> s.runs[found.value].closing.None?)))
  {
  }

  /** The order that makes the barrier work: a lease that is out before the barrier is looked for. */
  lemma CheckStep(s: State, trusted: set<nat>, i: nat, found: Option<RunId>)
    requires i in s.readers && FoundAt(s, s.readers[i], found) && Clear(s, i)
    requires var rd := s.readers[i]; InUsed(s, rd.path) && |rd.path| > 0 && rd.phase.Check? && Tracking(s, i, rd)
    ensures var s' := ReaderNext(s, i, found); ReaderInv(s', trusted, i, s'.readers[i])
  {
    var rd, s' := s.readers[i], ReaderNext(s, i, found);
    var t := rd.before[|rd.path|];
    ReaderNextFrame(s, i, found);
    CheckNext(s, i, found);
    hide ReaderNext, Guard, LeasesGuard;
    if !s'.readers[i].phase.Rollback? {
      CheckedIsGuarded(s, i, rd, found, t);
      FrameRooted(s, s', i, t);
      hide At, ReaderFrame, Clear, FoundAt;
      Retrack(s, s', i, rd, s'.readers[i], t);
    }
  }

  lemma CheckedIsGuarded(s: State, i: nat, rd: Reader, found: Option<RunId>, t: RunId)
    requires i in s.readers && rd == s.readers[i] && Clear(s, i) && Tracking(s, i, rd)
    requires rd.phase.Check? && FoundAt(s, rd, found)
    requires t == rd.before[|rd.path|] && (found.Some? ==> s.runs[found.value].closing.None?)
    ensures LeasesGuard(s, i, rd.(phase := Recheck(rd.phase.level)), t)
  {
    MissedBarrierIsHarmless(s, i, rd, found);
    hide At, Guard;
  }

  /** A check that finds no barrier saw the run without one, or no longer saw the run. */
  lemma MissedBarrierIsHarmless(s: State, i: nat, rd: Reader, found: Option<RunId>)
    requires i in s.readers && rd == s.readers[i] && Clear(s, i) && Tracking(s, i, rd)
    requires rd.phase.Check? && FoundAt(s, rd, found)
    requires found.Some? ==> s.runs[found.value].closing.None?
    ensures var t := rd.before[|rd.path|];
            At(s, rd.path[..rd.phase.level], t[..rd.phase.level]) ==>
              Guard(s, t[..rd.phase.level], (i, rd.phase.level))
  {
    var t, k := rd.before[|rd.path|], rd.phase.level;
    if At(s, rd.path[..k], t[..k]) {
      assert found.Some?;
      FoundIsPrefix(s, rd.path, t, k, found.value);
      assert !Crumbling(s, t[..k]);
      assert t[..k][..k] == t[..k];
    }
  }

  lemma AdmittedSkippedNothing(s: State, rd: Reader, t: RunId)
    requires |t| == |rd.path| && |rd.path| in rd.before && SkipsAreDead(s, rd, t) && Lowest(rd.phase) == 0
    requires At(s, rd.path, t)
    ensures forall k :: 0 < k <= |t| ==> k in rd.before
  {
    forall k | 0 < k <= |t| ensures k in rd.before {
      AtPrefix(s, rd.path, t, k);
    }
  }

  /** What a successful recheck does: admit, or turn to the next level inwards. */
  lemma RecheckNext(s: State, i: nat, found: Option<RunId>)
    requires i in s.readers && FoundAt(s, s.readers[i], found) && s.readers[i].phase.Recheck?
    ensures var s' := ReaderNext(s, i, found);
            i in s'.readers && s'.readers[i].path == s.readers[i].path && s'.used == s.used
    ensures var rd, s' := s.readers[i], ReaderNext(s, i, found);
            var k := rd.phase.level;
            s'.runs == s.runs &&
            (s'.readers[i].phase.Rollback? ||
             (k in rd.before && found == Some(rd.before[k]) &&
              s'.readers[i] == rd.(phase := if k >= |rd.path| then Admitted else Publish(NextLevel(rd, k)))))
  {
  }

  lemma RecheckKeepsLeases(s: State, i: nat, rd: Reader, rd': Reader, t: RunId)
    requires |t| == |rd.path| && Rooted(s, t) && rd.phase.Recheck?
    requires |rd.path| in rd.before && (forall k :: k in rd.before ==> 0 < k <= |rd.path|)
    requires rd' == rd.(phase := rd'.phase) && rd.phase.level in rd.before
    requires rd'.phase == if rd.phase.level >= |rd.path| then Admitted else Publish(NextLevel(rd, rd.phase.level))
    requires LeasesPublished(s, i, rd, t) && LeasesGuard(s, i, rd, t)
    ensures LeasesPublished(s, i, rd', t) && LeasesGuard(s, i, rd', t)
  {
    forall k | k in rd.before && Committed(rd'.phase, k) ensures Committed(rd.phase, k) && Passed(rd.phase, k) {
    }
    hide At, Guard;
  }

  lemma RecheckStep(s: State, trusted: set<nat>, i: nat, found: Option<RunId>)
    requires i in s.readers && FoundAt(s, s.readers[i], found)
    requires var rd := s.readers[i]; InUsed(s, rd.path) && |rd.path| > 0 && rd.phase.Recheck? && Tracking(s, i, rd)
    ensures var s' := ReaderNext(s, i, found); ReaderInv(s', trusted, i, s'.readers[i])
  {
    hide ReaderNext, Guard, ReaderFrame;
    var rd, s' := s.readers[i], ReaderNext(s, i, found);
    ReaderNextFrame(s, i, found);
    RecheckNext(s, i, found);
    if !s'.readers[i].phase.Rollback? {
      var rd', t := s'.readers[i], rd.before[|rd.path|];
      if rd'.phase.Admitted? {
        assert rd.path[..|rd.path|] == rd.path && t[..|t|] == t;
        AdmittedSkippedNothing(s, rd, t);
      }
      RecheckKeepsLeases(s, i, rd, rd', t);
      Retrack(s, s', i, rd, rd', t);
    }
  }

  lemma OwnReaderStep(s: State, trusted: set<nat>, i: nat, found: Option<RunId>)
    requires Names(s) && i in s.readers && ReaderInv(s, trusted, i, s.readers[i]) && FoundAt(s, s.readers[i], found)
    requires i in trusted && Clear(s, i)
    ensures var s' := ReaderNext(s, i, found); ReaderInv(s', trusted, i, s'.readers[i])
  {
    var rd := s.readers[i];
    match rd.phase
    case Before(_) =>
      if found.Some? && Tracking(s, i, rd) {
        LaterStat(s, trusted, i, found);
      } else if found.Some? {
        FirstStat(s, trusted, i, found);
      }
    case Seek(_) => SeekStep(s, trusted, i, found);
    case Publish(_) => PublishStep(s, trusted, i, found);
    case Commit(_) => PublishStep(s, trusted, i, found);
    case Check(_) => CheckStep(s, trusted, i, found);
    case Recheck(_) => RecheckStep(s, trusted, i, found);
    case Admitted =>
    case Refused =>
    case Rollback(_) =>
  }

  lemma OwnReader(s: State, trusted: set<nat>, i: nat, found: Option<RunId>)
    requires Inv(s, trusted) && Enabled(s, ReaderStep(i, found)) && (found.Some? ==> found.value in s.runs)
    requires i in trusted ==> Clear(s, i)
    ensures var s' := ReaderNext(s, i, found); ReaderInv(s', trusted, i, s'.readers[i])
  {
    var rd, s' := s.readers[i], ReaderNext(s, i, found);
    assert ReaderInv(s, trusted, i, rd);
    if i in trusted {
      ClearLookup(s, i, found);
      OwnReaderStep(s, trusted, i, found);
    } else {
      hide At, Tracking;
    }
  }

  lemma ReaderStepKeeps(s: State, trusted: set<nat>, i: nat, found: Option<RunId>)
    requires Inv(s, trusted) && Enabled(s, ReaderStep(i, found)) && (found.Some? ==> found.value in s.runs)
    requires i in trusted ==> Clear(s, i)
    ensures Inv(ReaderNext(s, i, found), trusted)
  {
    var s' := ReaderNext(s, i, found);
    ReaderNextFrame(s, i, found);
    FrameGuard(s, s', i);
    forall j | j in s'.readers ensures ReaderInv(s', trusted, j, s'.readers[j]) {
      if j == i {
        OwnReader(s, trusted, i, found);
      } else {
        ReaderStable(s, s', trusted, j, s.readers[j]);
      }
    }
    forall c | c in s'.cleaners ensures CleanerInv(s', c, s'.cleaners[c]) {
      CleanerStable(s, s', c, s.cleaners[c]);
    }
    forall x | x in s'.runs ensures HeldBy(s', x) {
      assert HeldBy(s, x);
    }
  }

  // ---------- steps of a cleaner ----------

  ghost predicate CleanerFound(s: State, cl: Cleaner, found: Option<RunId>, choice: Choice) {
    && (found.Some? ==> found.value in s.runs) && Resolves(s, CleanerPath(cl), found)
    && (choice.GoOn? ==> choice.newName !in s.used)
  }

  /** While it holds a barrier, what a cleaner's path leads to is the run it holds. */
  lemma HolderFindsItsRun(s: State, c: nat, cl: Cleaner, found: Option<RunId>, choice: Choice)
    requires CleanerInv(s, c, cl) && CleanerFound(s, cl, found, choice) && found.Some?
    requires !cl.phase.Start? && !cl.phase.Close? && !cl.phase.Finished?
    ensures Holding(s, c, cl) && found.value == cl.held.value
  {
    var p := CleanerPath(cl);
    assert p[..|p|] == p && cl.held.value[..|p|] == cl.held.value;
    FoundIsPrefix(s, p, cl.held.value, |p|, found.value);
  }

  /** How a cleaner step may change a run directory. */
  ghost predicate DirChange(phase: CleanerPhase, c: nat, used: set<nat>, d: Dir, d': Dir) {
    && d'.leases == d.leases
    && (d.closing == Some(c) || (phase.Close? && d.closing.None?) || d.erasing)
    && (d.erasing ==> d'.erasing) && (d'.erasing != d.erasing ==> phase.Delete?)
    && (d.deleted ==> d'.deleted) && (d'.deleted != d.deleted ==> phase.Delete?)
    && (d'.name != d.name ==> phase.Claim? && d'.name !in used)
  }

  /** What a cleaner step does: at most one directory changes, and only the cleaner's own record. */
  ghost predicate CleanerFrame(s: State, s': State, c: nat, found: Option<RunId>) {
    && c in s.cleaners && s'.readers == s.readers && s'.dead == s.dead
    && s.used <= s'.used && s.claimed <= s'.claimed <= s.claimed + (s'.used - s.used)
    && s'.runs.Keys == s.runs.Keys && s'.cleaners.Keys == s.cleaners.Keys
    && (forall d :: d in s.cleaners && d != c ==> s'.cleaners[d] == s.cleaners[d])
    && (forall x :: x in s.runs && s'.runs[x] != s.runs[x] ==>
          found == Some(x) && s'.runs[x].name in s'.claimed + {s.runs[x].name} &&
          (s'.runs[x].erasing != s.runs[x].erasing ==> s.runs[x].name in s.claimed) &&
          DirChange(s.cleaners[c].phase, c, s.used, s.runs[x], s'.runs[x]))
  }

  lemma FoundIsOwn(s: State, trusted: set<nat>, c: nat, found: Option<RunId>, choice: Choice)
    requires Inv(s, trusted) && c in s.cleaners && CleanerFound(s, s.cleaners[c], found, choice) && found.Some?
    ensures var cl := s.cleaners[c];
            cl.phase.Start? || cl.phase.Close? || cl.phase.Finished? || s.runs[found.value].closing == Some(c) ||
            s.runs[found.value].erasing
  {
    var cl := s.cleaners[c];
    if !cl.phase.Start? && !cl.phase.Close? && !cl.phase.Finished? {
      HolderFindsItsRun(s, c, cl, found, choice);
    }
  }

  /** At most the found directory changes. */
  lemma CleanerNextRuns(s: State, c: nat, found: Option<RunId>, choice: Choice)
    requires c in s.cleaners && (found.Some? ==> found.value in s.runs)
    ensures var s' := CleanerNext(s, c, found, choice);
            s'.runs == s.runs || (found.Some? && s'.runs == s.runs[found.value := s'.runs[found.value]])
  {
  }

  /** Only a run with a claimed name is removed. */
  lemma RemovedIsClaimed(s: State, trusted: set<nat>, c: nat, found: Option<RunId>, choice: Choice)
    requires Inv(s, trusted) && c in s.cleaners && CleanerFound(s, s.cleaners[c], found, choice)
    requires s.cleaners[c].phase.Delete? && found.Some?
    ensures s.runs[found.value].name in s.claimed
  {
    assert CleanerInv(s, c, s.cleaners[c]);
    var p, x := s.cleaners[c].phase.claimed, found.value;
    assert x[..|x|] == x && s.runs[x[..|x|]].name == p[|x| - 1];
  }

  ghost predicate OwnsFound(s: State, c: nat, found: Option<RunId>)
    requires c in s.cleaners
  {
    && (found.Some? ==> found.value in s.runs)
    && (var phase := s.cleaners[c].phase;
        found.Some? && !phase.Start? && !phase.Close? && !phase.Finished? ==>
          s.runs[found.value].closing == Some(c) || s.runs[found.value].erasing)
    && (found.Some? && s.cleaners[c].phase.Delete? ==> s.runs[found.value].name in s.claimed)
  }

  lemma FoundDirChange(s: State, c: nat, found: Option<RunId>, choice: Choice)
    requires c in s.cleaners && OwnsFound(s, c, found) && (choice.GoOn? ==> choice.newName !in s.used)
    requires found.Some?
    ensures var s' := CleanerNext(s, c, found, choice);
            && found.value in s'.runs
            && var d, d' := s.runs[found.value], s'.runs[found.value];
               && (d' != d ==> DirChange(s.cleaners[c].phase, c, s.used, d, d'))
               && (d'.name in s'.claimed + {d.name}) && (d'.erasing != d.erasing ==> d.name in s.claimed)
  {
  }

  lemma CleanerKeepsOthers(s: State, c: nat, found: Option<RunId>, choice: Choice)
    requires c in s.cleaners && OwnsFound(s, c, found) && (choice.GoOn? ==> choice.newName !in s.used)
    ensures var s' := CleanerNext(s, c, found, choice);
            && s'.readers == s.readers && s'.dead == s.dead
            && s.used <= s'.used && s.claimed <= s'.claimed <= s.claimed + (s'.used - s.used)
            && s'.cleaners.Keys == s.cleaners.Keys
            && (forall d :: d in s.cleaners && d != c ==> s'.cleaners[d] == s.cleaners[d])
  {
  }

  lemma CleanerNextDir(s: State, c: nat, found: Option<RunId>, choice: Choice)
    requires c in s.cleaners && OwnsFound(s, c, found) && (choice.GoOn? ==> choice.newName !in s.used)
    ensures CleanerFrame(s, CleanerNext(s, c, found, choice), c, found)
  {
    hide CleanerNext, DirChange;
    CleanerNextRuns(s, c, found, choice);
    CleanerKeepsOthers(s, c, found, choice);
    if found.Some? {
      FoundDirChange(s, c, found, choice);
    }
  }

  lemma CleanerNextFrame(s: State, trusted: set<nat>, c: nat, found: Option<RunId>, choice: Choice)
    requires Inv(s, trusted) && c in s.cleaners && CleanerFound(s, s.cleaners[c], found, choice)
    ensures CleanerFrame(s, CleanerNext(s, c, found, choice), c, found)
  {
    hide Inv, CleanerFrame, CleanerNext, Resolves;
    if found.Some? {
      FoundIsOwn(s, trusted, c, found, choice);
      if s.cleaners[c].phase.Delete? {
        RemovedIsClaimed(s, trusted, c, found, choice);
      }
    }
    CleanerNextDir(s, c, found, choice);
  }

  lemma CleanerGrows(s: State, s': State, c: nat, found: Option<RunId>)
    requires Names(s) && CleanerFrame(s, s', c, found)
    ensures FsGrows(s, s') && Names(s')
  {
    forall x | x in s.runs
      ensures s'.runs[x].name == s.runs[x].name || (found == Some(x) && s'.runs[x].name !in s.used)
      ensures s'.runs[x].name in s'.used && (s.runs[x].deleted ==> s'.runs[x].deleted)
      ensures s.runs[x].erasing ==> s'.runs[x].erasing
      ensures s'.runs[x].erasing ==> s'.runs[x].name in s'.claimed
    {
      assert s'.runs[x] == s.runs[x] || found == Some(x);
    }
  }

  lemma GuardKeptBy(s: State, c: nat, found: Option<RunId>, choice: Choice, x: RunId, n: Nonce)
    requires c in s.cleaners && (found.Some? ==> found.value in s.runs)
    requires var cl := s.cleaners[c];
             found.Some? && !cl.phase.Start? && !cl.phase.Close? && !cl.phase.Finished? ==> cl.held == found
    requires x in s.runs && n in s.runs[x].leases && s.runs[x].leases[n] !in s.dead && Guard(s, x, n)
    requires s.runs[x].closing == Some(c) ==> s.cleaners[c].held == Some(x)
    requires found == Some(x) && s.cleaners[c].phase.Delete? ==> s.runs[x].closing == Some(c)
    ensures var s' := CleanerNext(s, c, found, choice); x in s'.runs && Guard(s', x, n)
  {
  }

  /** Going on, a cleaner leaves behind only leases of dead processes. */
  lemma GuardKept(s: State, trusted: set<nat>, c: nat, found: Option<RunId>, choice: Choice, x: RunId, n: Nonce)
    requires Inv(s, trusted) && c in s.cleaners && CleanerFound(s, s.cleaners[c], found, choice)
    requires x in s.runs && n in s.runs[x].leases && s.runs[x].leases[n] !in s.dead && Guard(s, x, n)
    ensures var s' := CleanerNext(s, c, found, choice); x in s'.runs && Guard(s', x, n)
  {
    hide CleanerNext, Resolves;
    var cl := s.cleaners[c];
    assert HeldBy(s, x);
    if found.Some? && !cl.phase.Start? && !cl.phase.Close? && !cl.phase.Finished? {
      HolderFindsItsRun(s, c, cl, found, choice);
    }
    GuardKeptBy(s, c, found, choice, x, n);
  }

  /** A run is renamed or removed only by the holder of its barrier, past every lease. */
  lemma MovedIsUnguarded(s: State, s': State, c: nat, found: Option<RunId>, x: RunId, n: Nonce)
    requires CleanerFrame(s, s', c, found) && x in s.runs && Guard(s, x, n)
    ensures s'.runs[x].name == s.runs[x].name && s'.runs[x].deleted == s.runs[x].deleted
  {
  }

  lemma CleanerIsCalm(s: State, trusted: set<nat>, c: nat, found: Option<RunId>, choice: Choice, i: nat)
    requires Inv(s, trusted) && c in s.cleaners && CleanerFound(s, s.cleaners[c], found, choice)
    ensures Calm(s, CleanerNext(s, c, found, choice), i)
  {
    var s' := CleanerNext(s, c, found, choice);
    CleanerNextFrame(s, trusted, c, found, choice);
    CleanerGrows(s, s', c, found);
    forall x, n | x in s.runs && n in s.runs[x].leases && s.runs[x].leases[n] !in s'.dead && Guard(s, x, n)
      ensures Guard(s', x, n) && s'.runs[x].name == s.runs[x].name && s'.runs[x].deleted == s.runs[x].deleted
    {
      GuardKept(s, trusted, c, found, choice, x, n);
      MovedIsUnguarded(s, s', c, found, x, n);
    }
  }

  /** The new name binds the claimed path to the same run. */
  lemma ClaimBinds(s: State, trusted: set<nat>, c: nat, found: Option<RunId>, choice: Choice)
    requires Inv(s, trusted) && c in s.cleaners && CleanerFound(s, s.cleaners[c], found, choice)
    requires s.cleaners[c].phase.Claim? && found.Some? && choice.GoOn?
    ensures var cl, s' := s.cleaners[c], CleanerNext(s, c, found, choice);
            var claimed := cl.path[|cl.path| - 1 := choice.newName];
            Bound(s', claimed, found.value) && ClaimedPath(s', claimed)
  {
    var cl, s' := s.cleaners[c], CleanerNext(s, c, found, choice);
    HolderFindsItsRun(s, c, cl, found, choice);
    var p, h := cl.path, found.value;
    var claimed := p[|p| - 1 := choice.newName];
    forall k, x | 0 < k <= |claimed| && x in s'.runs && s'.runs[x].name == claimed[k - 1] ensures x == h[..k] {
      if k == |claimed| {
        assert h[..k] == h;
      } else {
        assert p[k - 1] in p;
      }
    }
  }

  lemma HeldStaysBound(s: State, s': State, c: nat, cl: Cleaner)
    requires CleanerInv(s, c, cl) && FsGrows(s, s')
    ensures InUsed(s', cl.path)
    ensures !cl.phase.Start? && !cl.phase.Close? && !cl.phase.Finished? ==>
              Holding(s, c, cl) && Bound(s', cl.path, cl.held.value)
    ensures cl.phase.Verify? || cl.phase.Delete? ==>
              ClaimedPath(s', cl.phase.claimed) && Bound(s', cl.phase.claimed, cl.held.value)
  {
    if !cl.phase.Start? && !cl.phase.Close? && !cl.phase.Finished? {
      BoundStays(s, s', cl.path, cl.held.value);
    }
    if cl.phase.Verify? || cl.phase.Delete? {
      BoundStays(s, s', cl.phase.claimed, cl.held.value);
    }
  }

  lemma CloseStep(s: State, trusted: set<nat>, c: nat, found: Option<RunId>, choice: Choice)
    requires Inv(s, trusted) && c in s.cleaners && CleanerFound(s, s.cleaners[c], found, choice)
    requires s.cleaners[c].phase.Close?
    ensures var s' := CleanerNext(s, c, found, choice); CleanerInv(s', c, s'.cleaners[c])
  {
    var cl, s' := s.cleaners[c], CleanerNext(s, c, found, choice);
    CleanerNextFrame(s, trusted, c, found, choice);
    CleanerGrows(s, s', c, found);
    if found.Some? {
      FoundIsBound(s, cl.path, found.value);
      BoundStays(s, s', cl.path, found.value);
    }
    hide At, Bound, InUsed, Names, CleanerFrame, FsGrows;
  }

  /** What the holder of a barrier does next to itself and to the barrier. */
  lemma CleanerNextHeld(s: State, c: nat, found: Option<RunId>, choice: Choice)
    requires c in s.cleaners && (found.Some? ==> found.value in s.runs)
    requires var cl := s.cleaners[c];
             !cl.phase.Start? && !cl.phase.Close? && !cl.phase.Finished? && cl.held.Some? && cl.held.value in s.runs &&
             (s.runs[cl.held.value].closing == Some(c) || s.runs[cl.held.value].erasing) &&
             (found.Some? ==> found == cl.held)
    ensures var cl, s' := s.cleaners[c], CleanerNext(s, c, found, choice);
            var cl' := s'.cleaners[c];
            && cl' == cl.(phase := cl'.phase) && cl.held.value in s'.runs
            && !cl'.phase.Start? && !cl'.phase.Close?
            && (!cl'.phase.Finished? ==>
                  s'.runs[cl.held.value].closing == Some(c) || s'.runs[cl.held.value].erasing)
            && (cl'.phase.Verify? ==> cl.phase.Claim? && found.Some? && choice.GoOn? && |cl.path| > 0 &&
                                      cl'.phase.claimed == cl.path[|cl.path| - 1 := choice.newName])
            && (cl'.phase.Delete? ==> (cl.phase.Verify? || cl.phase.Delete?) && cl'.phase.claimed == cl.phase.claimed)
  {
  }

  lemma HolderStep(s: State, trusted: set<nat>, c: nat, found: Option<RunId>, choice: Choice)
    requires Inv(s, trusted) && c in s.cleaners && CleanerFound(s, s.cleaners[c], found, choice)
    requires var cl := s.cleaners[c]; !cl.phase.Start? && !cl.phase.Close? && !cl.phase.Finished?
    ensures var s' := CleanerNext(s, c, found, choice); CleanerInv(s', c, s'.cleaners[c])
  {
    hide At, FsGrows, ReaderInv, HeldBy, Resolves;
    var cl, s' := s.cleaners[c], CleanerNext(s, c, found, choice);
    CleanerNextFrame(s, trusted, c, found, choice);
    CleanerGrows(s, s', c, found);
    HeldStaysBound(s, s', c, cl);
    if found.Some? {
      HolderFindsItsRun(s, c, cl, found, choice);
      if cl.phase.Claim? && choice.GoOn? {
        ClaimBinds(s, trusted, c, found, choice);
      }
    }
    CleanerNextHeld(s, c, found, choice);
    hide CleanerNext, CleanerFrame, Inv, Bound, InUsed, Names;
  }

  lemma OwnCleanerStep(s: State, trusted: set<nat>, c: nat, found: Option<RunId>, choice: Choice)
    requires Inv(s, trusted) && c in s.cleaners && CleanerFound(s, s.cleaners[c], found, choice)
    ensures var s' := CleanerNext(s, c, found, choice); CleanerInv(s', c, s'.cleaners[c])
  {
    hide At, Bound, InUsed, Names, FsGrows, ReaderInv, HeldBy, Resolves;
    var cl, s' := s.cleaners[c], CleanerNext(s, c, found, choice);
    match cl.phase
    case Close => CloseStep(s, trusted, c, found, choice);
    case Start => StartStep(s, trusted, c, found, choice);
    case Finished =>
    case _ => HolderStep(s, trusted, c, found, choice);
  }

  lemma StartStep(s: State, trusted: set<nat>, c: nat, found: Option<RunId>, choice: Choice)
    requires Inv(s, trusted) && c in s.cleaners && CleanerFound(s, s.cleaners[c], found, choice)
    requires s.cleaners[c].phase.Start?
    ensures var s' := CleanerNext(s, c, found, choice); CleanerInv(s', c, s'.cleaners[c])
  {
    assert CleanerInv(s, c, s.cleaners[c]);
    hide At, Bound, Names, ReaderInv, HeldBy, Resolves;
  }

  lemma HoldersStay(s: State, trusted: set<nat>, c: nat, found: Option<RunId>, choice: Choice)
    requires Inv(s, trusted) && c in s.cleaners && CleanerFound(s, s.cleaners[c], found, choice)
    ensures var s' := CleanerNext(s, c, found, choice); forall x :: x in s'.runs ==> HeldBy(s', x)
  {
    hide At, Bound, Names, InUsed, ReaderInv, Resolves;
    var s' := CleanerNext(s, c, found, choice);
    forall x | x in s'.runs ensures HeldBy(s', x) {
      assert x in s.runs && HeldBy(s, x);
      hide Inv;
    }
  }

  lemma CleanerStepKeeps(s: State, trusted: set<nat>, c: nat, found: Option<RunId>, choice: Choice)
    requires Inv(s, trusted) && c in s.cleaners && CleanerFound(s, s.cleaners[c], found, choice)
    ensures Inv(CleanerNext(s, c, found, choice), trusted)
  {
    var s' := CleanerNext(s, c, found, choice);
    CleanerNextFrame(s, trusted, c, found, choice);
    CleanerGrows(s, s', c, found);
    HoldersStay(s, trusted, c, found, choice);
    forall i | i in s'.readers ensures ReaderInv(s', trusted, i, s'.readers[i]) {
      CleanerIsCalm(s, trusted, c, found, choice, i);
      ReaderStable(s, s', trusted, i, s.readers[i]);
    }
    forall d | d in s'.cleaners ensures CleanerInv(s', d, s'.cleaners[d]) {
      if d == c {
        OwnCleanerStep(s, trusted, c, found, choice);
      } else {
        CleanerStable(s, s', d, s.cleaners[d]);
      }
    }
  }

  // ---------- the other steps ----------

  /** Runs and processes appear, processes die. */
  lemma OtherStepKeeps(s: State, trusted: set<nat>, a: Action, s': State)
    requires Inv(s, trusted) && Step(s, a, s') && !a.ReaderStep? && !a.CleanerStep?
    ensures Inv(s', trusted)
  {
    assert FsGrows(s, s') && Names(s');
    forall i | i in s.readers ensures ReaderInv(s', trusted, i, s.readers[i]) {
      OthersAreCalm(s, trusted, a, s', i);
      ReaderStable(s, s', trusted, i, s.readers[i]);
    }
    forall c | c in s.cleaners ensures CleanerInv(s', c, s.cleaners[c]) {
      CleanerStable(s, s', c, s.cleaners[c]);
    }
    forall x | x in s'.runs ensures HeldBy(s', x) {
      assert x in s.runs ==> HeldBy(s, x);
    }
  }

  lemma OthersAreCalm(s: State, trusted: set<nat>, a: Action, s': State, i: nat)
    requires Inv(s, trusted) && Step(s, a, s') && !a.ReaderStep? && !a.CleanerStep?
    ensures Calm(s, s', i)
  {
    forall x, n | x in s.runs && Guard(s, x, n) ensures Guard(s', x, n) {
      assert HeldBy(s, x);
    }
    hide At, ReaderInv, CleanerInv;
  }

  /** Every step of every process keeps the invariant, as long as it misleads no trusted registration. */
  lemma StepKeeps(s: State, trusted: set<nat>, a: Action, s': State)
    requires Inv(s, trusted) && Step(s, a, s') && (a.ReaderStep? && a.id in trusted ==> Clear(s, a.id))
    ensures Inv(s', trusted)
  {
    match a
    case ReaderStep(i, found) => ReaderStepKeeps(s, trusted, i, found);
    case CleanerStep(c, found, choice) => CleanerStepKeeps(s, trusted, c, found, choice);
    case _ => OtherStepKeeps(s, trusted, a, s');
  }

  // ---------- whole runs ----------

  /** A run of the system: any interleaving of any processes, from the empty root. */
  ghost predicate Behaviour(states: seq<State>, actions: seq<Action>) {
    && |states| == |actions| + 1 && Initial(states[0])
    && forall k :: 0 <= k < |actions| ==> Step(states[k], actions[k], states[k + 1])
  }

  /** No lookup of this registration before step `k` met a run under removal. */
  ghost predicate NeverMisled(states: seq<State>, actions: seq<Action>, k: nat, i: nat)
    requires k <= |actions| < |states|
  {
    forall j :: 0 <= j < k && actions[j].ReaderStep? && actions[j].id == i ==> Clear(states[j], i)
  }

  lemma {:induction false} ReachableInv(states: seq<State>, actions: seq<Action>, k: nat, trusted: set<nat>)
    requires Behaviour(states, actions) && k < |states|
    requires forall i :: i in trusted ==> NeverMisled(states, actions, k, i)
    ensures Inv(states[k], trusted)
    decreases k
  {
    hide Inv, Step, Clear;
    if k == 0 {
      InitialInv(states[0], trusted);
    } else {
      ReachableInv(states, actions, k - 1, trusted);
      StepKeeps(states[k - 1], trusted, actions[k - 1], states[k]);
    }
  }

  lemma InitialInv(s: State, trusted: set<nat>)
    requires Initial(s)
    ensures Inv(s, trusted)
  {
  }

  // ---------- plain paths ----------

  lemma StepGrows(s: State, a: Action, s': State)
    requires Inv(s, {}) && Step(s, a, s')
    ensures FsGrows(s, s')
  {
    hide At, Bound, Rooted, ReaderInv, CleanerInv, HeldBy, Resolves, CleanerNext;
    match a
    case ReaderStep(j, found) => ReaderNextFrame(s, j, found);
    case CleanerStep(c, found, choice) =>
      CleanerNextFrame(s, {}, c, found, choice);
      CleanerGrows(s, s', c, found);
    case _ =>
  }

  lemma StepKeepsReader(s: State, a: Action, s': State, i: nat)
    requires Inv(s, {}) && Step(s, a, s') && i in s.readers
    ensures i in s'.readers && s'.readers[i].path == s.readers[i].path
  {
    hide At, Bound, Rooted, ReaderInv, CleanerInv, HeldBy, Names, Resolves, CleanerNext;
    match a
    case ReaderStep(j, found) => ReaderNextFrame(s, j, found);
    case CleanerStep(c, found, choice) => CleanerNextFrame(s, {}, c, found, choice);
    case _ =>
  }

  lemma {:induction false} ReaderStays(states: seq<State>, actions: seq<Action>, j: nat, k: nat, i: nat)
    requires Behaviour(states, actions) && j <= k < |states| && i in states[j].readers
    ensures i in states[k].readers && states[k].readers[i].path == states[j].readers[i].path
    decreases k - j
  {
    hide Inv, Step;
    if j < k {
      ReaderStays(states, actions, j, k - 1, i);
      ReachableInv(states, actions, k - 1, {});
      StepKeepsReader(states[k - 1], actions[k - 1], states[k], i);
    }
  }

  /** Only fresh names are claimed, so a path of names in use that is plain stays so. */
  lemma {:induction false} PlainStays(states: seq<State>, actions: seq<Action>, j: nat, k: nat, p: Path)
    requires Behaviour(states, actions) && j <= k < |states| && InUsed(states[j], p) && Plain(states[j], p)
    ensures InUsed(states[k], p) && Plain(states[k], p)
    decreases k - j
  {
    hide Inv, Step;
    if j < k {
      PlainStays(states, actions, j, k - 1, p);
      ReachableInv(states, actions, k - 1, {});
      StepGrows(states[k - 1], actions[k - 1], states[k]);
    }
  }

  lemma PlainIsClear(s: State, i: nat)
    requires Names(s) && i in s.readers && Plain(s, s.readers[i].path)
    ensures Clear(s, i)
  {
    var k := Level(s.readers[i].phase);
    if k <= |s.readers[i].path| {
      var p := s.readers[i].path[..k];
      assert Plain(s, p);
      forall r | At(s, p, r) ensures !Crumbling(s, r) {
        PlainIsWhole(s, p, r);
      }
    }
  }

  /** A registration whose path, when it begins, has no name that a cleaner gave is never misled. */
  lemma PlainIsNeverMisled(states: seq<State>, actions: seq<Action>, j: nat, k: nat, i: nat)
    requires Behaviour(states, actions) && j < |actions| && k < |states|
    requires actions[j].Register? && actions[j].id == i && Plain(states[j], actions[j].path)
    ensures NeverMisled(states, actions, k, i)
  {
    assert Step(states[j], actions[j], states[j + 1]);
    forall m | 0 <= m < k && actions[m].ReaderStep? && actions[m].id == i ensures Clear(states[m], i) {
      hide At, Clear, Plain;
      assert Step(states[m], actions[m], states[m + 1]);
      if m <= j {
        ReaderStays(states, actions, m, j, i);
        assert false;
      }
      PlainStays(states, actions, j, m, actions[j].path);
      ReaderStays(states, actions, j + 1, m, i);
      ReachableInv(states, actions, m, {});
      PlainIsClear(states[m], i);
    }
  }

  // ---------- safety ----------

  /** `registerReader` returned for this reader: it may use the run `t`. */
  ghost predicate AdmittedTo(s: State, i: nat, t: RunId) {
    && i in s.readers && s.readers[i].phase.Admitted?
    && |s.readers[i].path| in s.readers[i].before && s.readers[i].before[|s.readers[i].path|] == t
  }

  /** The step renames the run, starts to remove it or removes the last of it. */
  ghost predicate Disturbs(s: State, s': State, x: RunId) {
    x in s.runs && x in s'.runs && (s'.runs[x].name != s.runs[x].name || s'.runs[x].erasing != s.runs[x].erasing ||
                                       s'.runs[x].deleted != s.runs[x].deleted)
  }

  lemma StepIsCalm(s: State, trusted: set<nat>, a: Action, s': State, i: nat)
    requires Inv(s, trusted) && Step(s, a, s')
    ensures Calm(s, s', i) || (a.ReaderStep? && ReaderFrame(s, s', a.id))
  {
    match a
    case ReaderStep(j, found) => ReaderNextFrame(s, j, found);
    case CleanerStep(c, found, choice) => CleanerIsCalm(s, trusted, c, found, choice, i);
    case _ => OthersAreCalm(s, trusted, a, s', i);
  }

  lemma AdmittedIsGuarded(s: State, trusted: set<nat>, i: nat, t: RunId, k: nat)
    requires Inv(s, trusted) && AdmittedTo(s, i, t) && s.readers[i].pid !in s.dead && 0 < k <= |t|
    requires i in trusted
    ensures At(s, s.readers[i].path, t)
    ensures t[..k] in s.runs && (i, k) in s.runs[t[..k]].leases && s.runs[t[..k]].leases[(i, k)] == s.readers[i].pid
    ensures Guard(s, t[..k], (i, k))
  {
    var rd := s.readers[i];
    assert ReaderInv(s, trusted, i, rd) && Tracking(s, i, rd);
    AtPrefix(s, rd.path, t, k);
  }

  /**
   Safety: in every run, the step that renames or removes a run finds dead every
   reader that was admitted to it or to a run inside it.
   */
  lemma NeverUnderALiveReader(states: seq<State>, actions: seq<Action>, k: nat, x: RunId, i: nat, t: RunId)
    requires Behaviour(states, actions) && k < |actions|
    requires Disturbs(states[k], states[k + 1], x) && AdmittedTo(states[k], i, t) && x <= t
    requires NeverMisled(states, actions, k, i)
    ensures states[k].readers[i].pid in states[k].dead
  {
    var s, s' := states[k], states[k + 1];
    ReachableInv(states, actions, k, {i});
    if s.readers[i].pid !in s.dead {
      assert t[..|x|] == x;
      AdmittedIsGuarded(s, {i}, i, t, |x|);
      StepIsCalm(s, {i}, actions[k], s', i);
      LiveIsUndisturbed(s, actions[k], s', i, x, (i, |x|));
    }
  }

  lemma LiveIsUndisturbed(s: State, a: Action, s': State, i: nat, x: RunId, n: Nonce)
    requires Step(s, a, s') && (Calm(s, s', i) || (a.ReaderStep? && ReaderFrame(s, s', a.id)))
    requires x in s.runs && n in s.runs[x].leases && s.runs[x].leases[n] !in s.dead && Guard(s, x, n)
    ensures !Disturbs(s, s', x)
  {
    match a
    case Die(_) =>
    case Create(_, _) =>
    case Register(_, _, _, _) =>
    case BeginClean(_, _, _) =>
    case ReaderStep(j, found) => ReaderNextFrame(s, j, found);
    case CleanerStep(c, found, choice) => assert s'.dead == s.dead;
  }

  /** A live admitted reader's path keeps naming the run it was admitted to. */
  lemma AdmittedPathHolds(states: seq<State>, actions: seq<Action>, k: nat, i: nat, t: RunId)
    requires Behaviour(states, actions) && k < |states|
    requires AdmittedTo(states[k], i, t) && states[k].readers[i].pid !in states[k].dead
    requires NeverMisled(states, actions, k, i)
    ensures At(states[k], states[k].readers[i].path, t)
  {
    ReachableInv(states, actions, k, {i});
    assert ReaderInv(states[k], {i}, i, states[k].readers[i]) && Tracking(states[k], i, states[k].readers[i]);
  }
}
