/**
 What the barrier lets happen, from any state of the system: a whole run that is
 not closing admits a reader, a cleaner that meets a live reader steps back
 without a trace, and a run that no live process leases is removed.
 */
module BarrierProgress {
  import opened PlanSchema
  import opened ReaderBarrier
  import opened BarrierSafety
  import opened BarrierRelease

  /** A stretch of a behaviour. */
  ghost predicate Chain(states: seq<State>, actions: seq<Action>, s: State, s': State) {
    && |states| == |actions| + 1 && states[0] == s && states[|actions|] == s'
    && forall k :: 0 <= k < |actions| ==> Step(states[k], actions[k], states[k + 1])
  }

  datatype Process = ReaderOf(id: nat) | CleanerOf(id: nat)

  predicate Own(a: Action, who: Process) {
    match who
    case ReaderOf(i) => (a.ReaderStep? || a.Register?) && a.id == i
    case CleanerOf(c) => (a.CleanerStep? || a.BeginClean?) && a.id == c
  }

  /** This process alone leads from one state to the other. */
  ghost predicate Leads(s: State, s': State, who: Process) {
    exists states, actions :: Chain(states, actions, s, s') && forall a :: a in actions ==> Own(a, who)
  }

  lemma LeadsNowhere(s: State, who: Process)
    ensures Leads(s, s, who)
  {
    assert Chain([s], [], s, s);
  }

  lemma LeadsOn(s: State, a: Action, t: State, u: State, who: Process)
    requires Step(s, a, t) && Own(a, who) && Leads(t, u, who)
    ensures Leads(s, u, who)
  {
    hide Step;
    var states, actions :| Chain(states, actions, t, u) && forall b :: b in actions ==> Own(b, who);
    forall k | 0 <= k < |actions| + 1 ensures Step(([s] + states)[k], ([a] + actions)[k], ([s] + states)[k + 1]) {
    }
    assert Chain([s] + states, [a] + actions, s, u);
  }

  // ---------- a reader at a whole run ----------

  /** The path leads to the run, and no run on the way is closing or being removed. */
  ghost predicate Open(s: State, p: Path, r: RunId) {
    && At(s, p, r)
    && forall k :: 0 < k <= |r| ==> s.runs[r[..k]].closing.None? && !s.runs[r[..k]].erasing
  }

  ghost predicate Walking(s: State, i: nat, r: RunId) {
    && i in s.readers && Open(s, s.readers[i].path, r)
    && s.readers[i].pid !in s.dead && s.readers[i].agent !in s.dead
  }

  /** The runs found from this level on. */
  ghost predicate FoundFrom(rd: Reader, r: RunId, k: nat) {
    |rd.path| == |r| && forall l :: k <= l <= |r| && 0 < l ==> l in rd.before && rd.before[l] == r[..l]
  }

  /** The leases published up to this level. */
  ghost predicate Hosts(s: State, i: nat, r: RunId, pid: Pid, k: nat) {
    k <= |r| && forall l :: 0 < l <= k ==>
      r[..l] in s.runs && (i, l) in s.runs[r[..l]].leases && s.runs[r[..l]].leases[(i, l)] == pid
  }

  ghost predicate SameReader(rd: Reader, rd': Reader) {
    rd'.pid == rd.pid && rd'.agent == rd.agent && rd'.path == rd.path
  }

  lemma StaysWalking(s: State, s': State, i: nat, r: RunId)
    requires Walking(s, i, r) && ReaderFrame(s, s', i) && SameReader(s.readers[i], s'.readers[i])
    ensures Walking(s', i, r)
  {
    FrameAt(s, s', i, s.readers[i].path, r);
  }

  lemma FrameTrans(s: State, t: State, u: State, i: nat)
    requires ReaderFrame(s, t, i) && ReaderFrame(t, u, i)
    ensures ReaderFrame(s, u, i)
  {
  }

  /** At a level of its path a walking reader finds the run of that level, outside of all levels nothing. */
  function FoundAtLevel(r: RunId, k: nat): Option<RunId> {
    if 0 < k <= |r| then Some(r[..k]) else None
  }

  lemma WalkStep(s: State, i: nat, r: RunId, k: nat)
    requires Walking(s, i, r) && Level(s.readers[i].phase) == k <= |r|
    ensures var found := FoundAtLevel(r, k);
            && (found.Some? ==> found.value in s.runs)
            && Step(s, ReaderStep(i, found), ReaderNext(s, i, found))
            && ReaderFrame(s, ReaderNext(s, i, found), i)
            && SameReader(s.readers[i], ReaderNext(s, i, found).readers[i])
            && Walking(ReaderNext(s, i, found), i, r)
  {
    hide ReaderFrame;
    var found := FoundAtLevel(r, k);
    if k > 0 {
      AtPrefix(s, s.readers[i].path, r, k);
    }
    ReaderNextFrame(s, i, found);
    KeepsReader(s, i, found);
    hide ReaderNext;
    StaysWalking(s, ReaderNext(s, i, found), i, r);
  }

  lemma KeepsReader(s: State, i: nat, found: Option<RunId>)
    requires i in s.readers && (found.Some? ==> found.value in s.runs)
    ensures i in ReaderNext(s, i, found).readers && SameReader(s.readers[i], ReaderNext(s, i, found).readers[i])
  {
    hide NextLevel;
  }

  /** What a step of a walking reader does, phase by phase. */
  lemma WalkEffect(s: State, i: nat, r: RunId, k: nat)
    requires Walking(s, i, r) && Level(s.readers[i].phase) == k <= |r|
    requires FoundAtLevel(r, k).Some? ==> r[..k] in s.runs
    ensures var rd, s' := s.readers[i], ReaderNext(s, i, FoundAtLevel(r, k));
            && i in s'.readers
            && (rd.phase == Before(k) && k > 0 ==>
                  s'.readers[i] == rd.(before := rd.before[k := r[..k]], phase := Seek(k - 1)))
            && (rd.phase == Seek(k) && k > 0 ==> s'.readers[i] == rd.(phase := Before(k)))
            && (rd.phase == Seek(k) && k == 0 ==> s'.readers[i] == rd.(phase := Publish(NextLevel(rd, 0))))
            && (rd.phase == Publish(k) && k > 0 ==>
                  s'.readers[i] == rd.(phase := Commit(k)) && r[..k] in s'.runs && (i, k) in s'.runs[r[..k]].pendings)
            && (rd.phase == Commit(k) && k > 0 && (i, k) in s.runs[r[..k]].pendings ==>
                  s'.readers[i] == rd.(phase := Check(k)) && r[..k] in s'.runs &&
                  (i, k) in s'.runs[r[..k]].leases && s'.runs[r[..k]].leases[(i, k)] == rd.pid)
            && (rd.phase == Check(k) && k > 0 ==> s'.readers[i] == rd.(phase := Recheck(k)))
            && (rd.phase == Recheck(k) && k > 0 && FoundFrom(rd, r, k) ==>
                  s'.readers[i] == rd.(phase := if k >= |rd.path| then Admitted else Publish(NextLevel(rd, k))))
  {
    hide NextLevel;
  }

  lemma WalkKeepsLeases(s: State, i: nat, r: RunId, k: nat, l: nat)
    requires Walking(s, i, r) && Level(s.readers[i].phase) == k <= |r| && !s.readers[i].phase.Rollback?
    requires FoundAtLevel(r, k).Some? ==> r[..k] in s.runs
    requires Hosts(s, i, r, s.readers[i].pid, l)
    ensures Hosts(ReaderNext(s, i, FoundAtLevel(r, k)), i, r, s.readers[i].pid, l)
  {
    hide NextLevel;
  }

  /** The reader has come to hold a lease in every run on its way, and nothing else has changed. */
  ghost predicate IsAdmitted(s: State, s': State, i: nat, r: RunId) {
    && ReaderFrame(s, s', i) && i in s.readers && i in s'.readers && SameReader(s.readers[i], s'.readers[i])
    && AdmittedTo(s', i, r) && Hosts(s', i, r, s.readers[i].pid, |r|)
  }

  lemma AdmittedBefore(s: State, t: State, u: State, i: nat, r: RunId)
    requires i in s.readers && i in t.readers && ReaderFrame(s, t, i) && SameReader(s.readers[i], t.readers[i])
    requires IsAdmitted(t, u, i, r)
    ensures IsAdmitted(s, u, i, r)
  {
    hide Hosts;
    FrameTrans(s, t, u, i);
  }

  /** One step of a walking reader, and what is known after it. */
  lemma Walks(s: State, i: nat, r: RunId, k: nat, l: nat) returns (s': State)
    requires Walking(s, i, r) && Level(s.readers[i].phase) == k <= |r| && !s.readers[i].phase.Rollback?
    requires Hosts(s, i, r, s.readers[i].pid, l)
    ensures s' == (if FoundAtLevel(r, k).Some? ==> r[..k] in s.runs then ReaderNext(s, i, FoundAtLevel(r, k)) else s)
    ensures FoundAtLevel(r, k).Some? ==> r[..k] in s.runs
    ensures Step(s, ReaderStep(i, FoundAtLevel(r, k)), s') && ReaderFrame(s, s', i)
    ensures Walking(s', i, r) && SameReader(s.readers[i], s'.readers[i]) && Hosts(s', i, r, s.readers[i].pid, l)
  {
    hide ReaderNext, ReaderFrame, Hosts, Open;
    WalkStep(s, i, r, k);
    WalkKeepsLeases(s, i, r, k, l);
    s' := ReaderNext(s, i, FoundAtLevel(r, k));
  }

  /** Publishing, committing, checking for a barrier and checking the run again at one level. */
  lemma Round(s: State, i: nat, r: RunId, k: nat) returns (s': State)
    requires Walking(s, i, r) && s.readers[i].phase == Publish(k) && 0 < k <= |r|
    requires FoundFrom(s.readers[i], r, 1) && Hosts(s, i, r, s.readers[i].pid, k - 1)
    ensures forall u :: Leads(s', u, ReaderOf(i)) ==> Leads(s, u, ReaderOf(i))
    ensures Walking(s', i, r) && ReaderFrame(s, s', i) && Hosts(s', i, r, s.readers[i].pid, k)
    ensures s'.readers[i] == s.readers[i].(phase := if k == |r| then Admitted else Publish(k + 1))
  {
    hide Open, ReaderFrame, Step, Leads, ReaderNext;
    var a, rd := ReaderStep(i, FoundAtLevel(r, k)), s.readers[i];
    var s1 := Walks(s, i, r, k, k - 1);
    WalkEffect(s, i, r, k);
    var s2 := Walks(s1, i, r, k, k - 1);
    WalkEffect(s1, i, r, k);
    assert Hosts(s2, i, r, rd.pid, k);
    hide Hosts;
    var s3 := Walks(s2, i, r, k, k);
    WalkEffect(s2, i, r, k);
    s' := Walks(s3, i, r, k, k);
    WalkEffect(s3, i, r, k);
    FrameTrans(s, s1, s2, i);
    FrameTrans(s2, s3, s', i);
    FrameTrans(s, s2, s', i);
    forall u | Leads(s', u, ReaderOf(i)) ensures Leads(s, u, ReaderOf(i)) {
      LeadsOn(s3, a, s', u, ReaderOf(i));
      LeadsOn(s2, a, s3, u, ReaderOf(i));
      LeadsOn(s1, a, s2, u, ReaderOf(i));
      LeadsOn(s, a, s1, u, ReaderOf(i));
    }
  }

  /** From publishing at a level on, the reader gets in. */
  lemma {:induction false} Climbs(s: State, i: nat, r: RunId, k: nat) returns (s': State)
    requires Walking(s, i, r) && s.readers[i].phase == Publish(k) && 0 < k <= |r|
    requires FoundFrom(s.readers[i], r, 1) && Hosts(s, i, r, s.readers[i].pid, k - 1)
    ensures Leads(s, s', ReaderOf(i)) && IsAdmitted(s, s', i, r)
    decreases |r| - k
  {
    hide Open, ReaderFrame, Leads, Hosts;
    var t := Round(s, i, r, k);
    if k == |r| {
      s' := t;
      assert r[..k] == r;
      LeadsNowhere(s', ReaderOf(i));
    } else {
      s' := Climbs(t, i, r, k + 1);
      AdmittedBefore(s, t, s', i, r);
    }
  }

  /** From looking a level up on, the reader gets in. */
  lemma {:induction false} Descends(s: State, i: nat, r: RunId, k: nat) returns (s': State)
    requires Walking(s, i, r) && s.readers[i].phase == Before(k) && 0 < k <= |r|
    requires FoundFrom(s.readers[i], r, k + 1)
    ensures Leads(s, s', ReaderOf(i)) && IsAdmitted(s, s', i, r)
    decreases k
  {
    hide Open, ReaderFrame, Step, Leads, ReaderNext;
    var rd := s.readers[i];
    var s1 := Walks(s, i, r, k, 0);
    WalkEffect(s, i, r, k);
    assert FoundFrom(s1.readers[i], r, k);
    var s2 := Walks(s1, i, r, k - 1, 0);
    WalkEffect(s1, i, r, k - 1);
    FrameTrans(s, s1, s2, i);
    if k == 1 {
      s' := Climbs(s2, i, r, 1);
    } else {
      s' := Descends(s2, i, r, k - 1);
    }
    AdmittedBefore(s, s2, s', i, r);
    LeadsOn(s1, ReaderStep(i, FoundAtLevel(r, k - 1)), s2, s', ReaderOf(i));
    LeadsOn(s, ReaderStep(i, FoundAtLevel(r, k)), s1, s', ReaderOf(i));
  }

  /** A whole run that is not closing admits a live reader that registers there, whatever else goes on in the system. */
  lemma OpenRunAdmits(s: State, i: nat, pid: Pid, agent: Pid, p: Path, r: RunId)
    requires Enabled(s, Register(i, pid, agent, p)) && pid !in s.dead && Open(s, p, r)
    ensures exists s' ::
              && Leads(s, s', ReaderOf(i))
              && ReaderFrame(Apply(s, Register(i, pid, agent, p)), s', i)
              && AdmittedTo(s', i, r) && Hosts(s', i, r, pid, |r|)
  {
    var a := Register(i, pid, agent, p);
    var t := Apply(s, a);
    assert FoundFrom(t.readers[i], r, |r| + 1);
    assert Step(s, a, t) && Walking(t, i, r);
    hide Open, ReaderFrame, Step, Leads;
    var s' := Descends(t, i, r, |r|);
    LeadsOn(s, a, t, s', ReaderOf(i));
  }

  // ---------- a cleaner at a run in use ----------

  lemma FreshName(used: set<nat>) returns (n: nat)
    ensures forall x :: x in used ==> x < n
    decreases |used|
  {
    if used == {} {
      n := 0;
    } else {
      var x :| x in used;
      var m := FreshName(used - {x});
      n := if m <= x then x + 1 else m;
      assert used == used - {x} + {x};
    }
  }

  /** The cleaner is at work, and its path leads to this run. */
  ghost predicate Working(s: State, c: nat, r: RunId) {
    && c in s.cleaners && s.cleaners[c].agent !in s.dead && At(s, CleanerPath(s.cleaners[c]), r)
  }

  lemma Works(s: State, c: nat, r: RunId, choice: Choice)
    requires Working(s, c, r) && (choice.GoOn? ==> choice.newName !in s.used)
    ensures r in s.runs && Step(s, CleanerStep(c, Some(r), choice), CleanerNext(s, c, Some(r), choice))
  {
    hide CleanerNext;
    AtEnd(s, CleanerPath(s.cleaners[c]), r);
  }

  /** What a cleaner comes to: its path, the run it found there and the one it holds. */
  function Cleaning(agent: Pid, p: Path, r: RunId, phase: CleanerPhase): Cleaner {
    Cleaner(agent, p, if phase.Start? then [] else r, if phase.Start? || phase.Close? then None else Some(r), phase)
  }

  /** The state with the cleaner at this phase and the run changed so. */
  function With(s: State, c: nat, cl: Cleaner, r: RunId, dir: Dir): State {
    Put(SetCleaner(s, c, cl), r, dir)
  }

  lemma StaysWorking(s: State, c: nat, cl: Cleaner, r: RunId, dir: Dir)
    requires At(s, CleanerPath(cl), r) && r in s.runs && SameName(s.runs[r], dir) && cl.agent !in s.dead
    ensures Working(With(s, c, cl, r, dir), c, r)
  {
  }

  predicate SameName(d: Dir, d': Dir) {
    d'.name == d.name && d'.deleted == d.deleted
  }

  /** From its begin to the leases it lists, a cleaner only sets its mark. */
  lemma ComesToLeases(s: State, c: nat, agent: Pid, p: Path, r: RunId, s': State)
    requires Enabled(s, BeginClean(c, agent, p)) && At(s, p, r) && r in s.runs && s.runs[r].closing.None?
    requires !s.runs[r].erasing
    requires var dir := s.runs[r].(closing := Some(c));
             Leads(With(s, c, Cleaning(agent, p, r, Inspect(dir.leases.Keys)), r, dir), s', CleanerOf(c))
    ensures Leads(s, s', CleanerOf(c))
  {
    hide At, Leads, Step, CleanerNext;
    var n := FreshName(s.used);
    var on := GoOn((0, 0), n, false);
    var dir := s.runs[r];
    var marked := dir.(closing := Some(c));
    var s1 := With(s, c, Cleaning(agent, p, r, Start), r, dir);
    var s2 := With(s, c, Cleaning(agent, p, r, Close), r, dir);
    var s3 := With(s, c, Cleaning(agent, p, r, Snapshot), r, marked);
    var s4 := With(s, c, Cleaning(agent, p, r, Inspect(dir.leases.Keys)), r, marked);
    StaysWorking(s, c, Cleaning(agent, p, r, Start), r, dir);
    StaysWorking(s, c, Cleaning(agent, p, r, Close), r, dir);
    StaysWorking(s, c, Cleaning(agent, p, r, Snapshot), r, marked);
    Works(s1, c, r, on);
    Works(s2, c, r, on);
    Works(s3, c, r, on);
    Begins(s, c, agent, p, r, on);
    Closes(s, c, agent, p, r, on);
    LeadsOn(s3, CleanerStep(c, Some(r), on), s4, s', CleanerOf(c));
    LeadsOn(s2, CleanerStep(c, Some(r), on), s3, s', CleanerOf(c));
    LeadsOn(s1, CleanerStep(c, Some(r), on), s2, s', CleanerOf(c));
    LeadsOn(s, BeginClean(c, agent, p), s1, s', CleanerOf(c));
  }

  lemma Begins(s: State, c: nat, agent: Pid, p: Path, r: RunId, on: Choice)
    requires Enabled(s, BeginClean(c, agent, p)) && r in s.runs && on.GoOn?
    ensures var dir := s.runs[r];
            var s1 := With(s, c, Cleaning(agent, p, r, Start), r, dir);
            && Step(s, BeginClean(c, agent, p), s1)
            && CleanerNext(s1, c, Some(r), on) == With(s, c, Cleaning(agent, p, r, Close), r, dir)
  {
    assert s.runs[r := s.runs[r]] == s.runs;
  }

  lemma Closes(s: State, c: nat, agent: Pid, p: Path, r: RunId, on: Choice)
    requires r in s.runs && on.GoOn? && !on.gone && s.runs[r].closing.None?
    ensures var dir := s.runs[r];
            var marked := dir.(closing := Some(c));
            var s3 := With(s, c, Cleaning(agent, p, r, Snapshot), r, marked);
            && CleanerNext(With(s, c, Cleaning(agent, p, r, Close), r, dir), c, Some(r), on) == s3
            && CleanerNext(s3, c, Some(r), on) == With(s, c, Cleaning(agent, p, r, Inspect(dir.leases.Keys)), r, marked)
  {
    assert s.runs[r := s.runs[r]] == s.runs;
  }

  /** A cleaner that meets a lease of a live process steps back, and leaves every run as it was. */
  lemma CleanerStepsBack(s: State, c: nat, agent: Pid, p: Path, r: RunId, n: Nonce)
    requires Enabled(s, BeginClean(c, agent, p)) && At(s, p, r) && r in s.runs && s.runs[r].closing.None?
    requires !s.runs[r].erasing && n in s.runs[r].leases && s.runs[r].leases[n] !in s.dead
    ensures Leads(s, SetCleaner(s, c, Cleaning(agent, p, r, Finished)), CleanerOf(c))
  {
    hide At, Leads, Step, CleanerNext;
    var name := FreshName(s.used);
    var on := GoOn(n, name, false);
    var dir := s.runs[r];
    var marked := dir.(closing := Some(c));
    var s4 := With(s, c, Cleaning(agent, p, r, Inspect(dir.leases.Keys)), r, marked);
    var s5 := With(s, c, Cleaning(agent, p, r, Release), r, marked);
    var s' := SetCleaner(s, c, Cleaning(agent, p, r, Finished));
    StaysWorking(s, c, Cleaning(agent, p, r, Inspect(dir.leases.Keys)), r, marked);
    StaysWorking(s, c, Cleaning(agent, p, r, Release), r, marked);
    Works(s4, c, r, on);
    Works(s5, c, r, on);
    StepsBack(s, c, agent, p, r, n, on);
    LeadsNowhere(s', CleanerOf(c));
    LeadsOn(s5, CleanerStep(c, Some(r), on), s', s', CleanerOf(c));
    LeadsOn(s4, CleanerStep(c, Some(r), on), s5, s', CleanerOf(c));
    ComesToLeases(s, c, agent, p, r, s');
  }

  lemma StepsBack(s: State, c: nat, agent: Pid, p: Path, r: RunId, n: Nonce, on: Choice)
    requires r in s.runs && s.runs[r].closing.None? && n in s.runs[r].leases && s.runs[r].leases[n] !in s.dead
    requires on.GoOn? && on.lease == n
    ensures var marked := s.runs[r].(closing := Some(c));
            var s5 := With(s, c, Cleaning(agent, p, r, Release), r, marked);
            && CleanerNext(With(s, c, Cleaning(agent, p, r, Inspect(marked.leases.Keys)), r, marked), c, Some(r), on)
               == s5
            && CleanerNext(s5, c, Some(r), on) == SetCleaner(s, c, Cleaning(agent, p, r, Finished))
  {
    assert n in s.runs[r].leases.Keys;
    assert s.runs[r].(closing := Some(c)).(closing := None) == s.runs[r];
    assert s.runs[r := s.runs[r].(closing := Some(c))][r := s.runs[r]] == s.runs;
  }

  // ---------- a cleaner at a run that nobody uses ----------

  ghost predicate Unused(s: State, dir: Dir) {
    forall n :: n in dir.leases ==> dir.leases[n] in s.dead
  }

  /** Dead leases are passed one after another, in any order. */
  lemma {:induction false} PassesDead(s: State, c: nat, cl: Cleaner, r: RunId, dir: Dir, todo: set<Nonce>, s': State)
    requires At(s, cl.path, r) && r in s.runs && SameName(s.runs[r], dir) && cl.agent !in s.dead
    requires cl.phase == Inspect(todo) && Unused(s, dir) && todo <= dir.leases.Keys
    requires Leads(With(s, c, cl.(phase := Claim), r, dir), s', CleanerOf(c))
    ensures Leads(With(s, c, cl, r, dir), s', CleanerOf(c))
    decreases |todo|
  {
    hide At, Leads, Step, CleanerNext;
    var name := FreshName(s.used);
    var t := With(s, c, cl, r, dir);
    StaysWorking(s, c, cl, r, dir);
    if todo == {} {
      var on := GoOn((0, 0), name, false);
      Works(t, c, r, on);
      PassesOne(s, c, cl, r, dir, todo, on);
      LeadsOn(t, CleanerStep(c, Some(r), on), With(s, c, cl.(phase := Claim), r, dir), s', CleanerOf(c));
    } else {
      var n :| n in todo;
      var on := GoOn(n, name, false);
      var cl' := cl.(phase := Inspect(todo - {n}));
      Works(t, c, r, on);
      PassesOne(s, c, cl, r, dir, todo, on);
      assert cl'.(phase := Claim) == cl.(phase := Claim);
      PassesDead(s, c, cl', r, dir, todo - {n}, s');
      LeadsOn(t, CleanerStep(c, Some(r), on), With(s, c, cl', r, dir), s', CleanerOf(c));
    }
  }

  lemma PassesOne(s: State, c: nat, cl: Cleaner, r: RunId, dir: Dir, todo: set<Nonce>, on: Choice)
    requires r in s.runs && cl.phase == Inspect(todo) && Unused(s, dir) && todo <= dir.leases.Keys && on.GoOn?
    ensures todo == {} ==> CleanerNext(With(s, c, cl, r, dir), c, Some(r), on)
                           == With(s, c, cl.(phase := Claim), r, dir)
    ensures on.lease in todo ==> CleanerNext(With(s, c, cl, r, dir), c, Some(r), on)
                                 == With(s, c, cl.(phase := Inspect(todo - {on.lease})), r, dir)
  {
    assert on.lease in todo ==> on.lease in dir.leases.Keys;
  }

  /** The claimed run: a new name, known to be a cleaner's. */
  function Renamed(s: State, name: nat): State {
    s.(used := s.used + {name}, claimed := s.claimed + {name})
  }

  /** The end of a removal: the run is gone under its new name, and every other run is as it was. */
  function Removed(s: State, c: nat, agent: Pid, p: Path, r: RunId, name: nat): State
    requires r in s.runs
  {
    With(Renamed(s, name), c, Cleaning(agent, p, r, Finished), r,
         s.runs[r].(name := name, closing := Some(c), erasing := true, deleted := true))
  }

  /** A whole run all of whose leases are of dead processes is removed by a cleaner that goes on. */
  lemma UnusedIsRemoved(s: State, c: nat, agent: Pid, p: Path, r: RunId)
    requires Enabled(s, BeginClean(c, agent, p)) && At(s, p, r) && r in s.runs && s.runs[r].closing.None?
    requires !s.runs[r].erasing && Unused(s, s.runs[r])
    ensures exists name :: name !in s.used && Leads(s, Removed(s, c, agent, p, r, name), CleanerOf(c))
  {
    hide Leads, Removed;
    var name := FreshName(s.used);
    AtEnd(s, p, r);
    var marked := s.runs[r].(closing := Some(c));
    Removes(s, c, agent, p, r, name);
    PassesDead(s, c, Cleaning(agent, p, r, Inspect(marked.leases.Keys)), r, marked, marked.leases.Keys,
               Removed(s, c, agent, p, r, name));
    ComesToLeases(s, c, agent, p, r, Removed(s, c, agent, p, r, name));
  }

  lemma Removes(s: State, c: nat, agent: Pid, p: Path, r: RunId, name: nat)
    requires At(s, p, r) && r in s.runs && agent !in s.dead && forall x :: x in s.used ==> x < name
    requires !s.runs[r].erasing
    ensures Leads(With(s, c, Cleaning(agent, p, r, Claim), r, s.runs[r].(closing := Some(c))),
                  Removed(s, c, agent, p, r, name), CleanerOf(c))
  {
    assert r[..|r|] == r && !s.runs[r].deleted;
    hide Leads, Step, CleanerNext, At;
    var on, go, last := GoOn((0, 0), name, false), GoOn((0, 0), name + 1, false), CleanerOf(c);
    var marked := s.runs[r].(closing := Some(c));
    var q := p[|p| - 1 := name];
    var u := Renamed(s, name);
    var moved := marked.(name := name);
    var s1 := With(s, c, Cleaning(agent, p, r, Claim), r, marked);
    var s2 := With(u, c, Cleaning(agent, p, r, Verify(q)), r, moved);
    var s3 := With(u, c, Cleaning(agent, p, r, Delete(q)), r, moved);
    var s4 := With(u, c, Cleaning(agent, p, r, Delete(q)), r, moved.(erasing := true));
    var s5 := Removed(s, c, agent, p, r, name);
    StaysWorking(s, c, Cleaning(agent, p, r, Claim), r, marked);
    ClaimedIsThere(s, c, p, r, name, Cleaning(agent, p, r, Verify(q)), moved);
    ClaimedIsThere(s, c, p, r, name, Cleaning(agent, p, r, Delete(q)), moved);
    ClaimedIsThere(s, c, p, r, name, Cleaning(agent, p, r, Delete(q)), moved.(erasing := true));
    Works(s1, c, r, on);
    Works(s2, c, r, go);
    Works(s3, c, r, go);
    Works(s4, c, r, go);
    Claims(s, c, agent, p, r, name, on);
    Falls(u, c, agent, p, r, q, moved, go);
    LeadsNowhere(s5, last);
    LeadsOn(s4, CleanerStep(c, Some(r), go), s5, s5, last);
    LeadsOn(s3, CleanerStep(c, Some(r), go), s4, s5, last);
    LeadsOn(s2, CleanerStep(c, Some(r), go), s3, s5, last);
    LeadsOn(s1, CleanerStep(c, Some(r), on), s2, s5, last);
  }

  lemma ClaimedIsThere(s: State, c: nat, p: Path, r: RunId, name: nat, cl: Cleaner, dir: Dir)
    requires At(s, p, r) && r in s.runs && dir.name == name && !dir.deleted && cl.agent !in s.dead
    requires CleanerPath(cl) == p[|p| - 1 := name]
    ensures Working(With(Renamed(s, name), c, cl, r, dir), c, r)
  {
    forall k | 0 < k < |r| ensures r[..k] != r {
    }
    assert r[..|r|] == r;
  }

  lemma Claims(s: State, c: nat, agent: Pid, p: Path, r: RunId, name: nat, on: Choice)
    requires |p| > 0 && r in s.runs && on.GoOn? && on.newName == name
    ensures var q, marked := p[|p| - 1 := name], s.runs[r].(closing := Some(c));
            CleanerNext(With(s, c, Cleaning(agent, p, r, Claim), r, marked), c, Some(r), on)
            == With(Renamed(s, name), c, Cleaning(agent, p, r, Verify(q)), r, marked.(name := name))
  {
  }

  lemma Falls(s: State, c: nat, agent: Pid, p: Path, r: RunId, q: Path, dir: Dir, go: Choice)
    requires r in s.runs && go.GoOn? && !dir.erasing
    ensures var s3 := With(s, c, Cleaning(agent, p, r, Delete(q)), r, dir);
            var s4 := With(s, c, Cleaning(agent, p, r, Delete(q)), r, dir.(erasing := true));
            && CleanerNext(With(s, c, Cleaning(agent, p, r, Verify(q)), r, dir), c, Some(r), go) == s3
            && CleanerNext(s3, c, Some(r), go) == s4
            && CleanerNext(s4, c, Some(r), go)
               == With(s, c, Cleaning(agent, p, r, Finished), r, dir.(erasing := true, deleted := true))
  {
  }

  // ---------- a life of a run ----------

  lemma Extended(states: seq<State>, actions: seq<Action>, s': State, who: Process)
    returns (longer: seq<State>, done: seq<Action>)
    requires Behaviour(states, actions) && Leads(states[|actions|], s', who)
    ensures Behaviour(longer, done) && longer[|done|] == s' && states <= longer && actions <= done
  {
    hide Step;
    var more, taken :| Chain(more, taken, states[|actions|], s') && forall a :: a in taken ==> Own(a, who);
    longer, done := states + more[1..], actions + taken;
    forall k | 0 <= k < |done| ensures Step(longer[k], done[k], longer[k + 1]) {
      if k >= |actions| {
        assert Step(more[k - |actions|], taken[k - |actions|], more[k - |actions| + 1]);
      }
    }
  }

  const RUN: RunId := [0]
  const NAME: Path := [0]
  const BORN := State(map[RUN := Dir(0, None, {}, map[], false, false)], {0}, {}, map[], map[], {})

  lemma Born()
    ensures Behaviour([State(map[], {}, {}, map[], map[], {}), BORN], [Create(RUN, 0)])
    ensures Open(BORN, NAME, RUN)
  {
    assert forall k :: 0 < k <= |RUN| ==> RUN[..k] == RUN;
  }

  /** The run as both kinds of process need it, with a reader's lease in it. */
  ghost predicate InUse(s: State, pids: map<nat, Pid>) {
    && Open(s, NAME, RUN) && RUN in s.runs && s.used == {0}
    && forall i :: i in pids ==> AdmittedTo(s, i, RUN) && (i, 1) in s.runs[RUN].leases &&
                                 s.runs[RUN].leases[(i, 1)] == pids[i] && pids[i] !in s.dead
  }

  lemma StaysOpen(s: State, i: nat, pid: Pid, s': State)
    requires Open(s, NAME, RUN) && ReaderFrame(Apply(s, Register(i, pid, pid, NAME)), s', i)
    ensures Open(s', NAME, RUN) && RUN in s'.runs
  {
    assert RUN[..1] == RUN;
    assert At(Apply(s, Register(i, pid, pid, NAME)), NAME, RUN);
    FrameAt(Apply(s, Register(i, pid, pid, NAME)), s', i, NAME, RUN);
  }

  lemma StaysInUse(s: State, s': State, pids: map<nat, Pid>, i: nat, pid: Pid)
    requires InUse(s, pids) && i !in s.readers && pid !in s.dead && i !in pids
    requires ReaderFrame(Apply(s, Register(i, pid, pid, NAME)), s', i)
    requires AdmittedTo(s', i, RUN) && Hosts(s', i, RUN, pid, 1)
    ensures InUse(s', pids[i := pid]) && s'.cleaners == s.cleaners && s'.readers.Keys == s.readers.Keys + {i}
    ensures s'.dead == s.dead
  {
    StaysOpen(s, i, pid, s');
    hide Open;
    assert RUN[..1] == RUN;
  }

  /** One more reader is admitted to the run in use. */
  lemma Joins(s: State, pids: map<nat, Pid>, i: nat, pid: Pid) returns (s': State)
    requires InUse(s, pids) && i !in s.readers && pid !in s.dead && i !in pids
    ensures Leads(s, s', ReaderOf(i)) && InUse(s', pids[i := pid])
    ensures s'.cleaners == s.cleaners && s'.readers.Keys == s.readers.Keys + {i} && s'.dead == s.dead
  {
    hide Leads, Hosts, ReaderFrame;
    OpenRunAdmits(s, i, pid, pid, NAME, RUN);
    var t := Apply(s, Register(i, pid, pid, NAME));
    s' :| Leads(s, s', ReaderOf(i)) && ReaderFrame(t, s', i) && AdmittedTo(s', i, RUN) && Hosts(s', i, RUN, pid, |RUN|);
    StaysInUse(s, s', pids, i, pid);
  }

  /** A cleaner comes by and steps back. */
  lemma ComesBy(s: State, pids: map<nat, Pid>, c: nat, agent: Pid) returns (s': State)
    requires InUse(s, pids) && 0 in pids && c !in s.cleaners && agent !in s.dead
    ensures Leads(s, s', CleanerOf(c)) && InUse(s', pids)
    ensures s' == SetCleaner(s, c, Cleaning(agent, NAME, RUN, Finished))
  {
    hide Leads;
    s' := SetCleaner(s, c, Cleaning(agent, NAME, RUN, Finished));
    assert RUN[..1] == RUN;
    CleanerStepsBack(s, c, agent, NAME, RUN, (0, 1));
  }

  /**
   A reader is admitted, a cleaner meets its lease, steps back and is done, and a
   second reader is admitted to the same run.
   */
  lemma SecondReaderIsAdmitted()
    ensures exists states: seq<State>, actions: seq<Action>, k: nat ::
              && Behaviour(states, actions) && k < |states|
              && AdmittedTo(states[k], 0, RUN) && states[k].readers[0].pid !in states[k].dead
              && 0 in states[k].cleaners && states[k].cleaners[0].phase.Finished?
              && states[k].cleaners[0].held == Some(RUN)
              && 1 !in states[k].readers
              && AdmittedTo(states[|actions|], 1, RUN) && AdmittedTo(states[|actions|], 0, RUN)
  {
    hide Step, Leads;
    Born();
    var s1 := Joins(BORN, map[], 0, 7);
    var empty := State(map[], {}, {}, map[], map[], {});
    var states1, actions1 := Extended([empty, BORN], [Create(RUN, 0)], s1, ReaderOf(0));
    var s2 := ComesBy(s1, map[0 := 7], 0, 8);
    var states2, actions2 := Extended(states1, actions1, s2, CleanerOf(0));
    var s3 := Joins(s2, map[0 := 7], 1, 9);
    var states3, actions3 := Extended(states2, actions2, s3, ReaderOf(1));
    assert states3[|actions2|] == s2;
  }
}
