/**
 Where deduplication ends: an attempt whose first look at its input fails can
 check an unchanged input again.
 */
module GateWitness {
  import opened Ledger
  import opened GateProtocol
  import opened GateCharges

  const INPUT: Option<Input> := Some("i")
  const RUNNING: Option<Receipt> := Some(Receipt("i", Running, None))

  /** A session without charges, whose notices have all gone. */
  function Scene(pc: Pc, receipt: Option<Receipt>, blind: bool, ran: Option<Input>): State {
    State(receipt, None, EMPTY_LEDGER, pc, {}, {}, map[], 0, blind, ran)
  }

  function First(pc: Pc): State {
    Scene(pc, None, false, None)
  }

  function Ran(pc: Pc): State {
    Scene(pc, RUNNING, false, None)
  }

  function Again(pc: Pc): State {
    Scene(pc, RUNNING, false, INPUT)
  }

  /** After the second attempt left its notice without an identity. */
  function Blind(pc: Pc, notice: Option<Unbound>): State {
    State(RUNNING, notice, EMPTY_LEDGER, pc, {}, {"a"}, map[], 0, true, INPUT)
  }

  /** The first attempt dies in its check; the second fails to identify its input until it is queued. */
  function StoryState(k: nat): State {
    match k
    case 0 => First(Idle)
    case 1 => First(Decided(false))
    case 2 => First(LookNotice(false))
    case 3 => First(LookReceipt(false))
    case 4 => First(Stamping(false))
    case 5 => First(Publishing(INPUT, false, false))
    case 6 => First(Publishing(INPUT, false, true))
    case 7 => Ran(Queued(INPUT))
    case 8 => Ran(Publishing(INPUT, true, false))
    case 9 => Ran(Publishing(INPUT, true, true))
    case 10 => Ran(Prepared(INPUT))
    case 11 => Again(Executing(INPUT))
    case 12 => Again(Idle)
    case 13 => Again(Decided(false))
    case 14 => Again(LookNotice(false))
    case 15 => Again(LookReceipt(false))
    case 16 => Again(Stamping(false))
    case 17 => Scene(Publishing(None, false, false), RUNNING, true, INPUT)
    case 18 => Blind(Queued(None), Some(Unbound("a", false)))
    case 19 => Blind(Publishing(INPUT, true, false), Some(Unbound("a", false)))
    case 20 => Blind(Publishing(INPUT, true, true), None)
    case _ => Blind(Prepared(INPUT), None)
  }

  function StoryAction(k: nat): Action {
    match k
    case 4 => Stamp(INPUT, "a")
    case 7 => Refresh(INPUT)
    case 10 => StartCheck
    case 11 => Crash
    case 16 => Stamp(None, "a")
    case 18 => Refresh(INPUT)
    case _ =>
      if k == 0 || k == 12 then Settle
      else if k == 1 || k == 13 then Acquire
      else if k == 2 || k == 14 then ReadNotice
      else if k == 3 || k == 15 then ReadReceipt
      else Publish(if k == 17 then "a" else "b")
  }

  ghost predicate Follows(k: nat, max: nat) {
    Step(StoryState(k), StoryAction(k), StoryState(k + 1), max)
  }

  lemma NothingToReread()
    ensures Rehydrate(EMPTY_LEDGER) == EMPTY_LEDGER && Count(EMPTY_LEDGER, ITEM) == 0
  {
    RehydrateIsIdentity(EMPTY_LEDGER);
  }

  lemma FirstLooks(max: nat)
    requires max > 0
    ensures Follows(0, max) && Follows(1, max) && Follows(2, max) && Follows(3, max)
  {
    NothingToReread();
    hide Rehydrate;
  }

  lemma FirstPublishes(max: nat)
    requires max > 0
    ensures Follows(4, max) && Follows(5, max) && Follows(6, max) && Follows(7, max)
  {
  }

  lemma FirstPrepares(max: nat)
    requires max > 0
    ensures Follows(8, max) && Follows(9, max)
  {
  }

  lemma FirstDies(max: nat)
    requires max > 0
    ensures Follows(10, max) && Follows(11, max)
  {
  }

  lemma SecondLooks(max: nat)
    requires max > 0
    ensures Follows(12, max) && Follows(13, max) && Follows(14, max) && Follows(15, max)
  {
    NothingToReread();
    hide Rehydrate;
  }

  lemma SecondPublishes(max: nat)
    requires max > 0
    ensures Follows(17, max) && Follows(18, max)
  {
    assert {} + {"a"} == {"a"};
  }

  lemma SecondIsBlind(max: nat)
    requires max > 0
    ensures Follows(16, max)
  {
  }

  lemma SecondPrepares(max: nat)
    requires max > 0
    ensures Follows(19, max) && Follows(20, max)
  {
  }

  lemma StoryHolds(k: nat, max: nat)
    requires k <= 20 && max > 0
    ensures Follows(k, max)
  {
    hide Follows;
    FirstLooks(max);
    FirstPublishes(max);
    FirstPrepares(max);
    FirstDies(max);
    SecondLooks(max);
    SecondIsBlind(max);
    SecondPublishes(max);
    SecondPrepares(max);
  }

  lemma StoryEnds()
    ensures Initial(StoryState(0)) && Repeats(StoryState(21))
  {
  }

  /** Blind repetition happens, with any budget: a session is about to check an input whose receipt still stands. */
  lemma BlindAttemptRepeats(max: nat)
    requires max > 0
    ensures exists states: seq<State>, actions: seq<Action>, k: nat ::
              Session(states, actions, max) && k < |states| && Repeats(states[k])
  {
    hide StoryState, StoryAction, Initial, Repeats;
    var states := seq(22, k requires 0 <= k < 22 => StoryState(k));
    var actions := seq(21, k requires 0 <= k < 21 => StoryAction(k));
    forall k | 0 <= k < 21 ensures Step(states[k], actions[k], states[k + 1], max) {
      StoryHolds(k, max);
    }
    StoryEnds();
    assert Session(states, actions, max) && Repeats(states[21]);
  }

  // ---------- a verdict over the budget ----------

  lemma {:induction false} WarningsSoFar(states: seq<State>, actions: seq<Action>, states': seq<State>,
                                         actions': seq<Action>, max: nat, k: nat)
    requires k <= |actions| < |states| && |actions'| < |states'| && states <= states' && actions <= actions'
    ensures LastStep(actions', k) == LastStep(actions, k)
    ensures Warned(states', actions', max, k) == Warned(states, actions, max, k)
    ensures Warnings(states', actions', max, k) == Warnings(states, actions, max, k)
    decreases k
  {
    if k > 0 {
      WarningsSoFar(states, actions, states', actions', max, k - 1);
      assert states'[k - 1] == states[k - 1] && actions'[k - 1] == actions[k - 1];
    }
  }

  lemma Extends(states: seq<State>, actions: seq<Action>, max: nat, a: Action)
    returns (states': seq<State>, actions': seq<Action>)
    requires Session(states, actions, max) && Enabled(states[|actions|], a)
    ensures states' == states + [Next(states[|actions|], a, max)] && actions' == actions + [a]
    ensures Session(states', actions', max)
    ensures Warnings(states', actions', max, |actions|) == Warnings(states, actions, max, |actions|)
    ensures Warned(states', actions', max, |actions|) == Warned(states, actions, max, |actions|)
  {
    states', actions' := states + [Next(states[|actions|], a, max)], actions + [a];
    WarningsSoFar(states, actions, states', actions', max, |actions|);
    hide Next, Enabled, Initial;
    forall k | 0 <= k < |actions'| ensures Step(states'[k], actions'[k], states'[k + 1], max) {
      if k < |actions| {
        assert Step(states[k], actions[k], states[k + 1], max);
      }
    }
  }

  /** A session that ends in this state, with so many warnings. */
  ghost predicate Ends(states: seq<State>, actions: seq<Action>, max: nat, s: State, warnings: nat) {
    && Session(states, actions, max) && states[|actions|] == s
    && Warnings(states, actions, max, |actions|) == warnings
  }

  /** The states of a settle that finds the gate unavailable and warns. */
  lemma WarningStates(s: State, max: nat)
    requires Valid(s.ledger) && s.pc.Idle? && Count(s.ledger, ITEM) < max
    ensures Enabled(s, Settle) && Next(s, Settle, max) == s.(pc := Decided(false))
    ensures Enabled(s.(pc := Decided(false)), Unavailable)
    ensures Next(s.(pc := Decided(false)), Unavailable, max) == s.(pc := Settled(RecordOne, None))
    ensures var paid := s.(ledger := Record(s.ledger, ITEM));
            && Enabled(s.(pc := Settled(RecordOne, None)), Persist)
            && Enabled(paid.(pc := Delivering(None)), Deliver)
            && Next(s.(pc := Settled(RecordOne, None)), Persist, max) == paid.(pc := Delivering(None))
            && Next(paid.(pc := Delivering(None)), Deliver, max) == paid
            && Count(paid.ledger, ITEM) == Count(s.ledger, ITEM) + 1
  {
    RehydrateIsIdentity(s.ledger);
    assert s.acks + {} == s.acks;
    hide Rehydrate;
  }

  /** Steps that persist nothing warn of nothing. */
  lemma WarnsNoMore(states: seq<State>, actions: seq<Action>, max: nat, k: nat)
    requires 0 < k <= |actions| < |states| && !actions[k - 1].Persist?
    ensures Warnings(states, actions, max, k) == Warnings(states, actions, max, k - 1)
    ensures actions[k - 1].Unavailable? ==>
              (Warned(states, actions, max, k) <==> Count(states[k - 1].ledger, ITEM) < max)
  {
  }

  lemma WarnsOnceMore(states: seq<State>, actions: seq<Action>, max: nat, k: nat)
    requires 0 < k <= |actions| < |states| && actions[k - 1].Persist? && Warned(states, actions, max, k - 1)
    requires states[k - 1].pc == Settled(RecordOne, None)
    ensures Warnings(states, actions, max, k) == Warnings(states, actions, max, k - 1) + 1
  {
  }

  lemma Goes(states: seq<State>, actions: seq<Action>, max: nat, a: Action, s: State, warnings: nat)
    returns (states': seq<State>, actions': seq<Action>)
    requires Ends(states, actions, max, s, warnings) && Enabled(s, a) && !a.Persist?
    ensures Ends(states', actions', max, Next(s, a, max), warnings)
    ensures a.Unavailable? && Count(s.ledger, ITEM) < max ==> Warned(states', actions', max, |actions'|)
  {
    hide Next, Enabled, Warnings, Warned;
    states', actions' := Extends(states, actions, max, a);
    WarnsNoMore(states', actions', max, |actions'|);
  }

  lemma Warns(states: seq<State>, actions: seq<Action>, max: nat, s: State, warnings: nat)
    returns (states': seq<State>, actions': seq<Action>)
    requires Ends(states, actions, max, s, warnings) && s.pc == Settled(RecordOne, None)
    requires Warned(states, actions, max, |actions|)
    ensures Ends(states', actions', max, Next(s, Persist, max), warnings + 1)
  {
    hide Next, Warnings, Warned;
    states', actions' := Extends(states, actions, max, Persist);
    WarnsOnceMore(states', actions', max, |actions'|);
  }

  lemma EndsValid(states: seq<State>, actions: seq<Action>, max: nat, s: State, warnings: nat)
    requires Ends(states, actions, max, s, warnings)
    ensures Valid(s.ledger)
  {
    SessionInv(states, actions, max, |actions|);
  }

  /** One more settle that finds the gate unavailable, from rest to rest. */
  lemma WarnsAgain(states: seq<State>, actions: seq<Action>, max: nat, s: State, warnings: nat)
    returns (states': seq<State>, actions': seq<Action>)
    requires Ends(states, actions, max, s, warnings) && s.pc.Idle? && Count(s.ledger, ITEM) < max
    ensures Ends(states', actions', max, s.(ledger := Record(s.ledger, ITEM)), warnings + 1)
    ensures Count(Record(s.ledger, ITEM), ITEM) == Count(s.ledger, ITEM) + 1
  {
    EndsValid(states, actions, max, s, warnings);
    WarningStates(s, max);
    var paid := s.(ledger := Record(s.ledger, ITEM));
    hide *;
    states', actions' := Goes(states, actions, max, Settle, s, warnings);
    states', actions' := Goes(states', actions', max, Unavailable, s.(pc := Decided(false)), warnings);
    states', actions' := Warns(states', actions', max, s.(pc := Settled(RecordOne, None)), warnings);
    states', actions' := Goes(states', actions', max, Deliver, paid.(pc := Delivering(None)), warnings + 1);
  }

  /** Until the budget is spent. */
  lemma {:induction false} WarnsToTheEnd(states: seq<State>, actions: seq<Action>, max: nat, s: State, warnings: nat)
    requires Ends(states, actions, max, s, warnings) && s.pc.Idle? && warnings == Count(s.ledger, ITEM) <= max
    ensures exists states': seq<State>, actions': seq<Action> ::
              && Session(states', actions', max) && Warnings(states', actions', max, |actions'|) == max
              && states'[|actions'|].verdicts == s.verdicts
    decreases max - warnings
  {
    if warnings < max {
      hide Ends, Session, Warnings;
      var states', actions' := WarnsAgain(states, actions, max, s, warnings);
      WarnsToTheEnd(states', actions', max, s.(ledger := Record(s.ledger, ITEM)), warnings + 1);
    }
  }

  const VERDICT := Receipt("i", FailedRun, Some(ReceiptNotice("v", true)))

  /** The first attempt's verdict is written, and its process dies before charging it. */
  const UNPAID := Again(Idle).(receipt := Some(VERDICT), used := {"v"}, verdicts := 1)

  lemma VerdictStates(max: nat)
    requires max > 0
    ensures Enabled(StoryState(11), Verdict(FailedRun, "v"))
    ensures Next(Next(StoryState(11), Verdict(FailedRun, "v"), max), Crash, max) == UNPAID
  {
    assert {} + {"v"} == {"v"};
  }

  lemma {:induction false} NeverPersisted(states: seq<State>, actions: seq<Action>, max: nat, k: nat)
    requires k <= |actions| < |states| && forall j :: 0 <= j < k ==> !actions[j].Persist?
    ensures Warnings(states, actions, max, k) == 0
    decreases k
  {
    if k > 0 {
      NeverPersisted(states, actions, max, k - 1);
    }
  }

  lemma FirstPersistsNothing(k: nat)
    requires k <= 10
    ensures !StoryAction(k).Persist?
  {
  }

  lemma FirstAttempt(max: nat) returns (states: seq<State>, actions: seq<Action>)
    requires max > 0
    ensures Ends(states, actions, max, StoryState(11), 0)
  {
    hide StoryState, StoryAction, Initial;
    states := seq(12, k requires 0 <= k < 12 => StoryState(k));
    actions := seq(11, k requires 0 <= k < 11 => StoryAction(k));
    forall k | 0 <= k < 11 ensures Step(states[k], actions[k], states[k + 1], max) && !actions[k].Persist? {
      StoryHolds(k, max);
      FirstPersistsNothing(k);
    }
    StoryEnds();
    NeverPersisted(states, actions, max, 11);
  }

  /**
   Warnings and verdicts of one cycle can exceed any budget by one: a process dies
   between writing its verdict and charging it, and warnings spend the budget before
   the verdict is recovered.
   */
  lemma BudgetIsExceededByOne(max: nat)
    requires max > 0
    ensures exists states: seq<State>, actions: seq<Action> ::
              && Session(states, actions, max)
              && Warnings(states, actions, max, |actions|) + states[|actions|].verdicts == max + 1
  {
    hide StoryState, Warnings;
    var states, actions := FirstAttempt(max);
    VerdictStates(max);
    var judged := Next(StoryState(11), Verdict(FailedRun, "v"), max);
    hide Next, Ends;
    states, actions := Goes(states, actions, max, Verdict(FailedRun, "v"), StoryState(11), 0);
    states, actions := Goes(states, actions, max, Crash, judged, 0);
    WarnsToTheEnd(states, actions, max, UNPAID, 0);
  }
}
