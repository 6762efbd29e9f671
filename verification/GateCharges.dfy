/**
 What a session of the gate costs: every continuation it injects is paid from the
 budget, but for notices that are repeated, that come when the budget is spent,
 or that report an attempt without a check on a known input.
 */
module GateCharges {
  import opened Ledger
  import opened GateProtocol

  // ---------- the books of a session ----------

  /** The last step before `k` that is not an acknowledgement: what the settle under way came to. */
  ghost function LastStep(actions: seq<Action>, k: nat): (j: Option<nat>)
    requires k <= |actions|
    ensures j.Some? ==> j.value < k
    decreases k
  {
    if k == 0 then None else if actions[k - 1].Acknowledge? then LastStep(actions, k - 1) else Some(k - 1)
  }

  /** The settle under way ends with a warning: the gate was unavailable while there was budget left. */
  ghost predicate Warned(states: seq<State>, actions: seq<Action>, max: nat, k: nat)
    requires k <= |actions| < |states|
  {
    var j := LastStep(actions, k);
    && j.Some? && (actions[j.value].Unavailable? || actions[j.value].ReleaseFails?)
    && Count(states[j.value].ledger, ITEM) < max
  }

  /** The settle under way ends with a pass. */
  ghost predicate Passed(actions: seq<Action>, k: nat)
    requires k <= |actions|
  {
    var j := LastStep(actions, k);
    j.Some? && actions[j.value].Pass?
  }

  /** A pass is persisted: the budget cycle ends. */
  ghost predicate Passes(actions: seq<Action>, k: nat)
    requires k < |actions|
  {
    actions[k].Persist? && Passed(actions, k)
  }

  /** The warnings persisted in this budget cycle. */
  ghost function Warnings(states: seq<State>, actions: seq<Action>, max: nat, k: nat): nat
    requires k <= |actions| < |states|
    decreases k
  {
    if k == 0 || Passes(actions, k - 1) then 0
    else
      Warnings(states, actions, max, k - 1) +
      if actions[k - 1].Persist? && Warned(states, actions, max, k - 1) then 1 else 0
  }

  ghost predicate Injects(states: seq<State>, actions: seq<Action>, max: nat, k: nat)
    requires k < |actions| < |states|
  {
    && actions[k].Persist? && states[k].pc.Settled?
    && (states[k].pc.ack.Some? || Warned(states, actions, max, k))
  }

  /** The continuations of this budget cycle: warnings and notices. */
  ghost function Injections(states: seq<State>, actions: seq<Action>, max: nat, k: nat): nat
    requires k <= |actions| < |states|
    decreases k
  {
    if k == 0 || Passes(actions, k - 1) then 0
    else
      Injections(states, actions, max, k - 1) + if Injects(states, actions, max, k - 1) then 1 else 0
  }

  /** A notice that costs nothing: charged before, beyond the budget, or of a known input that was not checked. */
  ghost predicate Free(s: State, max: nat) {
    && s.pc.Settled? && s.pc.ack.Some?
    && var ack := s.pc.ack.value;
       Charged(s, ack.id) || Count(s.ledger, ITEM) >= max || (ack.input.Some? && !PendingVerdict(s, ack.id))
  }

  ghost function FreeNotices(states: seq<State>, actions: seq<Action>, max: nat, k: nat): nat
    requires k <= |actions| < |states|
    decreases k
  {
    if k == 0 || Passes(actions, k - 1) then 0
    else
      FreeNotices(states, actions, max, k - 1) +
      if actions[k - 1].Persist? && Free(states[k - 1], max) then 1 else 0
  }

  // ---------- what a settle has decided ----------

  ghost predicate Priced(s: State, max: nat) {
    && Count(s.ledger, ITEM) <= max
    && (s.pc.Settled? ==>
          && (s.pc.op.RecordOne? || s.pc.op.ChargeNotice? ==> Count(s.ledger, ITEM) < max)
          && (s.pc.op.RecordOne? || s.pc.op.ClearAll? ==> s.pc.ack.None?)
          && (s.pc.op.ChargeNotice? ==>
                && s.pc.ack.Some? && s.pc.ack.value.id == s.pc.op.id
                && (s.pc.ack.value.input.Some? && !Charged(s, s.pc.op.id) ==> PendingVerdict(s, s.pc.op.id)))
          && (s.pc.op.Keep? && s.pc.ack.Some? && s.pc.ack.value.input.None? ==>
                Charged(s, s.pc.ack.value.id) || Count(s.ledger, ITEM) >= max))
  }

  lemma SettlePrices(s: State, max: nat)
    requires Inv(s, max) && Priced(s, max) && Enabled(s, Settle)
    ensures Priced(Next(s, Settle, max), max)
  {
    RehydrateIsIdentity(s.ledger);
  }

  lemma PersistPrices(s: State, max: nat)
    requires Inv(s, max) && Priced(s, max) && Enabled(s, Persist)
    ensures Priced(Next(s, Persist, max), max)
  {
    hide Inv, PendingIn;
  }

  lemma AcknowledgePrices(s: State, a: Action, max: nat)
    requires Inv(s, max) && Priced(s, max) && Enabled(s, a) && a.Acknowledge?
    ensures Priced(Next(s, a, max), max)
  {
    hide PendingIn, LiveIn, Known, RaisedOnce, Paid, PcFacts, Count, Charges, ApplyAck, Valid;
    AckRemovesItsOwn(s, a.ack);
    AckTouchesRecordsOnly(s, a.ack);
    assert Covered(s, max, a.ack.id);
  }

  lemma OutcomePrices(s: State, a: Action, max: nat)
    requires Inv(s, max) && Priced(s, max) && Enabled(s, a)
    requires a.Stamp? || a.NotExecuted? || a.Pass? || a.Verdict?
    ensures Priced(Next(s, a, max), max)
  {
    hide Known, RaisedOnce, Paid, AcksCovered, Count, Charges, Valid;
    if a.Verdict? {
      VerdictSaved(s, s.pc.input, a.outcome, a.id);
    }
  }

  lemma VerdictSaved(s: State, input: Option<Input>, outcome: Outcome, id: NoticeId)
    ensures var s' := SaveNotice(s, input, outcome, id, true); PendingVerdict(s', id) && s'.ledger == s.ledger
  {
  }

  lemma LookPrices(s: State, a: Action, max: nat)
    requires Inv(s, max) && Priced(s, max) && Enabled(s, a)
    requires a.Unavailable? || a.Acquire? || a.ReadNotice? || a.ReadReceipt? || a.ReleaseFails?
    ensures Priced(Next(s, a, max), max)
  {
    hide Known, RaisedOnce, Paid, AcksCovered, Count, Charges, Valid;
  }

  lemma StepPrices(s: State, a: Action, s': State, max: nat)
    requires Inv(s, max) && Priced(s, max) && Step(s, a, s', max)
    ensures Priced(s', max)
  {
    hide Inv;
    match a
    case Settle => SettlePrices(s, max);
    case Persist => PersistPrices(s, max);
    case Acknowledge(_) => AcknowledgePrices(s, a, max);
    case Stamp(_, _) => OutcomePrices(s, a, max);
    case NotExecuted(_) => OutcomePrices(s, a, max);
    case Pass => OutcomePrices(s, a, max);
    case Verdict(_, _) => OutcomePrices(s, a, max);
    case Publish(_) =>
    case Refresh(_) =>
    case StartCheck =>
    case Deliver =>
    case Crash =>
    case _ => LookPrices(s, a, max);
  }

  lemma {:induction false} SessionPriced(states: seq<State>, actions: seq<Action>, max: nat, k: nat)
    requires Session(states, actions, max) && k < |states|
    ensures Inv(states[k], max) && Priced(states[k], max)
    decreases k
  {
    hide Inv, Priced;
    SessionInv(states, actions, max, k);
    if k == 0 {
      StartsPriced(states[0], max);
    } else {
      SessionPriced(states, actions, max, k - 1);
      assert Step(states[k - 1], actions[k - 1], states[k], max);
      StepPrices(states[k - 1], actions[k - 1], states[k], max);
    }
  }

  /** What the settle under way comes to, step by step. */
  lemma WarnedNext(states: seq<State>, actions: seq<Action>, max: nat, k: nat)
    requires k < |actions| < |states|
    ensures var a := actions[k];
            && (Warned(states, actions, max, k + 1) <==>
                  if a.Acknowledge? then Warned(states, actions, max, k)
                  else (a.Unavailable? || a.ReleaseFails?) && Count(states[k].ledger, ITEM) < max)
            && (Passed(actions, k + 1) <==> a.Pass? || (a.Acknowledge? && Passed(actions, k)))
  {
  }

  lemma NothingWarned(states: seq<State>, actions: seq<Action>, max: nat)
    requires |actions| < |states|
    ensures !Warned(states, actions, max, 0) && !Passed(actions, 0)
  {
  }

  lemma {:induction false} SessionWarns(states: seq<State>, actions: seq<Action>, max: nat, k: nat)
    requires Session(states, actions, max) && k < |states|
    ensures Warned(states, actions, max, k) <==> states[k].pc.Settled? && states[k].pc.op.RecordOne?
    ensures Passed(actions, k) <==> states[k].pc.Settled? && states[k].pc.op.ClearAll?
    decreases k
  {
    hide Inv, Count, Warned, Passed;
    if k == 0 {
      NothingWarned(states, actions, max);
    } else {
      SessionWarns(states, actions, max, k - 1);
      WarnedNext(states, actions, max, k - 1);
      SessionInv(states, actions, max, k - 1);
      assert Step(states[k - 1], actions[k - 1], states[k], max);
      WarnsExactly(states[k - 1], actions[k - 1], states[k], max);
      hide Next, Enabled;
    }
  }

  /**
   The settle under way warns exactly if it ended for want of the gate while there
   was budget left, and clears the ledger exactly if it ended with a pass.
   */
  lemma SessionPrices(states: seq<State>, actions: seq<Action>, max: nat, k: nat)
    requires Session(states, actions, max) && k < |states|
    ensures Inv(states[k], max) && Priced(states[k], max)
    ensures Warned(states, actions, max, k) <==> states[k].pc.Settled? && states[k].pc.op.RecordOne?
    ensures Passed(actions, k) <==> states[k].pc.Settled? && states[k].pc.op.ClearAll?
  {
    SessionPriced(states, actions, max, k);
    SessionWarns(states, actions, max, k);
  }

  lemma StartsPriced(s: State, max: nat)
    requires Initial(s)
    ensures Priced(s, max)
  {
  }

  lemma WarnsExactly(s: State, a: Action, s': State, max: nat)
    requires Inv(s, max) && Step(s, a, s', max)
    ensures s'.pc.Settled? && s'.pc.op.RecordOne? <==>
              match a
              case Unavailable => Count(s.ledger, ITEM) < max
              case ReleaseFails => Count(s.ledger, ITEM) < max
              case Acknowledge(_) => s.pc.Settled? && s.pc.op.RecordOne?
              case _ => false
    ensures s'.pc.Settled? && s'.pc.op.ClearAll? <==>
              a.Pass? || (a.Acknowledge? && s.pc.Settled? && s.pc.op.ClearAll?)
  {
    hide Known, RaisedOnce, Paid, AcksCovered, Count, Charges, Valid, PendingIn, LiveIn;
  }

  // ---------- the books balance ----------

  lemma OnlyPersistPays(s: State, a: Action, s': State, max: nat)
    requires Inv(s, max) && Step(s, a, s', max) && !a.Persist?
    ensures s'.ledger == s.ledger
  {
    hide Known, RaisedOnce, Paid, AcksCovered, PcFacts, Count, Charges;
    if a.Settle? {
      RehydrateIsIdentity(s.ledger);
    }
    hide Rehydrate, Valid;
  }

  /** What persisting a settle does to the count, and what it says of the settle's notice. */
  lemma PersistPaysFor(s: State, max: nat)
    requires Inv(s, max) && Priced(s, max) && Enabled(s, Persist)
    ensures var s', op := Next(s, Persist, max), s.pc.op;
            && (op.ClearAll? ==> Count(s'.ledger, ITEM) == 0 && Charges(s'.ledger, ITEM) == [])
            && (op.RecordOne? ==>
                  Count(s'.ledger, ITEM) == Count(s.ledger, ITEM) + 1 && !Free(s, max) && s.pc.ack.None? &&
                  Charges(s'.ledger, ITEM) == Charges(s.ledger, ITEM))
            && (op.ChargeNotice? && !Charged(s, op.id) ==>
                  Count(s'.ledger, ITEM) == Count(s.ledger, ITEM) + 1 && !Free(s, max) && s.pc.ack.Some? &&
                  Charges(s'.ledger, ITEM) == Charges(s.ledger, ITEM) + [op.id])
            && (op.Keep? || (op.ChargeNotice? && Charged(s, op.id)) ==>
                  s'.ledger == s.ledger && (Free(s, max) <==> s.pc.ack.Some?))
  {
    hide Known, RaisedOnce, Paid, PcFacts, Valid, LiveIn, PendingIn;
  }

  /** How the counters of a session go on with one step. */
  lemma BooksGoOn(states: seq<State>, actions: seq<Action>, max: nat, k: nat)
    requires k < |actions| < |states|
    ensures var w, i, f := Warnings(states, actions, max, k), Injections(states, actions, max, k),
                           FreeNotices(states, actions, max, k);
            var w', i', f' := Warnings(states, actions, max, k + 1), Injections(states, actions, max, k + 1),
                              FreeNotices(states, actions, max, k + 1);
            && (!actions[k].Persist? ==> w' == w && i' == i && f' == f)
            && (Passes(actions, k) ==> w' == 0 && i' == 0 && f' == 0)
            && (actions[k].Persist? && !Passes(actions, k) ==>
                  && w' == (if Warned(states, actions, max, k) then w + 1 else w)
                  && i' == (if Injects(states, actions, max, k) then i + 1 else i)
                  && f' == (if Free(states[k], max) then f + 1 else f))
  {
    hide Warned, Passed, Free;
  }

  ghost predicate Balanced(states: seq<State>, actions: seq<Action>, max: nat, k: nat)
    requires k <= |actions| < |states|
  {
    && Count(states[k].ledger, ITEM) == Warnings(states, actions, max, k) + |Charges(states[k].ledger, ITEM)|
    && Injections(states, actions, max, k) == Count(states[k].ledger, ITEM) + FreeNotices(states, actions, max, k)
  }

  lemma PersistBalances(states: seq<State>, actions: seq<Action>, max: nat, k: nat)
    requires Session(states, actions, max) && k < |actions| && actions[k].Persist?
    requires Balanced(states, actions, max, k)
    ensures Balanced(states, actions, max, k + 1)
  {
    hide Inv, Priced, Count, Charges, Free, Warned, Passed, Warnings, Injections, FreeNotices, ApplyOp, Initial;
    SessionPrices(states, actions, max, k);
    assert Step(states[k], actions[k], states[k + 1], max);
    BooksGoOn(states, actions, max, k);
    PersistPaysFor(states[k], max);
    hide Next, Session;
  }

  lemma OtherBalances(states: seq<State>, actions: seq<Action>, max: nat, k: nat)
    requires Session(states, actions, max) && k < |actions| && !actions[k].Persist?
    requires Balanced(states, actions, max, k)
    ensures Balanced(states, actions, max, k + 1)
  {
    hide Inv, Count, Charges, Warnings, Injections, FreeNotices, Next, Enabled, Initial;
    SessionInv(states, actions, max, k);
    assert Step(states[k], actions[k], states[k + 1], max);
    BooksGoOn(states, actions, max, k);
    OnlyPersistPays(states[k], actions[k], states[k + 1], max);
  }

  /**
   The count of a budget cycle is the number of its warnings and of the distinct
   notices charged in it, and the number of its continuations less the free ones.
   */
  lemma {:induction false} BooksBalance(states: seq<State>, actions: seq<Action>, max: nat, k: nat)
    requires Session(states, actions, max) && k < |states|
    ensures Count(states[k].ledger, ITEM) ==
            Warnings(states, actions, max, k) + |Charges(states[k].ledger, ITEM)|
    ensures Injections(states, actions, max, k) ==
            Count(states[k].ledger, ITEM) + FreeNotices(states, actions, max, k)
    decreases k
  {
    hide Step, Initial, Count, Charges, Warnings, Injections, FreeNotices;
    if k == 0 {
      NothingOnTheBooks(states, actions, max);
    } else {
      BooksBalance(states, actions, max, k - 1);
      if actions[k - 1].Persist? {
        PersistBalances(states, actions, max, k - 1);
      } else {
        OtherBalances(states, actions, max, k - 1);
      }
    }
  }

  lemma NothingOnTheBooks(states: seq<State>, actions: seq<Action>, max: nat)
    requires |actions| < |states| && Initial(states[0])
    ensures Balanced(states, actions, max, 0)
  {
  }

  /** A persisted settle that warns raises the count by exactly one, and charges no notice. */
  lemma WarningCostsOne(states: seq<State>, actions: seq<Action>, max: nat, k: nat)
    requires Session(states, actions, max) && k < |actions| && actions[k].Persist? && Warned(states, actions, max, k)
    ensures Count(states[k + 1].ledger, ITEM) == Count(states[k].ledger, ITEM) + 1 <= max
    ensures Charges(states[k + 1].ledger, ITEM) == Charges(states[k].ledger, ITEM)
    ensures Warnings(states, actions, max, k + 1) == Warnings(states, actions, max, k) + 1
  {
    hide Inv, Count, Charges;
    SessionPrices(states, actions, max, k);
    assert Step(states[k], actions[k], states[k + 1], max);
    PersistPaysFor(states[k], max);
    SessionPrices(states, actions, max, k + 1);
  }

  /** Once its pass is persisted, a session has its whole budget again. */
  lemma PassRestoresBudget(states: seq<State>, actions: seq<Action>, max: nat, k: nat)
    requires Session(states, actions, max) && k < |actions| && actions[k].Persist? && Passed(actions, k)
    ensures var s' := states[k + 1];
            Count(s'.ledger, ITEM) == 0 && Charges(s'.ledger, ITEM) == [] && s'.verdicts == 0
    ensures NothingPending(states[k + 1])
  {
    SessionPrices(states, actions, max, k);
    assert Step(states[k], actions[k], states[k + 1], max);
    PersistPaysFor(states[k], max);
    PendingIsLive(states[k].receipt, states[k].notice);
    hide Priced, Known, RaisedOnce, Paid, AcksCovered;
  }

  /** All warnings of a budget cycle are counted, and the count never exceeds the budget. */
  lemma WarningsWithinBudget(states: seq<State>, actions: seq<Action>, max: nat, k: nat)
    requires Session(states, actions, max) && k < |states|
    ensures Warnings(states, actions, max, k) <= Count(states[k].ledger, ITEM) <= max
  {
    SessionPrices(states, actions, max, k);
    BooksBalance(states, actions, max, k);
  }

  /** The continuations of a budget cycle are within the budget, but for the notices that cost nothing. */
  lemma InjectionsWithinBudget(states: seq<State>, actions: seq<Action>, max: nat, k: nat)
    requires Session(states, actions, max) && k < |states|
    ensures Injections(states, actions, max, k) <= max + FreeNotices(states, actions, max, k)
  {
    SessionPrices(states, actions, max, k);
    BooksBalance(states, actions, max, k);
  }

  // ---------- warnings and verdicts together ----------

  /** All verdicts of the cycle are charged, but for one that waits or that came to a spent budget. */
  ghost predicate VerdictsCharged(s: State, max: nat) {
    || s.verdicts <= |Charges(s.ledger, ITEM)|
    || (s.verdicts <= |Charges(s.ledger, ITEM)| + 1 && (Uncharged(s) || Count(s.ledger, ITEM) >= max))
  }

  lemma VerdictIsDue(s: State, a: Action, max: nat)
    requires Inv(s, max) && VerdictsCharged(s, max) && Enabled(s, a) && a.Verdict?
    ensures VerdictsCharged(Next(s, a, max), max)
  {
    var s' := Next(s, a, max);
    VerdictIsPending(s, a, max);
    assert s'.ledger == s.ledger && a.id !in Charges(s'.ledger, ITEM);
    assert PendingIn(s'.receipt, s'.notice, a.id);
    assert !Uncharged(s);
  }

  lemma PersistLeavesDue(s: State, max: nat)
    requires Inv(s, max) && Priced(s, max) && VerdictsCharged(s, max) && Enabled(s, Persist)
    ensures VerdictsCharged(Next(s, Persist, max), max)
  {
    var s' := Next(s, Persist, max);
    PersistPaysFor(s, max);
    hide Inv, Count, Charges, Priced, Free, RecordNotice, Record, Clear;
    if Uncharged(s) && Charges(s'.ledger, ITEM) == Charges(s.ledger, ITEM) {
      var id :| PendingIn(s.receipt, s.notice, id) && id !in Charges(s.ledger, ITEM);
      assert PendingIn(s'.receipt, s'.notice, id) && id !in Charges(s'.ledger, ITEM);
    }
  }

  lemma OtherLeavesDue(s: State, a: Action, s': State, max: nat)
    requires Inv(s, max) && VerdictsCharged(s, max) && Step(s, a, s', max) && !a.Persist? && !a.Verdict?
    ensures VerdictsCharged(s', max)
  {
    hide Count, Charges;
    OnlyPersistPays(s, a, s', max);
    if Uncharged(s) && Count(s.ledger, ITEM) < max {
      var id :| PendingIn(s.receipt, s.notice, id) && id !in Charges(s.ledger, ITEM);
      if !PendingVerdict(s', id) {
        if a.Acknowledge? {
          OnlyItsAckRemoves(s, a, max, id);
        } else {
          OnlyAcksRemove(s, a, s', max, id);
        }
      }
      assert PendingIn(s'.receipt, s'.notice, id);
    }
    hide Inv, Enabled;
  }

  lemma {:induction false} SessionVerdicts(states: seq<State>, actions: seq<Action>, max: nat, k: nat)
    requires Session(states, actions, max) && k < |states|
    ensures VerdictsCharged(states[k], max)
    decreases k
  {
    hide Inv, Priced, VerdictsCharged;
    if k == 0 {
      NoVerdictsYet(states[0], max);
    } else {
      var s, a := states[k - 1], actions[k - 1];
      SessionVerdicts(states, actions, max, k - 1);
      SessionPrices(states, actions, max, k - 1);
      assert Step(s, a, states[k], max);
      if a.Persist? {
        PersistLeavesDue(s, max);
      } else if a.Verdict? {
        VerdictIsDue(s, a, max);
      } else {
        OtherLeavesDue(s, a, states[k], max);
      }
    }
  }

  lemma NoVerdictsYet(s: State, max: nat)
    requires Initial(s)
    ensures VerdictsCharged(s, max)
  {
  }

  /**
   Warnings and verdicts of one budget cycle together exceed the count by one at
   most, and then a verdict waits to be charged or came to a spent budget.
   */
  lemma WarningsAndVerdicts(states: seq<State>, actions: seq<Action>, max: nat, k: nat)
    requires Session(states, actions, max) && k < |states|
    ensures Warnings(states, actions, max, k) + states[k].verdicts <= Count(states[k].ledger, ITEM) + 1 <= max + 1
    ensures Uncharged(states[k]) || Count(states[k].ledger, ITEM) == max ||
            Warnings(states, actions, max, k) + states[k].verdicts <= Count(states[k].ledger, ITEM)
  {
    SessionPrices(states, actions, max, k);
    BooksBalance(states, actions, max, k);
    SessionVerdicts(states, actions, max, k);
  }
}
