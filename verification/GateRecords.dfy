/**
 What becomes of the gate's records over a session: a notice lasts until it is
 acknowledged and then never comes back, no attempt with an identity is forgotten
 without a word, and a passed input is left alone.
 */
module GateRecords {
  import opened Ledger
  import opened GateProtocol

  // ---------- acknowledged notices ----------

  /** The record that the acknowledgement names still holds that very notice. */
  predicate Holds(s: State, ack: Ack) {
    match ack.input
    case None => s.notice.Some? && s.notice.value.id == ack.id
    case Some(input) =>
      && s.receipt.Some? && s.receipt.value.input == input
      && s.receipt.value.notice.Some? && s.receipt.value.notice.value.id == ack.id
  }

  /** An acknowledgement ends its own notice and forgets no attempt and no other notice. */
  lemma AckForgetsNothingElse(s: State, ack: Ack)
    ensures var s' := ApplyAck(s, ack);
            && !Holds(s', ack)
            && (forall other: Ack :: other != ack && Holds(s, other) ==> Holds(s', other))
            && (s.receipt.Some? <==> s'.receipt.Some?)
            && (s.receipt.Some? ==>
                  && s'.receipt.value.input == s.receipt.value.input
                  && s'.receipt.value.outcome == s.receipt.value.outcome)
  {
  }

  /** Records are written under new ids only. */
  lemma WritesNew(s: State, a: Action, max: nat, ack: Ack)
    requires Enabled(s, a) && (a.Stamp? || a.Publish? || a.NotExecuted? || a.Pass? || a.Verdict?)
    requires ack.id in s.used && !Holds(s, ack)
    ensures ack.id in Next(s, a, max).used && !Holds(Next(s, a, max), ack)
  {
    hide Charges;
  }

  lemma StaysGone(s: State, a: Action, s': State, max: nat, ack: Ack)
    requires Step(s, a, s', max) && ack.id in s.used && !Holds(s, ack)
    ensures ack.id in s'.used && !Holds(s', ack)
  {
    hide Count, Rehydrate, Charges, ApplyOp, SaveNotice, SetReceipt, Deduplicate, PublishRunning, ApplyAck;
    if a.Stamp? || a.Publish? || a.NotExecuted? || a.Pass? || a.Verdict? {
      hide Next;
      WritesNew(s, a, max, ack);
    } else if a.Acknowledge? {
      AckRestoresNothing(s, a.ack, ack);
    } else if a.Persist? {
      PersistKeepsRecords(s, s.pc.op);
    }
  }

  lemma AckRestoresNothing(s: State, ack: Ack, other: Ack)
    requires !Holds(s, other)
    ensures !Holds(ApplyAck(s, ack), other) && ApplyAck(s, ack).used == s.used
  {
  }

  lemma PersistKeepsRecords(s: State, op: LedgerOp)
    ensures var s' := ApplyOp(s, op); s'.receipt == s.receipt && s'.notice == s.notice && s'.used == s.used
  {
  }

  /** A notice that was acknowledged never comes back. */
  lemma {:induction false} AcknowledgedIsGone(states: seq<State>, actions: seq<Action>, max: nat, k: nat, m: nat)
    requires Session(states, actions, max) && k < |actions| && k < m < |states| && actions[k].Acknowledge?
    ensures actions[k].ack.id in states[m].used && !Holds(states[m], actions[k].ack)
    decreases m
  {
    hide Holds, Inv;
    assert Step(states[m - 1], actions[m - 1], states[m], max);
    if m == k + 1 {
      AckIsKnown(states, actions, max, k);
      AckForgetsNothingElse(states[k], actions[k].ack);
    } else {
      AcknowledgedIsGone(states, actions, max, k, m - 1);
      hide Next, Enabled;
      StaysGone(states[m - 1], actions[m - 1], states[m], max, actions[k].ack);
    }
  }

  lemma AckIsKnown(states: seq<State>, actions: seq<Action>, max: nat, k: nat)
    requires Session(states, actions, max) && k < |actions| && actions[k].Acknowledge?
    ensures actions[k].ack.id in states[k].used && states[k + 1].used == states[k].used
    ensures Holds(states[k + 1], actions[k].ack) == Holds(ApplyAck(states[k], actions[k].ack), actions[k].ack)
  {
    SessionInv(states, actions, max, k);
    assert Step(states[k], actions[k], states[k + 1], max);
    AckTouchesRecordsOnly(states[k], actions[k].ack);
  }

  /** Until it is acknowledged, a delivered notice can be, whenever nobody holds the lease. */
  lemma {:induction false} DeliveredCanBeAcknowledged(states: seq<State>, actions: seq<Action>, max: nat, k: nat,
                                                      m: nat, ack: Ack)
    requires Session(states, actions, max) && k < |actions| && k < m < |states|
    requires actions[k].Deliver? && states[k].pc.Delivering? && states[k].pc.ack == Some(ack)
    requires forall j :: k < j < m ==> actions[j] != Acknowledge(ack)
    ensures ack in states[m].acks
    ensures LeaseHeld(states[m].pc) || Enabled(states[m], Acknowledge(ack))
    decreases m
  {
    assert Step(states[m - 1], actions[m - 1], states[m], max);
    if m > k + 1 {
      DeliveredCanBeAcknowledged(states, actions, max, k, m - 1, ack);
      StaysDue(states[m - 1], actions[m - 1], states[m], max, ack);
    }
  }

  lemma StaysDue(s: State, a: Action, s': State, max: nat, ack: Ack)
    requires Step(s, a, s', max) && ack in s.acks && a != Acknowledge(ack)
    ensures ack in s'.acks
  {
    hide Count, Rehydrate, Charges, Record, RecordNotice, Clear;
  }

  // ---------- silence ----------

  /** The receipt was acknowledged at step `j` and has stood since. */
  ghost predicate Delivered(states: seq<State>, actions: seq<Action>, k: nat, j: nat)
    requires j < k <= |actions| < |states|
  {
    && actions[j].Acknowledge? && actions[j].ack.input.Some? && Holds(states[j], actions[j].ack)
    && states[j + 1].receipt == states[k].receipt
  }

  /** A receipt without a notice: the check is under way or passed, the notice was delivered, or it was there before. */
  ghost predicate Explained(states: seq<State>, actions: seq<Action>, k: nat)
    requires k <= |actions| < |states|
  {
    states[k].receipt.Some? && states[k].receipt.value.notice.None? ==>
      || states[k].receipt.value.outcome.Running? || states[k].receipt.value.outcome.Passed?
      || states[k].receipt == states[0].receipt
      || exists j :: 0 <= j < k && Delivered(states, actions, k, j)
  }

  lemma ReceiptChanges(s: State, a: Action, s': State, max: nat)
    requires Step(s, a, s', max) && s'.receipt != s.receipt
    ensures s'.receipt.Some?
    ensures s'.receipt.value.notice.None? && !s'.receipt.value.outcome.Running? && !s'.receipt.value.outcome.Passed? ==>
              a.Acknowledge? && a.ack.input.Some? && Holds(s, a.ack)
  {
    hide Count, Rehydrate, Charges, Record, RecordNotice, Clear;
  }

  lemma StaysDelivered(states: seq<State>, actions: seq<Action>, k: nat)
    requires k < |actions| < |states| && states[k + 1].receipt == states[k].receipt
    ensures forall j :: 0 <= j < k && Delivered(states, actions, k, j) ==> Delivered(states, actions, k + 1, j)
  {
  }

  lemma {:induction false} ReceiptsAreExplained(states: seq<State>, actions: seq<Action>, max: nat, k: nat)
    requires Session(states, actions, max) && k < |states|
    ensures Explained(states, actions, k)
    decreases k
  {
    hide Holds;
    if k > 0 {
      ReceiptsAreExplained(states, actions, max, k - 1);
      assert Step(states[k - 1], actions[k - 1], states[k], max);
      hide Step;
      if states[k].receipt == states[k - 1].receipt {
        StaysDelivered(states, actions, k - 1);
      } else {
        ReceiptChanges(states[k - 1], actions[k - 1], states[k], max);
        if actions[k - 1].Acknowledge? && actions[k - 1].ack.input.Some? && Holds(states[k - 1], actions[k - 1].ack) {
          assert Delivered(states, actions, k, k - 1);
        }
      }
    }
  }

  /**
   An attempt with an identity ends without a word only if the budget is spent, or
   if its input passed or its notice was delivered, unless the session found it so.
   */
  lemma SilenceIsExplained(states: seq<State>, actions: seq<Action>, max: nat, k: nat)
    requires Session(states, actions, max) && k < |actions| && actions[k].Stamp? && actions[k].input.Some?
    requires states[k + 1].pc == Settled(Keep, None)
    ensures states[k + 1].receipt == states[k].receipt
    ensures var receipt := states[k].receipt;
            if receipt.Some? && receipt.value.input == actions[k].input.value then
              && receipt.value.notice.None?
              && (|| receipt.value.outcome.Passed? || receipt == states[0].receipt
                  || exists j :: 0 <= j < k && Delivered(states, actions, k, j))
              && !receipt.value.outcome.Running?
            else Count(states[k].ledger, ITEM) >= max
  {
    SessionInv(states, actions, max, k);
    ReceiptsAreExplained(states, actions, max, k);
    assert Step(states[k], actions[k], states[k + 1], max);
    hide Delivered, Known, RaisedOnce, Paid, AcksCovered, Count;
  }

  // ---------- a passed input ----------

  predicate LeftAlone(s: State, input: Input) {
    && s.receipt == Some(Receipt(input, Outcome.Passed, None))
    && !s.pc.Publishing? && !s.pc.Queued? && !s.pc.Prepared? && !s.pc.Executing?
  }

  lemma StaysAlone(s: State, a: Action, s': State, max: nat, input: Input)
    requires Step(s, a, s', max) && LeftAlone(s, input) && (a.Stamp? ==> a.input == Some(input))
    ensures LeftAlone(s', input)
    ensures a.Stamp? ==> s'.pc == Settled(Keep, None)
  {
    hide Count, Rehydrate, Charges, Record, RecordNotice, Clear;
  }

  /** An input that passed is neither checked, reported nor charged again while every look finds it unchanged. */
  lemma {:induction false} PassedIsLeftAlone(states: seq<State>, actions: seq<Action>, max: nat, k: nat, m: nat,
                                             input: Input)
    requires Session(states, actions, max) && k < |actions| && k < m < |states|
    requires actions[k].Pass? && states[k].pc.Executing? && states[k].pc.input == Some(input)
    requires forall j :: k < j < m && actions[j].Stamp? ==> actions[j].input == Some(input)
    ensures LeftAlone(states[m], input)
    ensures m > k + 1 && actions[m - 1].Stamp? ==> states[m].pc == Settled(Keep, None)
    decreases m
  {
    hide LeftAlone;
    assert Step(states[m - 1], actions[m - 1], states[m], max);
    if m == k + 1 {
      PassLeavesAlone(states[k], max, input);
    } else {
      PassedIsLeftAlone(states, actions, max, k, m - 1, input);
      hide Step;
      StaysAlone(states[m - 1], actions[m - 1], states[m], max, input);
    }
  }

  lemma PassLeavesAlone(s: State, max: nat, input: Input)
    requires Enabled(s, Pass) && s.pc.input == Some(input)
    ensures LeftAlone(Next(s, Pass, max), input)
  {
  }
}
