/**
 The automatic gate of extensions/agenda/gate.ts over its durable records, for
 one session: settles run one after another, each in a fresh process that may
 crash between any two writes; the ledger is persisted before a notice is
 delivered; acknowledgements come later, under a lease of their own.
 */
module GateProtocol {
  import opened Ledger

  datatype Option<+T> = None | Some(value: T)

  type Input = string

  const ITEM: ItemId := "gate"

  datatype Outcome = Running | Passed | FailedRun | TimedOut | Incomplete

  /** A pending notice always has an identity; `charge` marks an executed check's verdict. */
  datatype ReceiptNotice = ReceiptNotice(id: NoticeId, charge: bool)

  datatype Receipt = Receipt(input: Input, outcome: Outcome, notice: Option<ReceiptNotice>)

  /** A notice of an attempt whose input has no identity; `verdict` if its check ran to a verdict. */
  datatype Unbound = Unbound(id: NoticeId, verdict: bool)

  /** What an acknowledgement names: the attempt's input, if it has one, and the notice. */
  datatype Ack = Ack(input: Option<Input>, id: NoticeId)

  datatype LedgerOp = Keep | RecordOne | ChargeNotice(id: NoticeId) | ClearAll

  /** Where a settle stands. `capped` was read before the lease was taken. */
  datatype Pc =
    | Idle
    | Decided(capped: bool)
    | LookNotice(capped: bool)
    | LookReceipt(capped: bool)
    | Stamping(capped: bool)
    | Publishing(input: Option<Input>, again: bool, cleared: bool)
    | Queued(input: Option<Input>)
    | Prepared(input: Option<Input>)
    | Executing(input: Option<Input>)
    | Settled(op: LedgerOp, ack: Option<Ack>)
    | Delivering(ack: Option<Ack>)

  /**
   Durable: receipt, notice and ledger. Volatile: where the settle stands and the
   acknowledgements under way. The rest only keeps history: how often a notice id
   raised the count, the durable verdicts of this cycle, whether this attempt
   began without an identity of its input, and the input, if any, whose check was
   started and whose receipt still stands.
   */
  datatype State = State(receipt: Option<Receipt>, notice: Option<Unbound>, ledger: LedgerState,
                         pc: Pc, acks: set<Ack>, used: set<NoticeId>,
                         raises: map<NoticeId, nat>, verdicts: nat, blind: bool, ran: Option<Input>)

  datatype Action =
    | Settle
    | Unavailable
    | Acquire
    | ReadNotice
    | ReadReceipt
    | Stamp(input: Option<Input>, id: NoticeId)
    | Publish(id: NoticeId)
    | NotExecuted(id: NoticeId)
    | Refresh(input: Option<Input>)
    | StartCheck
    | Pass
    | Verdict(outcome: Outcome, id: NoticeId)
    | ReleaseFails
    | Persist
    | Deliver
    | Crash
    | Acknowledge(ack: Ack)

  predicate LeaseHeld(pc: Pc) {
    !pc.Idle? && !pc.Decided? && !pc.Settled? && !pc.Delivering?
  }

  predicate Charged(s: State, id: NoticeId) {
    id in Charges(s.ledger, ITEM)
  }

  /** Charge a recovered notice unless the budget is spent or it was charged before. */
  function ReplayOp(s: State, capped: bool, id: NoticeId): LedgerOp {
    if !capped && !Charged(s, id) then ChargeNotice(id) else Keep
  }

  function SetReceipt(s: State, receipt: Receipt): State {
    s.(receipt := Some(receipt), ran := if s.ran == Some(receipt.input) then s.ran else None)
  }

  /** Store a verdict or admission notice where the attempt's identity allows. */
  function SaveNotice(s: State, input: Option<Input>, outcome: Outcome, id: NoticeId, charge: bool): State {
    match input
    case Some(i) => SetReceipt(s, Receipt(i, outcome, Some(ReceiptNotice(id, charge)))).(used := s.used + {id})
    case None => s.(notice := Some(Unbound(id, charge)), used := s.used + {id})
  }

  function Raises(s: State, id: NoticeId): nat {
    if id in s.raises then s.raises[id] else 0
  }

  /** Apply a settled outcome to the ledger and write it out. */
  function ApplyOp(s: State, op: LedgerOp): State {
    match op
    case Keep => s
    case RecordOne => s.(ledger := Record(s.ledger, ITEM))
    case ChargeNotice(id) =>
      s.(ledger := RecordNotice(s.ledger, ITEM, id),
         raises := s.raises[id := Raises(s, id) + if Charged(s, id) then 0 else 1])
    case ClearAll => s.(ledger := Clear(s.ledger, ITEM), verdicts := 0)
  }

  /** Remove a notice only when the record still holds that very notice. */
  function ApplyAck(s: State, ack: Ack): State {
    match ack.input
    case None =>
      if s.notice.Some? && s.notice.value.id == ack.id then s.(notice := None) else s
    case Some(input) =>
      if s.receipt.Some? && s.receipt.value.input == input && s.receipt.value.notice.Some? &&
         s.receipt.value.notice.value.id == ack.id
      then s.(receipt := Some(s.receipt.value.(notice := None))) else s
  }

  predicate Enabled(s: State, a: Action) {
    match a
    case Settle => s.pc.Idle?
    case Unavailable => LeaseHeld(s.pc) || s.pc.Decided?
    case Acquire => s.pc.Decided?
    case ReadNotice => s.pc.LookNotice?
    case ReadReceipt => s.pc.LookReceipt?
    case Stamp(_, id) => s.pc.Stamping? && id !in s.used && id != ""
    case Publish(id) => s.pc.Publishing? && id !in s.used && id != ""
    case NotExecuted(id) =>
      (s.pc.Queued? || s.pc.Prepared? || s.pc.Executing?) && id !in s.used && id != ""
    // an input that lost its identity is not executed
    case Refresh(input) => s.pc.Queued? && (s.pc.input.Some? ==> input.Some?)
    case StartCheck => s.pc.Prepared?
    case Pass => s.pc.Executing?
    case Verdict(outcome, id) =>
      && s.pc.Executing? && id !in s.used && id != ""
      && (outcome.FailedRun? || outcome.TimedOut? || outcome.Incomplete?)
    // only an outcome that carries no notice is given up when the lease cannot be released
    case ReleaseFails => s.pc.Settled? && s.pc.ack.None? && (s.pc.op.Keep? || s.pc.op.ClearAll?)
    case Persist => s.pc.Settled?
    case Deliver => s.pc.Delivering?
    case Crash => true
    case Acknowledge(ack) => ack in s.acks && !LeaseHeld(s.pc)
  }

  /** An unchanged input is not attempted again; its pending notice is repeated. */
  function Deduplicate(s: State, input: Option<Input>, id: NoticeId): State
    requires s.pc.Stamping?
  {
    if input.Some? && s.receipt.Some? && s.receipt.value.input == input.value then
      if s.receipt.value.outcome == Running then
        SaveNotice(s, input, Incomplete, id, false).(pc := Settled(Keep, Some(Ack(input, id))))
      else if s.receipt.value.notice.Some? then
        s.(pc := Settled(Keep, Some(Ack(input, s.receipt.value.notice.value.id))))
      else s.(pc := Settled(Keep, None))
    else if s.pc.capped then s.(pc := Settled(Keep, None))
    else s.(pc := Publishing(input, false, false))
  }

  /** Leave a trace of the attempt before waiting, and again before executing. */
  function PublishRunning(s: State, id: NoticeId): State
    requires s.pc.Publishing?
  {
    var next := if s.pc.again then Prepared(s.pc.input) else Queued(s.pc.input);
    match s.pc.input
    case Some(input) =>
      if !s.pc.cleared then s.(notice := None, pc := s.pc.(cleared := true))
      else SetReceipt(s, Receipt(input, Running, None)).(pc := next)
    case None => SaveNotice(s, None, Running, id, false).(pc := next)
  }

  function Next(s: State, a: Action, max: nat): State
    requires Enabled(s, a)
  {
    match a
    // a fresh process reads the ledger back and decides before it takes the lease
    case Settle =>
      var ledger := Rehydrate(s.ledger);
      s.(ledger := ledger, pc := if max == 0 then Idle else Decided(AtCap(ledger, ITEM, max)))
    case Unavailable =>
      var capped := if s.pc.Decided? || s.pc.LookNotice? || s.pc.LookReceipt? || s.pc.Stamping? then s.pc.capped
                    else false;
      s.(pc := Settled(if capped then Keep else RecordOne, None))
    case Acquire => s.(pc := LookNotice(s.pc.capped))
    case ReadNotice =>
      if s.notice.Some? then
        s.(pc := Settled(ReplayOp(s, s.pc.capped, s.notice.value.id), Some(Ack(None, s.notice.value.id))))
      else s.(pc := LookReceipt(s.pc.capped))
    case ReadReceipt =>
      if s.receipt.Some? && s.receipt.value.notice.Some? && s.receipt.value.notice.value.charge then
        var id := s.receipt.value.notice.value.id;
        s.(pc := Settled(ReplayOp(s, s.pc.capped, id), Some(Ack(Some(s.receipt.value.input), id))))
      else s.(pc := Stamping(s.pc.capped))
    case Stamp(input, id) => Deduplicate(s, input, id).(blind := input.None?)
    case Publish(id) => PublishRunning(s, id)
    case NotExecuted(id) =>
      SaveNotice(s, s.pc.input, Incomplete, id, false)
      .(pc := Settled(if s.pc.input.None? then ChargeNotice(id) else Keep, Some(Ack(s.pc.input, id))))
    case Refresh(input) => s.(pc := Publishing(input, true, false))
    case StartCheck => s.(pc := Executing(s.pc.input), ran := if s.pc.input.Some? then s.pc.input else s.ran)
    case Pass =>
      var done := if s.pc.input.Some? then SetReceipt(s, Receipt(s.pc.input.value, Passed, None))
                  else s.(notice := None);
      done.(pc := Settled(ClearAll, None))
    case Verdict(outcome, id) =>
      SaveNotice(s, s.pc.input, outcome, id, true)
      .(verdicts := s.verdicts + 1, pc := Settled(ChargeNotice(id), Some(Ack(s.pc.input, id))))
    case ReleaseFails => s.(pc := Settled(if AtCap(s.ledger, ITEM, max) then Keep else RecordOne, None))
    case Persist => ApplyOp(s, s.pc.op).(pc := Delivering(s.pc.ack))
    case Deliver => s.(pc := Idle, acks := s.acks + if s.pc.ack.Some? then {s.pc.ack.value} else {})
    case Crash => s.(pc := Idle)
    case Acknowledge(ack) => ApplyAck(s, ack).(acks := s.acks - {ack})
  }

  ghost predicate Step(s: State, a: Action, s': State, max: nat) {
    Enabled(s, a) && s' == Next(s, a, max)
  }

  // ---------- the invariant ----------

  predicate LiveIn(receipt: Option<Receipt>, notice: Option<Unbound>, id: NoticeId) {
    || (notice.Some? && notice.value.id == id)
    || (receipt.Some? && receipt.value.notice == Some(ReceiptNotice(id, true)))
  }

  predicate PendingIn(receipt: Option<Receipt>, notice: Option<Unbound>, id: NoticeId) {
    || notice == Some(Unbound(id, true))
    || (receipt.Some? && receipt.value.notice == Some(ReceiptNotice(id, true)))
  }

  ghost predicate QuietIn(receipt: Option<Receipt>, notice: Option<Unbound>) {
    forall id :: !PendingIn(receipt, notice, id)
  }

  ghost predicate UnchargedIn(receipt: Option<Receipt>, notice: Option<Unbound>, charges: seq<NoticeId>) {
    exists id :: PendingIn(receipt, notice, id) && id !in charges
  }

  /** A durable notice that will still be charged, or has been. */
  predicate Live(s: State, id: NoticeId) {
    LiveIn(s.receipt, s.notice, id)
  }

  /** The durable notice of an executed check. */
  predicate PendingVerdict(s: State, id: NoticeId) {
    PendingIn(s.receipt, s.notice, id)
  }

  ghost predicate Uncharged(s: State) {
    UnchargedIn(s.receipt, s.notice, Charges(s.ledger, ITEM))
  }

  /** No verdict waits for its acknowledgement. */
  ghost predicate NothingPending(s: State) {
    QuietIn(s.receipt, s.notice)
  }

  /** Every id in the records was drawn before. */
  ghost predicate Known(s: State) {
    && (forall id :: LiveIn(s.receipt, s.notice, id) ==> id in s.used && id != "")
    && (s.receipt.Some? && s.receipt.value.notice.Some? ==> s.receipt.value.notice.value.id in s.used)
    && (forall id :: id in s.raises || Charged(s, id) ==> id in s.used)
    && (forall ack :: ack in s.acks ==> ack.id in s.used)
    && (s.pc.Settled? && s.pc.op.ChargeNotice? ==> s.pc.op.id in s.used && s.pc.op.id != "")
    && ((s.pc.Settled? || s.pc.Delivering?) && s.pc.ack.Some? ==> s.pc.ack.value.id in s.used)
  }

  /** No id raised the count twice, and one that did can raise it again only by being charged already. */
  ghost predicate RaisedOnce(s: State) {
    forall id :: id in s.raises ==>
      && s.raises[id] <= 1
      && (s.raises[id] == 1 ==> Charged(s, id) || (!Live(s, id) && !(s.pc.Settled? && s.pc.op == ChargeNotice(id))))
  }

  /** The count, or the budget, covers a notice that someone may acknowledge. */
  ghost predicate Covered(s: State, max: nat, id: NoticeId) {
    PendingVerdict(s, id) ==> Charged(s, id) || Count(s.ledger, ITEM) >= max
  }

  ghost predicate AcksCovered(s: State, max: nat) {
    && (forall ack :: ack in s.acks ==> Covered(s, max, ack.id))
    && (s.pc.Delivering? && s.pc.ack.Some? ==> Covered(s, max, s.pc.ack.value.id))
    && (s.pc.Settled? && s.pc.ack.Some? ==>
          PendingVerdict(s, s.pc.ack.value.id) ==>
            s.pc.op == ChargeNotice(s.pc.ack.value.id) || (s.pc.op.Keep? && Covered(s, max, s.pc.ack.value.id)))
  }

  /** Durable verdicts of this cycle are paid for, but for one that is still pending. */
  ghost predicate Paid(s: State, max: nat) {
    && s.verdicts <= max
    && (s.verdicts <= Count(s.ledger, ITEM) || (Uncharged(s) && s.verdicts <= Count(s.ledger, ITEM) + 1))
  }

  /** What the settle has made sure of at each point. */
  ghost predicate PcFacts(s: State, max: nat) {
    match s.pc
    case Decided(capped) => capped == (Count(s.ledger, ITEM) >= max)
    case LookNotice(capped) => capped == (Count(s.ledger, ITEM) >= max)
    case LookReceipt(capped) => capped == (Count(s.ledger, ITEM) >= max) && s.notice.None?
    case Stamping(capped) => capped == (Count(s.ledger, ITEM) >= max) && NothingPending(s)
    case Publishing(_, _, cleared) =>
      Count(s.ledger, ITEM) < max && NothingPending(s) && (cleared ==> s.notice.None?)
    case Queued(_) => Count(s.ledger, ITEM) < max && NothingPending(s)
    case Prepared(input) => Count(s.ledger, ITEM) < max && NothingPending(s) && Traced(s, input)
    case Executing(input) => Count(s.ledger, ITEM) < max && NothingPending(s) && Traced(s, input)
    case Settled(op, _) => op.ClearAll? ==> forall id :: !LiveIn(s.receipt, s.notice, id)
    case _ => true
  }

  /** An attempt with identity left no unbound notice; its receipt says it is running. */
  ghost predicate Traced(s: State, input: Option<Input>) {
    input.Some? ==> s.notice.None? && s.receipt == Some(Receipt(input.value, Running, None))
  }

  ghost predicate Inv(s: State, max: nat) {
    Valid(s.ledger) && Known(s) && RaisedOnce(s) && AcksCovered(s, max) && Paid(s, max) && PcFacts(s, max)
  }

  /** A session starts with an empty ledger, over whatever records other sessions left. */
  ghost predicate Initial(s: State) {
    && s.ledger == EMPTY_LEDGER && s.pc == Idle && s.acks == {} && s.raises == map[] && s.verdicts == 0 && s.ran.None?
    && Known(s)
  }

  lemma InitialInv(s: State, max: nat)
    requires Initial(s)
    ensures Inv(s, max)
  {
  }

  // ---------- every step keeps the invariant ----------

  lemma SettleKeeps(s: State, max: nat)
    requires Inv(s, max) && s.pc.Idle?
    ensures Inv(Next(s, Settle, max), max)
  {
    RehydrateIsIdentity(s.ledger);
  }

  lemma LookKeepsKnown(s: State, a: Action, max: nat)
    requires Inv(s, max) && Enabled(s, a)
    requires a.Unavailable? || a.Acquire? || a.ReadNotice? || a.ReadReceipt? || a.ReleaseFails?
    ensures Known(Next(s, a, max))
  {
    hide Count, Valid, Charges, Paid, AcksCovered, PcFacts, PendingIn, RaisedOnce;
  }

  lemma LookKeepsRaised(s: State, a: Action, max: nat)
    requires Inv(s, max) && Enabled(s, a)
    requires a.Unavailable? || a.Acquire? || a.ReadNotice? || a.ReadReceipt? || a.ReleaseFails?
    ensures RaisedOnce(Next(s, a, max))
  {
    hide Count, Valid, Charges, Paid, AcksCovered, PcFacts, PendingIn, Known;
  }

  lemma LookKeeps(s: State, a: Action, max: nat)
    requires Inv(s, max) && Enabled(s, a)
    requires a.Unavailable? || a.Acquire? || a.ReadNotice? || a.ReadReceipt? || a.ReleaseFails?
    ensures Inv(Next(s, a, max), max)
  {
    hide Known, RaisedOnce, Count, Valid, Charges, LiveIn;
    LookKeepsKnown(s, a, max);
    LookKeepsRaised(s, a, max);
  }

  /** A notice without a verdict, stored while nothing is pending, leaves nothing pending. */
  lemma SaveKeepsQuiet(s: State, input: Option<Input>, outcome: Outcome, id: NoticeId)
    requires NothingPending(s)
    ensures NothingPending(SaveNotice(s, input, outcome, id, false))
  {
    var s' := SaveNotice(s, input, outcome, id, false);
    forall other ensures !PendingIn(s'.receipt, s'.notice, other) {
      assert !PendingIn(s.receipt, s.notice, other);
    }
  }

  lemma SaveAddsOne(s: State, input: Option<Input>, outcome: Outcome, id: NoticeId, charge: bool)
    ensures var s' := SaveNotice(s, input, outcome, id, charge);
            forall other :: LiveIn(s'.receipt, s'.notice, other) ==> LiveIn(s.receipt, s.notice, other) || other == id
  {
  }

  lemma PendingIsLive(receipt: Option<Receipt>, notice: Option<Unbound>)
    ensures forall id :: PendingIn(receipt, notice, id) ==> LiveIn(receipt, notice, id)
  {
  }

  lemma RunningKeepsQuiet(s: State, input: Option<Input>)
    requires NothingPending(s)
    ensures QuietIn(s.receipt, None)
    ensures input.Some? ==> QuietIn(Some(Receipt(input.value, Running, None)), s.notice)
    ensures forall id :: LiveIn(s.receipt, None, id) ==> LiveIn(s.receipt, s.notice, id)
    ensures input.Some? ==>
              forall id :: LiveIn(Some(Receipt(input.value, Running, None)), s.notice, id) ==>
                LiveIn(s.receipt, s.notice, id)
  {
    forall id ensures !PendingIn(s.receipt, None, id)
              ensures input.Some? ==> !PendingIn(Some(Receipt(input.value, Running, None)), s.notice, id)
    {
      assert !PendingIn(s.receipt, s.notice, id);
    }
  }

  /** Nothing but the one fresh id became known, and nothing was charged. */
  ghost predicate AtMostSaves(s: State, s': State, id: NoticeId) {
    && s'.ledger == s.ledger && s'.acks == s.acks && s'.raises == s.raises
    && (s'.used == s.used || s'.used == s.used + {id})
    && (forall other :: LiveIn(s'.receipt, s'.notice, other) ==>
          LiveIn(s.receipt, s.notice, other) || (other == id && id in s'.used))
    && (s'.receipt.Some? && s'.receipt.value.notice.Some? ==> s'.receipt.value.notice.value.id in s'.used)
    && (s'.pc.Settled? ==>
          && (s'.pc.op.Keep? || (s'.pc.op == ChargeNotice(id) && id in s'.used))
          && (s'.pc.ack.Some? ==> s'.pc.ack.value.id in s'.used))
    && !s'.pc.Delivering?
  }

  lemma SavingKeepsKnown(s: State, s': State, id: NoticeId)
    requires Known(s) && RaisedOnce(s) && AtMostSaves(s, s', id) && id !in s.used && id != ""
    ensures Known(s') && RaisedOnce(s')
  {
    hide LiveIn, Charges;
  }

  ghost predicate ReceiptKnown(s: State) {
    s.receipt.Some? && s.receipt.value.notice.Some? ==> s.receipt.value.notice.value.id in s.used
  }

  lemma SaveSaves(s: State, input: Option<Input>, outcome: Outcome, id: NoticeId, charge: bool, pc: Pc)
    requires ReceiptKnown(s)
    requires pc == Settled(Keep, Some(Ack(input, id))) || pc == Settled(ChargeNotice(id), Some(Ack(input, id)))
    ensures AtMostSaves(s, SaveNotice(s, input, outcome, id, charge).(pc := pc), id)
  {
  }

  lemma StampSaves(s: State, a: Action, max: nat)
    requires ReceiptKnown(s) && Enabled(s, a) && a.Stamp?
    ensures AtMostSaves(s, Next(s, a, max), a.id)
  {
    SaveSaves(s, a.input, Incomplete, a.id, false, Settled(Keep, Some(Ack(a.input, a.id))));
    hide SaveNotice, LiveIn;
  }

  lemma NotExecutedSaves(s: State, a: Action, max: nat)
    requires ReceiptKnown(s) && Enabled(s, a) && a.NotExecuted?
    ensures AtMostSaves(s, Next(s, a, max), a.id)
  {
    hide AtMostSaves;
    var op := if s.pc.input.None? then ChargeNotice(a.id) else Keep;
    SaveSaves(s, s.pc.input, Incomplete, a.id, false, Settled(op, Some(Ack(s.pc.input, a.id))));
    hide SaveNotice;
  }

  lemma StampKeepsKnown(s: State, a: Action, max: nat)
    requires Inv(s, max) && Enabled(s, a) && (a.Stamp? || a.NotExecuted?)
    ensures Known(Next(s, a, max)) && RaisedOnce(Next(s, a, max))
  {
    hide Paid, AcksCovered, Valid, PcFacts, RaisedOnce, AtMostSaves, Next;
    if a.Stamp? {
      StampSaves(s, a, max);
    } else {
      NotExecutedSaves(s, a, max);
    }
    SavingKeepsKnown(s, Next(s, a, max), a.id);
  }

  lemma StampKeepsRest(s: State, a: Action, max: nat)
    requires Inv(s, max) && Enabled(s, a) && (a.Stamp? || a.NotExecuted?)
    ensures AcksCovered(Next(s, a, max), max) && Paid(Next(s, a, max), max) && PcFacts(Next(s, a, max), max)
  {
    hide Known, RaisedOnce, Valid, Count, LiveIn, Charges;
    SaveKeepsQuiet(s, if a.Stamp? then a.input else s.pc.input, Incomplete, a.id);
  }

  lemma StampKeeps(s: State, a: Action, max: nat)
    requires Inv(s, max) && Enabled(s, a) && (a.Stamp? || a.NotExecuted?)
    ensures Inv(Next(s, a, max), max)
  {
    hide Known, RaisedOnce, AcksCovered, Paid, PcFacts, Valid;
    StampKeepsKnown(s, a, max);
    StampKeepsRest(s, a, max);
  }

  lemma PublishKeepsKnown(s: State, a: Action, max: nat)
    requires Inv(s, max) && Enabled(s, a) && a.Publish?
    ensures Known(Next(s, a, max)) && RaisedOnce(Next(s, a, max))
  {
    hide Paid, AcksCovered, Valid, Count, PendingIn;
    SaveAddsOne(s, None, Running, a.id, false);
    RunningKeepsQuiet(s, s.pc.input);
    hide LiveIn, Charges;
  }

  lemma PublishKeepsRest(s: State, a: Action, max: nat)
    requires Inv(s, max) && Enabled(s, a) && a.Publish?
    ensures AcksCovered(Next(s, a, max), max) && Paid(Next(s, a, max), max) && PcFacts(Next(s, a, max), max)
  {
    hide Known, RaisedOnce, Valid, Count, LiveIn;
    SaveKeepsQuiet(s, None, Running, a.id);
    RunningKeepsQuiet(s, s.pc.input);
  }

  /** Leaving a trace of the attempt, with a crash possible between its two writes, keeps the invariant. */
  lemma PublishKeeps(s: State, a: Action, max: nat)
    requires Inv(s, max) && Enabled(s, a) && a.Publish?
    ensures Inv(Next(s, a, max), max)
  {
    hide Known, RaisedOnce, AcksCovered, Paid, PcFacts, Valid;
    PublishKeepsKnown(s, a, max);
    PublishKeepsRest(s, a, max);
  }

  lemma StartKeeps(s: State, a: Action, max: nat)
    requires Inv(s, max) && Enabled(s, a) && (a.Refresh? || a.StartCheck?)
    ensures Inv(Next(s, a, max), max)
  {
    hide PendingIn, LiveIn, Count, Valid;
  }

  lemma PassKeeps(s: State, max: nat)
    requires Inv(s, max) && Enabled(s, Pass)
    ensures Inv(Next(s, Pass, max), max)
  {
    var s' := Next(s, Pass, max);
    forall id ensures !LiveIn(s'.receipt, s'.notice, id) {
      assert !PendingIn(s.receipt, s.notice, id);
    }
    PendingIsLive(s'.receipt, s'.notice);
  }

  lemma VerdictKeepsKnown(s: State, a: Action, max: nat)
    requires Inv(s, max) && Enabled(s, a) && a.Verdict?
    ensures Known(Next(s, a, max)) && RaisedOnce(Next(s, a, max))
  {
    hide Paid, AcksCovered, Valid, PcFacts, Count, PendingIn;
    SaveAddsOne(s, s.pc.input, a.outcome, a.id, true);
    hide LiveIn;
  }

  lemma VerdictIsPending(s: State, a: Action, max: nat)
    requires Inv(s, max) && Enabled(s, a) && a.Verdict?
    ensures var s' := Next(s, a, max); forall id :: PendingVerdict(s', id) <==> id == a.id
  {
    hide Paid, AcksCovered, Known, RaisedOnce, Valid, Count;
    var s' := Next(s, a, max);
    forall id ensures PendingIn(s'.receipt, s'.notice, id) <==> id == a.id {
      assert !PendingIn(s.receipt, s.notice, id);
    }
  }

  /** A verdict is written only within the budget, and then waits to be charged. */
  lemma VerdictKeeps(s: State, a: Action, max: nat)
    requires Inv(s, max) && Enabled(s, a) && a.Verdict?
    ensures Inv(Next(s, a, max), max)
  {
    var s' := Next(s, a, max);
    VerdictKeepsKnown(s, a, max);
    VerdictIsPending(s, a, max);
    assert s'.ledger == s.ledger && a.id !in Charges(s'.ledger, ITEM);
    assert PendingIn(s'.receipt, s'.notice, a.id);
    assert !Uncharged(s);
    hide PendingIn, LiveIn, Known, RaisedOnce, Valid, Count;
  }

  lemma PersistKeepsKnown(s: State, max: nat)
    requires Inv(s, max) && Enabled(s, Persist)
    ensures Known(Next(s, Persist, max)) && RaisedOnce(Next(s, Persist, max))
  {
    hide Paid, AcksCovered, Valid, Count, Charges, RecordNotice, Record;
    var s' := Next(s, Persist, max);
    match s.pc.op
    case Keep => assert forall id :: Charged(s', id) == Charged(s, id);
    case RecordOne => RecordKeepsCharges(s);
    case ChargeNotice(charged) => ChargeCovers(s, charged);
    case ClearAll => ClearForgets(s);
  }

  lemma RecordKeepsCharges(s: State)
    ensures Charges(Record(s.ledger, ITEM), ITEM) == Charges(s.ledger, ITEM)
    ensures Count(Record(s.ledger, ITEM), ITEM) == Count(s.ledger, ITEM) + 1
  {
  }

  lemma ClearForgets(s: State)
    ensures Charges(Clear(s.ledger, ITEM), ITEM) == [] && Count(Clear(s.ledger, ITEM), ITEM) == 0
  {
  }

  lemma PersistKeepsAcks(s: State, max: nat)
    requires Inv(s, max) && Enabled(s, Persist)
    ensures AcksCovered(Next(s, Persist, max), max)
  {
    hide Paid, Known, RaisedOnce, Valid, Count, Charges, RecordNotice, Record;
    var s' := Next(s, Persist, max);
    PendingIsLive(s.receipt, s.notice);
    match s.pc.op
    case Keep => assert forall id :: Charged(s', id) == Charged(s, id);
    case RecordOne => RecordKeepsCharges(s);
    case ChargeNotice(charged) => ChargeCovers(s, charged);
    case ClearAll => assert forall id :: !PendingVerdict(s', id);
  }

  lemma PersistKeeps(s: State, max: nat)
    requires Inv(s, max) && Enabled(s, Persist)
    ensures Inv(Next(s, Persist, max), max)
  {
    hide Known, RaisedOnce, AcksCovered, Paid, Valid;
    PersistKeepsKnown(s, max);
    PersistKeepsAcks(s, max);
    PersistPays(s, max);
    PersistKeepsValid(s, max);
  }

  lemma PersistKeepsValid(s: State, max: nat)
    requires Inv(s, max) && Enabled(s, Persist)
    ensures Valid(Next(s, Persist, max).ledger)
  {
    hide Valid, RaisedOnce, AcksCovered, Paid, PcFacts;
    OperationsKeepValid(s.ledger, ITEM, if s.pc.op.ChargeNotice? then s.pc.op.id else "x");
  }

  lemma ChargeCovers(s: State, id: NoticeId)
    ensures var ledger := RecordNotice(s.ledger, ITEM, id);
            && (forall other :: other in Charges(ledger, ITEM) <==> Charged(s, other) || other == id)
            && Count(ledger, ITEM) == Count(s.ledger, ITEM) + if Charged(s, id) then 0 else 1
  {
  }

  lemma PersistPays(s: State, max: nat)
    requires Inv(s, max) && Enabled(s, Persist)
    ensures Paid(Next(s, Persist, max), max)
  {
    var s' := Next(s, Persist, max);
    if s.pc.op.ChargeNotice? {
      ChargeCovers(s, s.pc.op.id);
    }
    if s.pc.op.Keep? && Uncharged(s) {
      var id :| PendingIn(s.receipt, s.notice, id) && id !in Charges(s.ledger, ITEM);
      assert PendingIn(s'.receipt, s'.notice, id) && id !in Charges(s'.ledger, ITEM);
    }
    if s.pc.op.ChargeNotice? && Charged(s, s.pc.op.id) && Uncharged(s) {
      var id :| PendingIn(s.receipt, s.notice, id) && id !in Charges(s.ledger, ITEM);
      assert PendingIn(s'.receipt, s'.notice, id) && id !in Charges(s'.ledger, ITEM);
    }
  }

  lemma DeliverKeeps(s: State, a: Action, max: nat)
    requires Inv(s, max) && Enabled(s, a) && (a.Deliver? || a.Crash?)
    ensures Inv(Next(s, a, max), max)
  {
    var s' := Next(s, a, max);
    assert s'.receipt == s.receipt && s'.notice == s.notice && s'.ledger == s.ledger;
  }

  /** An acknowledgement removes at most the notice it names. */
  lemma AckRemovesItsOwn(s: State, ack: Ack)
    ensures var s' := ApplyAck(s, ack);
            && (forall id :: PendingIn(s'.receipt, s'.notice, id) ==> PendingIn(s.receipt, s.notice, id))
            && (forall id :: id != ack.id && PendingIn(s.receipt, s.notice, id) ==>
                  PendingIn(s'.receipt, s'.notice, id))
            && (forall id :: LiveIn(s'.receipt, s'.notice, id) ==> LiveIn(s.receipt, s.notice, id))
  {
  }

  lemma AckTouchesRecordsOnly(s: State, ack: Ack)
    ensures var s' := ApplyAck(s, ack);
            && s'.ledger == s.ledger && s'.pc == s.pc && s'.acks == s.acks && s'.used == s.used
            && s'.raises == s.raises && s'.verdicts == s.verdicts
            && (ReceiptKnown(s) ==> ReceiptKnown(s'))
  {
  }

  lemma AcknowledgeKeepsKnown(s: State, a: Action, max: nat)
    requires Inv(s, max) && Enabled(s, a) && a.Acknowledge?
    ensures Known(Next(s, a, max)) && RaisedOnce(Next(s, a, max))
  {
    hide Paid, AcksCovered, Valid, PcFacts, PendingIn, LiveIn, Count, Charges, ApplyAck;
    AckRemovesItsOwn(s, a.ack);
    AckTouchesRecordsOnly(s, a.ack);
  }

  lemma AcknowledgeKeepsAcks(s: State, a: Action, max: nat)
    requires Inv(s, max) && Enabled(s, a) && a.Acknowledge?
    ensures AcksCovered(Next(s, a, max), max)
  {
    hide Paid, Known, RaisedOnce, Valid, PcFacts, PendingIn, LiveIn;
    AckRemovesItsOwn(s, a.ack);
  }

  lemma AcknowledgeKeepsPaid(s: State, a: Action, max: nat)
    requires Inv(s, max) && Enabled(s, a) && a.Acknowledge?
    ensures Paid(Next(s, a, max), max)
  {
    hide Known, RaisedOnce, Valid, PcFacts, PendingIn, LiveIn, Count;
    var s' := Next(s, a, max);
    AckRemovesItsOwn(s, a.ack);
    if Uncharged(s) {
      var id :| PendingIn(s.receipt, s.notice, id) && id !in Charges(s.ledger, ITEM);
      assert Covered(s, max, a.ack.id);
      assert id != a.ack.id ==> PendingIn(s'.receipt, s'.notice, id) && id !in Charges(s'.ledger, ITEM);
    }
  }

  lemma AcknowledgeKeeps(s: State, a: Action, max: nat)
    requires Inv(s, max) && Enabled(s, a) && a.Acknowledge?
    ensures Inv(Next(s, a, max), max)
  {
    hide Known, RaisedOnce, AcksCovered, Paid, Valid;
    AcknowledgeKeepsKnown(s, a, max);
    AcknowledgeKeepsAcks(s, a, max);
    AcknowledgeKeepsPaid(s, a, max);
    AckRemovesItsOwn(s, a.ack);
  }

  lemma StepKeeps(s: State, a: Action, s': State, max: nat)
    requires Inv(s, max) && Step(s, a, s', max)
    ensures Inv(s', max)
  {
    match a
    case Settle => SettleKeeps(s, max);
    case Unavailable => LookKeeps(s, a, max);
    case Acquire => LookKeeps(s, a, max);
    case ReadNotice => LookKeeps(s, a, max);
    case ReadReceipt => LookKeeps(s, a, max);
    case Stamp(_, _) => StampKeeps(s, a, max);
    case NotExecuted(_) => StampKeeps(s, a, max);
    case Publish(_) => PublishKeeps(s, a, max);
    case Refresh(_) => StartKeeps(s, a, max);
    case StartCheck => StartKeeps(s, a, max);
    case Pass => PassKeeps(s, max);
    case Verdict(_, _) => VerdictKeeps(s, a, max);
    case ReleaseFails => LookKeeps(s, a, max);
    case Persist => PersistKeeps(s, max);
    case Deliver => DeliverKeeps(s, a, max);
    case Crash => DeliverKeeps(s, a, max);
    case Acknowledge(_) => AcknowledgeKeeps(s, a, max);
  }

  // ---------- whole sessions ----------

  /** A session: settles, crashes and late acknowledgements in any order. */
  ghost predicate Session(states: seq<State>, actions: seq<Action>, max: nat) {
    && |states| == |actions| + 1 && Initial(states[0])
    && forall k :: 0 <= k < |actions| ==> Step(states[k], actions[k], states[k + 1], max)
  }

  lemma {:induction false} SessionInv(states: seq<State>, actions: seq<Action>, max: nat, k: nat)
    requires Session(states, actions, max) && k < |states|
    ensures Inv(states[k], max)
    decreases k
  {
    if k == 0 {
      InitialInv(states[0], max);
    } else {
      SessionInv(states, actions, max, k - 1);
      StepKeeps(states[k - 1], actions[k - 1], states[k], max);
    }
  }

  /** Across crashes, replays and cleared budgets, no notice raises the count more than once. */
  lemma EachNoticeChargedOnce(states: seq<State>, actions: seq<Action>, max: nat, k: nat, id: NoticeId)
    requires Session(states, actions, max) && k < |states|
    ensures Raises(states[k], id) <= 1
  {
    SessionInv(states, actions, max, k);
  }

  /** The durable verdicts of one budget cycle never exceed the budget. */
  lemma VerdictsWithinBudget(states: seq<State>, actions: seq<Action>, max: nat, k: nat)
    requires Session(states, actions, max) && k < |states|
    ensures states[k].verdicts <= max
  {
    SessionInv(states, actions, max, k);
  }

  /** A pending verdict disappears only through an acknowledgement that names it, once it is paid for. */
  lemma VerdictNeverLost(states: seq<State>, actions: seq<Action>, max: nat, k: nat, id: NoticeId)
    requires Session(states, actions, max) && k < |actions|
    requires PendingVerdict(states[k], id) && !PendingVerdict(states[k + 1], id)
    ensures actions[k].Acknowledge? && actions[k].ack.id == id
    ensures Charged(states[k], id) || Count(states[k].ledger, ITEM) >= max
  {
    SessionInv(states, actions, max, k);
    assert Step(states[k], actions[k], states[k + 1], max);
    if actions[k].Acknowledge? {
      OnlyItsAckRemoves(states[k], actions[k], max, id);
    } else {
      OnlyAcksRemove(states[k], actions[k], states[k + 1], max, id);
    }
  }

  lemma OnlyItsAckRemoves(s: State, a: Action, max: nat, id: NoticeId)
    requires Inv(s, max) && Enabled(s, a) && a.Acknowledge?
    requires PendingVerdict(s, id) && !PendingVerdict(Next(s, a, max), id)
    ensures a.ack.id == id && (Charged(s, id) || Count(s.ledger, ITEM) >= max)
  {
    hide PendingIn, Known, RaisedOnce, Paid, PcFacts, Count, Charges;
    AckRemovesItsOwn(s, a.ack);
    assert Covered(s, max, a.ack.id);
  }

  lemma OnlyAcksRemove(s: State, a: Action, s': State, max: nat, id: NoticeId)
    requires Inv(s, max) && Step(s, a, s', max) && !a.Acknowledge? && PendingVerdict(s, id)
    ensures PendingVerdict(s', id)
  {
  }

  /** No check starts while a verdict waits for its acknowledgement, or without budget. */
  lemma NoCheckWhilePending(states: seq<State>, actions: seq<Action>, max: nat, k: nat)
    requires Session(states, actions, max) && k < |actions| && actions[k].StartCheck?
    ensures forall id :: !PendingVerdict(states[k], id)
    ensures Count(states[k].ledger, ITEM) < max
  {
    SessionInv(states, actions, max, k);
    assert Step(states[k], actions[k], states[k + 1], max);
  }

  /** A late acknowledgement of an older notice leaves a newer one in place. */
  lemma LateAckIsHarmless(s: State, ack: Ack, id: NoticeId)
    requires PendingVerdict(s, id) && ack.id != id
    ensures PendingVerdict(ApplyAck(s, ack), id)
  {
    AckRemovesItsOwn(s, ack);
  }

  // ---------- an unchanged input is not attempted again ----------

  /** The check about to start is one of an input whose last attempt still has its receipt. */
  predicate Repeats(s: State) {
    s.pc.Prepared? && s.pc.input.Some? && s.ran == s.pc.input
  }

  /** An attempt that knew its input from the start has replaced every earlier receipt. */
  ghost predicate Deduplicated(s: State) {
    && (s.ran.Some? ==> s.receipt.Some? && s.receipt.value.input == s.ran.value)
    && match s.pc
       case Publishing(input, again, _) =>
         if again then s.blind || s.ran.None?
         else s.blind == input.None? &&
              (input.Some? && s.receipt.Some? ==> s.receipt.value.input != input.value)
       case Queued(_) => s.blind || s.ran.None?
       case Prepared(input) =>
         && (s.blind || s.ran.None?)
         && (input.Some? ==> s.receipt.Some? && s.receipt.value.input == input.value)
       case _ => true
  }

  lemma PublishDeduplicates(s: State, a: Action, max: nat)
    requires Deduplicated(s) && Enabled(s, a) && (a.Publish? || a.Stamp? || a.Refresh? || a.StartCheck?)
    ensures Deduplicated(Next(s, a, max))
  {
  }

  lemma StepDeduplicates(s: State, a: Action, s': State, max: nat)
    requires Deduplicated(s) && Step(s, a, s', max)
    ensures Deduplicated(s')
  {
    hide Enabled;
    if a.Publish? || a.Stamp? || a.Refresh? || a.StartCheck? {
      PublishDeduplicates(s, a, max);
    }
  }

  /** A check of an unchanged input is repeated only by an attempt that could not identify its input at first. */
  lemma {:induction false} RepeatsOnlyBlindly(states: seq<State>, actions: seq<Action>, max: nat, k: nat)
    requires Session(states, actions, max) && k < |states|
    ensures Deduplicated(states[k])
    ensures Repeats(states[k]) ==> states[k].blind
    decreases k
  {
    if k > 0 {
      RepeatsOnlyBlindly(states, actions, max, k - 1);
      assert Step(states[k - 1], actions[k - 1], states[k], max);
      StepDeduplicates(states[k - 1], actions[k - 1], states[k], max);
    }
  }

  /** From the second look at the input until the check is prepared. */
  ghost predicate Rechecks(s: State, input: Option<Input>, ran: Option<Input>) {
    && ((s.pc.Publishing? && s.pc.input == input && s.pc.again) || (s.pc.Prepared? && s.pc.input == input))
    && (input.Some? ==> (s.ran == input <==> ran == input))
  }

  lemma RecheckStep(s: State, id: NoticeId, s': State, max: nat, input: Option<Input>, ran: Option<Input>)
    requires Rechecks(s, input, ran) && Step(s, Publish(id), s', max)
    ensures Rechecks(s', input, ran)
  {
  }

  lemma {:induction false} RechecksUntil(states: seq<State>, actions: seq<Action>, max: nat, k: nat, m: nat)
    requires Session(states, actions, max) && k < m < |states| && actions[k].Refresh?
    requires forall j :: k < j < m ==> actions[j].Publish?
    ensures Rechecks(states[m], actions[k].input, states[k].ran)
    decreases m
  {
    hide Rechecks;
    assert Step(states[m - 1], actions[m - 1], states[m], max);
    if m == k + 1 {
      RecheckBegins(states[k], actions[k].input, max);
    } else {
      RechecksUntil(states, actions, max, k, m - 1);
      RecheckStep(states[m - 1], actions[m - 1].id, states[m], max, actions[k].input, states[k].ran);
    }
  }

  lemma RecheckBegins(s: State, input: Option<Input>, max: nat)
    requires Enabled(s, Refresh(input))
    ensures Rechecks(Next(s, Refresh(input), max), input, s.ran)
  {
  }

  /**
   An attempt that gets past its second look at the input repeats a check if and
   only if that look finds the input whose check was started and whose receipt
   still stands: nothing compares the two. Only a blind attempt can find it.
   */
  lemma RepeatsExactly(states: seq<State>, actions: seq<Action>, max: nat, k: nat, m: nat)
    requires Session(states, actions, max) && k < m < |states| && actions[k].Refresh?
    requires (forall j :: k < j < m ==> actions[j].Publish?) && states[m].pc.Prepared?
    ensures Repeats(states[m]) <==> actions[k].input.Some? && states[k].ran == actions[k].input
    ensures Repeats(states[m]) ==> states[k].blind && states[k].receipt.Some? &&
                                   states[k].receipt.value.input == actions[k].input.value
  {
    RechecksUntil(states, actions, max, k, m);
    RepeatsOnlyBlindly(states, actions, max, k);
    assert Step(states[k], actions[k], states[k + 1], max);
  }
}
