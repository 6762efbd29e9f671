/**
 The injection ledger of extensions/agenda/ledger.ts and its reading back from
 disk (claude/agenda-state.ts): an immutable count per item, plus the durable
 notices already charged in this budget cycle.
 */
module Ledger {
  type ItemId = string
  type NoticeId = string

  datatype LedgerState = LedgerState(iterations: map<ItemId, nat>, noticeCharges: map<ItemId, seq<NoticeId>>)

  const EMPTY_LEDGER := LedgerState(map[], map[])

  function Count(ledger: LedgerState, id: ItemId): nat {
    if id in ledger.iterations then ledger.iterations[id] else 0
  }

  function Charges(ledger: LedgerState, id: ItemId): seq<NoticeId> {
    if id in ledger.noticeCharges then ledger.noticeCharges[id] else []
  }

  predicate AtCap(ledger: LedgerState, id: ItemId, max: int) {
    Count(ledger, id) >= max
  }

  function Record(ledger: LedgerState, id: ItemId): LedgerState {
    ledger.(iterations := ledger.iterations[id := Count(ledger, id) + 1])
  }

  /** Charge a durable notice once, however often it is replayed. */
  function RecordNotice(ledger: LedgerState, id: ItemId, notice: NoticeId): LedgerState {
    if notice in Charges(ledger, id) then ledger
    else Record(ledger, id).(noticeCharges := ledger.noticeCharges[id := Charges(ledger, id) + [notice]])
  }

  function Clear(ledger: LedgerState, id: ItemId): LedgerState {
    LedgerState(ledger.iterations - {id}, ledger.noticeCharges - {id})
  }

  /** The ledgers these operations build: charged notices are distinct and each one is counted. */
  ghost predicate Valid(ledger: LedgerState) {
    forall id :: id in ledger.noticeCharges ==>
      var charges := ledger.noticeCharges[id];
      && 0 < |charges| <= Count(ledger, id)
      && (forall i, j :: 0 <= i < j < |charges| ==> charges[i] != charges[j])
      && (forall i :: 0 <= i < |charges| ==> charges[i] != "")
  }

  lemma OperationsKeepValid(ledger: LedgerState, id: ItemId, notice: NoticeId)
    requires Valid(ledger) && notice != ""
    ensures Valid(Record(ledger, id)) && Valid(RecordNotice(ledger, id, notice)) && Valid(Clear(ledger, id))
  {
    var recorded := RecordNotice(ledger, id, notice);
    assert forall other :: other != id ==> Count(recorded, other) == Count(ledger, other);
    assert id in ledger.noticeCharges ==> |Charges(ledger, id)| <= Count(ledger, id);
  }

  /** Clearing an item forgets all of its charges and none of any other. */
  lemma ClearEffect(ledger: LedgerState, id: ItemId)
    ensures var after := Clear(ledger, id);
            && Count(after, id) == 0 && Charges(after, id) == []
            && forall other :: other != id ==>
                 Count(after, other) == Count(ledger, other) && Charges(after, other) == Charges(ledger, other)
  {
  }

  function Replay(ledger: LedgerState, id: ItemId, notices: seq<NoticeId>): LedgerState {
    if notices == [] then ledger
    else RecordNotice(Replay(ledger, id, notices[..|notices| - 1]), id, notices[|notices| - 1])
  }

  ghost function Elements(s: seq<NoticeId>): set<NoticeId> {
    set n | n in s
  }

  /** A notice raises the count by one, unless it was charged before. */
  lemma RecordNoticeEffect(ledger: LedgerState, id: ItemId, notice: NoticeId)
    ensures var after, charged := RecordNotice(ledger, id, notice), Elements(Charges(ledger, id));
            && Count(after, id) == Count(ledger, id) + (if notice in charged then 0 else 1)
            && Elements(Charges(after, id)) == charged + {notice}
            && forall other :: other != id ==>
                 Count(after, other) == Count(ledger, other) && Charges(after, other) == Charges(ledger, other)
  {
    var before := Charges(ledger, id);
    assert Elements(before + [notice]) == Elements(before) + {notice};
  }

  /** How many different notices are not charged yet. */
  ghost function NewOnes(notices: seq<NoticeId>, charged: set<NoticeId>): nat {
    |Elements(notices) - charged|
  }

  lemma OneMoreElement(front: seq<NoticeId>, last: NoticeId, charged: set<NoticeId>)
    ensures Elements(front + [last]) == Elements(front) + {last}
    ensures NewOnes(front + [last], charged) ==
            NewOnes(front, charged) + if last in charged + Elements(front) then 0 else 1
  {
    assert Elements(front + [last]) == Elements(front) + {last};
    assert Elements(front + [last]) - charged ==
           (Elements(front) - charged) + if last in charged + Elements(front) then {} else {last};
  }

  ghost predicate Replayed(ledger: LedgerState, after: LedgerState, id: ItemId, notices: seq<NoticeId>) {
    && Elements(Charges(after, id)) == Elements(Charges(ledger, id)) + Elements(notices)
    && Count(after, id) == Count(ledger, id) + NewOnes(notices, Elements(Charges(ledger, id)))
  }

  lemma ReplayOneMore(ledger: LedgerState, before: LedgerState, id: ItemId, front: seq<NoticeId>, last: NoticeId)
    requires Replayed(ledger, before, id, front)
    ensures Replayed(ledger, RecordNotice(before, id, last), id, front + [last])
  {
    hide RecordNotice, Elements, Charges, Count, NewOnes;
    OneMoreElement(front, last, Elements(Charges(ledger, id)));
    RecordNoticeEffect(before, id, last);
  }

  lemma NothingReplayed(ledger: LedgerState, id: ItemId)
    ensures Replayed(ledger, ledger, id, [])
  {
    assert Elements([]) == {};
    assert Elements([]) - Elements(Charges(ledger, id)) == {};
  }

  /** However notices are replayed, the count rises by the number of distinct new ones. */
  lemma {:induction false} ReplayCountsDistinct(ledger: LedgerState, id: ItemId, notices: seq<NoticeId>)
    ensures Replayed(ledger, Replay(ledger, id, notices), id, notices)
    decreases |notices|
  {
    hide RecordNotice, Replayed;
    if notices == [] {
      NothingReplayed(ledger, id);
    } else {
      var front, last := notices[..|notices| - 1], notices[|notices| - 1];
      ReplayCountsDistinct(ledger, id, front);
      ReplayOneMore(ledger, Replay(ledger, id, front), id, front, last);
      assert notices == front + [last];
    }
  }

  // ---------- reading a ledger back ----------

  /** First occurrences, non-empty strings only. */
  function Distinct(notices: seq<NoticeId>): seq<NoticeId> {
    if notices == [] then []
    else
      var front, last := Distinct(notices[..|notices| - 1]), notices[|notices| - 1];
      if last == "" || last in front then front else front + [last]
  }

  function Take(notices: seq<NoticeId>, n: nat): seq<NoticeId> {
    if n >= |notices| then notices else notices[..n]
  }

  /** What the next process reads: never more charged notices than charges. */
  function Rehydrate(ledger: LedgerState): LedgerState {
    LedgerState(ledger.iterations,
                map id | id in ledger.noticeCharges &&
                         Take(Distinct(ledger.noticeCharges[id]), Count(ledger, id)) != [] ::
                  Take(Distinct(ledger.noticeCharges[id]), Count(ledger, id)))
  }

  lemma {:induction false} DistinctIsIdentity(notices: seq<NoticeId>)
    requires forall i, j :: 0 <= i < j < |notices| ==> notices[i] != notices[j]
    requires forall i :: 0 <= i < |notices| ==> notices[i] != ""
    ensures Distinct(notices) == notices
    decreases |notices|
  {
    if notices != [] {
      var front, last := notices[..|notices| - 1], notices[|notices| - 1];
      assert forall i :: 0 <= i < |front| ==> front[i] == notices[i];
      DistinctIsIdentity(front);
      assert last !in front && front + [last] == notices;
    }
  }

  /** Writing a ledger and reading it back loses no charge, so no notice can be charged again. */
  lemma RehydrateIsIdentity(ledger: LedgerState)
    requires Valid(ledger)
    ensures Rehydrate(ledger) == ledger
  {
    forall id | id in ledger.noticeCharges
      ensures Take(Distinct(ledger.noticeCharges[id]), Count(ledger, id)) == ledger.noticeCharges[id]
    {
      DistinctIsIdentity(ledger.noticeCharges[id]);
    }
    assert Rehydrate(ledger).noticeCharges == ledger.noticeCharges;
  }

  lemma {:induction false} DistinctIsClean(notices: seq<NoticeId>)
    ensures var clean := Distinct(notices);
            && (forall i, j :: 0 <= i < j < |clean| ==> clean[i] != clean[j])
            && Elements(clean) == Elements(notices) - {""}
    decreases |notices|
  {
    if notices != [] {
      var front, last := notices[..|notices| - 1], notices[|notices| - 1];
      DistinctIsClean(front);
      assert notices == front + [last];
      assert Elements(notices) == Elements(front) + {last};
      assert Elements(Distinct(front) + [last]) == Elements(Distinct(front)) + {last};
      assert last in Distinct(front) <==> last in Elements(Distinct(front));
    }
  }

  /**
   Whatever was written, what is read back is a ledger these operations could have
   built: every count is kept, and of the charges as many clean ones as it covers.
   */
  lemma RehydrateIsValid(ledger: LedgerState, id: ItemId)
    ensures Valid(Rehydrate(ledger)) && Rehydrate(ledger).iterations == ledger.iterations
    ensures Elements(Charges(Rehydrate(ledger), id)) <= Elements(Charges(ledger, id)) - {""}
    ensures |Elements(Charges(ledger, id)) - {""}| <= Count(ledger, id) ==>
              Elements(Charges(Rehydrate(ledger), id)) == Elements(Charges(ledger, id)) - {""}
  {
    forall other | other in ledger.noticeCharges
      ensures var clean := Distinct(ledger.noticeCharges[other]);
              && (forall i, j :: 0 <= i < j < |clean| ==> clean[i] != clean[j])
              && Elements(clean) == Elements(ledger.noticeCharges[other]) - {""}
              && forall i :: 0 <= i < |clean| ==> clean[i] != ""
    {
      DistinctIsClean(ledger.noticeCharges[other]);
      var clean := Distinct(ledger.noticeCharges[other]);
      assert forall i :: 0 <= i < |clean| ==> clean[i] in Elements(clean);
    }
    hide Distinct;
    if id in ledger.noticeCharges {
      DistinctSize(Distinct(ledger.noticeCharges[id]));
    }
  }

  lemma {:induction false} DistinctSize(s: seq<NoticeId>)
    requires forall i, j :: 0 <= i < j < |s| ==> s[i] != s[j]
    ensures |Elements(s)| == |s|
    decreases |s|
  {
    if s != [] {
      var front, last := s[..|s| - 1], s[|s| - 1];
      DistinctSize(front);
      assert Elements(s) == Elements(front) + {last};
    }
  }
}
