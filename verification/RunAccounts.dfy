/**
 The books of a run: one bill per worker attempt, and the totals the run keeps
 of them.
 */
module RunAccounts {
  import opened PlanSchema
  import opened Upstream
  import opened PlanGraph
  import opened RunInvariant
  import opened RunBudget
  import opened RunWorkers

  /** One worker attempt: what it was spawned for and what it cost. */
  datatype Bill = Bill(dispatch: Dispatch, tokens: nat)

  datatype Failure = Failure(node: NodeId, error: string)

  const IDENTICAL_FAILURE_THRESHOLD := 3

  ghost function Total(bills: seq<Bill>): nat {
    if bills == [] then 0 else Total(bills[..|bills| - 1]) + bills[|bills| - 1].tokens
  }

  ghost function SpendOf(bills: seq<Bill>, id: NodeId): nat {
    if bills == [] then 0
    else
      SpendOf(bills[..|bills| - 1], id) +
      if bills[|bills| - 1].dispatch.nodeId == id then bills[|bills| - 1].tokens else 0
  }

  /** A worker sequence's attempts, billed to its dispatch. */
  ghost function BillsFor(d: Dispatch, paid: seq<nat>): seq<Bill> {
    seq(|paid|, k requires 0 <= k < |paid| => Bill(d, paid[k]))
  }

  lemma OneBillMore(d: Dispatch, paid: seq<nat>)
    requires paid != []
    ensures BillsFor(d, paid) == BillsFor(d, paid[..|paid| - 1]) + [Bill(d, paid[|paid| - 1])]
  {
  }

  lemma OneMore(bills: seq<Bill>, b: Bill, id: NodeId)
    ensures Total(bills + [b]) == Total(bills) + b.tokens
    ensures SpendOf(bills + [b], id) == SpendOf(bills, id) + if b.dispatch.nodeId == id then b.tokens else 0
  {
    assert (bills + [b])[..|bills|] == bills;
  }

  lemma {:induction false} AppendBills(bills: seq<Bill>, d: Dispatch, paid: seq<nat>, id: NodeId)
    ensures Total(bills + BillsFor(d, paid)) == Total(bills) + Sum(paid)
    ensures SpendOf(bills + BillsFor(d, paid), id) == SpendOf(bills, id) + if d.nodeId == id then Sum(paid) else 0
    decreases |paid|
  {
    hide Total, SpendOf;
    if paid == [] {
      assert bills + BillsFor(d, paid) == bills;
    } else {
      var front, b := paid[..|paid| - 1], Bill(d, paid[|paid| - 1]);
      AppendBills(bills, d, front, id);
      OneBillMore(d, paid);
      OneMore(bills + BillsFor(d, front), b, id);
      assert bills + BillsFor(d, paid) == (bills + BillsFor(d, front)) + [b];
    }
  }

  lemma {:induction false} TotalAppend(bills: seq<Bill>, more: seq<Bill>)
    ensures Total(bills + more) == Total(bills) + Total(more)
    decreases |more|
  {
    if more == [] {
      assert bills + more == bills;
    } else {
      TotalAppend(bills, more[..|more| - 1]);
      assert (bills + more)[..|bills + more| - 1] == bills + more[..|more| - 1];
    }
  }

  function Spent(nodeSpend: map<NodeId, nat>, id: NodeId): nat {
    if id in nodeSpend then nodeSpend[id] else 0
  }

  /** The most attempts that this log of dispatches allows. */
  ghost function Ceiling(log: seq<Dispatch>): nat {
    if log == [] then 0 else Ceiling(log[..|log| - 1]) + MaxAttempts(log[|log| - 1])
  }

  /** The totals of a run are those of its bills, and every bill is for a dispatch of its log. */
  ghost predicate Accounts(st: RunState, log: seq<Dispatch>, bills: seq<Bill>) {
    && st.agentsSpawned == |bills| <= Ceiling(log) && st.spentTokens == Total(bills)
    && forall b :: b in bills ==> b.dispatch in log
  }

  ghost predicate NodeTotals(nodeSpend: map<NodeId, nat>, bills: seq<Bill>) {
    forall id :: Spent(nodeSpend, id) == SpendOf(bills, id)
  }

  ghost function SumOfNodes(nodes: seq<Node>, bills: seq<Bill>): nat {
    if nodes == [] then 0 else SumOfNodes(nodes[..|nodes| - 1], bills) + SpendOf(bills, nodes[|nodes| - 1].id)
  }

  /** What a map of per-node totals adds up to over a plan. */
  ghost function SpendOver(nodes: seq<Node>, nodeSpend: map<NodeId, nat>): nat {
    if nodes == [] then 0
    else SpendOver(nodes[..|nodes| - 1], nodeSpend) + Spent(nodeSpend, nodes[|nodes| - 1].id)
  }

  lemma {:induction false} SpendIsSum(nodes: seq<Node>, nodeSpend: map<NodeId, nat>, bills: seq<Bill>)
    requires NodeTotals(nodeSpend, bills)
    ensures SpendOver(nodes, nodeSpend) == SumOfNodes(nodes, bills)
    decreases |nodes|
  {
    if nodes != [] {
      SpendIsSum(nodes[..|nodes| - 1], nodeSpend, bills);
    }
  }

  lemma {:induction false} SumOfNodesSplit(nodes: seq<Node>, bills: seq<Bill>)
    requires UniqueIds(nodes) && bills != []
    ensures var last := bills[|bills| - 1];
            SumOfNodes(nodes, bills) ==
            SumOfNodes(nodes, bills[..|bills| - 1]) +
            if FindNode(nodes, last.dispatch.nodeId).Some? then last.tokens else 0
    decreases |nodes|
  {
    if nodes != [] {
      var front, node := nodes[..|nodes| - 1], nodes[|nodes| - 1];
      SumOfNodesSplit(front, bills);
      assert nodes == front + [node];
      var id := bills[|bills| - 1].dispatch.nodeId;
      if FindNode(front, id).Some? {
        var m := FindNode(front, id).value;
        assert m in nodes && m.id == id;
        var k :| 0 <= k < |front| && front[k] == m;
        assert nodes[k].id != node.id;
      }
    }
  }

  /** Conservation: the spend of the nodes adds up to the spend of the run. */
  lemma {:induction false} NodeSpendAddsUp(nodes: seq<Node>, bills: seq<Bill>)
    requires UniqueIds(nodes) && forall b :: b in bills ==> FindNode(nodes, b.dispatch.nodeId).Some?
    ensures SumOfNodes(nodes, bills) == Total(bills)
    decreases |bills|
  {
    if bills == [] {
      NothingSpent(nodes);
    } else {
      NodeSpendAddsUp(nodes, bills[..|bills| - 1]);
      SumOfNodesSplit(nodes, bills);
    }
  }

  lemma {:induction false} NothingSpent(nodes: seq<Node>)
    ensures SumOfNodes(nodes, []) == 0
    decreases |nodes|
  {
    if nodes != [] {
      NothingSpent(nodes[..|nodes| - 1]);
    }
  }

  // ---------- the bills of a batch ----------

  /** The bills of the first `k` dispatches of a batch. */
  ghost function BatchBills(batch: seq<Dispatch>, paid: seq<seq<nat>>, k: nat): seq<Bill>
    requires k <= |batch| == |paid|
  {
    if k == 0 then [] else BatchBills(batch, paid, k - 1) + BillsFor(batch[k - 1], paid[k - 1])
  }

  /** As many as there were attempts. */
  lemma {:induction false} BatchBillsCount(batch: seq<Dispatch>, settled: seq<Settled>, paid: seq<seq<nat>>, k: nat)
    requires Billed(batch, settled, paid) && k <= |batch|
    ensures |BatchBills(batch, paid, k)| == Attempts(settled[..k]) <= Ceiling(batch[..k])
    decreases k
  {
    if k > 0 {
      BatchBillsCount(batch, settled, paid, k - 1);
      assert settled[..k][..k - 1] == settled[..k - 1] && batch[..k][..k - 1] == batch[..k - 1];
    }
  }

  /** They total what the workers spent. */
  lemma {:induction false} BatchBillsTotal(batch: seq<Dispatch>, settled: seq<Settled>, paid: seq<seq<nat>>,
                                           bills: seq<Bill>, k: nat)
    requires Billed(batch, settled, paid) && k <= |batch|
    ensures Total(bills + BatchBills(batch, paid, k)) == Total(bills) + Tokens(settled[..k])
    decreases k
  {
    hide Total;
    if k == 0 {
      assert bills + BatchBills(batch, paid, 0) == bills;
    } else {
      BatchBillsTotal(batch, settled, paid, bills, k - 1);
      NextBills(batch, paid, bills, k);
      assert settled[..k][..k - 1] == settled[..k - 1];
      AppendBills(bills + BatchBills(batch, paid, k - 1), batch[k - 1], paid[k - 1], "");
    }
  }

  lemma NextBills(batch: seq<Dispatch>, paid: seq<seq<nat>>, bills: seq<Bill>, k: nat)
    requires 0 < k <= |batch| == |paid|
    ensures bills + BatchBills(batch, paid, k) ==
            (bills + BatchBills(batch, paid, k - 1)) + BillsFor(batch[k - 1], paid[k - 1])
  {
  }

  lemma {:induction false} BatchBillsNamed(batch: seq<Dispatch>, paid: seq<seq<nat>>, k: nat)
    requires k <= |batch| == |paid|
    ensures forall b :: b in BatchBills(batch, paid, k) ==> b.dispatch in batch
    decreases k
  {
    if k > 0 {
      BatchBillsNamed(batch, paid, k - 1);
    }
  }

  lemma {:induction false} CeilingAppend(log: seq<Dispatch>, batch: seq<Dispatch>)
    ensures Ceiling(log + batch) == Ceiling(log) + Ceiling(batch)
    decreases |batch|
  {
    if batch == [] {
      assert log + batch == log;
    } else {
      CeilingAppend(log, batch[..|batch| - 1]);
      assert (log + batch)[..|log + batch| - 1] == log + batch[..|batch| - 1];
    }
  }

  // ---------- the budget ----------

  /** Below the budget before `mark`; from there on only attempts of the last dispatch. */
  ghost predicate LastDispatchFrom(budget: nat, log: seq<Dispatch>, bills: seq<Bill>, mark: nat)
    requires log != []
  {
    && mark <= |bills| <= mark + MaxAttempts(log[|log| - 1]) && Total(bills[..mark]) < budget
    && forall k :: mark <= k < |bills| ==> bills[k].dispatch == log[|log| - 1]
  }

  /** What can overshoot a budget is one dispatch's whole retry sequence, the last one's. */
  ghost predicate WithinOvershoot(caps: ResolvedCaps, log: seq<Dispatch>, bills: seq<Bill>) {
    caps.budgetTokens.Some? ==>
      if log == [] then bills == [] else exists mark: nat :: LastDispatchFrom(caps.budgetTokens.value, log, bills, mark)
  }

  /** The promise of the scheduler's comment: the last worker was started below the budget. */
  ghost predicate OneWorkerOvershoot(caps: ResolvedCaps, bills: seq<Bill>) {
    caps.budgetTokens.Some? && bills != [] ==> Total(bills[..|bills| - 1]) < caps.budgetTokens.value
  }

  /** The final spend stays below the budget plus the spend of the last dispatch's attempts. */
  lemma FinalSpend(caps: ResolvedCaps, log: seq<Dispatch>, bills: seq<Bill>) returns (mark: nat)
    requires WithinOvershoot(caps, log, bills) && caps.budgetTokens.Some? && log != []
    ensures mark <= |bills| <= mark + MaxAttempts(log[|log| - 1])
    ensures forall b :: b in bills[mark..] ==> b.dispatch == log[|log| - 1]
    ensures Total(bills) < caps.budgetTokens.value + Total(bills[mark..])
  {
    mark :| LastDispatchFrom(caps.budgetTokens.value, log, bills, mark);
    TotalAppend(bills[..mark], bills[mark..]);
    assert bills == bills[..mark] + bills[mark..];
  }

  /** Where the last dispatch allows no retry, the overshoot is one worker's. */
  lemma NoRetryOneWorker(caps: ResolvedCaps, log: seq<Dispatch>, bills: seq<Bill>)
    requires WithinOvershoot(caps, log, bills) && (log != [] ==> MaxAttempts(log[|log| - 1]) == 1)
    ensures OneWorkerOvershoot(caps, bills)
  {
    if caps.budgetTokens.Some? && bills != [] {
      var mark: nat :| LastDispatchFrom(caps.budgetTokens.value, log, bills, mark);
      TotalAppend(bills[..|bills| - 1], bills[|bills| - 1..]);
      assert mark == |bills| || mark == |bills| - 1;
      if mark == |bills| {
        assert bills[..mark] == bills[..|bills| - 1] + bills[|bills| - 1..];
      }
    }
  }

  // ---------- failures ----------

  /** Every failed node has its entry among the reported failures. */
  ghost predicate AllReported(st: RunState, failures: seq<Failure>) {
    forall id :: Is(st, NodeKey(id), Failed) ==> Mentions(failures, id)
  }

  ghost predicate Mentions(failures: seq<Failure>, id: NodeId) {
    exists k :: 0 <= k < |failures| && failures[k].node == id
  }

  lemma MentionsMore(failures: seq<Failure>, f: Failure)
    ensures Mentions(failures + [f], f.node)
    ensures forall id :: Mentions(failures, id) ==> Mentions(failures + [f], id)
  {
    var more := failures + [f];
    assert more[|failures|] == f;
    forall id | Mentions(failures, id) ensures Mentions(more, id) {
      var k :| 0 <= k < |failures| && failures[k].node == id;
      assert more[k] == failures[k];
    }
  }

  /** Settling one dispatch fails at most the node it reports. */
  lemma SettleReports(nodes: seq<Node>, st: RunState, one: Settled, failures: seq<Failure>)
    requires AllReported(st, failures)
    ensures one.result.ok ==> AllReported(SettleOne(nodes, st, one), failures)
    ensures !one.result.ok ==>
              AllReported(SettleOne(nodes, st, one), failures + [Failure(one.dispatch.nodeId, one.result.error)])
  {
    MentionsMore(failures, Failure(one.dispatch.nodeId, one.result.error));
    hide Mentions;
  }

  lemma {:induction false} PublishReports(h: Host, st: RunState, immediate: seq<(NodeId, Immediate)>,
                                          failures: seq<Failure>)
    requires AllReported(st, failures)
    ensures AllReported(ApplyImmediate(h, st, immediate), failures)
    decreases |immediate|
  {
    hide Mentions;
    if immediate != [] {
      PublishReports(h, st, immediate[..|immediate| - 1], failures);
    }
  }

  lemma {:induction false} SkipReports(st: RunState, ids: seq<NodeId>, failures: seq<Failure>)
    requires AllReported(st, failures)
    ensures AllReported(MarkSkipped(st, ids), failures)
    decreases |ids|
  {
    hide Mentions;
    if ids != [] {
      SkipReports(st, ids[..|ids| - 1], failures);
    }
  }

  /** The failures a settled batch adds to the report. */
  function FailuresOf(settled: seq<Settled>): seq<Failure> {
    if settled == [] then []
    else
      var last := settled[|settled| - 1];
      FailuresOf(settled[..|settled| - 1]) +
      if last.result.ok then [] else [Failure(last.dispatch.nodeId, last.result.error)]
  }

  lemma {:induction false} SettleAllReports(nodes: seq<Node>, st: RunState, settled: seq<Settled>,
                                            failures: seq<Failure>)
    requires AllReported(st, failures)
    ensures AllReported(SettleAll(nodes, st, settled), failures + FailuresOf(settled))
    decreases |settled|
  {
    hide AllReported;
    if settled == [] {
      assert failures + FailuresOf(settled) == failures;
    } else {
      var front, last := settled[..|settled| - 1], settled[|settled| - 1];
      SettleAllReports(nodes, st, front, failures);
      SettleReports(nodes, SettleAll(nodes, st, front), last, failures + FailuresOf(front));
      if last.result.ok {
        assert failures + FailuresOf(settled) == failures + FailuresOf(front);
      } else {
        var failure := Failure(last.dispatch.nodeId, last.result.error);
        assert failures + FailuresOf(settled) == (failures + FailuresOf(front)) + [failure];
      }
    }
  }

  lemma SameReports(st: RunState, st': RunState, failures: seq<Failure>)
    requires AllReported(st, failures) && st'.status == st.status
    ensures AllReported(st', failures)
  {
  }

  // ---------- identical failures ----------

  ghost function CountSignature(out: Outside, failures: seq<Failure>, s: string): nat {
    if failures == [] then 0
    else CountSignature(out, failures[..|failures| - 1], s) +
         if out.signature(failures[|failures| - 1].error) == s then 1 else 0
  }

  ghost predicate SignatureCounts(out: Outside, failures: seq<Failure>, counts: map<string, nat>) {
    forall s :: (if s in counts then counts[s] else 0) == CountSignature(out, failures, s)
  }

  ghost predicate Collapsed(out: Outside, failures: seq<Failure>) {
    exists s :: CountSignature(out, failures, s) >= 3
  }

  lemma CountOne(out: Outside, failures: seq<Failure>, f: Failure, s: string)
    ensures CountSignature(out, failures + [f], s) ==
            CountSignature(out, failures, s) + if out.signature(f.error) == s then 1 else 0
  {
    var more := failures + [f];
    assert more[..|more| - 1] == failures;
  }

  lemma CountStep(out: Outside, failures: seq<Failure>, f: Failure)
    ensures forall s :: CountSignature(out, failures + [f], s) ==
                        CountSignature(out, failures, s) + if out.signature(f.error) == s then 1 else 0
    ensures Collapsed(out, failures + [f]) <==>
            Collapsed(out, failures) ||
            CountSignature(out, failures, out.signature(f.error)) + 1 >= 3
  {
    forall s
      ensures CountSignature(out, failures + [f], s) ==
              CountSignature(out, failures, s) + if out.signature(f.error) == s then 1 else 0
    {
      CountOne(out, failures, f, s);
    }
    hide CountSignature;
    var own := out.signature(f.error);
    assert CountSignature(out, failures + [f], own) == CountSignature(out, failures, own) + 1;
    if Collapsed(out, failures) {
      var s :| CountSignature(out, failures, s) >= 3;
      assert CountSignature(out, failures + [f], s) >= 3;
    }
    if Collapsed(out, failures + [f]) {
      var s :| CountSignature(out, failures + [f], s) >= 3;
      assert s == own || CountSignature(out, failures, s) >= 3;
    }
  }
}
