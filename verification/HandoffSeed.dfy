/**
 Assembling a handoff seed within its budget (extensions/agenda/handoff.ts):
 whole sections are dropped worst first, and the seed names each of them.
 */
module HandoffSeed {
  datatype Result<+T> = Ok(value: T) | OverBudget

  /** `lines` starts with the section's heading. */
  datatype Section = Section(lines: seq<string>, dropRank: int, recovery: string)

  /** What a seed is built from; `quote` renders a heading as a quoted string. */
  datatype Draft = Draft(head: seq<string>, sections: seq<Section>, footer: seq<string>, quote: string -> string)

  const MAX_SEED_CHARS: nat := 12_000

  /** The source builds head, footer and every section with at least one line. */
  predicate WellFormed(draft: Draft) {
    && draft.head != [] && draft.footer != []
    && forall i :: 0 <= i < |draft.sections| ==> draft.sections[i].lines != []
  }

  // ---------- rendering ----------

  function Join(lines: seq<string>): string {
    if lines == [] then ""
    else if |lines| == 1 then lines[0]
    else lines[0] + "\n" + Join(lines[1..])
  }

  function Decimal(n: nat): string {
    if n < 10 then ["0123456789"[n]] else Decimal(n / 10) + ["0123456789"[n % 10]]
  }

  function Title(heading: string): string {
    if |heading| >= 3 && heading[..3] == "## " then heading[3..] else heading
  }

  function DropLine(draft: Draft, section: Section): string
    requires section.lines != []
  {
    "- " + draft.quote(Title(section.lines[0])) + ": " + section.recovery
  }

  /** Lines of the first `n` sections that are kept. */
  function Body(draft: Draft, dropped: set<nat>, n: nat): seq<string>
    requires n <= |draft.sections|
  {
    if n == 0 then []
    else Body(draft, dropped, n - 1) + if n - 1 in dropped then [] else [""] + draft.sections[n - 1].lines
  }

  /** One line for each of the first `n` sections that is dropped. */
  function DropLines(draft: Draft, dropped: set<nat>, n: nat): seq<string>
    requires WellFormed(draft) && n <= |draft.sections|
  {
    if n == 0 then []
    else DropLines(draft, dropped, n - 1) +
         if n - 1 in dropped then [DropLine(draft, draft.sections[n - 1])] else []
  }

  function Notice(draft: Draft, dropped: set<nat>): seq<string>
    requires WellFormed(draft)
  {
    if dropped == {} then []
    else
      ["", "## Omitted blocks (" + Decimal(|dropped|) + " further block(s) did not fit this seed's budget)"]
      + DropLines(draft, dropped, |draft.sections|)
  }

  function SeedLines(draft: Draft, dropped: set<nat>): seq<string>
    requires WellFormed(draft)
  {
    draft.head + Body(draft, dropped, |draft.sections|) + Notice(draft, dropped) + [""] + draft.footer
  }

  function Render(draft: Draft, dropped: set<nat>): string
    requires WellFormed(draft)
  {
    Join(SeedLines(draft, dropped))
  }

  // ---------- the order of dropping ----------

  /** Section i goes before section j. */
  predicate Worse(sections: seq<Section>, i: nat, j: nat)
    requires i < |sections| && j < |sections|
  {
    sections[i].dropRank > sections[j].dropRank || (sections[i].dropRank == sections[j].dropRank && i > j)
  }

  function Insert(sections: seq<Section>, order: seq<nat>, i: nat): seq<nat>
    requires i < |sections| && forall k :: 0 <= k < |order| ==> order[k] < |sections|
  {
    if order == [] || Worse(sections, i, order[0]) then [i] + order
    else [order[0]] + Insert(sections, order[1..], i)
  }

  ghost predicate Sorted(sections: seq<Section>, order: seq<nat>) {
    && (forall k :: 0 <= k < |order| ==> order[k] < |sections|)
    && forall a, b :: 0 <= a < b < |order| ==> Worse(sections, order[a], order[b])
  }

  ghost function Elements(order: seq<nat>): set<nat> {
    set i | i in order
  }

  lemma {:induction false} InsertSorts(sections: seq<Section>, order: seq<nat>, i: nat)
    requires i < |sections| && Sorted(sections, order) && i !in order
    ensures Sorted(sections, Insert(sections, order, i))
    ensures Elements(Insert(sections, order, i)) == Elements(order) + {i}
    ensures |Insert(sections, order, i)| == |order| + 1
  {
    if order == [] || Worse(sections, i, order[0]) {
    } else {
      var rest := Insert(sections, order[1..], i);
      InsertSorts(sections, order[1..], i);
      forall b | 0 <= b < |rest| ensures rest[b] < |sections| && Worse(sections, order[0], rest[b]) {
        assert rest[b] in Elements(rest);
      }
      assert Elements(order) == Elements(order[1..]) + {order[0]};
      assert Elements([order[0]] + rest) == Elements(rest) + {order[0]};
    }
  }

  /** Sections worst first: what sorting the positions yields. */
  function Order(sections: seq<Section>, n: nat): (order: seq<nat>)
    requires n <= |sections|
    ensures |order| == n && Sorted(sections, order) && forall i: nat :: i in order <==> i < n
  {
    if n == 0 then []
    else
      var order := Order(sections, n - 1);
      InsertSorts(sections, order, n - 1);
      var longer := Insert(sections, order, n - 1);
      assert forall i: nat :: i in longer <==> i in Elements(longer);
      longer
  }

  /** A set that can be dropped: no kept section is worse than a dropped one. */
  ghost predicate WorstFirst(sections: seq<Section>, dropped: set<nat>) {
    && (forall i :: i in dropped ==> i < |sections|)
    && forall i: nat, j: nat :: i in dropped && j < |sections| && j !in dropped ==>
         sections[i].dropRank > sections[j].dropRank || (sections[i].dropRank == sections[j].dropRank && i > j)
  }

  lemma WorseIsAsymmetric(sections: seq<Section>, i: nat, j: nat)
    requires i < |sections| && j < |sections| && Worse(sections, i, j)
    ensures !Worse(sections, j, i)
  {
  }

  lemma NothingIn()
    ensures Elements([]) == {}
  {
  }

  lemma {:induction false} PrefixSize(sections: seq<Section>, order: seq<nat>, k: nat)
    requires Sorted(sections, order) && k <= |order|
    ensures |Elements(order[..k])| == k
  {
    hide Sorted, Elements;
    if k == 0 {
      NothingIn();
    } else {
      PrefixSize(sections, order, k - 1);
      NextIsNew(sections, order, k - 1);
    }
  }

  lemma NextIsNew(sections: seq<Section>, order: seq<nat>, k: nat)
    requires Sorted(sections, order) && k < |order|
    ensures order[k] !in Elements(order[..k])
    ensures Elements(order[..k + 1]) == Elements(order[..k]) + {order[k]}
  {
    forall j | 0 <= j < k ensures order[j] != order[k] {
      assert Worse(sections, order[j], order[k]);
    }
    hide Sorted, Worse;
    assert order[..k + 1] == order[..k] + [order[k]];
  }

  lemma PrefixIsWorstFirst(sections: seq<Section>, order: seq<nat>, k: nat)
    requires order == Order(sections, |sections|) && k <= |order|
    ensures WorstFirst(sections, Elements(order[..k])) && |Elements(order[..k])| == k
  {
    hide Order;
    var dropped := Elements(order[..k]);
    assert forall c :: 0 <= c < k ==> order[..k][c] in dropped;
    forall i: nat, j: nat | i in dropped && j < |sections| && j !in dropped ensures Worse(sections, i, j) {
      var a :| 0 <= a < k && order[..k][a] == i;
      assert j in order;
      var b :| 0 <= b < |order| && order[b] == j;
      assert b >= k;
    }
    PrefixSize(sections, order, k);
  }

  /** A set that can be dropped is settled by its size: it is a prefix of the order. */
  lemma WorstFirstIsPrefix(sections: seq<Section>, order: seq<nat>, dropped: set<nat>)
    requires order == Order(sections, |sections|) && WorstFirst(sections, dropped)
    ensures |dropped| <= |order| && dropped == Elements(order[..|dropped|])
  {
    hide Order, Worse, Sorted;
    OrderSize(sections, order, dropped);
    PrefixIsWorstFirst(sections, order, |dropped|);
    TwoWorstFirstSets(sections, dropped, Elements(order[..|dropped|]));
  }

  lemma OrderSize(sections: seq<Section>, order: seq<nat>, dropped: set<nat>)
    requires order == Order(sections, |sections|) && WorstFirst(sections, dropped)
    ensures |dropped| <= |order|
  {
    hide Order, Worse;
    var all := Elements(order);
    assert all == dropped + (all - dropped);
    PrefixSize(sections, order, |order|);
    assert order[..|order|] == order;
  }

  lemma TwoWorstFirstSets(sections: seq<Section>, a: set<nat>, b: set<nat>)
    requires WorstFirst(sections, a) && WorstFirst(sections, b) && |a| == |b|
    ensures a == b
  {
    hide Worse;
    if i, j :| i in a - b && j in b - a {
      WorseIsAsymmetric(sections, i, j);
    }
    assert a - b == {} || b - a == {};
    assert a == (a * b) + (a - b) && b == (a * b) + (b - a);
    assert |a| == |a * b| + |a - b| && |b| == |a * b| + |b - a|;
  }

  // ---------- assembling ----------

  ghost predicate Fits(draft: Draft, dropped: set<nat>)
    requires WellFormed(draft)
  {
    |Render(draft, dropped)| <= 12_000
  }

  /** The smallest set that can be dropped and lets the seed fit. */
  ghost predicate SmallestDrop(draft: Draft, dropped: set<nat>)
    requires WellFormed(draft)
  {
    && WorstFirst(draft.sections, dropped) && Fits(draft, dropped)
    && forall other :: WorstFirst(draft.sections, other) && Fits(draft, other) && other != dropped ==>
         |dropped| < |other|
  }

  /** No shorter prefix of the order fits. */
  ghost predicate NoneBefore(draft: Draft, order: seq<nat>, k: nat)
    requires WellFormed(draft) && k <= |order|
  {
    forall j :: 0 <= j < k ==> !Fits(draft, Elements(order[..j]))
  }

  lemma FirstFitIsSmallest(draft: Draft, order: seq<nat>, k: nat)
    requires WellFormed(draft) && order == Order(draft.sections, |draft.sections|) && k <= |order|
    requires NoneBefore(draft, order, k) && Fits(draft, Elements(order[..k]))
    ensures SmallestDrop(draft, Elements(order[..k]))
  {
    hide Order, WorstFirst, Fits;
    PrefixIsWorstFirst(draft.sections, order, k);
    forall other | WorstFirst(draft.sections, other) && Fits(draft, other) && other != Elements(order[..k])
      ensures k < |other|
    {
      WorstFirstIsPrefix(draft.sections, order, other);
    }
  }

  lemma NothingFits(draft: Draft, order: seq<nat>)
    requires WellFormed(draft) && order == Order(draft.sections, |draft.sections|)
    requires NoneBefore(draft, order, |order|) && !Fits(draft, Elements(order))
    ensures forall dropped :: WorstFirst(draft.sections, dropped) ==> !Fits(draft, dropped)
  {
    hide Order, WorstFirst, Fits;
    assert order[..|order|] == order;
    forall other | WorstFirst(draft.sections, other) ensures !Fits(draft, other) {
      WorstFirstIsPrefix(draft.sections, order, other);
    }
  }

  /** Drop whole sections, worst first, until the seed fits; fail if even dropping them all is not enough. */
  method Assemble(draft: Draft) returns (r: Result<string>)
    requires WellFormed(draft)
    ensures r.Ok? ==> |r.value| <= 12_000
    ensures r.Ok? ==> exists dropped :: SmallestDrop(draft, dropped) && r.value == Render(draft, dropped)
    ensures r.OverBudget? ==> forall dropped :: WorstFirst(draft.sections, dropped) ==> !Fits(draft, dropped)
  {
    hide Render, Order, WorstFirst, SmallestDrop;
    var order := Order(draft.sections, |draft.sections|);
    var dropped: set<nat> := {};
    var out := Render(draft, dropped);
    var k := 0;
    assert Elements(order[..0]) == {};
    while k < |order| && |out| > MAX_SEED_CHARS
      invariant 0 <= k <= |order|
      invariant dropped == Elements(order[..k]) && out == Render(draft, dropped)
      invariant NoneBefore(draft, order, k)
    {
      assert order[..k + 1] == order[..k] + [order[k]];
      dropped := dropped + {order[k]};
      k := k + 1;
      out := Render(draft, dropped);
    }
    if |out| > MAX_SEED_CHARS {
      assert order[..|order|] == order;
      NothingFits(draft, order);
      return OverBudget;
    }
    FirstFitIsSmallest(draft, order, k);
    return Ok(out);
  }

  // ---------- what a seed contains ----------

  /** `block` stands in `text` as whole lines. */
  ghost predicate Stands(text: string, block: string) {
    exists before, after :: text == before + block + after && EndsLine(before) && StartsLine(after)
  }

  predicate EndsLine(before: string) {
    before == "" || before[|before| - 1] == '\n'
  }

  predicate StartsLine(after: string) {
    after == "" || after[0] == '\n'
  }

  lemma {:induction false} JoinConcat(a: seq<string>, b: seq<string>)
    requires a != [] && b != []
    ensures Join(a + b) == Join(a) + "\n" + Join(b)
  {
    if |a| == 1 {
      assert (a + b)[1..] == b;
    } else {
      JoinConcat(a[1..], b);
      assert (a + b)[1..] == a[1..] + b;
      assert (a + b)[0] == a[0];
    }
  }

  /** Consecutive lines of a text stand in it whole. */
  lemma BlockStands(a: seq<string>, block: seq<string>, c: seq<string>)
    requires block != []
    ensures Stands(Join(a + block + c), Join(block))
    ensures a == [] ==> exists after :: Join(a + block + c) == Join(block) + after && StartsLine(after)
    ensures c == [] ==> exists before :: Join(a + block + c) == before + Join(block) && EndsLine(before)
  {
    var before := if a == [] then "" else Join(a) + "\n";
    var after := if c == [] then "" else "\n" + Join(c);
    assert Join(a + block) == before + Join(block) by {
      if a == [] { assert a + block == block; } else { JoinConcat(a, block); }
    }
    assert Join(a + block + c) == before + Join(block) + after by {
      if c == [] { assert a + block + c == a + block; } else { JoinConcat(a + block, c); }
    }
    assert StartsLine(after) && EndsLine(before);
    assert a == [] ==> Join(a + block + c) == Join(block) + after;
    assert c == [] ==> Join(a + block + c) == before + Join(block);
  }

  lemma {:induction false} BodyHolds(draft: Draft, dropped: set<nat>, n: nat, i: nat)
    returns (a: seq<string>, c: seq<string>)
    requires i < n <= |draft.sections| && i !in dropped
    ensures Body(draft, dropped, n) == a + draft.sections[i].lines + c
  {
    if i == n - 1 {
      a, c := Body(draft, dropped, n - 1) + [""], [];
    } else {
      a, c := BodyHolds(draft, dropped, n - 1, i);
      c := c + if n - 1 in dropped then [] else [""] + draft.sections[n - 1].lines;
    }
  }

  lemma {:induction false} DropLinesHold(draft: Draft, dropped: set<nat>, n: nat, i: nat)
    returns (a: seq<string>, c: seq<string>)
    requires WellFormed(draft) && i < n <= |draft.sections| && i in dropped
    ensures DropLines(draft, dropped, n) == a + [DropLine(draft, draft.sections[i])] + c
  {
    if i == n - 1 {
      a, c := DropLines(draft, dropped, n - 1), [];
    } else {
      a, c := DropLinesHold(draft, dropped, n - 1, i);
      c := c + if n - 1 in dropped then [DropLine(draft, draft.sections[n - 1])] else [];
    }
  }

  /** A seed opens with its head and closes with its footer, whatever is dropped. */
  lemma HeadAndFooterSurvive(draft: Draft, dropped: set<nat>)
    requires WellFormed(draft)
    ensures exists after :: Render(draft, dropped) == Join(draft.head) + after && StartsLine(after)
    ensures exists before :: Render(draft, dropped) == before + Join(draft.footer) && EndsLine(before)
  {
    var body, notice := Body(draft, dropped, |draft.sections|), Notice(draft, dropped);
    assert SeedLines(draft, dropped) == [] + draft.head + (body + notice + [""] + draft.footer);
    BlockStands([], draft.head, body + notice + [""] + draft.footer);
    assert SeedLines(draft, dropped) == (draft.head + body + notice + [""]) + draft.footer + [];
    BlockStands(draft.head + body + notice + [""], draft.footer, []);
  }

  /** The line that names a dropped section: its heading as a quoted title, and its way of recovery. */
  ghost predicate NamesSection(draft: Draft, section: Section, line: string)
    requires section.lines != []
  {
    exists title ::
      && (section.lines[0] == "## " + title ||
          (section.lines[0] == title && forall rest :: title != "## " + rest))
      && line == "- " + draft.quote(title) + ": " + section.recovery
  }

  lemma DropLineNames(draft: Draft, section: Section)
    requires section.lines != []
    ensures NamesSection(draft, section, DropLine(draft, section))
  {
    var heading := section.lines[0];
    var title := Title(heading);
    if |heading| >= 3 && heading[..3] == "## " {
      assert heading == heading[..3] + title;
    } else {
      forall rest ensures title != "## " + rest {
        assert ("## " + rest)[..3] == "## ";
      }
    }
  }

  /** Each section either stands in the seed whole or is named there with its way of recovery. */
  lemma NoSectionVanishes(draft: Draft, dropped: set<nat>, i: nat)
    requires WellFormed(draft) && i < |draft.sections|
    ensures i !in dropped ==> Stands(Render(draft, dropped), Join(draft.sections[i].lines))
    ensures i in dropped ==>
              exists line :: NamesSection(draft, draft.sections[i], line) && Stands(Render(draft, dropped), line)
  {
    var n := |draft.sections|;
    var body, notice := Body(draft, dropped, n), Notice(draft, dropped);
    if i !in dropped {
      var a, c := BodyHolds(draft, dropped, n, i);
      var lines := draft.sections[i].lines;
      assert SeedLines(draft, dropped) == (draft.head + a) + lines + (c + notice + [""] + draft.footer);
      BlockStands(draft.head + a, lines, c + notice + [""] + draft.footer);
    } else {
      var a, c := DropLinesHold(draft, dropped, n, i);
      var line := DropLine(draft, draft.sections[i]);
      DropLineNames(draft, draft.sections[i]);
      var opening := notice[..2];
      assert notice == opening + DropLines(draft, dropped, n);
      assert SeedLines(draft, dropped) == (draft.head + body + opening + a) + [line] + (c + [""] + draft.footer);
      BlockStands(draft.head + body + opening + a, [line], c + [""] + draft.footer);
    }
  }

  /** The number that a string of decimal digits stands for. */
  function Number(digits: string): nat
    requires forall k :: 0 <= k < |digits| ==> '0' <= digits[k] <= '9'
  {
    if digits == "" then 0
    else 10 * Number(digits[..|digits| - 1]) + (digits[|digits| - 1] - '0') as nat
  }

  predicate Digits(text: string) {
    text != "" && forall k :: 0 <= k < |text| ==> '0' <= text[k] <= '9'
  }

  lemma {:induction false} DecimalIsNumber(n: nat)
    ensures Digits(Decimal(n)) && Number(Decimal(n)) == n
  {
    var last := ["0123456789"[n % 10]];
    assert '0' <= last[0] <= '9' && (last[0] - '0') as nat == n % 10;
    if n < 10 {
      assert Decimal(n)[..0] == "";
    } else {
      DecimalIsNumber(n / 10);
      assert Decimal(n)[..|Decimal(n)| - 1] == Decimal(n / 10);
    }
  }

  /** A seed that drops sections says how many; one that drops none has all of them and nothing else. */
  lemma SeedCountsDropped(draft: Draft, dropped: set<nat>)
    requires WellFormed(draft)
    ensures dropped != {} ==>
              exists digits :: Digits(digits) && Number(digits) == |dropped| &&
                Stands(Render(draft, dropped),
                       "## Omitted blocks (" + digits + " further block(s) did not fit this seed's budget)")
    ensures dropped == {} ==>
              Render(draft, dropped) == Join(draft.head + AllLines(draft.sections) + [""] + draft.footer)
  {
    var n := |draft.sections|;
    var body := Body(draft, dropped, n);
    if dropped != {} {
      DecimalIsNumber(|dropped|);
      hide Decimal;
      var digits := Decimal(|dropped|);
      var line := "## Omitted blocks (" + digits + " further block(s) did not fit this seed's budget)";
      var lines := DropLines(draft, dropped, n);
      assert Notice(draft, dropped) == [""] + [line] + lines;
      assert SeedLines(draft, dropped) == (draft.head + body + [""]) + [line] + (lines + [""] + draft.footer);
      BlockStands(draft.head + body + [""], [line], lines + [""] + draft.footer);
    } else {
      WholeBody(draft, n);
      assert draft.sections[..n] == draft.sections;
      assert SeedLines(draft, dropped) == draft.head + AllLines(draft.sections) + [""] + draft.footer;
    }
  }

  /** The lines of all sections in order, each after an empty line. */
  ghost function AllLines(sections: seq<Section>): seq<string> {
    if sections == [] then [] else [""] + sections[0].lines + AllLines(sections[1..])
  }

  lemma {:induction false} AllLinesAppend(sections: seq<Section>, last: Section)
    ensures AllLines(sections + [last]) == AllLines(sections) + [""] + last.lines
  {
    if sections == [] {
      assert (sections + [last])[1..] == [];
    } else {
      AllLinesAppend(sections[1..], last);
      assert (sections + [last])[1..] == sections[1..] + [last];
    }
  }

  lemma {:induction false} WholeBody(draft: Draft, n: nat)
    requires n <= |draft.sections|
    ensures Body(draft, {}, n) == AllLines(draft.sections[..n])
  {
    if n > 0 {
      WholeBody(draft, n - 1);
      AllLinesAppend(draft.sections[..n - 1], draft.sections[n - 1]);
      assert draft.sections[..n] == draft.sections[..n - 1] + [draft.sections[n - 1]];
    }
  }
}
