/** What a settlement charges: which items, for how much, and what an adjustment or a dispute changes. */
module ExitCharges {
  import opened Outcomes
  import opened ExitStates
  import opened ExitCase
  import opened ExitInvariants

  /** The item is to be charged in this round, for this amount: the approved cost if there is one, the
      agency's estimate otherwise. */
  predicate ChargedFor(item: Item, round: nat, amount: nat) {
    && item.round == round && item.liable && amount > 0
    && (item.approved.Some? ==> amount == item.approved.value)
    && (item.approved.None? ==> amount == item.estimated)
  }

  predicate Increasing(at: seq<nat>) {
    forall i, j :: 0 <= i < j < |at| ==> at[i] < at[j]
  }

  /** `lines` charge the items at the positions `at`, in item order, and no others. */
  ghost predicate Charges(lines: seq<Line>, items: seq<Item>, round: nat, at: seq<nat>) {
    && |lines| == |at| && Increasing(at)
    && (forall k :: 0 <= k < |at| ==>
          && at[k] < |items| && lines[k].item == Some(items[at[k]].id)
          && ChargedFor(items[at[k]], round, lines[k].amount))
    && (forall i: nat :: i < |items| && i !in at ==> forall amount :: !ChargedFor(items[i], round, amount))
  }

  lemma ChargesGrow(front: seq<Line>, items: seq<Item>, item: Item, round: nat, at: seq<nat>, amount: nat)
    requires Charges(front, items, round, at) && ChargedFor(item, round, amount)
    ensures Charges(front + [Line(Some(item.id), amount)], items + [item], round, at + [|items|])
  {
    var all, longer := items + [item], at + [|items|];
    forall i: nat | i < |all| && i !in longer
      ensures forall other :: !ChargedFor(all[i], round, other)
    {
      assert |items| in longer && forall a :: a in at ==> a in longer;
      assert all[i] == items[i];
    }
  }

  lemma ChargesSkip(front: seq<Line>, items: seq<Item>, item: Item, round: nat, at: seq<nat>)
    requires Charges(front, items, round, at) && forall amount :: !ChargedFor(item, round, amount)
    ensures Charges(front, items + [item], round, at)
  {
  }

  lemma {:induction false} LinesCharge(items: seq<Item>, round: nat) returns (at: seq<nat>)
    ensures Charges(LinesOf(items, round), items, round, at)
  {
    if items == [] {
      at := [];
    } else {
      var front, item := items[..|items| - 1], items[|items| - 1];
      at := LinesCharge(front, round);
      assert items == front + [item];
      if item.round == round && item.Chargeable() > 0 {
        ChargesGrow(LinesOf(front, round), front, item, round, at, item.Chargeable());
        at := at + [|front|];
      } else {
        ChargesSkip(LinesOf(front, round), front, item, round, at);
      }
    }
  }

  // ---------------------------------------------------------------- sums

  /** Adding lines up: nothing is nothing, a line counts its amount, and parts count together. */
  lemma {:induction false} SumLinesConcat(a: seq<Line>, b: seq<Line>)
    ensures SumLines([]) == 0 && SumLines(a + b) == SumLines(a) + SumLines(b)
    ensures |a| == 1 ==> SumLines(a) == a[0].amount
  {
    if b == [] {
      assert a + b == a;
    } else {
      assert (a + b)[..|a + b| - 1] == a + b[..|b| - 1];
      SumLinesConcat(a, b[..|b| - 1]);
    }
  }

  /** What one item adds to the deductions of a round. */
  function Due(item: Item, round: nat): nat {
    if item.round != round || !item.liable then 0
    else match item.approved case Some(cost) => cost case None => item.estimated
  }

  lemma DueIs(item: Item, round: nat)
    ensures SumLines(LinesOf([item], round)) == Due(item, round)
  {
    assert [item][..0] == [];
    assert LinesOf([item][..0], round) == [];
    SumLinesConcat([Line(Some(item.id), item.Chargeable())], []);
  }

  lemma {:induction false} LinesConcat(a: seq<Item>, b: seq<Item>, round: nat)
    ensures LinesOf(a + b, round) == LinesOf(a, round) + LinesOf(b, round)
  {
    if b == [] {
      assert a + b == a;
    } else {
      assert (a + b)[..|a + b| - 1] == a + b[..|b| - 1];
      LinesConcat(a, b[..|b| - 1], round);
    }
  }

  /** Replacing one item moves the total by the difference the item makes. */
  lemma ReplacedMoves(items: seq<Item>, i: nat, item: Item, round: nat)
    requires i < |items|
    ensures SumLines(LinesOf(items[i := item], round)) + Due(items[i], round)
            == SumLines(LinesOf(items, round)) + Due(item, round)
  {
    var before, after := items[..i], items[i + 1..];
    SplitSum(before, items[i], after, round);
    SplitSum(before, item, after, round);
    AroundItem(items, i, item);
  }

  lemma AroundItem(items: seq<Item>, i: nat, item: Item)
    requires i < |items|
    ensures items == items[..i] + [items[i]] + items[i + 1..]
    ensures items[i := item] == items[..i] + [item] + items[i + 1..]
  {
  }

  lemma SplitSum(before: seq<Item>, item: Item, after: seq<Item>, round: nat)
    ensures SumLines(LinesOf(before + [item] + after, round))
            == SumLines(LinesOf(before, round)) + Due(item, round) + SumLines(LinesOf(after, round))
  {
    LinesConcat(before + [item], after, round);
    LinesConcat(before, [item], round);
    SumLinesConcat(LinesOf(before + [item], round), LinesOf(after, round));
    SumLinesConcat(LinesOf(before, round), LinesOf([item], round));
    DueIs(item, round);
  }

  /** The deductions a settlement would collect now. */
  function Collected(c: Case): nat {
    SumLines(LinesFromInspection(c.inspection))
  }

  // ------------------------------------------------------------ theorems

  /** An accepted finalisation charges, in item order, exactly the liable items of the current round with a
      non-zero amount, for the approved cost or else the estimate, and then the manual lines; refund less
      liability is the deposit less everything charged. */
  lemma FinaliseCharges(c: Case, role: Role, now: int, manual: seq<nat>, expected: Option<nat>)
    returns (at: seq<nat>)
    requires FinaliseFigures(c, role, now, manual, expected).Ok?
    ensures c.inspection.Some? && FinaliseFigures(c, role, now, manual, expected).value.settlement.Some?
    ensures var s := FinaliseFigures(c, role, now, manual, expected).value.settlement.value;
      && |s.lines| == |at| + |manual|
      && Charges(s.lines[..|at|], c.inspection.value.items, c.inspection.value.round, at)
      && (forall k :: 0 <= k < |manual| ==> s.lines[|at| + k] == Line(None, manual[k]))
      && s.totalDeductions == SumLines(s.lines) && s.netRefund - s.liability == c.deposit - s.totalDeductions
      && (s.netRefund == 0 || s.liability == 0)
  {
    at := LinesCharge(c.inspection.value.items, c.inspection.value.round);
    var lines := LinesOf(c.inspection.value.items, c.inspection.value.round);
    FinalisedIs(c, role, now, manual, expected);
    assert (lines + ManualLines(manual))[..|at|] == lines;
  }

  lemma FinalisedIs(c: Case, role: Role, now: int, manual: seq<nat>, expected: Option<nat>)
    requires FinaliseFigures(c, role, now, manual, expected).Ok?
    ensures c.inspection.Some? && FinaliseFigures(c, role, now, manual, expected).value.settlement.Some?
    ensures var s := FinaliseFigures(c, role, now, manual, expected).value.settlement.value;
      && s.lines == LinesOf(c.inspection.value.items, c.inspection.value.round) + ManualLines(manual)
      && s.totalDeductions == SumLines(s.lines) && s.netRefund - s.liability == c.deposit - s.totalDeductions
      && (s.netRefund == 0 || s.liability == 0)
  {
  }

  /** In every run, from awaiting approval on, that is what the frozen lines charge. */
  lemma ChargesInEveryRun(deposit: nat, defaultKey: string, events: seq<Event>) returns (at: seq<nat>)
    requires var c := Run(NewCase(deposit, defaultKey), events); Settling(c.state)
    ensures var c := Run(NewCase(deposit, defaultKey), events);
      && c.inspection.Some? && c.settlement.Some?
      && |at| <= |c.settlement.value.lines|
      && Charges(c.settlement.value.lines[..|at|], c.inspection.value.items, c.inspection.value.round, at)
      && (forall k :: |at| <= k < |c.settlement.value.lines| ==> c.settlement.value.lines[k].item.None?)
      && c.settlement.value.totalDeductions == SumLines(c.settlement.value.lines)
  {
    RunKeeps(deposit, defaultKey, events);
    var c := Run(NewCase(deposit, defaultKey), events);
    at := LinesCharge(c.inspection.value.items, c.inspection.value.round);
  }

  lemma {:induction false} OpenDisputesIff(items: seq<Item>)
    ensures OpenDisputes(items) == 0 <==> forall i :: 0 <= i < |items| ==> !items[i].dispute.Raised?
  {
    if items != [] {
      OpenDisputesIff(items[..|items| - 1]);
      assert forall i :: 0 <= i < |items| - 1 ==> items[..|items| - 1][i] == items[i];
    }
  }

  /** Figures can be finalised exactly by owner or administrator, during the review, with no dispute of any
      round open, no amount out of range, and the refund the caller expects, if one is expected. */
  lemma FinaliseAcceptedIff(c: Case, role: Role, now: int, manual: seq<nat>, expected: Option<nat>)
    requires Figures(c)
    ensures FinaliseFigures(c, role, now, manual, expected).Ok? <==>
      && c.state.DamageReview? && (role.Owner? || role.Admin?)
      && (forall i :: 0 <= i < |c.inspection.value.items| ==> !c.inspection.value.items[i].dispute.Raised?)
      && var deductions := Collected(c) + SumLines(ManualLines(manual));
      && c.deposit <= 9_999_999_999 && deductions <= 9_999_999_999
      && (expected.Some? ==> expected.value == if deductions <= c.deposit then c.deposit - deductions else 0)
  {
    SumLinesConcat(LinesFromInspection(c.inspection), ManualLines(manual));
    if c.inspection.Some? {
      OpenDisputesIff(c.inspection.value.items);
    }
  }

  lemma TotalOf(c: Case, role: Role, now: int, manual: seq<nat>)
    requires FinaliseFigures(c, role, now, manual, None).Ok?
    ensures FinaliseFigures(c, role, now, manual, None).value.settlement.Some?
    ensures FinaliseFigures(c, role, now, manual, None).value.settlement.value.totalDeductions
            == SumLines(LinesFromInspection(c.inspection) + ManualLines(manual))
  {
  }

  /** What finalising asks for besides amounts in range. */
  predicate Ready(c: Case, role: Role) {
    && OwnerMay(role) && c.inspection.Some? && c.inspection.value.reported
    && OpenDisputes(c.inspection.value.items) == 0
    && (c.settlement.None? || Editable(c.settlement.value.status))
    && !Terminal(c.state) && Authorise(c.state, Finalise, role).Ok?
  }

  lemma ReadyIff(c: Case, role: Role, now: int, manual: seq<nat>)
    ensures FinaliseFigures(c, role, now, manual, None).Ok?
       <==> && Ready(c, role) && c.deposit <= MAX_AMOUNT
            && SumLines(LinesFromInspection(c.inspection) + ManualLines(manual)) <= MAX_AMOUNT
  {
  }

  lemma LighterAccepted(c: Case, role: Role, now: int, manual: seq<nat>, lighter: seq<nat>)
    requires FinaliseFigures(c, role, now, manual, None).Ok?
    requires SumLines(LinesFromInspection(c.inspection) + ManualLines(lighter))
          <= SumLines(LinesFromInspection(c.inspection) + ManualLines(manual))
    ensures FinaliseFigures(c, role, now, lighter, None).Ok?
  {
    ReadyIff(c, role, now, manual);
    ReadyIff(c, role, now, lighter);
  }

  /** A manual charge of `x` raises the deductions by exactly `x`. */
  lemma ManualCounts(c: Case, role: Role, now: int, before: seq<nat>, x: nat, after: seq<nat>)
    requires FinaliseFigures(c, role, now, before + [x] + after, None).Ok?
    ensures FinaliseFigures(c, role, now, before + after, None).Ok?
    ensures var more := FinaliseFigures(c, role, now, before + [x] + after, None).value.settlement.value;
      var less := FinaliseFigures(c, role, now, before + after, None).value.settlement.value;
      more.totalDeductions == less.totalDeductions + x
  {
    ManualSum(LinesFromInspection(c.inspection), before, x, after);
    LighterAccepted(c, role, now, before + [x] + after, before + after);
    TotalOf(c, role, now, before + [x] + after);
    TotalOf(c, role, now, before + after);
  }

  lemma ManualSum(lines: seq<Line>, before: seq<nat>, x: nat, after: seq<nat>)
    ensures SumLines(lines + ManualLines(before + [x] + after)) == SumLines(lines + ManualLines(before + after)) + x
  {
    assert ManualLines(before + [x] + after) == ManualLines(before) + ManualLines([x]) + ManualLines(after);
    assert ManualLines(before + after) == ManualLines(before) + ManualLines(after);
    SumLinesConcat(lines, ManualLines(before + [x] + after));
    SumLinesConcat(lines, ManualLines(before + after));
    SumLinesConcat(ManualLines(before) + ManualLines([x]), ManualLines(after));
    SumLinesConcat(ManualLines(before), ManualLines([x]));
    SumLinesConcat(ManualLines(before), ManualLines(after));
    SumLinesConcat(ManualLines([x]), []);
  }

  /** An accepted adjustment moves what is collected by exactly the change it makes to its item: setting the
      cost of a liable item of this round to `x` moves it by `x` less the former amount. */
  lemma AdjustMoves(c: Case, role: Role, id: nat, approved: Option<nat>, liable: Option<bool>) returns (i: nat)
    requires AdjustItem(c, role, id, approved, liable).Ok?
    ensures c.inspection.Some? && i < |c.inspection.value.items| && c.inspection.value.items[i].id == id
    ensures var d := AdjustItem(c, role, id, approved, liable).value;
      var item, round := c.inspection.value.items[i], c.inspection.value.round;
      var cost := if approved.Some? then approved.value
                  else if item.approved.Some? then item.approved.value else item.estimated;
      var charged := if liable.Some? then liable.value else item.liable;
      Collected(d) - Collected(c) == (if item.round == round && charged then cost else 0) - Due(item, round)
  {
    i := FindItem(c.inspection.value.items, id).value;
    var d := AdjustItem(c, role, id, approved, liable).value;
    ReplacedMoves(c.inspection.value.items, i, d.inspection.value.items[i], c.inspection.value.round);
  }

  /** So does a resolved dispute: upheld, the charge becomes `x`, or nothing when none is given; rejected, it
      stays. */
  lemma ResolveMoves(c: Case, role: Role, id: nat, uphold: bool, approved: Option<nat>) returns (i: nat)
    requires ResolveItem(c, role, id, uphold, approved).Ok?
    ensures c.inspection.Some? && i < |c.inspection.value.items| && c.inspection.value.items[i].id == id
    ensures var d := ResolveItem(c, role, id, uphold, approved).value;
      var item, round := c.inspection.value.items[i], c.inspection.value.round;
      var charge := if approved.Some? then approved.value else 0;
      Collected(d) - Collected(c)
      == if uphold then (if item.round == round && item.liable then charge else 0) - Due(item, round) else 0
  {
    i := FindItem(c.inspection.value.items, id).value;
    var d := ResolveItem(c, role, id, uphold, approved).value;
    ReplacedMoves(c.inspection.value.items, i, d.inspection.value.items[i], c.inspection.value.round);
  }

  // ------------------------------------------------------- the assessment

  /** Removing a round removes just its items and keeps the order of the others. */
  lemma {:induction false} WithoutRoundExact(a: seq<Item>, item: Item, b: seq<Item>, round: nat)
    ensures WithoutRound(a + b, round) == WithoutRound(a, round) + WithoutRound(b, round)
    ensures WithoutRound([item], round) == if item.round == round then [] else [item]
  {
    assert [item][..0] == [];
    if b == [] {
      assert a + b == a;
    } else {
      assert (a + b)[..|a + b| - 1] == a + b[..|b| - 1];
      WithoutRoundExact(a, item, b[..|b| - 1], round);
    }
  }

  lemma {:induction false} SumEstimatesConcat(a: seq<Item>, b: seq<Item>, round: nat)
    ensures SumEstimates([], round) == 0
    ensures SumEstimates(a + b, round) == SumEstimates(a, round) + SumEstimates(b, round)
    ensures |a| == 1 && a[0].round == round ==> SumEstimates(a, round) == a[0].estimated
  {
    if b == [] {
      assert a + b == a;
    } else {
      assert (a + b)[..|a + b| - 1] == a + b[..|b| - 1];
      SumEstimatesConcat(a, b[..|b| - 1], round);
    }
  }

  lemma AssessmentSum(before: seq<Entry>, e: Entry, after: seq<Entry>, id: nat, round: nat)
    ensures SumEstimates(NewItems(before + [e] + after, id, round), round)
            == SumEstimates(NewItems(before + after, id, round), round) + e.estimated
  {
    var more, less := NewItems(before + [e] + after, id, round), NewItems(before + after, id, round);
    var front, later, later' := more[..|before|], more[|before| + 1..], less[|before|..];
    assert more == front + [more[|before|]] + later && less == less[..|before|] + later';
    assert front == less[..|before|];
    SumEstimatesConcat(front + [more[|before|]], later, round);
    SumEstimatesConcat(front, [more[|before|]], round);
    SumEstimatesConcat(front, later', round);
    SumEstimatesConcat([more[|before|]], [], round);
    SameEstimates(later, later', round);
  }

  lemma {:induction false} SameEstimates(a: seq<Item>, b: seq<Item>, round: nat)
    requires |a| == |b|
    requires forall i :: 0 <= i < |a| ==> a[i].estimated == b[i].estimated && a[i].round == b[i].round
    ensures SumEstimates(a, round) == SumEstimates(b, round)
  {
    if a != [] {
      SameEstimates(a[..|a| - 1], b[..|b| - 1], round);
    }
  }

  /** One more entry in a report raises the assessed total by exactly its estimate. */
  lemma EntryCounts(c: Case, role: Role, now: int, conductedAt: int, before: seq<Entry>, e: Entry, after: seq<Entry>)
    requires ReportDamage(c, role, now, conductedAt, before + [e] + after).Ok?
    requires ReportDamage(c, role, now, conductedAt, before + after).Ok?
    ensures var more := ReportDamage(c, role, now, conductedAt, before + [e] + after).value.inspection.value;
      var less := ReportDamage(c, role, now, conductedAt, before + after).value.inspection.value;
      && more.assessedTotal.Some? && less.assessedTotal.Some?
      && more.assessedTotal.value == less.assessedTotal.value + e.estimated
  {
    ReportShape(c, role, now, conductedAt, before + [e] + after);
    ReportShape(c, role, now, conductedAt, before + after);
    AssessmentSum(before, e, after, c.inspection.value.nextId, c.inspection.value.round);
  }

  /** A report without entries assesses nothing. */
  lemma NothingAssessed(c: Case, role: Role, now: int, conductedAt: int)
    requires ReportDamage(c, role, now, conductedAt, []).Ok?
    ensures ReportDamage(c, role, now, conductedAt, []).value.inspection.value.assessedTotal == Some(0)
  {
    ReportShape(c, role, now, conductedAt, []);
    assert NewItems([], c.inspection.value.nextId, c.inspection.value.round) == [];
  }
}
