/** What every committed state of an exit case satisfies, over every run of commands and provider
    outcomes: workflow and settlement stay coupled, the frozen figures agree with a recomputation,
    and the history replays to the current state through every milestone. */
module ExitInvariants {
  import opened Outcomes
  import opened ExitStates
  import opened ExitCase

  predicate HasStatus(c: Case, status: SettlementStatus) {
    c.settlement.Some? && c.settlement.value.status == status
  }

  /** Workflow state, settlement status and certificate agree. */
  predicate Coupled(c: Case) {
    && !c.state.InspectionCompleted?
    && !c.state.SettlementCompleted?
    && (c.state.SettlementPending? <==> HasStatus(c, PendingApproval))
    && (c.state.SettlementProcessing? <==> HasStatus(c, Processing))
    && (c.state.NocIssued? || c.state.Completed? <==> HasStatus(c, Paid))
    && (c.state.NocIssued? || c.state.Completed? <==> c.noc.Some?)
    && !HasStatus(c, PayoutFailed)
    && !HasStatus(c, Withdrawn)
    && (c.settlement.Some? ==> (c.settlement.value.finalised <==> Settling(c.state)))
  }

  ghost predicate WellRecorded(c: Case) {
    && Replay(c.history) == Some(c.state)
    && Subsequence(MILESTONES[..Progress(c.state)], Actions(c.history))
    && (c.closedAt.Some? <==> Terminal(c.state))
  }

  predicate ApprovedWithinEstimate(items: seq<Item>) {
    forall i :: 0 <= i < |items| ==> items[i].approved.Some? ==> items[i].approved.value <= items[i].estimated
  }

  predicate RoundsBelow(items: seq<Item>, round: nat) {
    forall i :: 0 <= i < |items| ==> items[i].round < round
  }

  /** Identifiers are handed out in order and never twice. */
  predicate FreshIds(items: seq<Item>, nextId: nat) {
    && (forall i :: 0 <= i < |items| ==> items[i].id < nextId)
    && (forall i, j :: 0 <= i < j < |items| ==> items[i].id != items[j].id)
  }

  predicate Settling(s: State) {
    s.SettlementPending? || s.SettlementProcessing? || s.SettlementCompleted? || s.NocIssued? || s.Completed?
  }

  predicate Reviewed(s: State) {
    s.DamageReview? || Settling(s)
  }

  predicate Inspecting(s: State) {
    s.OwnerApproved? || s.SlotsProposed? || s.InspectionScheduled?
  }

  /** The inspection row exists once the owner approved; its report belongs to the current round. */
  predicate Inspected(c: Case) {
    && (Inspecting(c.state) || Reviewed(c.state) ==> c.inspection.Some?)
    && (c.inspection.Some? ==>
          && ApprovedWithinEstimate(c.inspection.value.items)
          && FreshIds(c.inspection.value.items, c.inspection.value.nextId)
          && RoundsBelow(c.inspection.value.items, c.inspection.value.round + 1))
    && (Inspecting(c.state) ==> RoundsBelow(c.inspection.value.items, c.inspection.value.round))
    && (c.state.Draft? || c.state.Submitted? ==> c.inspection.None? && c.settlement.None?)
    && (Reviewed(c.state) ==>
          && c.inspection.value.reported
          && c.reviewOpenedAt.Some?
          && c.inspection.value.assessedTotal
             == Some(SumEstimates(c.inspection.value.items, c.inspection.value.round)))
  }

  /** The frozen lines start with exactly the lines a recomputation from the inspection gives; the
      rest are manual charges. */
  predicate LinesAgree(lines: seq<Line>, recomputed: seq<Line>) {
    && recomputed <= lines
    && (forall i :: 0 <= i < |recomputed| ==> lines[i].item.Some?)
    && (forall i :: |recomputed| <= i < |lines| ==> lines[i].item.None?)
  }

  /** The settlement's own arithmetic. */
  predicate Balanced(s: Settlement) {
    && s.totalDeductions == SumLines(s.lines)
    && s.netRefund - s.liability == s.deposit - s.totalDeductions
    && (s.netRefund == 0 || s.liability == 0)
  }

  predicate Frozen(c: Case) {
    Settling(c.state) && c.inspection.Some? && c.settlement.Some? ==>
      && OpenDisputes(c.inspection.value.items) == 0
      && LinesAgree(c.settlement.value.lines, LinesFromInspection(c.inspection))
      && c.settlement.value.deposit == c.deposit
      && Balanced(c.settlement.value)
      && (c.state.SettlementProcessing? ==>
            c.settlement.value.netRefund > 0 && c.settlement.value.key.Some?)
  }

  predicate Figures(c: Case) {
    Coupled(c) && Inspected(c) && Frozen(c)
  }

  function Count(history: seq<Row>, action: Action): nat {
    if history == [] then 0
    else Count(history[..|history| - 1], action) + if history[|history| - 1].action == action then 1 else 0
  }

  /** The counters agree with the history: one payment attempt per payment, one round per inspection. */
  predicate Counted(c: Case) {
    Attempts(c) == Count(c.history, PayDeposit) && Repeats(c) == Count(c.history, Reinspect)
  }

  function Attempts(c: Case): int {
    if c.settlement.Some? then c.settlement.value.attempts else 0
  }

  function Repeats(c: Case): int {
    if c.inspection.Some? then c.inspection.value.round - 1 else 0
  }

  function ItemsIn(c: Case): seq<Item> {
    if c.inspection.Some? then c.inspection.value.items else []
  }

  ghost predicate CaseInv(c: Case) {
    WellRecorded(c) && Figures(c) && Counted(c)
  }

  // ----------------------------------------------------------- history

  lemma MoveRecorded(c: Case, action: Action, role: Role, now: int)
    requires WellRecorded(c) && Move(c, action, role, now).Ok?
    ensures WellRecorded(Move(c, action, role, now).value)
  {
    var next := Move(c, action, role, now).value;
    var row := Row(c.state, next.state, action);
    assert next.history[..|next.history| - 1] == c.history;
    MilestonesStep(c.history, row);
  }

  // -------------------------------------------------------- line totals

  lemma SumAppend(lines: seq<Line>, line: Line)
    ensures SumLines(lines + [line]) == SumLines(lines) + line.amount
  {
    assert (lines + [line])[..|lines|] == lines;
  }

  lemma {:induction false} LinesWithinEstimates(items: seq<Item>, round: nat)
    requires ApprovedWithinEstimate(items)
    ensures SumLines(LinesOf(items, round)) <= SumEstimates(items, round)
  {
    if items != [] {
      var rest, item := items[..|items| - 1], items[|items| - 1];
      LinesWithinEstimates(rest, round);
      assert item.Chargeable() <= item.estimated;
      SumAppend(LinesOf(rest, round), Line(Some(item.id), item.Chargeable()));
      assert LinesOf(rest, round) + [] == LinesOf(rest, round);
    }
  }

  lemma {:induction false} LinesNameItems(items: seq<Item>, round: nat)
    ensures forall i :: 0 <= i < |LinesOf(items, round)| ==> LinesOf(items, round)[i].item.Some?
  {
    if items != [] {
      LinesNameItems(items[..|items| - 1], round);
    }
  }

  lemma {:induction false} NothingToRemove(items: seq<Item>, round: nat)
    requires RoundsBelow(items, round)
    ensures WithoutRound(items, round) == items
  {
    if items != [] {
      var rest, item := items[..|items| - 1], items[|items| - 1];
      assert items == rest + [item] && item.round != round;
      NothingToRemove(rest, round);
    }
  }

  lemma {:induction false} NothingEstimated(items: seq<Item>, round: nat)
    requires RoundsBelow(items, round)
    ensures SumEstimates(items, round) == 0
  {
    if items != [] {
      NothingEstimated(items[..|items| - 1], round);
    }
  }

  lemma {:induction false} EstimatesAppend(a: seq<Item>, b: seq<Item>, round: nat)
    ensures SumEstimates(a + b, round) == SumEstimates(a, round) + SumEstimates(b, round)
  {
    if b == [] {
      assert a + b == a;
    } else {
      assert (a + b)[..|a + b| - 1] == a + b[..|b| - 1];
      EstimatesAppend(a, b[..|b| - 1], round);
    }
  }

  /** Replacing an item by one of the same round and estimate leaves the assessed total alone. */
  lemma {:induction false} EstimatesUpdate(items: seq<Item>, index: nat, item: Item, round: nat)
    requires index < |items|
    requires item.round == items[index].round && item.estimated == items[index].estimated
    ensures SumEstimates(items[index := item], round) == SumEstimates(items, round)
  {
    var last := |items| - 1;
    if index == last {
      assert items[index := item][..last] == items[..last];
    } else {
      assert items[index := item][..last] == items[..last][index := item];
      EstimatesUpdate(items[..last], index, item, round);
    }
  }

  // ------------------------------------------- figures, command by command

  lemma PlainMoveKeeps(c: Case, action: Action, role: Role, now: int)
    requires Figures(c) && Move(c, action, role, now).Ok?
    requires action in {Submit, Withdraw, Cancel, Expire, OwnerReject, ProposeSlots, SelectSlot, Reschedule, Complete}
    ensures Figures(Move(c, action, role, now).value)
  {
  }

  lemma ApproveKeeps(c: Case, role: Role, now: int, corrected: Option<nat>)
    requires Figures(c) && ApproveExit(c, role, now, corrected).Ok?
    ensures Figures(ApproveExit(c, role, now, corrected).value)
  {
  }

  /** What a report leaves behind: the two transitions of one transaction, taken together. */
  lemma ReportShape(c: Case, role: Role, now: int, conductedAt: int, entries: seq<Entry>)
    requires c.inspection.Some? && ReportDamage(c, role, now, conductedAt, entries).Ok?
    ensures c.state.InspectionScheduled?
    ensures var i, next := c.inspection.value, ReportDamage(c, role, now, conductedAt, entries).value;
      var added := NewItems(entries, i.nextId, i.round);
      && next.state.DamageReview? && next.closedAt == c.closedAt && next.reviewOpenedAt == Some(now)
      && next.deposit == c.deposit && next.settlement == c.settlement && next.noc == c.noc
      && next.inspection == Some(i.(items := WithoutRound(i.items, i.round) + added,
                                    nextId := i.nextId + |entries|,
                                    reported := true,
                                    assessedTotal := Some(SumEstimates(added, i.round))))
  {
  }

  lemma NewItemsFit(items: seq<Item>, nextId: nat, round: nat, entries: seq<Entry>)
    requires ApprovedWithinEstimate(items) && FreshIds(items, nextId) && RoundsBelow(items, round + 1)
    ensures var all := items + NewItems(entries, nextId, round);
      ApprovedWithinEstimate(all) && FreshIds(all, nextId + |entries|) && RoundsBelow(all, round + 1)
  {
  }

  /** The inspection after its report still satisfies everything the invariant says of it. */
  lemma ReportedInspection(i: Inspection, entries: seq<Entry>)
    requires ApprovedWithinEstimate(i.items) && FreshIds(i.items, i.nextId) && RoundsBelow(i.items, i.round)
    ensures var added := NewItems(entries, i.nextId, i.round);
      var items := i.items + added;
      && ApprovedWithinEstimate(items) && FreshIds(items, i.nextId + |entries|) && RoundsBelow(items, i.round + 1)
      && SumEstimates(items, i.round) == SumEstimates(added, i.round)
  {
    NewItemsFit(i.items, i.nextId, i.round, entries);
    NothingEstimated(i.items, i.round);
    EstimatesAppend(i.items, NewItems(entries, i.nextId, i.round), i.round);
  }

  lemma ReportKeeps(c: Case, role: Role, now: int, conductedAt: int, entries: seq<Entry>)
    requires Figures(c) && ReportDamage(c, role, now, conductedAt, entries).Ok?
    ensures Figures(ReportDamage(c, role, now, conductedAt, entries).value)
  {
    ReportShape(c, role, now, conductedAt, entries);
    NothingToRemove(c.inspection.value.items, c.inspection.value.round);
    ReportedInspection(c.inspection.value, entries);
  }

  lemma ItemUpdateKeeps(c: Case, index: nat, item: Item)
    requires Figures(c) && c.state.DamageReview? && index < |c.inspection.value.items|
    requires item.id == c.inspection.value.items[index].id && item.round == c.inspection.value.items[index].round
    requires item.estimated == c.inspection.value.items[index].estimated
    requires item.approved.Some? ==> item.approved.value <= item.estimated
    ensures Figures(WithItem(c, index, item))
  {
    EstimatesUpdate(c.inspection.value.items, index, item, c.inspection.value.round);
  }

  lemma AdjustKeeps(c: Case, role: Role, id: nat, approved: Option<nat>, liable: Option<bool>)
    requires Figures(c) && AdjustItem(c, role, id, approved, liable).Ok?
    ensures Figures(AdjustItem(c, role, id, approved, liable).value)
  {
    var index := FindItem(c.inspection.value.items, id).value;
    ItemUpdateKeeps(c, index, AdjustItem(c, role, id, approved, liable).value.inspection.value.items[index]);
  }

  lemma DisputeKeeps(c: Case, role: Role, now: int, id: nat)
    requires Figures(c) && DisputeItem(c, role, now, id).Ok?
    ensures Figures(DisputeItem(c, role, now, id).value)
  {
    var index := FindItem(c.inspection.value.items, id).value;
    ItemUpdateKeeps(c, index, DisputeItem(c, role, now, id).value.inspection.value.items[index]);
  }

  lemma ResolveKeeps(c: Case, role: Role, id: nat, uphold: bool, approved: Option<nat>)
    requires Figures(c) && ResolveItem(c, role, id, uphold, approved).Ok?
    ensures Figures(ResolveItem(c, role, id, uphold, approved).value)
  {
    var index := FindItem(c.inspection.value.items, id).value;
    ItemUpdateKeeps(c, index, ResolveItem(c, role, id, uphold, approved).value.inspection.value.items[index]);
  }

  lemma ReinspectKeeps(c: Case, role: Role, now: int)
    requires Figures(c) && RequestReinspection(c, role, now).Ok?
    ensures Figures(RequestReinspection(c, role, now).value)
  {
  }

  lemma FinaliseKeeps(c: Case, role: Role, now: int, manual: seq<nat>, expected: Option<nat>)
    requires Figures(c) && FinaliseFigures(c, role, now, manual, expected).Ok?
    ensures Figures(FinaliseFigures(c, role, now, manual, expected).value)
  {
    LinesNameItems(c.inspection.value.items, c.inspection.value.round);
  }

  lemma ReopenKeeps(c: Case, role: Role, now: int)
    requires Figures(c) && ReopenReview(c, role, now).Ok?
    ensures Figures(ReopenReview(c, role, now).value)
  {
  }

  /** What a first confirmation leaves behind: payment recorded and certificate issued, in one transaction. */
  lemma ConfirmShape(c: Case, now: int, reference: Option<Reference>)
    requires c.settlement.Some? && c.noc.None? && !c.state.SettlementCompleted? && !c.state.NocIssued?
    requires !c.state.Completed?
    requires Confirm(c, now, reference).Ok?
    ensures c.state.SettlementProcessing?
    ensures Confirm(c, now, reference).value
      == c.(state := NocIssued, noc := Some(Issued),
            history := c.history + [Row(SettlementProcessing, SettlementCompleted, SettlementSucceeded)]
                       + [Row(SettlementCompleted, NocIssued, IssueNoc)],
            settlement := Some(c.settlement.value.(
              status := Paid,
              reference := if reference.Some? then reference else c.settlement.value.reference)))
  {
  }

  /** With something to transfer, a payment leaves the settlement in progress. */
  lemma TransferShape(c: Case, role: Role, now: int, payoutMethod: PayoutMethod, requested: Option<string>)
    requires c.settlement.Some? && c.settlement.value.netRefund > 0
    requires Pay(c, role, now, payoutMethod, requested).Ok?
    ensures c.state.SettlementPending? && HasStatus(c, PendingApproval)
    ensures Pay(c, role, now, payoutMethod, requested).value
      == WithStatus(Bind(c, requested), Processing).(state := SettlementProcessing,
           history := c.history + [Row(SettlementPending, SettlementProcessing, PayDeposit)])
  {
  }

  /** With nothing to transfer, a payment settles and certifies at once. */
  lemma OffsetShape(c: Case, role: Role, now: int, payoutMethod: PayoutMethod, requested: Option<string>)
    requires c.settlement.Some? && c.settlement.value.netRefund == 0 && c.noc.None?
    requires Pay(c, role, now, payoutMethod, requested).Ok?
    ensures c.state.SettlementPending? && HasStatus(c, PendingApproval)
    ensures Pay(c, role, now, payoutMethod, requested).value
      == Offsetting(Bind(c, requested)).(state := NocIssued, noc := Some(Issued),
           history := c.history + [Row(SettlementPending, SettlementProcessing, PayDeposit)]
                      + [Row(SettlementProcessing, SettlementCompleted, SettlementSucceeded)]
                      + [Row(SettlementCompleted, NocIssued, IssueNoc)])
  {
    ConfirmShape(Offsetting(StartPayment(c, role, now, requested).value), now, None);
  }

  lemma PayKeeps(c: Case, role: Role, now: int, payoutMethod: PayoutMethod, requested: Option<string>)
    requires Figures(c) && Pay(c, role, now, payoutMethod, requested).Ok?
    ensures Figures(Pay(c, role, now, payoutMethod, requested).value)
  {
    if c.settlement.value.netRefund > 0 {
      TransferShape(c, role, now, payoutMethod, requested);
    } else {
      OffsetShape(c, role, now, payoutMethod, requested);
    }
  }

  lemma ConfirmKeeps(c: Case, now: int, reference: Option<Reference>)
    requires Figures(c) && Confirm(c, now, reference).Ok?
    ensures Figures(Confirm(c, now, reference).value)
  {
    if c.noc.None? {
      ConfirmShape(c, now, reference);
    }
  }

  lemma FailKeeps(c: Case, now: int)
    requires Figures(c) && FailPayout(c, now).Ok?
    ensures Figures(FailPayout(c, now).value)
  {
  }

  // ------------------------------------------- history, command by command

  /** Changing anything but state, history and closing time keeps the record. */
  lemma SameRecord(before: Case, after: Case)
    requires WellRecorded(before)
    requires after.state == before.state && after.history == before.history && after.closedAt == before.closedAt
    ensures WellRecorded(after)
  {
  }

  lemma ReportRecorded(c: Case, role: Role, now: int, conductedAt: int, entries: seq<Entry>)
    requires WellRecorded(c) && ReportDamage(c, role, now, conductedAt, entries).Ok?
    ensures WellRecorded(ReportDamage(c, role, now, conductedAt, entries).value)
  {
    MoveRecorded(c, SubmitReport, role, now);
    MoveRecorded(Move(c, SubmitReport, role, now).value, OpenReview, System, now);
    var result := Move(Move(c, SubmitReport, role, now).value, OpenReview, System, now).value;
    SameRecord(result, ReportDamage(c, role, now, conductedAt, entries).value);
  }

  lemma ConfirmRecorded(c: Case, now: int, reference: Option<Reference>)
    requires WellRecorded(c) && Confirm(c, now, reference).Ok?
    ensures WellRecorded(Confirm(c, now, reference).value)
  {
    var result := Confirm(c, now, reference).value;
    if result != c {
      MoveRecorded(c, SettlementSucceeded, System, now);
      var paid := Move(c, SettlementSucceeded, System, now).value;
      if c.noc.None? {
        MoveRecorded(paid, IssueNoc, System, now);
        SameRecord(Move(paid, IssueNoc, System, now).value, result);
      } else {
        SameRecord(paid, result);
      }
    }
  }

  lemma FailRecorded(c: Case, now: int)
    requires WellRecorded(c) && FailPayout(c, now).Ok?
    ensures WellRecorded(FailPayout(c, now).value)
  {
    var result := FailPayout(c, now).value;
    if result != c {
      MoveRecorded(c, SettlementFailed, System, now);
      SameRecord(Move(c, SettlementFailed, System, now).value, result);
    }
  }

  lemma StartRecorded(c: Case, role: Role, now: int, requested: Option<string>)
    requires WellRecorded(c) && c.settlement.Some? && StartPayment(c, role, now, requested).Ok?
    ensures WellRecorded(StartPayment(c, role, now, requested).value)
  {
    MoveRecorded(c, PayDeposit, role, now);
    SameRecord(Move(c, PayDeposit, role, now).value, StartPayment(c, role, now, requested).value);
  }

  lemma PayRecorded(c: Case, role: Role, now: int, payoutMethod: PayoutMethod, requested: Option<string>)
    requires WellRecorded(c) && Pay(c, role, now, payoutMethod, requested).Ok?
    ensures WellRecorded(Pay(c, role, now, payoutMethod, requested).value)
  {
    StartRecorded(c, role, now, requested);
    var started := StartPayment(c, role, now, requested).value;
    if c.settlement.value.netRefund > 0 {
      SameRecord(started, WithStatus(started, Processing));
    } else {
      SameRecord(started, Offsetting(started));
      ConfirmRecorded(Offsetting(started), now, None);
    }
  }

  /** The transition a command other than a report or a payment makes, if it makes one. */
  function MoveOf(command: Command): Option<Action> {
    match command
    case DoSubmit => Some(Submit)
    case DoWithdraw => Some(Withdraw)
    case DoCancel => Some(Cancel)
    case DoExpire => Some(Expire)
    case DoReject => Some(OwnerReject)
    case DoApprove(_) => Some(OwnerApprove)
    case DoPropose => Some(ProposeSlots)
    case DoSelect => Some(SelectSlot)
    case DoReschedule => Some(Reschedule)
    case DoReinspect => Some(Reinspect)
    case DoFinalise(_, _) => Some(Finalise)
    case DoReopen => Some(Reopen)
    case DoComplete => Some(Complete)
    case _ => None
  }

  lemma SingleMoveRecord(c: Case, command: Command, role: Role, now: int)
    requires MoveOf(command).Some? && Perform(c, command, role, now).Ok?
    ensures Move(c, MoveOf(command).value, role, now).Ok?
    ensures var next, moved := Perform(c, command, role, now).value, Move(c, MoveOf(command).value, role, now).value;
      next.state == moved.state && next.history == moved.history && next.closedAt == moved.closedAt
  {
  }

  lemma ItemsRecord(c: Case, command: Command, role: Role, now: int)
    requires MoveOf(command).None? && !command.DoReport? && !command.DoPay? && Perform(c, command, role, now).Ok?
    ensures var next := Perform(c, command, role, now).value;
      next.state == c.state && next.history == c.history && next.closedAt == c.closedAt
  {
  }

  lemma PerformRecorded(c: Case, command: Command, role: Role, now: int)
    requires WellRecorded(c) && Perform(c, command, role, now).Ok?
    ensures WellRecorded(Perform(c, command, role, now).value)
  {
    if MoveOf(command).Some? {
      SingleMoveRecord(c, command, role, now);
      MoveRecorded(c, MoveOf(command).value, role, now);
      SameRecord(Move(c, MoveOf(command).value, role, now).value, Perform(c, command, role, now).value);
    } else {
      if command.DoReport? {
        ReportRecorded(c, role, now, command.conductedAt, command.entries);
      } else if command.DoPay? {
        PayRecorded(c, role, now, command.payoutMethod, command.requestedKey);
      } else {
        ItemsRecord(c, command, role, now);
        SameRecord(c, Perform(c, command, role, now).value);
      }
    }
  }

  lemma PerformFigures(c: Case, command: Command, role: Role, now: int)
    requires Figures(c) && Perform(c, command, role, now).Ok?
    ensures Figures(Perform(c, command, role, now).value)
  {
    match command
    case DoSubmit => PlainMoveKeeps(c, Submit, role, now);
    case DoWithdraw => PlainMoveKeeps(c, Withdraw, role, now);
    case DoCancel => PlainMoveKeeps(c, Cancel, role, now);
    case DoExpire => PlainMoveKeeps(c, Expire, role, now);
    case DoReject => PlainMoveKeeps(c, OwnerReject, role, now);
    case DoApprove(corrected) => ApproveKeeps(c, role, now, corrected);
    case DoPropose => PlainMoveKeeps(c, ProposeSlots, role, now);
    case DoSelect => PlainMoveKeeps(c, SelectSlot, role, now);
    case DoReschedule => PlainMoveKeeps(c, Reschedule, role, now);
    case DoReport(conductedAt, entries) => ReportKeeps(c, role, now, conductedAt, entries);
    case DoAdjust(id, newCost, newLiable) => AdjustKeeps(c, role, id, newCost, newLiable);
    case DoDispute(id) => DisputeKeeps(c, role, now, id);
    case DoResolve(id, uphold, revised) => ResolveKeeps(c, role, id, uphold, revised);
    case DoReinspect => ReinspectKeeps(c, role, now);
    case DoFinalise(manual, expected) => FinaliseKeeps(c, role, now, manual, expected);
    case DoReopen => ReopenKeeps(c, role, now);
    case DoPay(payoutMethod, requestedKey) => PayKeeps(c, role, now, payoutMethod, requestedKey);
    case DoComplete => PlainMoveKeeps(c, Complete, role, now);
    case DoRevoke =>
  }

  // ------------------------------------------------------------ counters

  lemma MoveCounts(c: Case, action: Action, role: Role, now: int, counted: Action)
    requires Move(c, action, role, now).Ok?
    ensures Count(Move(c, action, role, now).value.history, counted)
            == Count(c.history, counted) + if action == counted then 1 else 0
  {
  }

  lemma CountAppend(history: seq<Row>, row: Row, action: Action)
    ensures Count(history + [row], action) == Count(history, action) + if row.action == action then 1 else 0
  {
    assert (history + [row])[..|history|] == history;
  }

  lemma TwoRowsCount(history: seq<Row>, first: Row, second: Row, action: Action)
    requires first.action != action && second.action != action
    ensures Count(history + [first] + [second], action) == Count(history, action)
  {
    CountAppend(history, first, action);
    CountAppend(history + [first], second, action);
  }

  lemma ConfirmCounts(c: Case, now: int, reference: Option<Reference>)
    requires Confirm(c, now, reference).Ok? && Counted(c)
    requires c.noc.Some? ==> Confirm(c, now, reference).value == c
    requires c.noc.None? ==> !c.state.SettlementCompleted? && !c.state.NocIssued? && !c.state.Completed?
    ensures Counted(Confirm(c, now, reference).value)
  {
    if c.noc.None? {
      ConfirmShape(c, now, reference);
      var confirmed := Row(SettlementProcessing, SettlementCompleted, SettlementSucceeded);
      var certified := Row(SettlementCompleted, NocIssued, IssueNoc);
      TwoRowsCount(c.history, confirmed, certified, PayDeposit);
      TwoRowsCount(c.history, confirmed, certified, Reinspect);
    }
  }

  lemma FailCounts(c: Case, now: int)
    requires FailPayout(c, now).Ok? && Counted(c)
    ensures Counted(FailPayout(c, now).value)
  {
    if c.settlement.value.status.Processing? {
      MoveCounts(c, SettlementFailed, System, now, PayDeposit);
      MoveCounts(c, SettlementFailed, System, now, Reinspect);
    }
  }

  /** The rows of an immediately settled payment count as one payment. */
  lemma OffsetRowsCount(history: seq<Row>, paid: Row, confirmed: Row, certified: Row, action: Action)
    requires confirmed.action != action && certified.action != action
    ensures Count(history + [paid] + [confirmed] + [certified], action)
            == Count(history, action) + if paid.action == action then 1 else 0
  {
    CountAppend(history, paid, action);
    TwoRowsCount(history + [paid], confirmed, certified, action);
  }

  lemma TransferCounts(c: Case, role: Role, now: int, payoutMethod: PayoutMethod, requested: Option<string>)
    requires c.settlement.Some? && c.settlement.value.netRefund > 0
    requires Pay(c, role, now, payoutMethod, requested).Ok? && Counted(c)
    ensures Counted(Pay(c, role, now, payoutMethod, requested).value)
  {
    var paid := Row(SettlementPending, SettlementProcessing, PayDeposit);
    TransferShape(c, role, now, payoutMethod, requested);
    CountAppend(c.history, paid, PayDeposit);
    CountAppend(c.history, paid, Reinspect);
  }

  lemma OffsetCounts(c: Case, role: Role, now: int, payoutMethod: PayoutMethod, requested: Option<string>)
    requires c.settlement.Some? && c.settlement.value.netRefund == 0 && c.noc.None?
    requires Pay(c, role, now, payoutMethod, requested).Ok? && Counted(c)
    ensures Counted(Pay(c, role, now, payoutMethod, requested).value)
  {
    var paid := Row(SettlementPending, SettlementProcessing, PayDeposit);
    var confirmed := Row(SettlementProcessing, SettlementCompleted, SettlementSucceeded);
    var certified := Row(SettlementCompleted, NocIssued, IssueNoc);
    OffsetShape(c, role, now, payoutMethod, requested);
    OffsetRowsCount(c.history, paid, confirmed, certified, PayDeposit);
    OffsetRowsCount(c.history, paid, confirmed, certified, Reinspect);
  }

  lemma PayCounts(c: Case, role: Role, now: int, payoutMethod: PayoutMethod, requested: Option<string>)
    requires Pay(c, role, now, payoutMethod, requested).Ok? && Counted(c) && c.noc.None?
    ensures Counted(Pay(c, role, now, payoutMethod, requested).value)
  {
    if c.settlement.value.netRefund > 0 {
      TransferCounts(c, role, now, payoutMethod, requested);
    } else {
      OffsetCounts(c, role, now, payoutMethod, requested);
    }
  }

  lemma ReportRows(c: Case, role: Role, now: int, conductedAt: int, entries: seq<Entry>) returns (reported: State)
    requires ReportDamage(c, role, now, conductedAt, entries).Ok?
    ensures ReportDamage(c, role, now, conductedAt, entries).value.history
            == c.history + [Row(c.state, reported, SubmitReport)] + [Row(reported, DamageReview, OpenReview)]
  {
    reported := Move(c, SubmitReport, role, now).value.state;
  }

  lemma ReportCounts(c: Case, role: Role, now: int, conductedAt: int, entries: seq<Entry>)
    requires ReportDamage(c, role, now, conductedAt, entries).Ok? && Counted(c)
    ensures Counted(ReportDamage(c, role, now, conductedAt, entries).value)
  {
    var reported := ReportRows(c, role, now, conductedAt, entries);
    var submitted, review := Row(c.state, reported, SubmitReport), Row(reported, DamageReview, OpenReview);
    TwoRowsCount(c.history, submitted, review, PayDeposit);
    TwoRowsCount(c.history, submitted, review, Reinspect);
    ReportShape(c, role, now, conductedAt, entries);
  }

  /** `next` has the payments and the items of `c`, and `repeats` more rounds. */
  predicate KeepsParts(c: Case, next: Case, repeats: int) {
    Attempts(next) == Attempts(c) && ItemsIn(next) == ItemsIn(c) && Repeats(next) == Repeats(c) + repeats
  }

  lemma FiguresMoveParts(c: Case, command: Command, role: Role, now: int)
    requires (command.DoFinalise? || command.DoReopen?) && Perform(c, command, role, now).Ok?
    ensures KeepsParts(c, Perform(c, command, role, now).value, 0)
  {
  }

  lemma VisitMoveParts(c: Case, command: Command, role: Role, now: int)
    requires (command.DoApprove? || command.DoReinspect?) && Perform(c, command, role, now).Ok?
    ensures KeepsParts(c, Perform(c, command, role, now).value, if command.DoReinspect? then 1 else 0)
  {
  }

  lemma OtherMoveParts(c: Case, command: Command, role: Role, now: int)
    requires MoveOf(command).Some? && Perform(c, command, role, now).Ok?
    requires !command.DoFinalise? && !command.DoReopen? && !command.DoApprove? && !command.DoReinspect?
    ensures Perform(c, command, role, now) == Move(c, MoveOf(command).value, role, now)
    ensures KeepsParts(c, Perform(c, command, role, now).value, 0)
  {
  }

  /** A single-transition command leaves payments and items alone, and only a re-inspection starts a round. */
  lemma SingleMoveParts(c: Case, command: Command, role: Role, now: int)
    requires MoveOf(command).Some? && Perform(c, command, role, now).Ok?
    ensures KeepsParts(c, Perform(c, command, role, now).value, if command.DoReinspect? then 1 else 0)
  {
    if command.DoFinalise? || command.DoReopen? {
      FiguresMoveParts(c, command, role, now);
    } else if command.DoApprove? || command.DoReinspect? {
      VisitMoveParts(c, command, role, now);
    } else {
      OtherMoveParts(c, command, role, now);
    }
  }

  lemma SingleMoveRow(c: Case, command: Command, role: Role, now: int)
    requires MoveOf(command).Some? && Perform(c, command, role, now).Ok?
    ensures var next := Perform(c, command, role, now).value;
      next.history == c.history + [Row(c.state, next.state, MoveOf(command).value)]
  {
    SingleMoveRecord(c, command, role, now);
  }

  lemma CarryCounts(c: Case, next: Case, action: Action)
    requires Counted(c) && KeepsParts(c, next, if action.Reinspect? then 1 else 0) && !action.PayDeposit?
    requires next.history == c.history + [Row(c.state, next.state, action)]
    ensures Counted(next)
  {
    CountAppend(c.history, Row(c.state, next.state, action), PayDeposit);
    CountAppend(c.history, Row(c.state, next.state, action), Reinspect);
  }

  lemma SingleMoveCounts(c: Case, command: Command, role: Role, now: int)
    requires Counted(c) && MoveOf(command).Some? && Perform(c, command, role, now).Ok?
    ensures Counted(Perform(c, command, role, now).value)
  {
    SingleMoveParts(c, command, role, now);
    SingleMoveRow(c, command, role, now);
    CarryCounts(c, Perform(c, command, role, now).value, MoveOf(command).value);
  }

  lemma PerformCounts(c: Case, command: Command, role: Role, now: int)
    requires Counted(c) && Coupled(c) && Perform(c, command, role, now).Ok?
    ensures Counted(Perform(c, command, role, now).value)
  {
    if MoveOf(command).Some? {
      SingleMoveCounts(c, command, role, now);
    } else if command.DoReport? {
      ReportCounts(c, role, now, command.conductedAt, command.entries);
    } else if command.DoPay? {
      PayCounts(c, role, now, command.payoutMethod, command.requestedKey);
    }
  }

  // ---------------------------------------------------------------- runs

  /** Anything that may happen to a case: a request, or a provider outcome. */
  datatype Event =
    | Requested(command: Command, role: Role, now: int)
    | PayoutSucceeded(now: int, reference: Option<Reference>)
    | PayoutFailedAt(now: int)

  function Attempt(c: Case, event: Event): Result<Case> {
    match event
    case Requested(command, role, now) => Perform(c, command, role, now)
    case PayoutSucceeded(now, reference) => Confirm(c, now, reference)
    case PayoutFailedAt(now) => FailPayout(c, now)
  }

  /** Every event is one transaction: it commits, or leaves the case as it was. */
  function Apply(c: Case, event: Event): Case {
    Committed(c, Attempt(c, event))
  }

  function Run(c: Case, events: seq<Event>): Case {
    if events == [] then c else Apply(Run(c, events[..|events| - 1]), events[|events| - 1])
  }

  lemma ApplyKeeps(c: Case, event: Event)
    requires CaseInv(c)
    ensures CaseInv(Apply(c, event))
  {
    if Attempt(c, event).Ok? {
      match event
      case Requested(command, role, now) =>
        PerformFigures(c, command, role, now);
        PerformRecorded(c, command, role, now);
        PerformCounts(c, command, role, now);
      case PayoutSucceeded(now, reference) =>
        ConfirmKeeps(c, now, reference);
        ConfirmRecorded(c, now, reference);
        ConfirmCounts(c, now, reference);
      case PayoutFailedAt(now) =>
        FailKeeps(c, now);
        FailRecorded(c, now);
        FailCounts(c, now);
    }
  }

  lemma NewCaseInv(deposit: nat, defaultKey: string)
    ensures CaseInv(NewCase(deposit, defaultKey))
  {
    var none: seq<nat> := [];
    var c := NewCase(deposit, defaultKey);
    assert Embeds(MILESTONES[..Progress(c.state)], Actions(c.history), none);
  }

  /** Every committed state of every run satisfies the invariant. */
  lemma {:induction false} RunKeeps(deposit: nat, defaultKey: string, events: seq<Event>)
    ensures CaseInv(Run(NewCase(deposit, defaultKey), events))
  {
    if events == [] {
      NewCaseInv(deposit, defaultKey);
    } else {
      RunKeeps(deposit, defaultKey, events[..|events| - 1]);
      ApplyKeeps(Run(NewCase(deposit, defaultKey), events[..|events| - 1]), events[|events| - 1]);
    }
  }
}
