/** What every committed state of an escrow case satisfies, over every run of requests: the settlement,
    the certificate and the workflow state stay coupled, the figures are those of the latest report, and
    the payments conserve the deposit. */
module EscrowSafety {
  import opened Outcomes
  import opened Texts
  import opened EscrowCase

  // ----------------------------------------------------------- invariant

  predicate HasStatus(c: Case, status: SettlementStatus) {
    c.settlement.Some? && c.settlement.value.status == status
  }

  /** No damage has been assessed yet. */
  predicate Early(s: State) {
    s.Draft? || s.DocumentsPending? || s.PendingOwnerApproval? || s.OwnerApproved? || s.Rejected?
  }

  predicate Inspecting(s: State) {
    s.Scheduling? || s.Scheduled? || s.Inspected?
  }

  predicate OneLegOutstanding(settlement: Settlement) {
    settlement.Outstanding(OwnerRefund) != settlement.Outstanding(TenantBalance)
  }

  /** Workflow state, settlement status and certificate agree. */
  predicate Coupled(c: Case) {
    && !c.state.Settled?
    && (HasStatus(c, Closed) <==> c.noc.Some?)
    && (c.noc.Some? <==> c.state.NocIssued? || c.state.Completed?)
    && (c.state.PendingSettlement? ==> HasStatus(c, Payable) && OneLegOutstanding(c.settlement.value))
    && (HasStatus(c, Payable) ==> c.state.PendingSettlement? || c.state.Cancelled?)
    && (HasStatus(c, Void) ==> Inspecting(c.state) || c.state.Cancelled?)
    && (c.state.DamageReview? ==> HasStatus(c, DraftFigures))
    && (Early(c.state) ==> c.settlement.None?)
  }

  /** What is marked, by status: the approval, the legs settled, and the closing. */
  predicate Marked(s: Settlement) {
    match s.status
    case DraftFigures => !s.approved && !s.refundSettled && !s.balanceSettled && !s.closed
    case Void => !s.approved && !s.refundSettled && !s.balanceSettled && !s.closed
    case Payable =>
      s.approved && s.refundSettled == (s.refund == 0) && s.balanceSettled == (s.balance == 0) && !s.closed
    case Closed => s.approved && s.refundSettled && s.balanceSettled && s.closed
  }

  /** The payment a settlement's figures call for, if any. */
  predicate PaidInFull(s: Settlement, payments: seq<Payment>) {
    && |payments| == (if s.refund == 0 && s.balance == 0 then 0 else 1)
    && (|payments| == 1 ==>
          && payments[0].status.Succeeded?
          && payments[0].amount == s.LegAmount(payments[0].leg) > 0)
  }

  /** A payment exists only on a closed settlement, and settles it exactly. */
  predicate Paid(c: Case) {
    && (c.settlement.Some? ==> Marked(c.settlement.value))
    && (if HasStatus(c, Closed) then PaidInFull(c.settlement.value, c.payments) else c.payments == [])
  }

  /** The figures are those the latest report gives. */
  predicate Derived(c: Case) {
    && (c.settlement.None? <==> c.reports == [])
    && (c.settlement.Some? ==>
          var s := c.settlement.value;
          && s.report == |c.reports| - 1
          && s.deposit == c.deposit
          && s.deductions == Sum(c.reports[s.report].amounts) >= 0
          && s.refund == Max(s.deposit - s.deductions, 0)
          && s.balance == Max(s.deductions - s.deposit, 0))
    && (c.noc.Some? && c.settlement.Some? ==>
          c.noc.value == Snapshot(c.settlement.value).(downloads := c.noc.value.downloads))
  }

  /** Reports and the assignments they came from name each other. */
  predicate Linked(c: Case) {
    && (forall r :: 0 <= r < |c.reports| ==>
          && c.reports[r].assignment < |c.assignments|
          && c.assignments[c.reports[r].assignment].report == Some(r)
          && NonNegative(c.reports[r].amounts)
          && c.reports[r].total == Sum(c.reports[r].amounts))
    && (forall a :: 0 <= a < |c.assignments| && c.assignments[a].report.Some? ==>
          c.assignments[a].report.value < |c.reports| && c.reports[c.assignments[a].report.value].assignment == a)
  }

  /** After the creation row every history row is an edge of the table and starts where the one before
      it ended. */
  predicate Recorded(c: Case) {
    && c.isActive == !Terminal(c.state)
    && c.history != []
    && c.history[0].source.Draft?
    && c.history[|c.history| - 1].target == c.state
    && (forall i :: 0 < i < |c.history| ==>
          c.history[i].source == c.history[i - 1].target && CanTransition(c.history[i].source, c.history[i].target))
  }

  predicate Inv(c: Case) {
    Coupled(c) && Paid(c) && Derived(c) && Linked(c) && Recorded(c)
  }

  // ------------------------------------------------- one request keeps it

  lemma {:induction false} SumNonNegative(amounts: seq<int>)
    requires NonNegative(amounts)
    ensures Sum(amounts) >= 0
  {
    if amounts != [] {
      SumNonNegative(amounts[..|amounts| - 1]);
    }
  }

  lemma MoveRecorded(c: Case, target: State)
    requires Recorded(c) && Move(c, target).Ok?
    ensures Recorded(Move(c, target).value)
  {
  }

  lemma RequestInspectionKeeps(c: Case, agency: Agency)
    requires Inv(c)
             || (Linked(c) && Derived(c) && Paid(c) && Recorded(c)
                 && HasStatus(c, Void) && c.noc.None? && c.state.DamageReview?)
    requires RequestInspection(c, agency).Ok?
    ensures Inv(RequestInspection(c, agency).value)
  {
    MoveRecorded(c, Scheduling);
  }

  lemma ReinspectionKeeps(c: Case, agency: Agency, reason: string)
    requires Inv(c) && OrderReinspection(c, agency, reason).Ok?
    ensures Inv(OrderReinspection(c, agency, reason).value)
  {
    RequestInspectionKeeps(VoidForReinspection(c).value, agency);
  }

  lemma ApproveExitKeeps(c: Case, agency: Option<Agency>)
    requires Inv(c) && ApproveExit(c, agency).Ok?
    ensures Inv(ApproveExit(c, agency).value)
  {
  }

  /** Filing a report links it to its assignment and to nothing else. */
  lemma FiledLinks(c: Case, index: nat, amounts: seq<int>)
    requires Linked(c) && index < |c.assignments| && c.assignments[index].report.None? && NonNegative(amounts)
    ensures Linked(Filed(c, index, amounts))
  {
  }

  /** The rows an accepted report leaves: the visit if it was still booked, then the review. */
  function ReportHops(state: State): seq<Hop> {
    (if state.Scheduled? then [Hop(Scheduled, Inspected)] else []) + [Hop(Inspected, DamageReview)]
  }

  lemma ReportShape(c: Case, index: nat, summary: string, inspectedAt: int, now: int, amounts: seq<int>)
    requires ReportDamage(c, index, summary, inspectedAt, now, amounts).Ok?
    ensures index < |c.assignments| && c.assignments[index].report.None? && NonNegative(amounts)
    ensures c.state.Scheduled? || c.state.Inspected?
    ensures ReportDamage(c, index, summary, inspectedAt, now, amounts).value
            == Filed(c, index, amounts).(state := DamageReview, isActive := true,
                                         history := c.history + ReportHops(c.state),
                                         settlement := Some(Figures(|c.reports|, c.deposit, Sum(amounts))))
  {
  }

  lemma ReportRecorded(c: Case)
    requires Recorded(c) && (c.state.Scheduled? || c.state.Inspected?)
    ensures Recorded(c.(state := DamageReview, isActive := true, history := c.history + ReportHops(c.state)))
  {
  }

  lemma ReportKeeps(c: Case, index: nat, summary: string, inspectedAt: int, now: int, amounts: seq<int>)
    requires Inv(c) && ReportDamage(c, index, summary, inspectedAt, now, amounts).Ok?
    ensures Inv(ReportDamage(c, index, summary, inspectedAt, now, amounts).value)
  {
    ReportShape(c, index, summary, inspectedAt, now, amounts);
    FiledLinks(c, index, amounts);
    ReportRecorded(c);
    SumNonNegative(amounts);
  }

  /** Closing needs a workflow awaiting its settlement, with nothing outstanding, and certifies it. */
  lemma CloseShape(c: Case)
    requires c.settlement.Some? && c.settlement.value.FullySettled() && !c.settlement.value.status.Closed?
    requires c.state.PendingSettlement? && c.noc.None?
    ensures CloseIfFullySettled(c).Ok?
    ensures var s := c.settlement.value;
      CloseIfFullySettled(c).value
      == c.(state := NocIssued, isActive := true, settlement := Some(s.(status := Closed, closed := true)),
            noc := Some(Snapshot(s)),
            history := c.history + [Hop(PendingSettlement, Settled)] + [Hop(Settled, NocIssued)])
  {
  }

  /** Approved figures wait for the one leg they leave outstanding. */
  lemma PendingKeeps(c: Case)
    requires Inv(c) && ApproveSettlement(c).Ok? && !Accepted(c.settlement.value).FullySettled()
    ensures Inv(ApproveSettlement(c).value)
  {
    MoveRecorded(c, PendingSettlement);
  }

  /** With nothing at stake they close at once. */
  lemma ClosedAtOnceKeeps(c: Case)
    requires Inv(c) && ApproveSettlement(c).Ok? && Accepted(c.settlement.value).FullySettled()
    ensures Inv(ApproveSettlement(c).value)
  {
    MoveRecorded(c, PendingSettlement);
    CloseShape(Move(c, PendingSettlement).value.(settlement := Some(Accepted(c.settlement.value))));
  }

  lemma ApproveSettlementKeeps(c: Case)
    requires Inv(c) && ApproveSettlement(c).Ok?
    ensures Inv(ApproveSettlement(c).value)
  {
    if Accepted(c.settlement.value).FullySettled() {
      ClosedAtOnceKeeps(c);
    } else {
      PendingKeeps(c);
    }
  }

  lemma PayKeeps(c: Case, leg: Leg, key: string, usedElsewhere: bool, outcome: Outcome)
    requires Inv(c) && Pay(c, leg, key, usedElsewhere, outcome).Ok?
    ensures Inv(Pay(c, leg, key, usedElsewhere, outcome).value)
  {
    if FindPayment(c.payments, key).None? {
      var credited := Credited(c, leg, key);
      assert credited.settlement.value.FullySettled();
      CloseShape(credited);
    }
  }

  /** The requests that move the workflow along one edge and touch no figures. */
  predicate Plain(request: Request) {
    request.Submit? || request.Reject? || request.Cancel? || request.Visit? || request.Finish?
  }

  /** A move touches no figures. */
  lemma MoveKeepsFigures(c: Case, target: State)
    requires Paid(c) && Derived(c) && Linked(c) && Move(c, target).Ok?
    ensures var d := Move(c, target).value; Paid(d) && Derived(d) && Linked(d)
  {
  }

  lemma PlainCoupled(c: Case, request: Request)
    requires Coupled(c) && Plain(request) && Perform(c, request).Ok?
    ensures Coupled(Perform(c, request).value)
  {
  }

  lemma PlainKeeps(c: Case, request: Request)
    requires Inv(c) && Plain(request) && Perform(c, request).Ok?
    ensures Inv(Perform(c, request).value)
  {
    var target := Perform(c, request).value.state;
    assert Perform(c, request) == Move(c, target);
    MoveRecorded(c, target);
    MoveKeepsFigures(c, target);
    PlainCoupled(c, request);
  }

  /** An assignment may change all but its report. */
  lemma AssignmentKeeps(c: Case, index: nat, assignment: Assignment)
    requires Inv(c) && index < |c.assignments| && assignment.report == c.assignments[index].report
    ensures Inv(WithAssignment(c, index, assignment))
  {
  }

  lemma BookingCoupled(c: Case)
    requires Coupled(c) && c.state.Scheduling?
    ensures Coupled(Move(c, Scheduled).value)
  {
  }

  lemma OfferKeeps(c: Case, index: nat, count: nat, added: nat)
    requires Inv(c) && OfferSlots(c, index, count, added).Ok?
    ensures Inv(OfferSlots(c, index, count, added).value)
  {
    var a := c.assignments[index];
    AssignmentKeeps(c, index, a.(status := SlotsProposed, offered := a.offered + added));
  }

  lemma SelectKeeps(c: Case, slot: nat, startsAt: int, now: int)
    requires Inv(c) && SelectSlot(c, slot, startsAt, now).Ok?
    ensures Inv(SelectSlot(c, slot, startsAt, now).value)
  {
    var last := |c.assignments| - 1;
    var booked := WithAssignment(c, last, c.assignments[last].(status := Booked));
    AssignmentKeeps(c, last, c.assignments[last].(status := Booked));
    BookingKeeps(booked);
  }

  lemma BookingKeeps(booked: Case)
    requires Inv(booked) && Move(booked, Scheduled).Ok?
    ensures Inv(Move(booked, Scheduled).value)
  {
    MoveRecorded(booked, Scheduled);
    MoveKeepsFigures(booked, Scheduled);
    BookingCoupled(booked);
  }

  lemma DisputeKeeps(c: Case, reason: string)
    requires Inv(c) && Dispute(c, reason).Ok?
    ensures Inv(Dispute(c, reason).value)
  {
    MoveRecorded(c, DamageReview);
  }

  lemma DownloadKeeps(c: Case)
    requires Inv(c) && Download(c).Ok?
    ensures Inv(Download(c).value)
  {
  }

  lemma PerformKeeps(c: Case, request: Request)
    requires Inv(c) && Perform(c, request).Ok?
    ensures Inv(Perform(c, request).value)
  {
    if Plain(request) {
      PlainKeeps(c, request);
    } else {
      match request
      case Offer(assignment, count, added) => OfferKeeps(c, assignment, count, added);
      case Select(slot, startsAt, now) => SelectKeeps(c, slot, startsAt, now);
      case Approve(agency) => ApproveExitKeeps(c, agency);
      case Inspect(inspector) => RequestInspectionKeeps(c, inspector);
      case File(a, summary, inspectedAt, now, amounts) => ReportKeeps(c, a, summary, inspectedAt, now, amounts);
      case Reinspect(inspector, why) => ReinspectionKeeps(c, inspector, why);
      case Accept => ApproveSettlementKeeps(c);
      case Contest(why) => DisputeKeeps(c, why);
      case PayLeg(leg, key, usedElsewhere, outcome) => PayKeeps(c, leg, key, usedElsewhere, outcome);
      case Fetch => DownloadKeeps(c);
    }
  }

  lemma ApplyKeeps(c: Case, request: Request)
    requires Inv(c)
    ensures Inv(Apply(c, request))
  {
    if Perform(c, request).Ok? {
      PerformKeeps(c, request);
    }
  }

  /** Every committed state of every run satisfies the invariant. */
  lemma {:induction false} RunKeeps(deposit: nat, documentsRequired: bool, requests: seq<Request>)
    ensures Inv(Run(Initiated(deposit, documentsRequired), requests))
  {
    if requests != [] {
      RunKeeps(deposit, documentsRequired, requests[..|requests| - 1]);
      ApplyKeeps(Run(Initiated(deposit, documentsRequired), requests[..|requests| - 1]), requests[|requests| - 1]);
    }
  }

  // ----------------------------------------------------------- evolution

  /** Rows are only ever appended; a certificate keeps its figures; a terminal case keeps everything but
      its download counter. */
  predicate Evolves(c: Case, d: Case) {
    && d.deposit == c.deposit
    && c.history <= d.history
    && c.reports <= d.reports
    && c.payments <= d.payments
    && (c.noc.Some? ==> d.noc.Some? && d.settlement == c.settlement
                        && d.noc.value.downloads >= c.noc.value.downloads
                        && d.noc.value.(downloads := c.noc.value.downloads) == c.noc.value)
    && (Terminal(c.state) ==> d == c.(noc := d.noc))
  }

  lemma ReportEvolves(c: Case, index: nat, summary: string, inspectedAt: int, now: int, amounts: seq<int>)
    requires Inv(c) && ReportDamage(c, index, summary, inspectedAt, now, amounts).Ok?
    ensures Evolves(c, ReportDamage(c, index, summary, inspectedAt, now, amounts).value)
  {
    ReportShape(c, index, summary, inspectedAt, now, amounts);
  }

  lemma ApprovalEvolves(c: Case)
    requires Inv(c) && ApproveSettlement(c).Ok?
    ensures Evolves(c, ApproveSettlement(c).value)
  {
  }

  lemma PaymentEvolves(c: Case, leg: Leg, key: string, usedElsewhere: bool, outcome: Outcome)
    requires Inv(c) && Pay(c, leg, key, usedElsewhere, outcome).Ok?
    ensures Evolves(c, Pay(c, leg, key, usedElsewhere, outcome).value)
  {
  }

  lemma ApplyEvolves(c: Case, request: Request)
    requires Inv(c)
    ensures Evolves(c, Apply(c, request))
  {
    if Perform(c, request).Ok? {
      match request
      case File(a, summary, inspectedAt, now, amounts) => ReportEvolves(c, a, summary, inspectedAt, now, amounts);
      case Accept => ApprovalEvolves(c);
      case PayLeg(leg, key, usedElsewhere, outcome) => PaymentEvolves(c, leg, key, usedElsewhere, outcome);
      case _ => OthersEvolve(c, request);
    }
  }

  lemma OthersEvolve(c: Case, request: Request)
    requires Inv(c) && !request.File? && !request.Accept? && !request.PayLeg? && Perform(c, request).Ok?
    ensures Evolves(c, Perform(c, request).value)
  {
    if Plain(request) {
      MoveEvolves(c, Perform(c, request).value.state);
    } else if request.Offer? || request.Select? {
      SlotsEvolve(c, request);
    } else if request.Reinspect? || request.Approve? || request.Inspect? {
      InspectionsEvolve(c, request);
    }
  }

  lemma MoveEvolves(c: Case, target: State)
    requires Move(c, target).Ok?
    ensures Evolves(c, Move(c, target).value)
  {
  }

  lemma SlotsEvolve(c: Case, request: Request)
    requires Inv(c) && (request.Offer? || request.Select?) && Perform(c, request).Ok?
    ensures Evolves(c, Perform(c, request).value)
  {
  }

  lemma InspectionsEvolve(c: Case, request: Request)
    requires Inv(c) && (request.Reinspect? || request.Approve? || request.Inspect?) && Perform(c, request).Ok?
    ensures Evolves(c, Perform(c, request).value)
  {
  }

  lemma {:induction false} RunEvolves(c: Case, requests: seq<Request>)
    requires Inv(c)
    ensures Inv(Run(c, requests)) && Evolves(c, Run(c, requests))
  {
    if requests != [] {
      var before := Run(c, requests[..|requests| - 1]);
      RunEvolves(c, requests[..|requests| - 1]);
      ApplyKeeps(before, requests[|requests| - 1]);
      ApplyEvolves(before, requests[|requests| - 1]);
    }
  }

  // ------------------------------------------------------------ theorems

  /** What a leg's successful payments add up to. */
  function Moved(payments: seq<Payment>, leg: Leg): int {
    if payments == [] then 0
    else
      var last := payments[|payments| - 1];
      Moved(payments[..|payments| - 1], leg) + if last.leg == leg && last.status.Succeeded? then last.amount else 0
  }

  predicate Conserved(c: Case) {
    && !c.state.Settled?
    && (c.state.PendingSettlement? ==> HasStatus(c, Payable) && OneLegOutstanding(c.settlement.value))
    && (HasStatus(c, Payable) ==> c.state.PendingSettlement? || c.state.Cancelled?)
    && (c.noc.Some? <==> c.state.NocIssued? || c.state.Completed?)
    && (c.noc.Some? <==> HasStatus(c, Closed))
    && (if c.noc.Some? then
          && c.reports != []
          && Moved(c.payments, OwnerRefund) - Moved(c.payments, TenantBalance)
             == c.deposit - Sum(c.reports[|c.reports| - 1].amounts)
          && (Moved(c.payments, OwnerRefund) == 0 || Moved(c.payments, TenantBalance) == 0)
          && c.noc.value.refund == Moved(c.payments, OwnerRefund)
          && c.noc.value.balance == Moved(c.payments, TenantBalance)
          && c.noc.value.deposit == c.deposit
          && c.noc.value.deductions == Sum(c.reports[|c.reports| - 1].amounts)
        else
          c.payments == [])
  }

  lemma InvConserves(c: Case)
    requires Inv(c)
    ensures Conserved(c)
  {
  }

  /** Conservation over every run: what the owner paid out less what the tenant paid in is the deposit
      less the latest report's damage once the exit is certified, the certificate says so, and nothing
      has moved before. A payment is pending only for payable figures with exactly one leg outstanding, and
      "settled" is never committed. */
  lemma Conservation(deposit: nat, documentsRequired: bool, requests: seq<Request>)
    ensures Conserved(Run(Initiated(deposit, documentsRequired), requests))
    ensures Run(Initiated(deposit, documentsRequired), requests).deposit == deposit
  {
    var start := Initiated(deposit, documentsRequired);
    RunKeeps(deposit, documentsRequired, requests);
    InvConserves(Run(start, requests));
    RunKeeps(deposit, documentsRequired, []);
    RunEvolves(start, requests);
  }

  /** A report the case is ready for, whose own checks pass. */
  predicate GoodReport(c: Case, index: nat, summary: string, inspectedAt: int, now: int, amounts: seq<int>) {
    && (c.state.Scheduled? || c.state.Inspected?)
    && index < |c.assignments| && c.assignments[index].report.None?
    && !Blank(summary) && inspectedAt <= now && NonNegative(amounts)
  }

  /** A report is accepted exactly when its own checks pass: in particular the settlement it is to
      recompute is always still editable. */
  lemma ReportAcceptedIff(c: Case, index: nat, summary: string, inspectedAt: int, now: int, amounts: seq<int>)
    requires Inv(c)
    ensures ReportDamage(c, index, summary, inspectedAt, now, amounts).Ok?
       <==> GoodReport(c, index, summary, inspectedAt, now, amounts)
    ensures c.state.Scheduled? || c.state.Inspected? ==> Editable(c)
  {
  }

  /** A dispute is accepted exactly while approved figures wait for their payment, or after a repeated
      visit whose report is not in yet: a payment never stands in the way. */
  lemma DisputeAcceptedIff(c: Case, reason: string)
    requires Inv(c)
    ensures Dispute(c, reason).Ok?
       <==> !Blank(reason) && (c.state.PendingSettlement? || (c.state.Inspected? && c.reports != []))
  {
  }

  /** A payment is accepted exactly as a retry of a recorded one, or to settle the one leg that is still
      outstanding, and then it certifies the exit. */
  lemma PaymentAcceptedIff(c: Case, leg: Leg, key: string, usedElsewhere: bool, outcome: Outcome)
    requires Inv(c)
    ensures Pay(c, leg, key, usedElsewhere, outcome).Ok? <==>
      && !Blank(key)
      && (|| (exists i :: 0 <= i < |c.payments| && c.payments[i].key == key && c.payments[i].leg == leg)
          || (&& (forall i :: 0 <= i < |c.payments| ==> c.payments[i].key != key) && !usedElsewhere && outcome.Accepts?
              && c.state.PendingSettlement? && c.settlement.value.Outstanding(leg)))
    ensures Pay(c, leg, key, usedElsewhere, outcome).Ok? ==> Pay(c, leg, key, usedElsewhere, outcome).value.noc.Some?
  {
    if c.payments == [] && !Blank(key) && !usedElsewhere && outcome.Accepts? && c.state.PendingSettlement?
       && c.settlement.value.Outstanding(leg)
    {
      CloseShape(Credited(c, leg, key));
    } else if |c.payments| == 1 {
      KeyDecides(c.payments, key);
    }
  }

  /** An accepted payment leaves exactly one payment row: its own. */
  lemma PayLeaves(c: Case, leg: Leg, key: string, usedElsewhere: bool, outcome: Outcome)
    requires Inv(c) && Pay(c, leg, key, usedElsewhere, outcome).Ok?
    ensures var d := Pay(c, leg, key, usedElsewhere, outcome).value;
      d.noc.Some? && |d.payments| == 1 && d.payments[0].leg == leg && d.payments[0].key == key
  {
    if FindPayment(c.payments, key).None? {
      CloseShape(Credited(c, leg, key));
    }
  }

  lemma PaymentStays(c: Case, d: Case)
    requires Inv(c) && Inv(d) && Evolves(c, d) && c.noc.Some? && |c.payments| == 1
    ensures d.payments == c.payments && HasStatus(d, Closed)
  {
  }

  /** Retrying an accepted payment, whatever happened in between, succeeds and changes nothing; a
      payment under another key or of the other leg is refused for ever. */
  lemma PaidOnce(c: Case, leg: Leg, key: string, usedElsewhere: bool, outcome: Outcome, requests: seq<Request>,
                 otherLeg: Leg, otherKey: string, answer: Outcome)
    requires Inv(c) && Pay(c, leg, key, usedElsewhere, outcome).Ok?
    ensures var d := Run(Pay(c, leg, key, usedElsewhere, outcome).value, requests);
      && Pay(d, leg, key, usedElsewhere, answer) == Ok(d)
      && (otherKey != key || otherLeg != leg ==> Pay(d, otherLeg, otherKey, usedElsewhere, answer).Err?)
  {
    var paid := Pay(c, leg, key, usedElsewhere, outcome).value;
    PayKeeps(c, leg, key, usedElsewhere, outcome);
    PayLeaves(c, leg, key, usedElsewhere, outcome);
    RunEvolves(paid, requests);
    PaymentStays(paid, Run(paid, requests));
    KeyDecides(Run(paid, requests).payments, key);
    KeyDecides(Run(paid, requests).payments, otherKey);
  }

  lemma KeyDecides(payments: seq<Payment>, key: string)
    requires |payments| == 1
    ensures FindPayment(payments, key) == if payments[0].key == key then Some(payments[0]) else None
  {
  }

  /** Over every run, a certificate keeps the figures it was issued with, a terminal case keeps its state
      and money, and filed reports are never altered. */
  lemma NothingIsRewritten(deposit: nat, documentsRequired: bool, before: seq<Request>, after: seq<Request>)
    ensures var c := Run(Initiated(deposit, documentsRequired), before);
      Evolves(c, Run(c, after))
  {
    RunKeeps(deposit, documentsRequired, before);
    RunEvolves(Run(Initiated(deposit, documentsRequired), before), after);
  }
}
