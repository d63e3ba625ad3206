/** The escrow variant of an exit: damage reports are immutable rows, the settlement is derived from the
    latest one, and each non-zero leg is paid through a gateway. Amounts are whole fils. */
module EscrowCase {
  import opened Outcomes
  import opened Texts

  // ---------------------------------------------------------------- data

  datatype State =
    | Draft
    | DocumentsPending
    | PendingOwnerApproval
    | OwnerApproved
    | Scheduling
    | Scheduled
    | Inspected
    | DamageReview
    | PendingSettlement
    | Settled
    | NocIssued
    | Completed
    | Cancelled
    | Rejected

  datatype AssignmentStatus = Requested | SlotsProposed | Booked | Done

  /** One visit of an agency; `report` is the index of the report it led to. */
  datatype Assignment = Assignment(status: AssignmentStatus, offered: nat, report: Option<nat>)

  datatype Report = Report(assignment: nat, amounts: seq<int>, total: int)

  datatype SettlementStatus = DraftFigures | Payable | Closed | Void

  datatype Settlement = Settlement(status: SettlementStatus, report: nat, deposit: int, deductions: int,
                                   refund: int, balance: int, approved: bool, refundSettled: bool,
                                   balanceSettled: bool, closed: bool)
  {
    function LegAmount(leg: Leg): int {
      if leg.OwnerRefund? then refund else balance
    }

    predicate LegSettled(leg: Leg) {
      if leg.OwnerRefund? then refundSettled else balanceSettled
    }

    predicate Outstanding(leg: Leg) {
      LegAmount(leg) > 0 && !LegSettled(leg)
    }

    predicate FullySettled() {
      !Outstanding(OwnerRefund) && !Outstanding(TenantBalance)
    }
  }

  datatype Leg = OwnerRefund | TenantBalance

  datatype PaymentStatus = Pending | Succeeded | Failed

  datatype Payment = Payment(leg: Leg, amount: int, status: PaymentStatus, key: string)

  /** The certificate keeps its own copy of the figures. */
  datatype Certificate = Certificate(deposit: int, deductions: int, refund: int, balance: int, downloads: nat)

  datatype Hop = Hop(source: State, target: State)

  datatype Case = Case(state: State, isActive: bool, deposit: nat, history: seq<Hop>,
                       assignments: seq<Assignment>, reports: seq<Report>,
                       settlement: Option<Settlement>, payments: seq<Payment>, noc: Option<Certificate>)

  // --------------------------------------------------------------- table

  predicate Terminal(s: State) {
    s.Completed? || s.Cancelled? || s.Rejected?
  }

  predicate Cancellable(s: State) {
    !Terminal(s) && !s.Settled? && !s.NocIssued?
  }

  predicate CanTransition(source: State, target: State) {
    match target
    case Draft => false
    case DocumentsPending => source.Draft?
    case PendingOwnerApproval => source.Draft? || source.DocumentsPending?
    case OwnerApproved => source.PendingOwnerApproval?
    case Scheduling => source.OwnerApproved? || source.Scheduled? || source.DamageReview?
    case Scheduled => source.Scheduling?
    case Inspected => source.Scheduled?
    case DamageReview => source.Inspected? || source.PendingSettlement?
    case PendingSettlement => source.DamageReview?
    case Settled => source.PendingSettlement?
    case NocIssued => source.Settled?
    case Completed => source.NocIssued?
    case Cancelled => Cancellable(source)
    case Rejected => source.PendingOwnerApproval?
  }

  /** A new workflow starts with its documents pending when any are required. Its creation is recorded
      as a first history row, which need not be an edge of the table. */
  function Initiated(deposit: nat, documentsRequired: bool): Case {
    var initial := if documentsRequired then DocumentsPending else Draft;
    Case(initial, true, deposit, [Hop(Draft, initial)], [], [], None, [], None)
  }

  /** The one place where a case changes state; the activity flag mirrors the state. */
  function Move(c: Case, target: State): Result<Case> {
    var _ :- Need(CanTransition(c.state, target), IllegalTransition);
    Ok(c.(state := target, isActive := !Terminal(target), history := c.history + [Hop(c.state, target)]))
  }

  // ----------------------------------------------------------- lifecycle

  function SubmitExit(c: Case, documentsMissing: bool): Result<Case> {
    var _ :- Need(!documentsMissing, Invalid);
    Move(c, PendingOwnerApproval)
  }

  /** What the agency directory says about an identifier. */
  datatype Agency = Unknown | Inactive | Active

  function ApproveExit(c: Case, agency: Option<Agency>): Result<Case> {
    var approved :- Move(c, OwnerApproved);
    if agency.Some? then RequestInspection(approved, agency.value) else Ok(approved)
  }

  function RejectExit(c: Case, reason: string): Result<Case> {
    var _ :- Need(!Blank(reason), Invalid);
    Move(c, Rejected)
  }

  function CancelExit(c: Case, reason: string): Result<Case> {
    var _ :- Need(!Blank(reason), Invalid);
    var _ :- Need(Cancellable(c.state), Conflict);
    Move(c, Cancelled)
  }

  // ---------------------------------------------------------- inspection

  function RequestInspection(c: Case, agency: Agency): Result<Case> {
    var _ :- Need(!agency.Unknown?, NotFound);
    var _ :- Need(agency.Active?, Conflict);
    var moved :- Move(c, Scheduling);
    Ok(moved.(assignments := moved.assignments + [Assignment(Requested, 0, None)]))
  }

  function WithAssignment(c: Case, index: nat, assignment: Assignment): Case
    requires index < |c.assignments|
  {
    c.(assignments := c.assignments[index := assignment])
  }

  const MAX_SLOTS: nat := 10

  /** `added` of the `count` proposed windows are not yet on offer. */
  function OfferSlots(c: Case, index: nat, count: nat, added: nat): Result<Case> {
    var _ :- Need(index < |c.assignments|, NotFound);
    var _ :- Need(c.state.Scheduling?, Conflict);
    var assignment := c.assignments[index];
    var _ :- Need(assignment.status.Requested? || assignment.status.SlotsProposed?, Conflict);
    var _ :- Need(0 < count <= MAX_SLOTS, Invalid);
    Ok(WithAssignment(c, index, assignment.(status := SlotsProposed, offered := assignment.offered + added)))
  }

  function SelectSlot(c: Case, slot: nat, startsAt: int, now: int): Result<Case> {
    var _ :- Need(c.assignments != [], Conflict);
    var _ :- Need(c.state.Scheduling?, Conflict);
    var last := |c.assignments| - 1;
    var _ :- Need(slot < c.assignments[last].offered, NotFound);
    var _ :- Need(startsAt > now, Invalid);
    Move(WithAssignment(c, last, c.assignments[last].(status := Booked)), Scheduled)
  }

  function CompleteInspection(c: Case, index: nat): Result<Case> {
    var _ :- Need(index < |c.assignments|, NotFound);
    Move(c, Inspected)
  }

  function Sum(amounts: seq<int>): int {
    if amounts == [] then 0 else Sum(amounts[..|amounts| - 1]) + amounts[|amounts| - 1]
  }

  predicate NonNegative(amounts: seq<int>) {
    forall i :: 0 <= i < |amounts| ==> amounts[i] >= 0
  }

  function Filed(c: Case, index: nat, amounts: seq<int>): Case
    requires index < |c.assignments|
  {
    var filed := c.(reports := c.reports + [Report(index, amounts, Sum(amounts))]);
    WithAssignment(filed, index, c.assignments[index].(status := Done, report := Some(|c.reports|)))
  }

  /** The visit is taken to have happened when its report arrives early. */
  function Visited(c: Case): Result<Case> {
    if c.state.Scheduled? then Move(c, Inspected) else Ok(c)
  }

  function ReportDamage(c: Case, index: nat, summary: string, inspectedAt: int, now: int,
                        amounts: seq<int>): Result<Case> {
    var _ :- Need(index < |c.assignments|, NotFound);
    var _ :- Need(c.assignments[index].report.None?, Conflict);
    var _ :- Need(!Blank(summary), Invalid);
    var _ :- Need(inspectedAt <= now, Invalid);
    var visited :- Visited(c);
    var _ :- Need(visited.state.Inspected?, Conflict);
    var _ :- Need(NonNegative(amounts), Invalid);
    var reviewed :- Move(Filed(visited, index, amounts), DamageReview);
    ComputeForReport(reviewed, |c.reports|)
  }

  function OrderReinspection(c: Case, agency: Agency, reason: string): Result<Case> {
    var _ :- Need(!Blank(reason), Invalid);
    var _ :- Need(c.state.DamageReview?, Conflict);
    var voided :- VoidForReinspection(c);
    RequestInspection(voided, agency)
  }

  // ---------------------------------------------------------- settlement

  function Max(a: int, b: int): int {
    if a < b then b else a
  }

  function Figures(report: nat, deposit: int, deductions: int): Settlement {
    var net := deposit - deductions;
    Settlement(DraftFigures, report, deposit, deductions, Max(net, 0), Max(-net, 0), false, false, false, false)
  }

  predicate Editable(c: Case) {
    c.settlement.None? || c.settlement.value.status.DraftFigures? || c.settlement.value.status.Void?
  }

  function ComputeForReport(c: Case, report: nat): Result<Case>
    requires report < |c.reports|
  {
    var _ :- Need(Editable(c), Conflict);
    Ok(c.(settlement := Some(Figures(report, c.deposit, Sum(c.reports[report].amounts)))))
  }

  function VoidForReinspection(c: Case): Result<Case> {
    if c.settlement.None? then Ok(c)
    else
      var _ :- Need(!c.settlement.value.status.Closed?, Conflict);
      Ok(c.(settlement := Some(c.settlement.value.(status := Void))))
  }

  /** A leg with nothing to pay is satisfied by the approval itself. */
  function Accepted(settlement: Settlement): Settlement {
    settlement.(status := Payable,
                approved := true,
                refundSettled := settlement.refundSettled || settlement.refund == 0,
                balanceSettled := settlement.balanceSettled || settlement.balance == 0)
  }

  function ApproveSettlement(c: Case): Result<Case> {
    var _ :- Need(c.settlement.Some?, NotFound);
    var _ :- Need(c.settlement.value.status.DraftFigures?, Conflict);
    var moved :- Move(c, PendingSettlement);
    CloseIfFullySettled(moved.(settlement := Some(Accepted(c.settlement.value))))
  }

  predicate AnySucceeded(payments: seq<Payment>) {
    exists i :: 0 <= i < |payments| && payments[i].status.Succeeded?
  }

  function Contested(settlement: Settlement): Settlement {
    settlement.(status := DraftFigures, approved := false, refundSettled := false, balanceSettled := false)
  }

  function Dispute(c: Case, reason: string): Result<Case> {
    var _ :- Need(!Blank(reason), Invalid);
    var _ :- Need(c.settlement.Some?, NotFound);
    var _ :- Need(!AnySucceeded(c.payments), Conflict);
    var moved :- Move(c, DamageReview);
    Ok(moved.(settlement := Some(Contested(c.settlement.value))))
  }

  /** How the gateway answers; anything but success is raised and rolls the request back. */
  datatype Outcome = Accepts | Defers | Declines

  /** The payment recorded under a key. */
  function FindPayment(payments: seq<Payment>, key: string): (found: Option<Payment>)
    ensures found.Some? ==> found.value in payments && found.value.key == key
    ensures found.None? ==> forall i :: 0 <= i < |payments| ==> payments[i].key != key
  {
    if payments == [] then None
    else if payments[0].key == key then Some(payments[0])
    else FindPayment(payments[1..], key)
  }

  function WithLegSettled(settlement: Settlement, leg: Leg): Settlement {
    if leg.OwnerRefund? then settlement.(refundSettled := true) else settlement.(balanceSettled := true)
  }

  function Credited(c: Case, leg: Leg, key: string): Case
    requires c.settlement.Some?
  {
    var settlement := c.settlement.value;
    c.(payments := c.payments + [Payment(leg, settlement.LegAmount(leg), Succeeded, key)],
       settlement := Some(WithLegSettled(settlement, leg)))
  }

  /** Pay one leg. `usedElsewhere` says whether another settlement's payment already has this key. */
  function Pay(c: Case, leg: Leg, key: string, usedElsewhere: bool, outcome: Outcome): Result<Case> {
    var _ :- Need(!Blank(key), Invalid);
    var _ :- Need(c.settlement.Some?, NotFound);
    var existing := FindPayment(c.payments, key);
    if existing.Some? || usedElsewhere then
      var _ :- Need(existing.Some? && existing.value.leg == leg, KeyReused);
      Ok(c)
    else
      var _ :- Need(c.settlement.value.status.Payable?, NotPayable);
      var _ :- Need(c.state.PendingSettlement?, Conflict);
      var _ :- Need(c.settlement.value.LegAmount(leg) > 0, NotPayable);
      var _ :- Need(!c.settlement.value.LegSettled(leg), Conflict);
      var _ :- Need(outcome.Accepts?, Conflict);
      CloseIfFullySettled(Credited(c, leg, key))
  }

  /** Once no leg is outstanding the settlement closes and the certificate is issued with it. */
  function CloseIfFullySettled(c: Case): Result<Case>
    requires c.settlement.Some?
  {
    var settlement := c.settlement.value;
    if !settlement.FullySettled() || settlement.status.Closed? then Ok(c)
    else
      var moved :- Move(c.(settlement := Some(settlement.(status := Closed, closed := true))), Settled);
      IssueNoc(moved)
  }

  // --------------------------------------------------------- certificate

  function Snapshot(settlement: Settlement): Certificate {
    Certificate(settlement.deposit, settlement.deductions, settlement.refund, settlement.balance, 0)
  }

  function IssueNoc(c: Case): Result<Case>
    requires c.settlement.Some?
  {
    var _ :- Need(c.settlement.value.status.Closed?, Conflict);
    if c.noc.Some? then Ok(c)
    else Move(c.(noc := Some(Snapshot(c.settlement.value))), NocIssued)
  }

  /** The first download completes the exit; later ones only count. */
  function Download(c: Case): Result<Case> {
    var _ :- Need(c.noc.Some?, NotFound);
    var counted := c.(noc := Some(c.noc.value.(downloads := c.noc.value.downloads + 1)));
    if c.state.NocIssued? then Move(counted, Completed) else Ok(counted)
  }

  // ------------------------------------------------------------ requests

  datatype Request =
    | Submit(documentsMissing: bool)
    | Approve(agency: Option<Agency>)
    | Reject(why: string)
    | Cancel(why: string)
    | Inspect(inspector: Agency)
    | Offer(assignment: nat, count: nat, added: nat)
    | Select(slot: nat, startsAt: int, now: int)
    | Visit(assignment: nat)
    | File(assignment: nat, summary: string, inspectedAt: int, now: int, amounts: seq<int>)
    | Reinspect(inspector: Agency, why: string)
    | Accept
    | Contest(why: string)
    | PayLeg(leg: Leg, key: string, usedElsewhere: bool, outcome: Outcome)
    | Fetch
    | Finish

  function Perform(c: Case, request: Request): Result<Case> {
    match request
    case Submit(documentsMissing) => SubmitExit(c, documentsMissing)
    case Approve(agency) => ApproveExit(c, agency)
    case Reject(why) => RejectExit(c, why)
    case Cancel(why) => CancelExit(c, why)
    case Inspect(inspector) => RequestInspection(c, inspector)
    case Offer(assignment, count, added) => OfferSlots(c, assignment, count, added)
    case Select(slot, startsAt, now) => SelectSlot(c, slot, startsAt, now)
    case Visit(assignment) => CompleteInspection(c, assignment)
    case File(assignment, summary, inspectedAt, now, amounts) =>
      ReportDamage(c, assignment, summary, inspectedAt, now, amounts)
    case Reinspect(inspector, why) => OrderReinspection(c, inspector, why)
    case Accept => ApproveSettlement(c)
    case Contest(why) => Dispute(c, why)
    case PayLeg(leg, key, usedElsewhere, outcome) => Pay(c, leg, key, usedElsewhere, outcome)
    case Fetch => Download(c)
    case Finish => Move(c, Completed)
  }

  /** Every request is one transaction. */
  function Apply(c: Case, request: Request): Case {
    Committed(c, Perform(c, request))
  }

  function Run(c: Case, requests: seq<Request>): Case {
    if requests == [] then c else Apply(Run(c, requests[..|requests| - 1]), requests[|requests| - 1])
  }
}
