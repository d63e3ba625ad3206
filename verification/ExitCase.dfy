/** One exit case: the workflow row with its inspection, settlement and certificate, and what every
    command does to it. Amounts are whole fils, already rounded; instants are seconds. */
module ExitCase {
  import opened Outcomes
  import opened ExitStates

  // ---------------------------------------------------------------- data

  datatype DisputeStatus = NoDispute | Raised | Upheld | DisputeRejected

  datatype Item = Item(id: nat, round: nat, estimated: nat, approved: Option<nat>, liable: bool,
                       dispute: DisputeStatus)
  {
    /** What the item contributes to the deductions. */
    function Chargeable(): nat {
      if !liable then 0 else if approved.Some? then approved.value else estimated
    }
  }

  datatype Inspection = Inspection(round: nat, items: seq<Item>, nextId: nat, reported: bool,
                                   assessedTotal: Option<nat>)

  /** The last two are declared by the source but no operation assigns them. */
  datatype SettlementStatus = DraftFigures | PendingApproval | Processing | Paid | PayoutFailed | Withdrawn

  /** Where a payment can be traced: nowhere but the deposit itself, or a payout of the provider. */
  datatype Reference = Offset | ProviderRef(index: nat)

  datatype Line = Line(item: Option<nat>, amount: nat)

  datatype Settlement = Settlement(status: SettlementStatus, deposit: nat, totalDeductions: nat,
                                   netRefund: nat, liability: nat, lines: seq<Line>, finalised: bool,
                                   key: Option<string>, reference: Option<Reference>, attempts: nat)

  datatype Certificate = Issued | Revoked

  datatype Case = Case(state: State, deposit: nat, defaultKey: string, history: seq<Row>,
                       closedAt: Option<int>, reviewOpenedAt: Option<int>,
                       inspection: Option<Inspection>, settlement: Option<Settlement>,
                       noc: Option<Certificate>)

  const MAX_AMOUNT: nat := 9_999_999_999
  const DISPUTE_WINDOW: nat := 5 * 86_400

  function NewCase(deposit: nat, defaultKey: string): Case {
    Case(Draft, deposit, defaultKey, [], None, None, None, None, None)
  }

  // ------------------------------------------------------------- money

  function SumLines(lines: seq<Line>): nat {
    if lines == [] then 0 else SumLines(lines[..|lines| - 1]) + lines[|lines| - 1].amount
  }

  /** Split a deposit against deductions: the refund, and what the tenant still owes. */
  function Settle(deposit: nat, deductions: nat): Result<(nat, nat)> {
    if deposit > MAX_AMOUNT || deductions > MAX_AMOUNT then Err(Invalid)
    else if deductions <= deposit then Ok((deposit - deductions, 0))
    else Ok((0, deductions - deposit))
  }

  // ------------------------------------------------------ damage items

  /** The deduction lines the items of `round` give rise to, in item order. */
  function LinesOf(items: seq<Item>, round: nat): seq<Line> {
    if items == [] then []
    else
      var item := items[|items| - 1];
      LinesOf(items[..|items| - 1], round)
      + if item.round != round || item.Chargeable() == 0 then [] else [Line(Some(item.id), item.Chargeable())]
  }

  function LinesFromInspection(inspection: Option<Inspection>): seq<Line> {
    if inspection.None? then [] else LinesOf(inspection.value.items, inspection.value.round)
  }

  function ManualLines(amounts: seq<nat>): (lines: seq<Line>)
    ensures |lines| == |amounts|
    ensures forall i :: 0 <= i < |lines| ==> lines[i] == Line(None, amounts[i])
  {
    seq(|amounts|, i requires 0 <= i < |amounts| => Line(None, amounts[i]))
  }

  /** The agency's estimates for one round, added up. */
  function SumEstimates(items: seq<Item>, round: nat): nat {
    if items == [] then 0
    else
      var item := items[|items| - 1];
      SumEstimates(items[..|items| - 1], round) + if item.round == round then item.estimated else 0
  }

  function OpenDisputes(items: seq<Item>): nat {
    if items == [] then 0
    else OpenDisputes(items[..|items| - 1]) + if items[|items| - 1].dispute.Raised? then 1 else 0
  }

  function WithoutRound(items: seq<Item>, round: nat): seq<Item> {
    if items == [] then []
    else
      WithoutRound(items[..|items| - 1], round)
      + if items[|items| - 1].round == round then [] else [items[|items| - 1]]
  }

  /** A line of the agency's report. */
  datatype Entry = Entry(estimated: nat, liable: bool)

  function NewItem(entry: Entry, id: nat, round: nat): Item {
    Item(id, round, entry.estimated, None, entry.liable, NoDispute)
  }

  function NewItems(entries: seq<Entry>, firstId: nat, round: nat): (items: seq<Item>)
    ensures |items| == |entries|
    ensures forall i :: 0 <= i < |items| ==> items[i] == NewItem(entries[i], firstId + i, round)
  {
    seq(|entries|, i requires 0 <= i < |entries| => NewItem(entries[i], firstId + i, round))
  }

  /** The position of the item with this identifier. */
  function FindItem(items: seq<Item>, id: nat): (found: Option<nat>)
    ensures found.Some? ==> found.value < |items| && items[found.value].id == id
    ensures found.None? ==> forall i :: 0 <= i < |items| ==> items[i].id != id
  {
    IndexWhere(items, (item: Item) => item.id == id)
  }

  function WithItem(c: Case, index: nat, item: Item): Case
    requires c.inspection.Some? && index < |c.inspection.value.items|
  {
    var inspection := c.inspection.value;
    c.(inspection := Some(inspection.(items := inspection.items[index := item])))
  }

  // ------------------------------------------------------------- engine

  /** The one place where a case changes state. */
  function Move(c: Case, action: Action, role: Role, now: int): Result<Case> {
    var _ :- Need(!Terminal(c.state), WorkflowClosed);
    var target :- Authorise(c.state, action, role);
    Ok(c.(state := target,
          history := c.history + [Row(c.state, target, action)],
          closedAt := if Terminal(target) then Some(now) else c.closedAt))
  }

  // ---------------------------------------------------------- lifecycle

  function ApproveExit(c: Case, role: Role, now: int, corrected: Option<nat>): Result<Case> {
    var _ :- Need(corrected.None? || role.Owner? || role.Admin?, Unauthorised);
    var priced := if corrected.Some? then c.(deposit := corrected.value) else c;
    var moved :- Move(priced, OwnerApprove, role, now);
    Ok(if moved.inspection.Some? then moved
       else moved.(inspection := Some(Inspection(1, [], 0, false, None))))
  }

  function CompleteExit(c: Case, role: Role, now: int): Result<Case> {
    var _ :- Need(c.state.NocIssued?, RuleViolated);
    Move(c, Complete, role, now)
  }

  // --------------------------------------------------------- inspection

  predicate AgencyMay(role: Role) {
    role.Agency? || role.Admin? || role.System?
  }

  function Schedule(c: Case, role: Role, now: int, action: Action): Result<Case> {
    var _ :- Need(c.inspection.Some?, NotFound);
    var _ :- Need(action != ProposeSlots || AgencyMay(role), Unauthorised);
    Move(c, action, role, now)
  }

  function OpenDamageReview(c: Case, now: int): Result<Case> {
    Move(c.(reviewOpenedAt := Some(now)), OpenReview, System, now)
  }

  /** The inspection with the current round's report replaced by `entries`. */
  function Reported(c: Case, entries: seq<Entry>): Case
    requires c.inspection.Some?
  {
    var inspection := c.inspection.value;
    var added := NewItems(entries, inspection.nextId, inspection.round);
    c.(inspection := Some(inspection.(
         items := WithoutRound(inspection.items, inspection.round) + added,
         nextId := inspection.nextId + |entries|,
         reported := true,
         assessedTotal := Some(SumEstimates(added, inspection.round)))))
  }

  function ReportDamage(c: Case, role: Role, now: int, conductedAt: int, entries: seq<Entry>): Result<Case> {
    var _ :- Need(c.inspection.Some?, NotFound);
    var _ :- Need(AgencyMay(role), Unauthorised);
    var _ :- Need(conductedAt <= now, Invalid);
    var moved :- Move(Reported(c, entries), SubmitReport, role, now);
    OpenDamageReview(moved, now)
  }

  predicate OwnerMay(role: Role) {
    role.Owner? || role.Admin?
  }

  function AdjustItem(c: Case, role: Role, id: nat, approved: Option<nat>, liable: Option<bool>): Result<Case> {
    var _ :- Need(c.state.DamageReview?, Conflict);
    var _ :- Need(OwnerMay(role), Unauthorised);
    var _ :- Need(c.inspection.Some?, NotFound);
    var found := FindItem(c.inspection.value.items, id);
    var _ :- Need(found.Some?, NotFound);
    var item := c.inspection.value.items[found.value];
    var _ :- Need(approved.None? || approved.value <= item.estimated, RuleViolated);
    Ok(WithItem(c, found.value,
                item.(approved := if approved.Some? then approved else item.approved,
                      liable := if liable.Some? then liable.value else item.liable)))
  }

  function DisputeItem(c: Case, role: Role, now: int, id: nat): Result<Case> {
    var _ :- Need(c.state.DamageReview?, Conflict);
    var _ :- Need(role.Tenant? || role.Admin?, Unauthorised);
    var _ :- Need(c.reviewOpenedAt.Some?, Conflict);
    var _ :- Need(now < c.reviewOpenedAt.value + DISPUTE_WINDOW, RuleViolated);
    var _ :- Need(c.inspection.Some?, NotFound);
    var found := FindItem(c.inspection.value.items, id);
    var _ :- Need(found.Some?, NotFound);
    var item := c.inspection.value.items[found.value];
    var _ :- Need(item.dispute.NoDispute?, Conflict);
    Ok(WithItem(c, found.value, item.(dispute := Raised)))
  }

  function ResolveItem(c: Case, role: Role, id: nat, uphold: bool, approved: Option<nat>): Result<Case> {
    var _ :- Need(c.state.DamageReview?, Conflict);
    var _ :- Need(OwnerMay(role), Unauthorised);
    var _ :- Need(c.inspection.Some?, NotFound);
    var found := FindItem(c.inspection.value.items, id);
    var _ :- Need(found.Some?, NotFound);
    var item := c.inspection.value.items[found.value];
    var _ :- Need(item.dispute.Raised?, Conflict);
    var charge := if approved.Some? then approved.value else 0;
    var _ :- Need(!uphold || charge <= item.estimated, Invalid);
    Ok(WithItem(c, found.value,
                if uphold then item.(approved := Some(charge), dispute := Upheld)
                else item.(dispute := DisputeRejected)))
  }

  function RequestReinspection(c: Case, role: Role, now: int): Result<Case> {
    var _ :- Need(OwnerMay(role), Unauthorised);
    var _ :- Need(c.inspection.Some?, NotFound);
    var inspection := c.inspection.value;
    Move(c.(inspection := Some(inspection.(round := inspection.round + 1, reported := false)),
            reviewOpenedAt := None),
         Reinspect, role, now)
  }

  // --------------------------------------------------------- settlement

  predicate Editable(status: SettlementStatus) {
    status.DraftFigures? || status.PendingApproval? || status.PayoutFailed?
  }

  function FinaliseFigures(c: Case, role: Role, now: int, manual: seq<nat>, expected: Option<nat>): Result<Case> {
    var _ :- Need(OwnerMay(role), Unauthorised);
    var _ :- Need(c.inspection.Some? && c.inspection.value.reported, RuleViolated);
    var _ :- Need(OpenDisputes(c.inspection.value.items) == 0, RuleViolated);
    var lines := LinesFromInspection(c.inspection) + ManualLines(manual);
    var deductions := SumLines(lines);
    var split :- Settle(c.deposit, deductions);
    var _ :- Need(expected.None? || expected.value == split.0, Conflict);
    var _ :- Need(c.settlement.None? || Editable(c.settlement.value.status), Conflict);
    var base := if c.settlement.Some? then c.settlement.value
                else Settlement(DraftFigures, c.deposit, 0, 0, 0, [], false, None, None, 0);
    var settlement := base.(status := PendingApproval, deposit := c.deposit, totalDeductions := deductions,
                            netRefund := split.0, liability := split.1, lines := lines, finalised := true);
    Move(c.(settlement := Some(settlement)), Finalise, role, now)
  }

  function ReopenReview(c: Case, role: Role, now: int): Result<Case> {
    var _ :- Need(OwnerMay(role), Unauthorised);
    var _ :- Need(c.settlement.Some?, NotFound);
    var _ :- Need(c.settlement.value.status.PendingApproval?, Conflict);
    Move(c.(settlement := Some(c.settlement.value.(status := DraftFigures, finalised := false))),
         Reopen, role, now)
  }

  /** Whether the owner asks for a transfer or only for the deposit to be offset. */
  datatype PayoutMethod = Transfer | OffsetOnly

  /** The provider key of a settlement: bound by its first payment, kept ever after. */
  function BoundKey(c: Case, settlement: Settlement, requested: Option<string>): string {
    if settlement.key.Some? then settlement.key.value
    else if requested.Some? && requested.value != "" then requested.value
    else c.defaultKey
  }

  /** Bind the key and count the attempt. */
  function Bind(c: Case, requested: Option<string>): Case
    requires c.settlement.Some?
  {
    var settlement := c.settlement.value;
    c.(settlement := Some(settlement.(attempts := settlement.attempts + 1,
                                      key := Some(BoundKey(c, settlement, requested)))))
  }

  function StartPayment(c: Case, role: Role, now: int, requested: Option<string>): Result<Case>
    requires c.settlement.Some?
  {
    Move(Bind(c, requested), PayDeposit, role, now)
  }

  function WithStatus(c: Case, status: SettlementStatus): Case
    requires c.settlement.Some?
  {
    c.(settlement := Some(c.settlement.value.(status := status)))
  }

  /** Nothing to transfer: the deductions consumed the deposit. */
  function Offsetting(c: Case): Case
    requires c.settlement.Some?
  {
    c.(settlement := Some(c.settlement.value.(status := Paid, reference := Some(Offset))))
  }

  function Pay(c: Case, role: Role, now: int, payoutMethod: PayoutMethod, requested: Option<string>): Result<Case> {
    var _ :- Need(OwnerMay(role), Unauthorised);
    var _ :- Need(c.settlement.Some?, NotFound);
    var settlement := c.settlement.value;
    var _ :- Need(settlement.status.PendingApproval?, Conflict);
    var _ :- Need((settlement.netRefund > 0) == payoutMethod.Transfer?, Invalid);
    var started :- StartPayment(c, role, now, requested);
    if settlement.netRefund > 0 then
      Ok(WithStatus(started, Processing))
    else
      Confirm(Offsetting(started), now, None)
  }

  function Certify(c: Case, now: int): Result<Case> {
    if c.noc.Some? then Ok(c)
    else
      var _ :- Need(c.state.SettlementCompleted?, Conflict);
      Move(c.(noc := Some(Issued)), IssueNoc, System, now)
  }

  /** Record a successful payout and hand over to the certificate. */
  function Confirm(c: Case, now: int, reference: Option<Reference>): Result<Case> {
    var _ :- Need(c.settlement.Some?, NotFound);
    var settlement := c.settlement.value;
    if settlement.status.Paid? && (c.state.SettlementCompleted? || c.state.NocIssued? || c.state.Completed?) then
      Ok(c)
    else
      var paid := settlement.(status := Paid,
                              reference := if reference.Some? then reference else settlement.reference);
      var moved :- Move(c.(settlement := Some(paid)), SettlementSucceeded, System, now);
      Certify(moved, now)
  }

  /** Record a failed payout and return the settlement to the owner. */
  function FailPayout(c: Case, now: int): Result<Case> {
    var _ :- Need(c.settlement.Some?, NotFound);
    if !c.settlement.value.status.Processing? then
      Ok(c)
    else
      Move(c.(settlement := Some(c.settlement.value.(status := PendingApproval))), SettlementFailed, System, now)
  }

  function Revoke(c: Case, role: Role): Result<Case> {
    var _ :- Need(role.Admin?, Unauthorised);
    var _ :- Need(c.noc.Some?, NotFound);
    Ok(c.(noc := Some(Revoked)))
  }

  // ----------------------------------------------------------- commands

  /** The requests parties and sweeps may issue. Provider outcomes arrive another way. */
  datatype Command =
    | DoSubmit
    | DoWithdraw
    | DoCancel
    | DoExpire
    | DoReject
    | DoApprove(corrected: Option<nat>)
    | DoPropose
    | DoSelect
    | DoReschedule
    | DoReport(conductedAt: int, entries: seq<Entry>)
    | DoAdjust(id: nat, newCost: Option<nat>, newLiable: Option<bool>)
    | DoDispute(id: nat)
    | DoResolve(id: nat, uphold: bool, revised: Option<nat>)
    | DoReinspect
    | DoFinalise(manual: seq<nat>, expected: Option<nat>)
    | DoReopen
    | DoPay(payoutMethod: PayoutMethod, requestedKey: Option<string>)
    | DoComplete
    | DoRevoke

  function Perform(c: Case, command: Command, role: Role, now: int): Result<Case> {
    match command
    case DoSubmit => Move(c, Submit, role, now)
    case DoWithdraw => Move(c, Withdraw, role, now)
    case DoCancel => Move(c, Cancel, role, now)
    case DoExpire => Move(c, Expire, role, now)
    case DoReject => Move(c, OwnerReject, role, now)
    case DoApprove(corrected) => ApproveExit(c, role, now, corrected)
    case DoPropose => Schedule(c, role, now, ProposeSlots)
    case DoSelect => Schedule(c, role, now, SelectSlot)
    case DoReschedule => Schedule(c, role, now, Reschedule)
    case DoReport(conductedAt, entries) => ReportDamage(c, role, now, conductedAt, entries)
    case DoAdjust(id, newCost, newLiable) => AdjustItem(c, role, id, newCost, newLiable)
    case DoDispute(id) => DisputeItem(c, role, now, id)
    case DoResolve(id, uphold, revised) => ResolveItem(c, role, id, uphold, revised)
    case DoReinspect => RequestReinspection(c, role, now)
    case DoFinalise(manual, expected) => FinaliseFigures(c, role, now, manual, expected)
    case DoReopen => ReopenReview(c, role, now)
    case DoPay(payoutMethod, requestedKey) => Pay(c, role, now, payoutMethod, requestedKey)
    case DoComplete => CompleteExit(c, role, now)
    case DoRevoke => Revoke(c, role)
  }
}
