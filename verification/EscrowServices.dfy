/** The escrow services, working in place on one case record. Each method's contract says that it realises
    the value-level operation and no more. What is worth knowing is said of those operations, in EscrowSafety,
    and reaches the record through `HandleRequest`: a request that raises may leave fields half changed, and
    the transaction around it undoes them. */
module EscrowServices {
  import opened Outcomes
  import opened Texts
  import opened EscrowCase
  import opened EscrowSafety

  class EscrowRecord {
    var state: State
    var isActive: bool
    const deposit: nat
    var history: seq<Hop>
    var assignments: seq<Assignment>
    var reports: seq<Report>
    var settlement: Option<Settlement>
    var payments: seq<Payment>
    var noc: Option<Certificate>

    function View(): Case
      reads this
    {
      Case(state, isActive, deposit, history, assignments, reports, settlement, payments, noc)
    }

    constructor (deposit: nat, documentsRequired: bool)
      ensures View() == Initiated(deposit, documentsRequired)
    {
      this.state := if documentsRequired then DocumentsPending else Draft;
      this.isActive := true;
      this.deposit := deposit;
      this.history := [Hop(Draft, if documentsRequired then DocumentsPending else Draft)];
      this.assignments, this.reports, this.payments := [], [], [];
      this.settlement := None;
      this.noc := None;
    }

    method Transition(target: State) returns (r: Result<()>)
      modifies this`state, this`isActive, this`history
      ensures Realises(r, Move(old(View()), target), View())
    {
      var _ :- Need(CanTransition(state, target), IllegalTransition);
      var record := Hop(state, target);
      state := target;
      isActive := !Terminal(target);
      history := history + [record];
      return Ok(());
    }

    // ------------------------------------------------------- lifecycle

    method OwnerApprove(agency: Option<Agency>) returns (r: Result<()>)
      modifies this
      ensures Realises(r, ApproveExit(old(View()), agency), View())
    {
      var _ :- Transition(OwnerApproved);
      if agency.Some? {
        r := AssignAgency(agency.value);
      } else {
        return Ok(());
      }
    }

    method CancelWorkflow(reason: string) returns (r: Result<()>)
      modifies this
      ensures Realises(r, CancelExit(old(View()), reason), View())
    {
      var _ :- Need(!Blank(reason), Invalid);
      var _ :- Need(Cancellable(state), Conflict);
      r := Transition(Cancelled);
    }

    // ------------------------------------------------------ inspection

    method AssignAgency(agency: Agency) returns (r: Result<()>)
      modifies this
      ensures Realises(r, RequestInspection(old(View()), agency), View())
    {
      var _ :- Need(!agency.Unknown?, NotFound);
      var _ :- Need(agency.Active?, Conflict);
      var _ :- Transition(Scheduling);
      assignments := assignments + [Assignment(Requested, 0, None)];
      return Ok(());
    }

    method ProposeSlots(index: nat, count: nat, added: nat) returns (r: Result<()>)
      modifies this`assignments
      ensures Realises(r, OfferSlots(old(View()), index, count, added), View())
    {
      var _ :- Need(index < |assignments|, NotFound);
      var _ :- Need(state.Scheduling?, Conflict);
      var assignment := assignments[index];
      var _ :- Need(assignment.status.Requested? || assignment.status.SlotsProposed?, Conflict);
      var _ :- Need(0 < count <= MAX_SLOTS, Invalid);
      assignment := assignment.(offered := assignment.offered + added);
      assignment := assignment.(status := SlotsProposed);
      assignments := assignments[index := assignment];
      return Ok(());
    }

    method ConfirmSlot(slot: nat, startsAt: int, now: int) returns (r: Result<()>)
      modifies this
      ensures Realises(r, SelectSlot(old(View()), slot, startsAt, now), View())
    {
      var _ :- Need(assignments != [], Conflict);
      var _ :- Need(state.Scheduling?, Conflict);
      var current := |assignments| - 1;
      var _ :- Need(slot < assignments[current].offered, NotFound);
      var _ :- Need(startsAt > now, Invalid);
      assignments := assignments[current := assignments[current].(status := Booked)];
      r := Transition(Scheduled);
    }

    method CompleteVisit(index: nat) returns (r: Result<()>)
      modifies this
      ensures Realises(r, CompleteInspection(old(View()), index), View())
    {
      var _ :- Need(index < |assignments|, NotFound);
      r := Transition(Inspected);
    }

    method SubmitDamageReport(index: nat, summary: string, inspectedAt: int, now: int, amounts: seq<int>)
      returns (r: Result<()>)
      modifies this
      ensures Realises(r, ReportDamage(old(View()), index, summary, inspectedAt, now, amounts), View())
    {
      var _ :- Need(index < |assignments|, NotFound);
      var _ :- Need(assignments[index].report.None?, Conflict);
      var _ :- Need(!Blank(summary), Invalid);
      var _ :- Need(inspectedAt <= now, Invalid);
      if state.Scheduled? {
        var _ :- Transition(Inspected);
      }
      var _ :- Need(state.Inspected?, Conflict);
      ghost var visited := View();
      for k := 0 to |amounts|
        invariant NonNegative(amounts[..k])
      {
        var _ :- Need(amounts[k] >= 0, Invalid);
      }
      assert amounts[..|amounts|] == amounts;
      var report := |reports|;
      reports := reports + [Report(index, [], Sum(amounts))];
      for k := 0 to |amounts|
        invariant View() == visited.(reports := visited.reports + [Report(index, amounts[..k], Sum(amounts))])
      {
        var filed := reports[report];
        reports := reports[report := filed.(amounts := filed.amounts + [amounts[k]])];
        assert amounts[..k + 1] == amounts[..k] + [amounts[k]];
      }
      assignments := assignments[index := assignments[index].(report := Some(report))];
      assignments := assignments[index := assignments[index].(status := Done)];
      assert View() == Filed(visited, index, amounts);
      var _ :- Transition(DamageReview);
      r := ComputeSettlement(report);
    }

    method RepeatInspection(agency: Agency, reason: string) returns (r: Result<()>)
      modifies this
      ensures Realises(r, OrderReinspection(old(View()), agency, reason), View())
    {
      var _ :- Need(!Blank(reason), Invalid);
      var _ :- Need(state.DamageReview?, Conflict);
      var _ :- VoidSettlement();
      r := AssignAgency(agency);
    }

    // ------------------------------------------------------ settlement

    /** Derive the figures from a report, reusing the settlement row when there is one. */
    method ComputeSettlement(report: nat) returns (r: Result<()>)
      requires report < |reports|
      modifies this`settlement
      ensures Realises(r, ComputeForReport(old(View()), report), View())
    {
      var amounts := reports[report].amounts;
      var deductions := 0;
      for k := 0 to |amounts|
        invariant deductions == Sum(amounts[..k])
      {
        assert amounts[..k + 1][..k] == amounts[..k];
        deductions := deductions + amounts[k];
      }
      assert amounts[..|amounts|] == amounts;
      var net := deposit - deductions;
      if settlement.None? {
        settlement := Some(Settlement(DraftFigures, report, deposit, 0, 0, 0, false, false, false, false));
      } else {
        var _ :- Need(settlement.value.status.DraftFigures? || settlement.value.status.Void?, Conflict);
      }
      settlement := Some(settlement.value.(report := report, status := DraftFigures));
      settlement := Some(settlement.value.(deposit := deposit, deductions := deductions));
      settlement := Some(settlement.value.(refund := Max(net, 0), balance := Max(-net, 0)));
      settlement := Some(settlement.value.(refundSettled := false, balanceSettled := false));
      settlement := Some(settlement.value.(closed := false, approved := false));
      return Ok(());
    }

    method VoidSettlement() returns (r: Result<()>)
      modifies this`settlement
      ensures Realises(r, VoidForReinspection(old(View())), View())
    {
      if settlement.None? {
        return Ok(());
      }
      var _ :- Need(!settlement.value.status.Closed?, Conflict);
      settlement := Some(settlement.value.(status := Void));
      return Ok(());
    }

    method AcceptFigures() returns (r: Result<()>)
      modifies this
      ensures Realises(r, ApproveSettlement(old(View())), View())
    {
      var _ :- Need(settlement.Some?, NotFound);
      var _ :- Need(settlement.value.status.DraftFigures?, Conflict);
      var _ :- Transition(PendingSettlement);
      settlement := Some(settlement.value.(status := Payable));
      settlement := Some(settlement.value.(approved := true));
      if settlement.value.refund == 0 {
        settlement := Some(settlement.value.(refundSettled := true));
      }
      if settlement.value.balance == 0 {
        settlement := Some(settlement.value.(balanceSettled := true));
      }
      r := CloseSettlement();
    }

    method RaiseDispute(reason: string) returns (r: Result<()>)
      modifies this
      ensures Realises(r, Dispute(old(View()), reason), View())
    {
      var _ :- Need(!Blank(reason), Invalid);
      var _ :- Need(settlement.Some?, NotFound);
      var _ :- Need(!AnySucceeded(payments), Conflict);
      var _ :- Transition(DamageReview);
      settlement := Some(settlement.value.(status := DraftFigures));
      settlement := Some(settlement.value.(approved := false));
      settlement := Some(settlement.value.(refundSettled := false, balanceSettled := false));
      return Ok(());
    }

    method PayLegNow(leg: Leg, key: string, usedElsewhere: bool, outcome: Outcome) returns (r: Result<()>)
      modifies this
      ensures Realises(r, Pay(old(View()), leg, key, usedElsewhere, outcome), View())
    {
      var _ :- Need(!Blank(key), Invalid);
      var _ :- Need(settlement.Some?, NotFound);
      var existing := FindPayment(payments, key);
      if existing.Some? || usedElsewhere {
        var _ :- Need(existing.Some? && existing.value.leg == leg, KeyReused);
        return Ok(());
      }
      var _ :- Need(settlement.value.status.Payable?, NotPayable);
      var _ :- Need(state.PendingSettlement?, Conflict);
      var amount := settlement.value.LegAmount(leg);
      var _ :- Need(amount > 0, NotPayable);
      var _ :- Need(!settlement.value.LegSettled(leg), Conflict);
      var transaction := |payments|;
      payments := payments + [Payment(leg, amount, Pending, key)];
      if !outcome.Accepts? {
        payments := payments[transaction := payments[transaction].(status := Failed)];
        return Err(Conflict);
      }
      payments := payments[transaction := payments[transaction].(status := Succeeded)];
      if leg.OwnerRefund? {
        settlement := Some(settlement.value.(refundSettled := true));
      } else {
        settlement := Some(settlement.value.(balanceSettled := true));
      }
      assert View() == Credited(old(View()), leg, key);
      r := CloseSettlement();
    }

    method CloseSettlement() returns (r: Result<()>)
      requires settlement.Some?
      modifies this
      ensures Realises(r, CloseIfFullySettled(old(View())), View())
    {
      if !settlement.value.FullySettled() || settlement.value.status.Closed? {
        return Ok(());
      }
      settlement := Some(settlement.value.(status := Closed));
      settlement := Some(settlement.value.(closed := true));
      var _ :- Transition(Settled);
      r := IssueCertificate();
    }

    // ----------------------------------------------------- certificate

    method IssueCertificate() returns (r: Result<()>)
      requires settlement.Some?
      modifies this
      ensures Realises(r, IssueNoc(old(View())), View())
    {
      var _ :- Need(settlement.value.status.Closed?, Conflict);
      if noc.Some? {
        return Ok(());
      }
      noc := Some(Snapshot(settlement.value));
      r := Transition(NocIssued);
    }

    method DownloadCertificate() returns (r: Result<()>)
      modifies this
      ensures Realises(r, Download(old(View())), View())
    {
      var _ :- Need(noc.Some?, NotFound);
      noc := Some(noc.value.(downloads := noc.value.downloads + 1));
      if state.NocIssued? {
        r := Transition(Completed);
      } else {
        return Ok(());
      }
    }

    // ----------------------------------------------- request boundary

    method Dispatch(request: Request) returns (r: Result<()>)
      modifies this
      ensures Realises(r, Perform(old(View()), request), View())
    {
      match request
      case Submit(documentsMissing) =>
        var _ :- Need(!documentsMissing, Invalid);
        r := Transition(PendingOwnerApproval);
      case Approve(agency) => r := OwnerApprove(agency);
      case Reject(why) =>
        var _ :- Need(!Blank(why), Invalid);
        r := Transition(Rejected);
      case Cancel(why) => r := CancelWorkflow(why);
      case Inspect(inspector) => r := AssignAgency(inspector);
      case Offer(assignment, count, added) => r := ProposeSlots(assignment, count, added);
      case Select(slot, startsAt, now) => r := ConfirmSlot(slot, startsAt, now);
      case Visit(assignment) => r := CompleteVisit(assignment);
      case File(assignment, summary, inspectedAt, now, amounts) =>
        r := SubmitDamageReport(assignment, summary, inspectedAt, now, amounts);
      case Reinspect(inspector, why) => r := RepeatInspection(inspector, why);
      case Accept => r := AcceptFigures();
      case Contest(why) => r := RaiseDispute(why);
      case PayLeg(leg, key, usedElsewhere, outcome) => r := PayLegNow(leg, key, usedElsewhere, outcome);
      case Fetch => r := DownloadCertificate();
      case Finish => r := Transition(Completed);
    }

    method Restore(before: Case)
      requires before.deposit == deposit
      modifies this
      ensures View() == before
    {
      state, isActive, history := before.state, before.isActive, before.history;
      assignments, reports := before.assignments, before.reports;
      settlement, payments, noc := before.settlement, before.payments, before.noc;
    }

    /** One request is one transaction: a raise rolls everything back, the failed payment row included. */
    method HandleRequest(request: Request) returns (r: Result<()>)
      requires Inv(View())
      modifies this
      ensures View() == Apply(old(View()), request)
      ensures r.Ok? <==> Perform(old(View()), request).Ok?
      ensures Inv(View())
    {
      var before := View();
      r := Dispatch(request);
      if r.Err? {
        Restore(before);
      }
      ApplyKeeps(before, request);
    }
  }
}
