/** The services, working in place on one exit record. Each method changes the record's fields step by
    step, as the services do inside a transaction; its contract says that it realises the value-level
    operation and no more. What is worth knowing is said of those operations, in ExitInvariants and
    ExitTheorems, and reaches the record through `HandleRequest`: a method that raises may leave fields half
    changed, and the request boundary undoes them. */
module ExitServices {
  import opened Outcomes
  import opened ExitStates
  import opened ExitCase
  import opened ExitInvariants

  /** The element after `done` is either removed from the list or joins `done`. */
  lemma ScanStep<T>(done: seq<T>, list: seq<T>, k: nat)
    requires k < |list|
    ensures var all := done + list[k..];
      && all[..|done|] + all[|done| + 1..] == done + list[k + 1..]
      && all == (done + [list[k]]) + list[k + 1..]
  {
    assert list[k..] == [list[k]] + list[k + 1..];
  }

  lemma WithoutRoundStep(items: seq<Item>, k: nat, round: nat)
    requires k < |items|
    ensures WithoutRound(items[..k + 1], round)
            == WithoutRound(items[..k], round) + if items[k].round == round then [] else [items[k]]
  {
    assert items[..k + 1][..k] == items[..k];
  }

  /** Remove the items of `round`, one after another. */
  method DropRound(existing: seq<Item>, round: nat) returns (items: seq<Item>)
    ensures items == WithoutRound(existing, round)
  {
    items := existing;
    var kept := 0;
    ghost var done := [];
    assert existing[0..] == existing;
    for k := 0 to |existing|
      invariant done == WithoutRound(existing[..k], round) && kept == |done|
      invariant items == done + existing[k..]
    {
      WithoutRoundStep(existing, k, round);
      ScanStep(done, existing, k);
      if existing[k].round == round {
        items := items[..kept] + items[kept + 1..];
      } else {
        done, kept := done + [existing[k]], kept + 1;
      }
    }
    assert existing[..|existing|] == existing && existing[|existing|..] == [];
  }

  /** An accepted payment with something to transfer. */
  predicate StartsTransfer(c: Case, command: Command, role: Role, now: int) {
    command.DoPay? && Perform(c, command, role, now).Ok? && c.settlement.value.netRefund > 0
  }

  class ExitRecord {
    var state: State
    var deposit: nat
    const defaultKey: string
    var history: seq<Row>
    var closedAt: Option<int>
    var reviewOpenedAt: Option<int>
    var inspection: Option<Inspection>
    var settlement: Option<Settlement>
    var noc: Option<Certificate>

    function View(): Case
      reads this
    {
      Case(state, deposit, defaultKey, history, closedAt, reviewOpenedAt, inspection, settlement, noc)
    }

    constructor (deposit: nat, defaultKey: string)
      ensures View() == NewCase(deposit, defaultKey)
    {
      this.state := Draft;
      this.deposit := deposit;
      this.defaultKey := defaultKey;
      this.history := [];
      this.closedAt := None;
      this.reviewOpenedAt := None;
      this.inspection := None;
      this.settlement := None;
      this.noc := None;
    }

    // ---------------------------------------------------------- engine

    method Transition(action: Action, role: Role, now: int) returns (r: Result<()>)
      modifies this`state, this`history, this`closedAt
      ensures Realises(r, Move(old(View()), action, role, now), View())
      ensures r.Err? ==> View() == old(View())
    {
      if Terminal(state) {
        return Err(WorkflowClosed);
      }
      var target :- Authorise(state, action, role);
      var previous := state;
      state := target;
      if Terminal(target) {
        closedAt := Some(now);
      }
      history := history + [Row(previous, target, action)];
      return Ok(());
    }

    // ------------------------------------------------------- lifecycle

    method OwnerApprove(role: Role, now: int, corrected: Option<nat>) returns (r: Result<()>)
      modifies this
      ensures Realises(r, ApproveExit(old(View()), role, now, corrected), View())
    {
      if corrected.Some? {
        var _ :- Need(role.Owner? || role.Admin?, Unauthorised);
        deposit := corrected.value;
      }
      var _ :- Transition(Action.OwnerApprove, role, now);
      if inspection.None? {
        inspection := Some(Inspection(1, [], 0, false, None));
      }
      return Ok(());
    }

    method CompleteWorkflow(role: Role, now: int) returns (r: Result<()>)
      modifies this
      ensures Realises(r, CompleteExit(old(View()), role, now), View())
    {
      var _ :- Need(state.NocIssued?, RuleViolated);
      r := Transition(Complete, role, now);
    }

    // ------------------------------------------------------ inspection

    method ScheduleInspection(role: Role, now: int, action: Action) returns (r: Result<()>)
      modifies this
      ensures Realises(r, Schedule(old(View()), role, now, action), View())
    {
      var _ :- Need(inspection.Some?, NotFound);
      var _ :- Need(action != ProposeSlots || AgencyMay(role), Unauthorised);
      r := Transition(action, role, now);
    }

    method RemoveCurrentRound()
      requires inspection.Some?
      modifies this`inspection
      ensures inspection == Some(old(inspection).value.(
                items := WithoutRound(old(inspection).value.items, old(inspection).value.round)))
    {
      var kept := DropRound(inspection.value.items, inspection.value.round);
      inspection := Some(inspection.value.(items := kept));
    }

    /** Add the reported items and total their estimates. */
    method AddItems(entries: seq<Entry>) returns (assessed: nat)
      requires inspection.Some?
      modifies this`inspection
      ensures var i := old(inspection).value;
        && inspection == Some(i.(items := i.items + NewItems(entries, i.nextId, i.round),
                                 nextId := i.nextId + |entries|))
        && assessed == SumEstimates(NewItems(entries, i.nextId, i.round), i.round)
    {
      var before := inspection.value;
      assessed := 0;
      for k := 0 to |entries|
        invariant inspection.Some?
        invariant inspection.value
               == before.(items := before.items + NewItems(entries[..k], before.nextId, before.round),
                                              nextId := before.nextId + k)
        invariant assessed == SumEstimates(NewItems(entries[..k], before.nextId, before.round), before.round)
      {
        var item := NewItem(entries[k], inspection.value.nextId, inspection.value.round);
        assert NewItems(entries[..k + 1], before.nextId, before.round)
            == NewItems(entries[..k], before.nextId, before.round) + [item];
        inspection := Some(inspection.value.(items := inspection.value.items + [item],
                                             nextId := inspection.value.nextId + 1));
        assessed := assessed + item.estimated;
      }
      assert entries[..|entries|] == entries;
    }

    method SubmitReport(role: Role, now: int, conductedAt: int, entries: seq<Entry>) returns (r: Result<()>)
      modifies this
      ensures Realises(r, ReportDamage(old(View()), role, now, conductedAt, entries), View())
    {
      var _ :- Need(inspection.Some?, NotFound);
      var _ :- Need(AgencyMay(role), Unauthorised);
      var _ :- Need(conductedAt <= now, Invalid);
      RemoveCurrentRound();
      var assessed := AddItems(entries);
      inspection := Some(inspection.value.(reported := true, assessedTotal := Some(assessed)));
      assert View() == Reported(old(View()), entries);
      var _ :- Transition(Action.SubmitReport, role, now);
      r := OpenReviewNow(now);
    }

    method OpenReviewNow(now: int) returns (r: Result<()>)
      modifies this`reviewOpenedAt, this`state, this`history, this`closedAt
      ensures Realises(r, OpenDamageReview(old(View()), now), View())
    {
      reviewOpenedAt := Some(now);
      r := Transition(OpenReview, System, now);
    }

    method AdjustDamageItem(role: Role, id: nat, approved: Option<nat>, liable: Option<bool>) returns (r: Result<()>)
      modifies this`inspection
      ensures Realises(r, AdjustItem(old(View()), role, id, approved, liable), View())
    {
      var _ :- Need(state.DamageReview?, Conflict);
      var _ :- Need(OwnerMay(role), Unauthorised);
      var _ :- Need(inspection.Some?, NotFound);
      var found := FindItem(inspection.value.items, id);
      var _ :- Need(found.Some?, NotFound);
      var item := inspection.value.items[found.value];
      if approved.Some? {
        var _ :- Need(approved.value <= item.estimated, RuleViolated);
        item := item.(approved := approved);
      }
      if liable.Some? {
        item := item.(liable := liable.value);
      }
      inspection := Some(inspection.value.(items := inspection.value.items[found.value := item]));
      return Ok(());
    }

    method RaiseDispute(role: Role, now: int, id: nat) returns (r: Result<()>)
      modifies this`inspection
      ensures Realises(r, DisputeItem(old(View()), role, now, id), View())
    {
      var _ :- Need(state.DamageReview?, Conflict);
      var _ :- Need(role.Tenant? || role.Admin?, Unauthorised);
      var _ :- Need(reviewOpenedAt.Some?, Conflict);
      var _ :- Need(now < reviewOpenedAt.value + DISPUTE_WINDOW, RuleViolated);
      var _ :- Need(inspection.Some?, NotFound);
      var found := FindItem(inspection.value.items, id);
      var _ :- Need(found.Some?, NotFound);
      var item := inspection.value.items[found.value];
      var _ :- Need(item.dispute.NoDispute?, Conflict);
      item := item.(dispute := Raised);
      inspection := Some(inspection.value.(items := inspection.value.items[found.value := item]));
      return Ok(());
    }

    method ResolveDispute(role: Role, id: nat, uphold: bool, approved: Option<nat>) returns (r: Result<()>)
      modifies this`inspection
      ensures Realises(r, ResolveItem(old(View()), role, id, uphold, approved), View())
    {
      var _ :- Need(state.DamageReview?, Conflict);
      var _ :- Need(OwnerMay(role), Unauthorised);
      var _ :- Need(inspection.Some?, NotFound);
      var found := FindItem(inspection.value.items, id);
      var _ :- Need(found.Some?, NotFound);
      var item := inspection.value.items[found.value];
      var _ :- Need(item.dispute.Raised?, Conflict);
      if uphold {
        var charge := if approved.Some? then approved.value else 0;
        var _ :- Need(charge <= item.estimated, Invalid);
        item := item.(approved := Some(charge));
        item := item.(dispute := Upheld);
      } else {
        item := item.(dispute := DisputeRejected);
      }
      inspection := Some(inspection.value.(items := inspection.value.items[found.value := item]));
      return Ok(());
    }

    method OrderReinspection(role: Role, now: int) returns (r: Result<()>)
      modifies this
      ensures Realises(r, RequestReinspection(old(View()), role, now), View())
    {
      var _ :- Need(OwnerMay(role), Unauthorised);
      var _ :- Need(inspection.Some?, NotFound);
      inspection := Some(inspection.value.(round := inspection.value.round + 1));
      inspection := Some(inspection.value.(reported := false));
      reviewOpenedAt := None;
      r := Transition(Reinspect, role, now);
    }

    // ------------------------------------------------------ settlement

    /** The chargeable items of the current round, as deduction lines. */
    method CollectLines() returns (lines: seq<Line>)
      ensures lines == LinesFromInspection(inspection)
    {
      lines := [];
      if inspection.None? {
        return;
      }
      var items := inspection.value.items;
      for k := 0 to |items|
        invariant lines == LinesOf(items[..k], inspection.value.round)
      {
        assert items[..k + 1][..k] == items[..k];
        var item := items[k];
        if item.round != inspection.value.round {
          continue;
        }
        var amount := item.Chargeable();
        if amount <= 0 {
          continue;
        }
        lines := lines + [Line(Some(item.id), amount)];
      }
      assert items[..|items|] == items;
    }

    method FinaliseSettlement(role: Role, now: int, manual: seq<nat>, expected: Option<nat>) returns (r: Result<()>)
      modifies this
      ensures Realises(r, FinaliseFigures(old(View()), role, now, manual, expected), View())
    {
      var _ :- Need(OwnerMay(role), Unauthorised);
      var _ :- Need(inspection.Some? && inspection.value.reported, RuleViolated);
      var _ :- Need(OpenDisputes(inspection.value.items) == 0, RuleViolated);
      var lines := CollectLines();
      ghost var collected := lines;
      for k := 0 to |manual|
        invariant lines == collected + ManualLines(manual[..k])
      {
        assert ManualLines(manual[..k + 1]) == ManualLines(manual[..k]) + [Line(None, manual[k])];
        lines := lines + [Line(None, manual[k])];
      }
      assert manual[..|manual|] == manual;
      var deductions := SumLines(lines);
      var split :- Settle(deposit, deductions);
      var _ :- Need(expected.None? || expected.value == split.0, Conflict);
      if settlement.None? {
        settlement := Some(Settlement(DraftFigures, deposit, 0, 0, 0, [], false, None, None, 0));
      } else {
        var _ :- Need(Editable(settlement.value.status), Conflict);
      }
      settlement := Some(settlement.value.(lines := lines));
      settlement := Some(settlement.value.(deposit := deposit, totalDeductions := deductions));
      settlement := Some(settlement.value.(netRefund := split.0, liability := split.1));
      settlement := Some(settlement.value.(status := PendingApproval, finalised := true));
      r := Transition(Finalise, role, now);
    }

    method ReopenDamageReview(role: Role, now: int) returns (r: Result<()>)
      modifies this
      ensures Realises(r, ReopenReview(old(View()), role, now), View())
    {
      var _ :- Need(OwnerMay(role), Unauthorised);
      var _ :- Need(settlement.Some?, NotFound);
      var _ :- Need(settlement.value.status.PendingApproval?, Conflict);
      settlement := Some(settlement.value.(status := DraftFigures));
      settlement := Some(settlement.value.(finalised := false));
      r := Transition(Reopen, role, now);
    }

    /** `dispatch` says whether the transfer is to be dispatched after the commit. */
    method PayDeposit(role: Role, now: int, payoutMethod: PayoutMethod, requested: Option<string>)
      returns (r: Result<()>, dispatch: bool)
      modifies this
      ensures Realises(r, Pay(old(View()), role, now, payoutMethod, requested), View())
      ensures dispatch <==> r.Ok? && old(settlement).value.netRefund > 0
    {
      dispatch := false;
      var _ :- Need(OwnerMay(role), Unauthorised);
      var _ :- Need(settlement.Some?, NotFound);
      var _ :- Need(settlement.value.status.PendingApproval?, Conflict);
      var requiresPayout := settlement.value.netRefund > 0;
      var _ :- Need(!(requiresPayout && payoutMethod.OffsetOnly?), Invalid);
      var _ :- Need(requiresPayout || payoutMethod.OffsetOnly?, Invalid);
      settlement := Some(settlement.value.(attempts := settlement.value.attempts + 1));
      if settlement.value.key.None? {
        var key := if requested.Some? && requested.value != "" then requested.value else defaultKey;
        settlement := Some(settlement.value.(key := Some(key)));
      }
      assert View() == Bind(old(View()), requested);
      var _ :- Transition(Action.PayDeposit, role, now);
      ghost var started := View();
      if !requiresPayout {
        settlement := Some(settlement.value.(status := Paid));
        settlement := Some(settlement.value.(reference := Some(Offset)));
        assert View() == Offsetting(started);
        r := ConfirmSettlement(now, None);
      } else {
        settlement := Some(settlement.value.(status := Processing));
        assert View() == WithStatus(started, Processing);
        return Ok(()), true;
      }
    }

    method ConfirmSettlement(now: int, reference: Option<Reference>) returns (r: Result<()>)
      modifies this
      ensures Realises(r, Confirm(old(View()), now, reference), View())
    {
      var _ :- Need(settlement.Some?, NotFound);
      if settlement.value.status.Paid? && (state.SettlementCompleted? || state.NocIssued? || state.Completed?) {
        return Ok(());
      }
      settlement := Some(settlement.value.(status := Paid));
      if reference.Some? {
        settlement := Some(settlement.value.(reference := reference));
      }
      var _ :- Transition(SettlementSucceeded, System, now);
      r := IssueCertificate(now);
    }

    method FailSettlement(now: int) returns (r: Result<()>)
      modifies this
      ensures Realises(r, FailPayout(old(View()), now), View())
    {
      var _ :- Need(settlement.Some?, NotFound);
      if !settlement.value.status.Processing? {
        return Ok(());
      }
      settlement := Some(settlement.value.(status := PendingApproval));
      r := Transition(SettlementFailed, System, now);
    }

    // ----------------------------------------------------- certificate

    method IssueCertificate(now: int) returns (r: Result<()>)
      modifies this`noc, this`state, this`history, this`closedAt
      ensures Realises(r, Certify(old(View()), now), View())
    {
      if noc.Some? {
        return Ok(());
      }
      var _ :- Need(state.SettlementCompleted?, Conflict);
      noc := Some(Issued);
      r := Transition(IssueNoc, System, now);
    }

    method RevokeCertificate(role: Role) returns (r: Result<()>)
      modifies this`noc
      ensures Realises(r, Revoke(old(View()), role), View())
    {
      var _ :- Need(role.Admin?, Unauthorised);
      var _ :- Need(noc.Some?, NotFound);
      if noc.value.Revoked? {
        return Ok(());
      }
      noc := Some(Revoked);
      return Ok(());
    }

    // ----------------------------------------------- request boundary

    method Dispatch(command: Command, role: Role, now: int) returns (r: Result<()>, dispatch: bool)
      modifies this
      ensures Realises(r, Perform(old(View()), command, role, now), View())
      ensures dispatch <==> command.DoPay? && r.Ok? && old(settlement).value.netRefund > 0
    {
      dispatch := false;
      match command
      case DoSubmit => r := Transition(Submit, role, now);
      case DoWithdraw => r := Transition(Withdraw, role, now);
      case DoCancel => r := Transition(Cancel, role, now);
      case DoExpire => r := Transition(Expire, role, now);
      case DoReject => r := Transition(OwnerReject, role, now);
      case DoApprove(corrected) => r := OwnerApprove(role, now, corrected);
      case DoPropose => r := ScheduleInspection(role, now, ProposeSlots);
      case DoSelect => r := ScheduleInspection(role, now, SelectSlot);
      case DoReschedule => r := ScheduleInspection(role, now, Reschedule);
      case DoReport(conductedAt, entries) => r := SubmitReport(role, now, conductedAt, entries);
      case DoAdjust(id, newCost, newLiable) => r := AdjustDamageItem(role, id, newCost, newLiable);
      case DoDispute(id) => r := RaiseDispute(role, now, id);
      case DoResolve(id, uphold, revised) => r := ResolveDispute(role, id, uphold, revised);
      case DoReinspect => r := OrderReinspection(role, now);
      case DoFinalise(manual, expected) => r := FinaliseSettlement(role, now, manual, expected);
      case DoReopen => r := ReopenDamageReview(role, now);
      case DoPay(payoutMethod, requestedKey) => r, dispatch := PayDeposit(role, now, payoutMethod, requestedKey);
      case DoComplete => r := CompleteWorkflow(role, now);
      case DoRevoke => r := RevokeCertificate(role);
    }

    method Restore(before: Case)
      requires before.defaultKey == defaultKey
      modifies this
      ensures View() == before
    {
      state, deposit, history := before.state, before.deposit, before.history;
      closedAt, reviewOpenedAt := before.closedAt, before.reviewOpenedAt;
      inspection, settlement, noc := before.inspection, before.settlement, before.noc;
    }

    /** One request is one transaction: commit on success, roll everything back on any raise. The
        invariant of committed states is kept either way. A dispatch is queued exactly for an accepted
        payment with something to transfer. */
    method HandleRequest(command: Command, role: Role, now: int) returns (r: Result<()>, dispatch: bool)
      requires CaseInv(View())
      modifies this
      ensures View() == Apply(old(View()), Requested(command, role, now))
      ensures r.Ok? <==> Perform(old(View()), command, role, now).Ok?
      ensures dispatch <==> StartsTransfer(old(View()), command, role, now)
      ensures CaseInv(View())
    {
      var before := View();
      r, dispatch := Dispatch(command, role, now);
      if r.Err? {
        Restore(before);
      }
      ApplyKeeps(before, Requested(command, role, now));
    }
  }
}
