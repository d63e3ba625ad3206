/** What becomes of returned payouts and of reports that arrive late: both can leave a settlement recorded as
    paid, certificate and all, with nothing moved. */
module PayoutReturnRuns {
  import opened Outcomes
  import opened ExitStates
  import opened ExitCase
  import opened ExitInvariants
  import opened PayoutProtocol
  import opened PayoutSafety
  import opened PayoutReturns
  import opened PayoutLimits

  /** Paid and certified, though the provider holds nothing but a failed payout. */
  predicate CertifiedInVain(w: World) {
    && PaysRefund(w, 0) && w.cases[0].state.NocIssued? && w.cases[0].noc.Some?
    && Moved(w.ledger, 0) == 0
  }

  /** A run with the gateway's words and with one case and its one payout. */
  predicate Lone(steps: seq<Step>, c: Case, payout: Payout) {
    && Feasible(steps, MAPPED)
    && After(steps).cases == map[0 := c] && After(steps).ledger == [payout] && payout.caseId == 0
  }

  /** The provider changes the payout by itself. */
  lemma TurnNext(steps: seq<Step>, c: Case, payout: Payout, outcome: PayoutState)
    requires Lone(steps, c, payout) && MayTurn(payout.state, outcome)
    ensures Lone(steps + [Settles(0, outcome)], c, payout.(state := outcome))
  {
    Extend(steps, Settles(0, outcome), MAPPED);
  }

  lemma AskNext(steps: seq<Step>, c: Case, payout: Payout, event: Event)
    requires Lone(steps, c, payout) && event.Requested?
    ensures Lone(steps + [Ask(0, event.command, event.role, event.now)], Apply(c, event), payout)
  {
    Extend(steps, Ask(0, event.command, event.role, event.now), MAPPED);
    assert map[0 := c][0 := Apply(c, event)] == map[0 := Apply(c, event)];
  }

  lemma FailureNext(steps: seq<Step>, c: Case, payout: Payout)
    requires Lone(steps, c, payout) && payout.state.Failed?
    requires c.settlement.Some? && c.settlement.value.reference == Some(ProviderRef(0))
    ensures Lone(steps + [Report(0, 0, false, 0)], Committed(c, FailPayout(c, 0)), payout)
  {
    Extend(steps, Report(0, 0, false, 0), MAPPED);
    assert map[0 := c][0 := Committed(c, FailPayout(c, 0))] == map[0 := Committed(c, FailPayout(c, 0))];
  }

  /** The payment is answered with a success. */
  lemma PaidRun() returns (steps: seq<Step>, c: Case, payout: Payout)
    ensures Stage(steps, MAPPED, c, [payout]) && payout.caseId == 0 && payout.state.Succeeded?
    ensures HasStatus(c, Paid) && c.settlement.value.netRefund == 2
    ensures c.settlement.value.reference == Some(ProviderRef(0))
    ensures c.state.NocIssued? && c.noc.Some?
  {
    var paying;
    steps, paying := ReachProcessing(MAPPED);
    steps, c, payout := AnswerNext(steps, MAPPED, paying, "SUCCEEDED", Succeeded);
    AnswerKeepsMoney(paying, "SUCCEEDED", 0, 0);
    var noted := paying.(settlement := Some(paying.settlement.value.(reference := Some(ProviderRef(0)))));
    assert Confirm(noted, 0, Some(ProviderRef(0))).Ok?;
    ConfirmShape(noted, 0, Some(ProviderRef(0)));
  }

  lemma FiguresInRun(steps: seq<Step>)
    ensures AllFigures(After(steps)) && Bound(After(steps))
  {
    AtMostOnePayout(steps);
  }

  /** A return, and then its report, of the payout behind a settlement recorded as paid. */
  lemma ReturnNext(steps: seq<Step>, c: Case, payout: Payout)
    requires Lone(steps, c, payout) && payout.state.Succeeded?
    requires HasStatus(c, Paid) && c.settlement.value.netRefund > 0
    ensures var returned, report := steps + [Settles(0, Failed)], Report(0, 0, false, 7);
      && Lone(returned, c, payout.(state := Failed)) && Returned(returned)
      && Feasible(returned + [report], MAPPED) && After(returned + [report]) == After(returned)
  {
    var returned := steps + [Settles(0, Failed)];
    TurnNext(steps, c, payout, Failed);
    ReturnedStep(steps, Settles(0, Failed));
    FiguresInRun(returned);
    ReportKeepsPaid(After(returned), 0, 0, false, 7);
    Extend(returned, Report(0, 0, false, 7), MAPPED);
  }

  /** With words the gateway knows: a payment succeeds, is returned, and the return is reported. The report
      changes nothing, and the exit stays paid and certified. */
  lemma ReturnedAfterPaid() returns (steps: seq<Step>, report: Step)
    ensures report.Report? && !report.success
    ensures Feasible(steps + [report], MAPPED) && Returned(steps) && After(steps + [report]) == After(steps)
    ensures CertifiedInVain(After(steps + [report]))
  {
    var c, payout;
    steps, c, payout := PaidRun();
    ReturnNext(steps, c, payout);
    steps, report := steps + [Settles(0, Failed)], Report(0, 0, false, 7);
    NothingMoved([payout.(state := Failed)], 0);
  }

  lemma LateTaken(w: World, id: nat, index: nat, now: int)
    requires AllFigures(w) && id in w.cases && HasStatus(w.cases[id], Processing)
    requires w.cases[id].settlement.value.reference == Some(ProviderRef(index))
    ensures var told := ReportArrives(w, id, index, true, now);
      PaysRefund(told, id) && told.ledger == w.ledger
  {
    ConfirmKeepsMoney(w.cases[id], now, ProviderRef(index));
  }

  lemma LateIgnored(w: World, id: nat, index: nat, now: int)
    requires AllFigures(w) && id in w.cases && !HasStatus(w.cases[id], Processing)
    ensures ReportArrives(w, id, index, true, now) == w
  {
    assert w.cases[id := w.cases[id]] == w.cases;
  }

  predicate RefersTo(w: World, id: nat, index: nat) {
    && id in w.cases && w.cases[id].settlement.Some?
    && w.cases[id].settlement.value.reference == Some(ProviderRef(index))
    && index < |w.ledger|
  }

  lemma LateSuccess(w: World, id: nat, index: nat, now: int)
    requires Bound(w) && AllFigures(w) && RefersTo(w, id, index) && w.ledger[index].state.Failed?
    ensures var told := Next(w, Report(id, index, true, now));
      && (HasStatus(w.cases[id], Processing) <==> !PaysRefund(w, id) && PaysRefund(told, id))
      && (HasStatus(w.cases[id], Processing) <==> told != w)
      && Moved(told.ledger, id) == 0
  {
    assert Traceable(w.ledger, id, w.cases[id]);
    BoundMeansAtMostOne(w);
    FailedMeansNothingLive(w.ledger, index);
    NothingMoved(w.ledger, id);
    if HasStatus(w.cases[id], Processing) {
      LateTaken(w, id, index, now);
    } else {
      LateIgnored(w, id, index, now);
    }
  }

  /** After any run, a report of a success that the payout has lost again makes a settlement paid, with
      nothing moved, exactly when the settlement is under payment; otherwise it changes nothing. */
  lemma LateSuccessIff(steps: seq<Step>, id: nat, index: nat, now: int)
    requires RefersTo(After(steps), id, index) && After(steps).ledger[index].state.Failed?
    ensures var w, told := After(steps), Next(After(steps), Report(id, index, true, now));
      && (HasStatus(w.cases[id], Processing) <==> !PaysRefund(w, id) && PaysRefund(told, id))
      && (HasStatus(w.cases[id], Processing) <==> told != w)
      && Moved(told.ledger, id) == 0
  {
    FiguresInRun(steps);
    LateSuccess(After(steps), id, index, now);
  }

  lemma NotedReturns(paying: Case)
    requires Paying(paying)
    ensures var noted := Committed(paying, RecordAnswer(paying, "PENDING", 0, 0));
      var c := Committed(noted, FailPayout(noted, 0));
      && Untouched(c, SettlementPending) && c.settlement.value.netRefund == 2
      && noted.settlement == Some(paying.settlement.value.(reference := Some(ProviderRef(0))))
      && c.settlement.value.reference == Some(ProviderRef(0))
  {
    var noted := Committed(paying, RecordAnswer(paying, "PENDING", 0, 0));
    AnswerKeepsMoney(paying, "PENDING", 0, 0);
    assert Figures(noted);
    FailKeeps(noted, 0);
    FailKeepsMoney(noted, 0);
  }

  /** The provider's answer is that the payment is under way; then its payout succeeds and is returned. */
  lemma ReturnedUnheard(paying: Case, start: seq<Step>) returns (steps: seq<Step>, c: Case, payout: Payout)
    requires Stage(start, MAPPED, paying, []) && Paying(paying)
    ensures Lone(steps, c, payout) && payout.state.Failed?
    ensures c == Committed(paying, RecordAnswer(paying, "PENDING", 0, 0))
    ensures steps != [] && After(steps[..|steps| - 1]).ledger == [payout.(state := Succeeded)]
  {
    steps, c, payout := AnswerNext(start, MAPPED, paying, "PENDING", InFlight);
    TurnNext(steps, c, payout, Succeeded);
    steps, payout := steps + [Settles(0, Succeeded)], payout.(state := Succeeded);
    TurnNext(steps, c, payout, Failed);
    assert (steps + [Settles(0, Failed)])[..|steps|] == steps;
    steps, payout := steps + [Settles(0, Failed)], payout.(state := Failed);
  }

  /** The return is reported first, and the owner pays again. */
  lemma PaidAgain() returns (steps: seq<Step>, c: Case, payout: Payout, k: nat)
    ensures Lone(steps, c, payout) && payout.state.Failed? && Paying(c)
    ensures c.settlement.value.reference == Some(ProviderRef(0))
    ensures StoodAt(steps, k, 0)
  {
    var start, paying := ReachProcessing(MAPPED);
    NotedReturns(paying);
    steps, c, payout := ReturnedUnheard(paying, start);
    k := |steps| - 1;
    var stood := steps[..k];
    FailureNext(steps, c, payout);
    steps, c := steps + [Report(0, 0, false, 0)], Committed(c, FailPayout(c, 0));
    PayNext(c);
    PayKeepsReference(c);
    AskNext(steps, c, payout, By(DoPay(Transfer, None), Owner));
    steps, c := steps + [Ask(0, DoPay(Transfer, None), Owner, 0)], Apply(c, By(DoPay(Transfer, None), Owner));
    assert steps[..k] == stood;
  }

  lemma PayKeepsReference(c: Case)
    requires Untouched(c, SettlementPending) && c.settlement.value.netRefund == 2
    ensures Apply(c, By(DoPay(Transfer, None), Owner)).settlement.Some?
    ensures Apply(c, By(DoPay(Transfer, None), Owner)).settlement.value.reference == c.settlement.value.reference
  {
    TransferShape(c, Owner, 0, Transfer, None);
  }

  /** Reports out of order: a success that was true once arrives after the return and after the owner's second
      payment, and the exit is paid and certified with nothing moved. */
  lemma LateSuccessReached() returns (steps: seq<Step>, k: nat)
    ensures Feasible(steps, MAPPED) && StoodAt(steps, k, 0)
    ensures PaysRefund(Next(After(steps), Report(0, 0, true, 0)), 0)
    ensures Moved(Next(After(steps), Report(0, 0, true, 0)).ledger, 0) == 0
  {
    var c, payout;
    steps, c, payout, k := PaidAgain();
    assert After(steps).cases[0] == c && After(steps).ledger[0] == payout;
    LateSuccessIff(steps, 0, 0, 0);
  }
}
