/** Where the protocol's guarantees end: the exact condition on the provider's vocabulary and on returned
    payouts, payouts that failed for good, and recovery from a lost post-commit hook. */
module PayoutLimits {
  import opened Outcomes
  import opened ExitStates
  import opened ExitCase
  import opened ExitInvariants
  import opened PayoutProtocol
  import opened PayoutSafety
  import opened PayoutReturns

  // ------------------------------------------- a run to a payment under way

  lemma FrontOfOneMore(steps: seq<Step>, step: Step)
    ensures (steps + [step])[..|steps + [step]| - 1] == steps && (steps + [step])[|steps + [step]| - 1] == step
  {
  }

  lemma Extend(steps: seq<Step>, step: Step, vocabulary: Vocabulary)
    requires Feasible(steps, vocabulary) && Possible(After(steps), step, vocabulary)
    ensures Feasible(steps + [step], vocabulary)
    ensures After(steps + [step]) == Next(After(steps), step)
  {
    FrontOfOneMore(steps, step);
  }

  /** The provider changes no payout but when it is asked about it. */
  predicate Quiet(steps: seq<Step>) {
    forall i :: 0 <= i < |steps| ==> !steps[i].Settles?
  }

  /** Nothing but requests. */
  predicate OnlyRequests(steps: seq<Step>) {
    forall i :: 0 <= i < |steps| ==> steps[i].Initiate? || steps[i].Ask?
  }

  /** A feasible and quiet run whose only case is `c`. */
  predicate Stage(steps: seq<Step>, vocabulary: Vocabulary, c: Case, ledger: seq<Payout>) {
    && Feasible(steps, vocabulary) && Quiet(steps)
    && After(steps).cases == map[0 := c]
    && After(steps).ledger == ledger
  }

  /** With a single case no unique index stands in the way: requests take effect one after another. */
  lemma {:induction false} StageScript(steps: seq<Step>, vocabulary: Vocabulary, c: Case, ledger: seq<Payout>,
                                       script: seq<Event>)
    returns (longer: seq<Step>)
    requires Stage(steps, vocabulary, c, ledger)
    requires forall i :: 0 <= i < |script| ==> script[i].Requested?
    ensures Stage(longer, vocabulary, Run(c, script), ledger)
    ensures OnlyRequests(steps) ==> OnlyRequests(longer)
  {
    if script == [] {
      longer := steps;
    } else {
      var last := script[|script| - 1];
      var before := Run(c, script[..|script| - 1]);
      longer := StageScript(steps, vocabulary, c, ledger, script[..|script| - 1]);
      var step := Ask(0, last.command, last.role, last.now);
      Extend(longer, step, vocabulary);
      longer := longer + [step];
      assert map[0 := before][0 := Apply(before, last)] == map[0 := Apply(before, last)];
    }
  }

  lemma RunAppend(c: Case, events: seq<Event>, event: Event)
    ensures Run(c, events + [event]) == Apply(Run(c, events), event)
  {
    assert (events + [event])[..|events|] == events;
  }

  // ------------------------------------ the opening script, state by state

  /** A case with a deposit of 2 whose inspection, if any, has found nothing so far. */
  predicate Untouched(c: Case, state: State) {
    && Figures(c) && c.state == state && c.deposit == 2
    && (c.inspection.Some? ==> c.inspection.value.items == [])
  }

  predicate Unsettled(c: Case, state: State) {
    Untouched(c, state) && c.settlement.None?
  }

  /** A case whose refund of 2 is under payment, and untouched otherwise. */
  predicate Paying(c: Case) {
    && Untouched(c, SettlementProcessing) && HasStatus(c, Processing)
    && c.settlement.value.key.Some? && c.settlement.value.netRefund == 2
  }

  function By(command: Command, role: Role): Event {
    Event.Requested(command, role, 0)
  }

  lemma SubmitNext(c: Case)
    requires Unsettled(c, Draft)
    ensures Unsettled(Apply(c, By(DoSubmit, Tenant)), Submitted)
  {
  }

  lemma ApproveNext(c: Case)
    requires Unsettled(c, Submitted)
    ensures Unsettled(Apply(c, By(DoApprove(None), Owner)), OwnerApproved)
  {
  }

  lemma ProposeNext(c: Case)
    requires Unsettled(c, OwnerApproved)
    ensures Unsettled(Apply(c, By(DoPropose, Agency)), SlotsProposed)
  {
  }

  lemma SelectNext(c: Case)
    requires Unsettled(c, SlotsProposed)
    ensures Unsettled(Apply(c, By(DoSelect, Owner)), InspectionScheduled)
  {
  }

  lemma ReportGoes(c: Case)
    requires c.state.InspectionScheduled? && c.inspection.Some?
    ensures ReportDamage(c, Agency, 0, 0, []).Ok?
  {
  }

  lemma ReportNext(c: Case)
    requires Unsettled(c, InspectionScheduled)
    ensures Unsettled(Apply(c, By(DoReport(0, []), Agency)), DamageReview)
  {
    ReportGoes(c);
    ReportShape(c, Agency, 0, 0, []);
    ReportKeeps(c, Agency, 0, 0, []);
    assert NewItems([], c.inspection.value.nextId, c.inspection.value.round) == [];
  }

  lemma UntouchedLines(inspection: Option<Inspection>, manual: seq<nat>)
    requires inspection.Some? && inspection.value.items == [] && (manual == [] || manual == [1])
    ensures SumLines(LinesFromInspection(inspection) + ManualLines(manual)) == |manual|
    ensures OpenDisputes(inspection.value.items) == 0
  {
  }

  /** The owner's attempt to finalise goes through once the report is in, no dispute is open and the
      figures are within bounds. */
  lemma FinaliseSucceeds(c: Case, manual: seq<nat>, refund: nat)
    requires c.state.DamageReview? && c.inspection.Some? && c.inspection.value.reported
    requires OpenDisputes(c.inspection.value.items) == 0
    requires c.settlement.None? || c.settlement.value.status.DraftFigures?
    requires Settle(c.deposit, SumLines(LinesFromInspection(c.inspection) + ManualLines(manual))) == Ok((refund, 0))
    ensures var attempt := FinaliseFigures(c, Owner, 0, manual, None);
      && attempt.Ok? && attempt.value.state.SettlementPending?
      && attempt.value.deposit == c.deposit && attempt.value.inspection == c.inspection
      && attempt.value.settlement.Some? && attempt.value.settlement.value.netRefund == refund
  {
  }

  lemma UntouchedReady(c: Case)
    requires Untouched(c, DamageReview)
    ensures c.inspection.Some? && c.inspection.value.reported && c.inspection.value.items == []
    ensures c.settlement.None? || c.settlement.value.status.DraftFigures?
  {
  }

  lemma UntouchedSucceeds(c: Case, manual: seq<nat>)
    requires Untouched(c, DamageReview) && (manual == [] || manual == [1])
    ensures var attempt := FinaliseFigures(c, Owner, 0, manual, None);
      && attempt.Ok? && attempt.value.state.SettlementPending?
      && attempt.value.deposit == 2 && attempt.value.inspection == c.inspection
      && attempt.value.settlement.Some? && attempt.value.settlement.value.netRefund == 2 - |manual|
  {
    UntouchedReady(c);
    ReadySucceeds(c, manual);
  }

  lemma ReadySucceeds(c: Case, manual: seq<nat>)
    requires c.state.DamageReview? && c.deposit == 2 && (manual == [] || manual == [1])
    requires c.inspection.Some? && c.inspection.value.reported && c.inspection.value.items == []
    requires c.settlement.None? || c.settlement.value.status.DraftFigures?
    ensures var attempt := FinaliseFigures(c, Owner, 0, manual, None);
      && attempt.Ok? && attempt.value.state.SettlementPending?
      && attempt.value.deposit == 2 && attempt.value.inspection == c.inspection
      && attempt.value.settlement.Some? && attempt.value.settlement.value.netRefund == 2 - |manual|
  {
    UntouchedLines(c.inspection, manual);
    FinaliseSucceeds(c, manual, 2 - |manual|);
  }

  lemma ApplyFinalise(c: Case, manual: seq<nat>, after: Case)
    requires FinaliseFigures(c, Owner, 0, manual, None) == Ok(after)
    ensures Apply(c, By(DoFinalise(manual, None), Owner)) == after
  {
  }

  /** Freezing the figures of an untouched inspection, with or without one manual charge. */
  lemma FinaliseNext(c: Case, manual: seq<nat>)
    requires Untouched(c, DamageReview) && (manual == [] || manual == [1])
    ensures var after := Apply(c, By(DoFinalise(manual, None), Owner));
      Untouched(after, SettlementPending) && after.settlement.value.netRefund == 2 - |manual|
  {
    UntouchedSucceeds(c, manual);
    FinaliseKeeps(c, Owner, 0, manual, None);
    ApplyFinalise(c, manual, FinaliseFigures(c, Owner, 0, manual, None).value);
  }

  lemma PayNext(c: Case)
    requires Untouched(c, SettlementPending) && c.settlement.value.netRefund == 2
    ensures Paying(Apply(c, By(DoPay(Transfer, None), Owner)))
  {
    TransferShape(c, Owner, 0, Transfer, None);
  }

  lemma ReopenNext(c: Case)
    requires Untouched(c, SettlementPending)
    ensures Untouched(Apply(c, By(DoReopen, Owner)), DamageReview)
  {
  }

  /** A request that names no provider key of its own. */
  predicate Keyless(event: Event) {
    event.Requested? && (event.command.DoPay? ==> event.command.requestedKey.None?)
  }

  predicate Leads(start: Case, script: seq<Event>, c: Case) {
    (forall i :: 0 <= i < |script| ==> Keyless(script[i])) && Run(start, script) == c
  }

  lemma AppendTo(start: Case, c: Case, script: seq<Event>, event: Event) returns (longer: seq<Event>, after: Case)
    requires Leads(start, script, c) && Keyless(event)
    ensures after == Apply(c, event) && Leads(start, longer, after)
  {
    RunAppend(start, script, event);
    longer, after := script + [event], Apply(c, event);
  }

  lemma OpeningToInspection(start: Case) returns (script: seq<Event>, c: Case)
    requires Unsettled(start, Draft)
    ensures Leads(start, script, c) && Unsettled(c, InspectionScheduled)
  {
    SubmitNext(start);
    script, c := AppendTo(start, start, [], By(DoSubmit, Tenant));
    ApproveNext(c);
    script, c := AppendTo(start, c, script, By(DoApprove(None), Owner));
    ProposeNext(c);
    script, c := AppendTo(start, c, script, By(DoPropose, Agency));
    SelectNext(c);
    script, c := AppendTo(start, c, script, By(DoSelect, Owner));
  }

  lemma OpeningScript(start: Case) returns (script: seq<Event>, c: Case)
    requires Unsettled(start, Draft)
    ensures Leads(start, script, c) && Paying(c)
  {
    script, c := OpeningToInspection(start);
    ReportNext(c);
    script, c := AppendTo(start, c, script, By(DoReport(0, []), Agency));
    FinaliseNext(c, []);
    script, c := AppendTo(start, c, script, By(DoFinalise([], None), Owner));
    PayNext(c);
    script, c := AppendTo(start, c, script, By(DoPay(Transfer, None), Owner));
  }

  lemma FirstCase(key: string)
    ensures Next(EMPTY, Initiate(0, 2, key)) == World(map[0 := NewCase(2, key)], [], multiset{})
  {
  }

  lemma OpenNext(steps: seq<Step>, vocabulary: Vocabulary, key: string)
    requires Feasible(steps, vocabulary) && Quiet(steps) && After(steps) == EMPTY
    ensures Stage(steps + [Initiate(0, 2, key)], vocabulary, NewCase(2, key), [])
  {
    FirstCase(key);
    Extend(steps, Initiate(0, 2, key), vocabulary);
  }

  lemma ReachProcessing(vocabulary: Vocabulary) returns (steps: seq<Step>, c: Case)
    ensures Stage(steps, vocabulary, c, []) && Paying(c) && OnlyRequests(steps)
  {
    NewCaseInv(2, "refund");
    var script;
    script, c := OpeningScript(NewCase(2, "refund"));
    steps := [];
    OpenNext(steps, vocabulary, "refund");
    steps := StageScript(steps + [Initiate(0, 2, "refund")], vocabulary, NewCase(2, "refund"), [], script);
  }

  /** The dispatch of that payment, answered with `word` while the payout really is `outcome`. */
  lemma AnswerNext(steps: seq<Step>, vocabulary: Vocabulary, c: Case, word: string, outcome: PayoutState)
    returns (longer: seq<Step>, after: Case, payout: Payout)
    requires Stage(steps, vocabulary, c, []) && HasStatus(c, Processing) && c.settlement.value.key.Some?
    requires word in vocabulary && vocabulary[word] == outcome
    ensures after == Committed(c, RecordAnswer(c, word, 0, 0))
    ensures payout == Payout(c.settlement.value.key.value, 0, c.settlement.value.netRefund, outcome)
    ensures Stage(longer, vocabulary, after, [payout])
  {
    var w, step := After(steps), Redrive(0, 0, Answered(word, outcome, true));
    payout := Payout(c.settlement.value.key.value, 0, c.settlement.value.netRefund, outcome);
    assert Registered(w, 0) == [payout.(state := InFlight)];
    assert PayoutAt(w, 0) == 0;
    Extend(steps, step, vocabulary);
    longer, after := steps + [step], Committed(c, RecordAnswer(c, word, 0, 0));
    assert map[0 := c][0 := after] == map[0 := after];
  }

  // --------------------------------------------------- the exact condition

  /** A word read as success before the payout succeeded records a payment that was never made. */
  lemma PrematureSuccess(vocabulary: Vocabulary, word: string) returns (steps: seq<Step>)
    requires word in vocabulary && Interpret(word) == Some(Succeeded) && !vocabulary[word].Succeeded?
    ensures Feasible(steps, vocabulary) && Quiet(steps) && !Exact(After(steps))
  {
    var c, after, payout;
    steps, c := ReachProcessing(vocabulary);
    steps, after, payout := AnswerNext(steps, vocabulary, c, word, vocabulary[word]);
    AnswerKeepsMoney(c, word, 0, 0);
    assert HasStatus(After(steps).cases[0], Paid);
    NothingMoved([payout], 0);
  }

  /** A word taken for a failure while the payout lives returns the settlement to the owner, who can
      then pay other figures under the same key. */
  lemma FalseFailure(vocabulary: Vocabulary, word: string) returns (steps: seq<Step>)
    requires word in vocabulary && Interpret(word) in {None, Some(Failed)} && !vocabulary[word].Failed?
    ensures Feasible(steps, vocabulary) && Quiet(steps) && !Exact(After(steps))
  {
    var c, returned, payout;
    steps, c := ReachProcessing(vocabulary);
    steps, returned, payout := AnswerNext(steps, vocabulary, c, word, vocabulary[word]);
    ReturnedToOwner(c, word);
    var script, refinalised := RefinaliseScript(returned);
    steps := StageScript(steps, vocabulary, returned, [payout], script);
    assert After(steps).ledger[0] == payout && After(steps).cases[0] == refinalised;
  }

  lemma RefinaliseScript(c: Case) returns (script: seq<Event>, after: Case)
    requires Untouched(c, SettlementPending)
    ensures Leads(c, script, after)
    ensures after.settlement.Some? && after.settlement.value.netRefund == 1
  {
    ReopenNext(c);
    script, after := AppendTo(c, c, [], By(DoReopen, Owner));
    FinaliseNext(after, [1]);
    script, after := AppendTo(c, after, script, By(DoFinalise([1], None), Owner));
  }

  lemma ReturnedToOwner(c: Case, word: string)
    requires Paying(c) && Interpret(word) in {None, Some(Failed)}
    ensures Untouched(Committed(c, RecordAnswer(c, word, 0, 0)), SettlementPending)
  {
    var noted := c.(settlement := Some(c.settlement.value.(reference := Some(ProviderRef(0)))));
    assert Figures(noted);
    FailKeeps(c, 0);
    FailKeeps(noted, 0);
  }

  /** In every feasible run amounts are exact just when no step returned the payout of a settlement recorded
      as paid: this holds if and only if the gateway understands every word the provider uses, in the
      sense that it never runs ahead of the payout. */
  lemma ExactIffUnderstood(vocabulary: Vocabulary)
    ensures Understood(vocabulary)
            <==> forall steps: seq<Step> :: Feasible(steps, vocabulary) ==> (Exact(After(steps)) <==> !Returned(steps))
  {
    if Understood(vocabulary) {
      forall steps: seq<Step> | Feasible(steps, vocabulary)
        ensures Exact(After(steps)) <==> !Returned(steps)
      {
        ExactPayouts(steps, vocabulary);
        StillMovedIff(steps, vocabulary);
      }
    } else {
      var word :| word in vocabulary && !WordUnderstood(word, vocabulary[word]);
      var steps;
      if Interpret(word) == Some(Succeeded) {
        steps := PrematureSuccess(vocabulary, word);
      } else {
        steps := FalseFailure(vocabulary, word);
      }
      assert !Returned(steps);
    }
  }

  /** The words the gateway maps, with the meanings it maps them to. */
  const MAPPED: Vocabulary :=
    map["PENDING" := InFlight, "PROCESSING" := InFlight, "SUBMITTED" := InFlight,
        "SUCCEEDED" := Succeeded, "PAID" := Succeeded, "COMPLETED" := Succeeded,
        "FAILED" := Failed, "REJECTED" := Failed, "CANCELLED" := Failed]

  lemma MappedWordsAreSafe(steps: seq<Step>)
    requires Feasible(steps, MAPPED)
    ensures Shown(After(steps)) && (StillMoved(After(steps)) <==> !Returned(steps))
    ensures forall id :: PaysRefund(After(steps), id) ==> Earned(steps, id)
  {
    ExactPayouts(steps, MAPPED);
    StillMovedIff(steps, MAPPED);
  }

  /** "SETTLED" is a success word of the provider's reports that the dispatcher does not know: a provider
      that also answers with it can be made to pay an amount the settlement no longer shows. */
  lemma SettledIsNotUnderstood() returns (steps: seq<Step>)
    ensures Feasible(steps, map["SETTLED" := Succeeded]) && !Returned(steps) && !Exact(After(steps))
  {
    assert Interpret("SETTLED") == None;
    steps := FalseFailure(map["SETTLED" := Succeeded], "SETTLED");
  }

  // ------------------------------------------------------- failed for good

  lemma LedgerEvolvesOn(a: seq<Payout>, b: seq<Payout>, c: seq<Payout>)
    requires LedgerEvolves(a, b) && LedgerEvolves(b, c)
    ensures LedgerEvolves(a, c)
  {
  }

  lemma FrontOfSum(steps: seq<Step>, more: seq<Step>)
    requires more != []
    ensures (steps + more)[..|steps + more| - 1] == steps + more[..|more| - 1]
    ensures (steps + more)[|steps + more| - 1] == more[|more| - 1]
  {
  }

  lemma {:induction false} RunEvolvesLedger(steps: seq<Step>, more: seq<Step>, vocabulary: Vocabulary)
    requires Feasible(steps + more, vocabulary)
    ensures Feasible(steps, vocabulary) && LedgerEvolves(After(steps).ledger, After(steps + more).ledger)
  {
    if more == [] {
      assert steps + more == steps;
    } else {
      var last := |more| - 1;
      var shorter := steps + more[..last];
      FrontOfSum(steps, more);
      RunEvolvesLedger(steps, more[..last], vocabulary);
      StepEvolvesLedger(After(shorter), more[last], vocabulary);
      LedgerEvolvesOn(After(steps).ledger, After(shorter).ledger, After(steps + more).ledger);
    }
  }

  /** With its payout failed, a settlement becomes paid by no step. */
  lemma FailedStep(w: World, step: Step, vocabulary: Vocabulary, p: nat)
    requires Bound(w) && AllFigures(w) && Understood(vocabulary) && Possible(w, step, vocabulary)
    requires AtMostOne(Next(w, step).ledger) && p < |w.ledger| && w.ledger[p].state.Failed?
    ensures PaysRefund(Next(w, step), w.ledger[p].caseId) <==> PaysRefund(w, w.ledger[p].caseId)
  {
    var id := w.ledger[p].caseId;
    StepEvolvesLedger(w, step, vocabulary);
    FailedMeansNothingLive(Next(w, step).ledger, p);
    if PaysRefund(w, id) {
      PaidStays(w, step, id);
    } else if PaysRefund(Next(w, step), id) {
      NextPays(w, step, vocabulary, id);
    }
  }

  lemma FailedNext(steps: seq<Step>, step: Step, vocabulary: Vocabulary, p: nat)
    requires Understood(vocabulary) && Feasible(steps, vocabulary) && Possible(After(steps), step, vocabulary)
    requires p < |After(steps).ledger| && After(steps).ledger[p].state.Failed?
    ensures var id := After(steps).ledger[p].caseId;
      PaysRefund(Next(After(steps), step), id) <==> PaysRefund(After(steps), id)
  {
    AtMostOnePayout(steps);
    AtMostOnePayout(steps + [step]);
    Extend(steps, step, vocabulary);
    FailedStep(After(steps), step, vocabulary, p);
  }

  lemma FeasibleSplit(steps: seq<Step>, more: seq<Step>, vocabulary: Vocabulary)
    requires more != [] && Feasible(steps + more, vocabulary)
    ensures var shorter, step := steps + more[..|more| - 1], more[|more| - 1];
      && Feasible(shorter, vocabulary) && Possible(After(shorter), step, vocabulary)
      && After(steps + more) == Next(After(shorter), step)
  {
    FrontOfSum(steps, more);
  }

  lemma {:induction false} FailedStays(steps: seq<Step>, more: seq<Step>, vocabulary: Vocabulary, p: nat)
    requires Understood(vocabulary) && Feasible(steps + more, vocabulary)
    requires p < |After(steps).ledger| && After(steps).ledger[p].state.Failed?
    ensures var id := After(steps).ledger[p].caseId;
      PaysRefund(After(steps + more), id) <==> PaysRefund(After(steps), id)
  {
    if more == [] {
      assert steps + more == steps;
    } else {
      var shorter := steps + more[..|more| - 1];
      FeasibleSplit(steps, more, vocabulary);
      FailedStays(steps, more[..|more| - 1], vocabulary, p);
      RunEvolvesLedger(steps, more[..|more| - 1], vocabulary);
      FailedNext(shorter, more[|more| - 1], vocabulary, p);
    }
  }

  /** Once the provider failed a settlement's payout, no later payment of it can ever go through: every
      retry reuses the key and finds the failed payout again. It pays a refund only if it had been recorded
      as paid before, and nothing moves any more. */
  lemma FailedPayoutIsFinal(steps: seq<Step>, more: seq<Step>, vocabulary: Vocabulary, p: nat)
    requires Understood(vocabulary) && Feasible(steps + more, vocabulary)
    requires p < |After(steps).ledger| && After(steps).ledger[p].state.Failed?
    ensures var w, id := After(steps + more), After(steps).ledger[p].caseId;
      && Moved(w.ledger, id) == 0
      && (PaysRefund(w, id) <==> PaysRefund(After(steps), id))
  {
    FailedStays(steps, more, vocabulary, p);
    RunEvolvesLedger(steps, more, vocabulary);
    AtMostOnePayout(steps + more);
    FailedMeansNothingLive(After(steps + more).ledger, p);
    NothingMoved(After(steps + more).ledger, After(steps).ledger[p].caseId);
  }

  // -------------------------------------------------------------- recovery

  /** A lost hook strands nothing: whenever a settlement is under payment and its payout has not failed, a
      single redrive answered with a success completes the payment and issues the certificate. */
  lemma RedriveCompletes(steps: seq<Step>, vocabulary: Vocabulary, id: nat, now: int, word: string)
    requires Feasible(steps, vocabulary)
    requires Interpret(word) == Some(Succeeded) && word in vocabulary && vocabulary[word].Succeeded?
    requires id in After(steps).cases && HasStatus(After(steps).cases[id], Processing)
    requires forall p :: 0 <= p < |After(steps).ledger| && After(steps).ledger[p].caseId == id ==>
               !After(steps).ledger[p].state.Failed?
    ensures var step := Redrive(id, now, Answered(word, Succeeded, true));
      && Feasible(steps + [step], vocabulary)
      && var after := After(steps + [step]).cases[id];
      && HasStatus(after, Paid) && after.state.NocIssued? && after.noc.Some?
  {
    var w, step := After(steps), Redrive(id, now, Answered(word, Succeeded, true));
    AtMostOnePayout(steps);
    assert Figures(w.cases[id]) && Dispatchable(w, id);
    FoundPayout(w, id);
    assert Possible(w, step, vocabulary);
    Extend(steps, step, vocabulary);
    SuccessCompletes(w, id, now, word);
  }

  /** What a recorded answer changes: the case, and the payout it is about. */
  lemma AnswerChanges(w: World, id: nat, now: int, word: string, outcome: PayoutState)
    requires Bound(w) && Dispatchable(w, id)
    ensures var d, at := Dispatched(w, id, now, Answered(word, outcome, true)), PayoutAt(w, id);
      && d.cases == w.cases[id := Committed(w.cases[id], RecordAnswer(w.cases[id], word, at, now))]
      && d.hooks == w.hooks
      && at < |d.ledger| && d.ledger[at].caseId == id && d.ledger[at].state == outcome
  {
    FoundPayout(w, id);
  }

  lemma FiguresDispatchable(c: Case)
    requires CaseInv(c) && HasStatus(c, Processing)
    ensures Figures(c) && KeyOf(c).Some? && c.settlement.value.netRefund > 0
  {
  }

  /** An answer that is a success, recorded: the settlement is paid, the certificate out. */
  lemma SuccessCompletes(w: World, id: nat, now: int, word: string)
    requires Bound(w) && AllCases(w.cases) && id in w.cases && HasStatus(w.cases[id], Processing)
    requires Interpret(word) == Some(Succeeded)
    ensures var d := Dispatched(w, id, now, Answered(word, Succeeded, true));
      && d.hooks == w.hooks && PaysRefund(d, id) && PaidBy(d.ledger, id)
      && d.cases[id].state.NocIssued? && d.cases[id].noc.Some?
  {
    FiguresDispatchable(w.cases[id]);
    AnswerChanges(w, id, now, word, Succeeded);
    AnswerKeepsMoney(w.cases[id], word, PayoutAt(w, id), now);
    SuccessCertifies(w.cases[id], word, PayoutAt(w, id), now);
  }

  lemma SuccessCertifies(c: Case, word: string, at: nat, now: int)
    requires CaseInv(c) && HasStatus(c, Processing) && Interpret(word) == Some(Succeeded)
    ensures var d := Committed(c, RecordAnswer(c, word, at, now)); d.state.NocIssued? && d.noc.Some?
  {
    var noted := c.(settlement := Some(c.settlement.value.(reference := Some(ProviderRef(at)))));
    assert Figures(noted);
    ConfirmationCertifies(noted, now, ProviderRef(at));
  }

  lemma ConfirmationCertifies(c: Case, now: int, reference: Reference)
    requires Figures(c) && HasStatus(c, Processing)
    ensures var attempt := Confirm(c, now, Some(reference));
      attempt.Ok? && attempt.value.state.NocIssued? && attempt.value.noc.Some?
  {
    assert Confirm(c, now, Some(reference)).Ok?;
    ConfirmShape(c, now, Some(reference));
  }

  /** A refusal returns the settlement to the owner, whose next payment asks the provider again. */
  lemma RefusalReturns(w: World, id: nat, now: int)
    requires AllCases(w.cases) && id in w.cases && HasStatus(w.cases[id], Processing)
    ensures var d := Dispatched(w, id, now, Refused);
      && d.ledger == w.ledger && id in d.cases && HasStatus(d.cases[id], PendingApproval)
      && d.cases[id].state.SettlementPending? && KeyOf(d.cases[id]) == KeyOf(w.cases[id])
  {
    FiguresDispatchable(w.cases[id]);
    FailKeepsMoney(w.cases[id], now);
    FailKeeps(w.cases[id], now);
  }

  /** The gateway's reading of a word is what it means in that map, and nothing outside it. */
  lemma InterpretIsMapped(word: string)
    ensures Interpret(word) == if word in MAPPED then Some(MAPPED[word]) else None
  {
  }

  /** An answer in one of those words completes the payment under way if and only if the word means that
      the payout succeeded. */
  lemma AnswerCompletesIff(w: World, id: nat, now: int, word: string, outcome: PayoutState)
    requires Bound(w) && AllCases(w.cases) && id in w.cases && HasStatus(w.cases[id], Processing)
    requires word in MAPPED
    ensures PaysRefund(Dispatched(w, id, now, Answered(word, outcome, true)), id) <==> MAPPED[word].Succeeded?
  {
    FiguresDispatchable(w.cases[id]);
    AnswerChanges(w, id, now, word, outcome);
    AnswerKeepsMoney(w.cases[id], word, PayoutAt(w, id), now);
    InterpretIsMapped(word);
  }
}
