/** Which payments can still be completed: exactly those whose payout the provider has not failed. */
module PayoutCompletion {
  import opened Outcomes
  import opened ExitStates
  import opened ExitCase
  import opened ExitInvariants
  import opened PayoutProtocol
  import opened PayoutSafety
  import opened PayoutLimits

  /** The provider has failed a payout of this case. */
  predicate HasFailedPayout(w: World, id: nat) {
    exists p :: 0 <= p < |w.ledger| && w.ledger[p].caseId == id && w.ledger[p].state.Failed?
  }

  /** `more` is possible after `steps`, and at its end the refund is paid. */
  predicate Completes(steps: seq<Step>, more: seq<Step>, vocabulary: Vocabulary, id: nat) {
    Feasible(steps + more, vocabulary) && PaysRefund(After(steps + more), id)
  }

  /** The world after the payout of `id` succeeded and the dispatcher recorded `word` about it. */
  function AfterAnswer(w: World, id: nat, word: string): World
    requires Dispatchable(w, id)
  {
    Dispatched(w, id, 0, Answered(word, Succeeded, true))
  }

  /** A provider with any word for a live payout may answer with it although the payout has just succeeded. */
  lemma AnswerPossible(w: World, id: nat, word: string, vocabulary: Vocabulary)
    requires Bound(w) && Dispatchable(w, id) && !HasFailedPayout(w, id)
    requires word in vocabulary && !vocabulary[word].Failed?
    ensures Possible(w, Redrive(id, 0, Answered(word, Succeeded, true)), vocabulary)
  {
    FoundPayout(w, id);
    var at := PayoutAt(w, id);
    assert !Registered(w, id)[at].state.Failed? by {
      if at < |w.ledger| {
        assert Registered(w, id)[at] == w.ledger[at];
      }
    }
  }

  /** What that leaves: the payout succeeded, and the settlement is paid or refers to it. */
  lemma AnswerLeaves(w: World, id: nat, word: string)
    requires Dispatchable(w, id) && Figures(w.cases[id])
    requires Interpret(word) == Some(Succeeded) || Interpret(word) == Some(InFlight)
    ensures var d, at := AfterAnswer(w, id, word), PayoutAt(w, id);
      && id in d.cases && at < |d.ledger| && d.ledger[at].state.Succeeded?
      && d.cases[id].settlement == Some(w.cases[id].settlement.value.(
           reference := Some(ProviderRef(at)),
           status := if Interpret(word) == Some(Succeeded) then Paid else Processing))
  {
    AnswerKeepsMoney(w.cases[id], word, PayoutAt(w, id), 0);
  }

  /** A true report about a payout the settlement refers to completes it. */
  lemma ReportCompletes(w: World, id: nat, at: nat, vocabulary: Vocabulary)
    requires id in w.cases && Figures(w.cases[id]) && HasStatus(w.cases[id], Processing)
    requires w.cases[id].settlement.value.reference == Some(ProviderRef(at))
    requires at < |w.ledger| && w.ledger[at].state.Succeeded?
    ensures Possible(w, Report(id, at, true, 0), vocabulary)
    ensures PaysRefund(Next(w, Report(id, at, true, 0)), id)
  {
    ConfirmKeepsMoney(w.cases[id], 0, ProviderRef(at));
  }

  /** Ask the provider, which answers with `word` as the payout has just succeeded. */
  lemma AnswerStep(steps: seq<Step>, vocabulary: Vocabulary, id: nat, word: string)
    requires Understood(vocabulary) && Feasible(steps, vocabulary)
    requires word in vocabulary && !vocabulary[word].Failed?
    requires id in After(steps).cases && HasStatus(After(steps).cases[id], Processing)
    requires !HasFailedPayout(After(steps), id)
    ensures Dispatchable(After(steps), id)
    ensures var longer := steps + [Redrive(id, 0, Answered(word, Succeeded, true))];
      Feasible(longer, vocabulary) && After(longer) == AfterAnswer(After(steps), id, word)
    ensures Interpret(word) == Some(Succeeded) || Interpret(word) == Some(InFlight)
    ensures After(steps).cases[id].settlement.value.netRefund > 0 && Figures(After(steps).cases[id])
  {
    AtMostOnePayout(steps);
    assert WordUnderstood(word, vocabulary[word]);
    AnswerPossible(After(steps), id, word, vocabulary);
    Extend(steps, Redrive(id, 0, Answered(word, Succeeded, true)), vocabulary);
  }

  /** A report that follows completes what the answer only noted. */
  lemma ReportStep(steps: seq<Step>, vocabulary: Vocabulary, id: nat, at: nat)
    requires Feasible(steps, vocabulary) && id in After(steps).cases && HasStatus(After(steps).cases[id], Processing)
    requires After(steps).cases[id].settlement.value.reference == Some(ProviderRef(at))
    requires at < |After(steps).ledger| && After(steps).ledger[at].state.Succeeded?
    ensures Completes(steps, [Report(id, at, true, 0)], vocabulary, id)
  {
    AtMostOnePayout(steps);
    ReportCompletes(After(steps), id, at, vocabulary);
    Extend(steps, Report(id, at, true, 0), vocabulary);
  }

  /** A payment whose payout has not failed can be completed, by an answer or by an answer and a report. */
  lemma CompletionExists(steps: seq<Step>, vocabulary: Vocabulary, id: nat, word: string) returns (more: seq<Step>)
    requires Understood(vocabulary) && Feasible(steps, vocabulary)
    requires word in vocabulary && !vocabulary[word].Failed?
    requires id in After(steps).cases && HasStatus(After(steps).cases[id], Processing)
    requires !HasFailedPayout(After(steps), id)
    ensures Completes(steps, more, vocabulary, id)
  {
    AnswerStep(steps, vocabulary, id, word);
    AnswerLeaves(After(steps), id, word);
    more := [Redrive(id, 0, Answered(word, Succeeded, true))];
    if Interpret(word) == Some(InFlight) {
      var at := PayoutAt(After(steps), id);
      ReportStep(steps + more, vocabulary, id, at);
      assert steps + more + [Report(id, at, true, 0)] == steps + (more + [Report(id, at, true, 0)]);
      more := more + [Report(id, at, true, 0)];
    }
  }

  /** "Owner may retry": for a settlement under payment some feasible continuation pays its refund exactly
      when the provider has not failed a payout of it. All the provider must have is some word for a
      payout that has not failed. */
  lemma CompletableIff(steps: seq<Step>, vocabulary: Vocabulary, id: nat, word: string)
    requires Understood(vocabulary) && Feasible(steps, vocabulary)
    requires word in vocabulary && !vocabulary[word].Failed?
    requires id in After(steps).cases && HasStatus(After(steps).cases[id], Processing)
    ensures (exists more: seq<Step> :: Completes(steps, more, vocabulary, id)) <==> !HasFailedPayout(After(steps), id)
  {
    if HasFailedPayout(After(steps), id) {
      var ledger := After(steps).ledger;
      var p :| 0 <= p < |ledger| && ledger[p].caseId == id && ledger[p].state.Failed?;
      forall more: seq<Step> | Feasible(steps + more, vocabulary)
        ensures !PaysRefund(After(steps + more), id)
      {
        FailedPayoutIsFinal(steps, more, vocabulary, p);
      }
    } else {
      var more := CompletionExists(steps, vocabulary, id, word);
    }
  }

  /** The provider fails the payout, and the settlement is back with the owner. */
  lemma FailedRun() returns (steps: seq<Step>, c: Case, payout: Payout)
    ensures Stage(steps, MAPPED, c, [payout]) && payout.caseId == 0 && payout.state.Failed?
    ensures Untouched(c, SettlementPending) && c.settlement.value.netRefund == 2
  {
    var paying;
    steps, paying := ReachProcessing(MAPPED);
    steps, c, payout := AnswerNext(steps, MAPPED, paying, "FAILED", Failed);
    ReturnedToOwner(paying, "FAILED");
    AnswerKeepsMoney(paying, "FAILED", 0, 0);
  }

  lemma RetriedRun() returns (steps: seq<Step>, c: Case, payout: Payout)
    ensures Stage(steps, MAPPED, c, [payout]) && payout.caseId == 0 && payout.state.Failed? && Paying(c)
  {
    var returned;
    steps, returned, payout := FailedRun();
    PayNext(returned);
    var script;
    script, c := AppendTo(returned, returned, [], By(DoPay(Transfer, None), Owner));
    steps := StageScript(steps, MAPPED, returned, [payout], script);
  }

  lemma MappedUnderstood()
    ensures Understood(MAPPED) && "PENDING" in MAPPED && !MAPPED["PENDING"].Failed?
  {
  }

  /** A run into the dead end: the provider fails the payout, the owner retries and the settlement is under
      payment once more, but no continuation ever pays the refund. */
  lemma RetryInVain() returns (steps: seq<Step>)
    ensures Feasible(steps, MAPPED) && 0 in After(steps).cases && HasStatus(After(steps).cases[0], Processing)
    ensures After(steps).cases[0].settlement.value.netRefund == 2 && HasFailedPayout(After(steps), 0)
    ensures forall more: seq<Step> :: !Completes(steps, more, MAPPED, 0)
  {
    var c, payout;
    steps, c, payout := RetriedRun();
    assert After(steps).ledger[0] == payout && After(steps).cases[0] == c;
    MappedUnderstood();
    CompletableIff(steps, MAPPED, 0, "PENDING");
  }
}
