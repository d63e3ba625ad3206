/** Payouts that come back: when a settlement recorded as paid has still moved its refund. */
module PayoutReturns {
  import opened Outcomes
  import opened ExitStates
  import opened ExitCase
  import opened ExitInvariants
  import opened PayoutProtocol
  import opened PayoutSafety

  /** Behind every settlement recorded as paid stands a payout that reached an outcome. */
  ghost predicate Backed(w: World) {
    forall id :: PaysRefund(w, id) ==> HasOutcome(w.ledger, id)
  }

  predicate HasOutcome(ledger: seq<Payout>, id: nat) {
    exists p :: 0 <= p < |ledger| && ledger[p].caseId == id && !ledger[p].state.InFlight?
  }

  /** A settlement is recorded as paid although its payout failed after all. */
  ghost predicate Reversed(w: World) {
    exists p :: ReversedAt(w, p)
  }

  predicate ReversedAt(w: World, p: int) {
    0 <= p < |w.ledger| && w.ledger[p].state.Failed? && PaysRefund(w, w.ledger[p].caseId)
  }

  lemma OutcomeStays(before: seq<Payout>, after: seq<Payout>, id: nat)
    requires LedgerEvolves(before, after) && HasOutcome(before, id)
    ensures HasOutcome(after, id)
  {
    var p :| 0 <= p < |before| && before[p].caseId == id && !before[p].state.InFlight?;
    assert after[p].caseId == id && !after[p].state.InFlight?;
  }

  lemma NextKeepsBacked(w: World, step: Step, vocabulary: Vocabulary)
    requires Bound(w) && AllFigures(w) && Backed(w) && Understood(vocabulary) && Possible(w, step, vocabulary)
    ensures Backed(Next(w, step))
  {
    StepEvolvesLedger(w, step, vocabulary);
    forall id | PaysRefund(Next(w, step), id)
      ensures HasOutcome(Next(w, step).ledger, id)
    {
      if PaysRefund(w, id) {
        OutcomeStays(w.ledger, Next(w, step).ledger, id);
      } else {
        NextPays(w, step, vocabulary, id);
      }
    }
  }

  lemma {:induction false} RunKeepsBacked(steps: seq<Step>, vocabulary: Vocabulary)
    requires Understood(vocabulary) && Feasible(steps, vocabulary)
    ensures Backed(After(steps))
  {
    if steps != [] {
      RunKeepsBacked(steps[..|steps| - 1], vocabulary);
      AtMostOnePayout(steps[..|steps| - 1]);
      NextKeepsBacked(After(steps[..|steps| - 1]), steps[|steps| - 1], vocabulary);
    }
  }

  /** Dispatching turns no payout of a settlement recorded as paid. */
  lemma DispatchTurnsNone(w: World, id: nat, now: int, reply: Reply, p: int)
    requires Bound(w) && 0 <= p < |Dispatched(w, id, now, reply).ledger|
    requires PaysRefund(w, Dispatched(w, id, now, reply).ledger[p].caseId)
    ensures p < |w.ledger| && Dispatched(w, id, now, reply).ledger[p] == w.ledger[p]
  {
    if Dispatchable(w, id) {
      FoundPayout(w, id);
    }
  }

  /** Only a return turns the payout of a settlement recorded as paid into a failed one. */
  lemma ReversedBefore(w: World, step: Step, vocabulary: Vocabulary, p: int)
    requires Bound(w) && Backed(w) && Possible(w, step, vocabulary)
    requires ReversedAt(Next(w, step), p) && PaysRefund(w, Next(w, step).ledger[p].caseId)
    ensures ReversedAt(w, p) || Returns(w, step)
  {
    match step
    case RunHook(id, now, reply) => DispatchTurnsNone(w.(hooks := w.hooks - multiset{id}), id, now, reply, p);
    case Redrive(id, now, reply) => DispatchTurnsNone(w, id, now, reply, p);
    case Settles(index, outcome) => BoundMeansAtMostOne(w);
    case Initiate(_, _, _) =>
    case Ask(_, _, _, _) =>
    case LoseHook(_) =>
    case Report(_, _, _, _) =>
  }

  lemma ReversedAfter(w: World, step: Step, vocabulary: Vocabulary, p: int)
    requires AllFigures(w) && Possible(w, step, vocabulary)
    requires ReversedAt(w, p) || (Returns(w, step) && p == step.index)
    ensures ReversedAt(Next(w, step), p)
  {
    StepEvolvesLedger(w, step, vocabulary);
    PaidStays(w, step, w.ledger[p].caseId);
  }

  lemma NextReversedIff(w: World, step: Step, vocabulary: Vocabulary)
    requires Bound(w) && AllFigures(w) && Backed(w) && Understood(vocabulary) && Possible(w, step, vocabulary)
    requires AtMostOne(Next(w, step).ledger)
    ensures Reversed(Next(w, step)) <==> Reversed(w) || Returns(w, step)
  {
    if Reversed(Next(w, step)) {
      var p :| ReversedAt(Next(w, step), p);
      var id := Next(w, step).ledger[p].caseId;
      if PaysRefund(w, id) {
        ReversedBefore(w, step, vocabulary, p);
      } else {
        NextPays(w, step, vocabulary, id);
        assert false;
      }
    }
    if Reversed(w) {
      var p :| ReversedAt(w, p);
      ReversedAfter(w, step, vocabulary, p);
    }
    if Returns(w, step) {
      ReversedAfter(w, step, vocabulary, step.index);
    }
  }

  lemma ReturnedStep(front: seq<Step>, step: Step)
    ensures Returned(front + [step]) <==> Returned(front) || Returns(After(front), step)
  {
    var steps := front + [step];
    assert steps[..|front|] == front && steps[|front|] == step;
    assert forall k :: 0 <= k < |front| ==> steps[..k] == front[..k] && steps[k] == front[k];
  }

  /** A settlement recorded as paid has a failed payout exactly when some step of the run returned one. */
  lemma {:induction false} ReversedIffReturned(steps: seq<Step>, vocabulary: Vocabulary)
    requires Understood(vocabulary) && Feasible(steps, vocabulary)
    ensures Reversed(After(steps)) <==> Returned(steps)
  {
    if steps != [] {
      var front, step := steps[..|steps| - 1], steps[|steps| - 1];
      assert steps == front + [step];
      ReversedIffReturned(front, vocabulary);
      AtMostOnePayout(front);
      AtMostOnePayout(steps);
      RunKeepsBacked(front, vocabulary);
      NextReversedIff(After(front), step, vocabulary);
      ReturnedStep(front, step);
    }
  }

  lemma ReversedMoves(w: World, p: int)
    requires AtMostOne(w.ledger) && ReversedAt(w, p)
    ensures !StillMoved(w)
  {
    var id := w.ledger[p].caseId;
    FailedMeansNothingLive(w.ledger, p);
    NothingMoved(w.ledger, id);
    assert Moved(w.ledger, id) != w.cases[id].settlement.value.netRefund;
  }

  lemma UnreversedMoves(w: World)
    requires AtMostOne(w.ledger) && Owed(w) && Backed(w) && !Reversed(w)
    ensures StillMoved(w)
  {
    forall id | id in w.cases && HasStatus(w.cases[id], Paid)
      ensures Moved(w.ledger, id) == w.cases[id].settlement.value.netRefund
    {
      if PaysRefund(w, id) {
        var p :| 0 <= p < |w.ledger| && w.ledger[p].caseId == id && !w.ledger[p].state.InFlight?;
        assert !ReversedAt(w, p);
        MovedOnce(w.ledger, p);
      } else {
        NothingMoved(w.ledger, id);
      }
    }
  }

  /** Settlements recorded as paid have still moved exactly their refund if and only if no step of the run
      returned a payout of one of them. */
  lemma StillMovedIff(steps: seq<Step>, vocabulary: Vocabulary)
    requires Understood(vocabulary) && Feasible(steps, vocabulary)
    ensures StillMoved(After(steps)) <==> !Returned(steps)
  {
    AtMostOnePayout(steps);
    RunKeepsOwed(steps, vocabulary);
    RunKeepsBacked(steps, vocabulary);
    ReversedIffReturned(steps, vocabulary);
    if Reversed(After(steps)) {
      var p :| ReversedAt(After(steps), p);
      ReversedMoves(After(steps), p);
    } else {
      UnreversedMoves(After(steps));
    }
  }
}
