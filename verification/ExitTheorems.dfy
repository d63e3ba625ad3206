/** What the invariant means for readers of an exit case, over every run. */
module ExitTheorems {
  import opened Outcomes
  import opened ExitStates
  import opened ExitCase
  import opened ExitInvariants

  predicate Certified(s: State) {
    s.NocIssued? || s.Completed?
  }

  /** Workflow state and settlement status determine each other wherever money is involved; the two
      intermediate states are never committed; a certificate exists exactly when the refund is paid. */
  lemma CoupledInEveryRun(deposit: nat, defaultKey: string, events: seq<Event>)
    ensures var c := Run(NewCase(deposit, defaultKey), events);
      && (c.state.SettlementPending? <==> HasStatus(c, PendingApproval))
      && (c.state.SettlementProcessing? <==> HasStatus(c, Processing))
      && (Certified(c.state) <==> HasStatus(c, Paid))
      && (Certified(c.state) <==> c.noc.Some?)
      && (!Settling(c.state) <==> c.settlement.None? || HasStatus(c, DraftFigures))
      && !c.state.InspectionCompleted? && !c.state.SettlementCompleted?
  {
    RunKeeps(deposit, defaultKey, events);
  }

  /** From the moment the figures are frozen they equal what would be computed now, no dispute of any
      round is open, and the books balance. */
  lemma FrozenFiguresAgree(deposit: nat, defaultKey: string, events: seq<Event>)
    requires Settling(Run(NewCase(deposit, defaultKey), events).state)
    ensures var c := Run(NewCase(deposit, defaultKey), events);
      && c.inspection.Some? && c.settlement.Some? && c.inspection.value.assessedTotal.Some?
      && var s, i, now := c.settlement.value, c.inspection.value, LinesFromInspection(c.inspection);
      && OpenDisputes(i.items) == 0
      && LinesAgree(s.lines, now)
      && SumLines(now) <= i.assessedTotal.value
      && s.netRefund - s.liability == c.deposit - SumLines(s.lines)
      && (s.netRefund == 0 || s.liability == 0)
  {
    RunKeeps(deposit, defaultKey, events);
    var i := Run(NewCase(deposit, defaultKey), events).inspection.value;
    LinesWithinEstimates(i.items, i.round);
  }

  /** The recorded rows replay to the current state, and the case is closed exactly in a terminal one. */
  lemma HistoryReplays(deposit: nat, defaultKey: string, events: seq<Event>)
    ensures var c := Run(NewCase(deposit, defaultKey), events);
      Replay(c.history) == Some(c.state) && (c.closedAt.Some? <==> Terminal(c.state))
  {
    RunKeeps(deposit, defaultKey, events);
  }

  /** A completed exit went through every milestone in order, whatever loops its run took. */
  lemma CompletedPassedMilestones(deposit: nat, defaultKey: string, events: seq<Event>)
    requires Run(NewCase(deposit, defaultKey), events).state.Completed?
    ensures Subsequence(MILESTONES, Actions(Run(NewCase(deposit, defaultKey), events).history))
  {
    RunKeeps(deposit, defaultKey, events);
    assert MILESTONES[..11] == MILESTONES;
  }

  lemma TerminalStep(c: Case, event: Event)
    requires Figures(c) && Terminal(c.state)
    ensures Apply(c, event) == c.(noc := Apply(c, event).noc)
  {
  }

  /** Once terminal, nothing but the certificate's revocation can change a case any more. */
  lemma {:induction false} TerminalForever(c: Case, events: seq<Event>)
    requires CaseInv(c) && Terminal(c.state)
    ensures Run(c, events) == c.(noc := Run(c, events).noc)
    ensures CaseInv(Run(c, events))
  {
    if events != [] {
      var before := Run(c, events[..|events| - 1]);
      TerminalForever(c, events[..|events| - 1]);
      TerminalStep(before, events[|events| - 1]);
      ApplyKeeps(before, events[|events| - 1]);
    }
  }

  // ------------------------------------------------------------- preview

  datatype Preview = Preview(deductions: nat, netRefund: nat, liability: nat, openDisputes: nat, canFinalise: bool)

  /** The live projection shown while the review is open. */
  function PreviewOf(c: Case): Result<Preview> {
    var deductions := SumLines(LinesFromInspection(c.inspection));
    var split :- Settle(c.deposit, deductions);
    var disputes := if c.inspection.Some? then OpenDisputes(c.inspection.value.items) else 0;
    Ok(Preview(deductions, split.0, split.1, disputes,
               c.state.DamageReview? && disputes == 0 && c.inspection.Some? && c.inspection.value.reported))
  }

  /** In every reachable state the preview says "can finalise" exactly when finalising without manual
      charges would go through, and then the frozen figures are the previewed ones, so that sending
      the previewed refund as the expected one is accepted. */
  lemma PreviewPredictsFinalise(c: Case, now: int)
    requires Figures(c)
    ensures var final := FinaliseFigures(c, Owner, now, [], None);
      && (PreviewOf(c).Ok? && PreviewOf(c).value.canFinalise <==> final.Ok?)
      && (final.Ok? ==>
            var s := final.value.settlement.value;
            && s.netRefund == PreviewOf(c).value.netRefund
            && s.liability == PreviewOf(c).value.liability
            && s.totalDeductions == PreviewOf(c).value.deductions
            && final == FinaliseFigures(c, Owner, now, [], Some(PreviewOf(c).value.netRefund)))
  {
    assert LinesFromInspection(c.inspection) + ManualLines([]) == LinesFromInspection(c.inspection);
  }

  /** A report always opens a round that has no items yet: the code that removes the current round's
      earlier items never finds one. */
  lemma ReportsNeverReplace(deposit: nat, defaultKey: string, events: seq<Event>)
    ensures var c := Run(NewCase(deposit, defaultKey), events);
      c.state.InspectionScheduled? ==>
        c.inspection.Some?
        && WithoutRound(c.inspection.value.items, c.inspection.value.round) == c.inspection.value.items
  {
    RunKeeps(deposit, defaultKey, events);
    var c := Run(NewCase(deposit, defaultKey), events);
    if c.state.InspectionScheduled? {
      NothingToRemove(c.inspection.value.items, c.inspection.value.round);
    }
  }

  // -------------------------------------------------------- damage items

  /** The lifecycle of a dispute: none, then raised, then resolved for good. */
  predicate DisputeMayBecome(before: DisputeStatus, after: DisputeStatus) {
    after == before || before.NoDispute? || (before.Raised? && !after.NoDispute?)
  }

  /** Items are never dropped, and of an item only the approved cost, the liability and the dispute
      may change: the agency's estimate is immutable, a resolved dispute stays resolved. */
  predicate ItemsEvolve(before: seq<Item>, after: seq<Item>) {
    && |before| <= |after|
    && (forall i :: 0 <= i < |before| ==>
          && after[i].id == before[i].id
          && after[i].round == before[i].round
          && after[i].estimated == before[i].estimated
          && DisputeMayBecome(before[i].dispute, after[i].dispute))
  }

  lemma OutcomeKeepsItems(c: Case, event: Event)
    requires !event.Requested?
    ensures ItemsIn(Apply(c, event)) == ItemsIn(c)
  {
  }

  lemma ItemCommandEvolves(c: Case, command: Command, role: Role, now: int)
    requires command.DoAdjust? || command.DoDispute? || command.DoResolve?
    requires Perform(c, command, role, now).Ok?
    ensures ItemsEvolve(ItemsIn(c), ItemsIn(Perform(c, command, role, now).value))
  {
  }

  lemma ReportEvolves(c: Case, role: Role, now: int, conductedAt: int, entries: seq<Entry>)
    requires Figures(c) && ReportDamage(c, role, now, conductedAt, entries).Ok?
    ensures ItemsEvolve(ItemsIn(c), ItemsIn(ReportDamage(c, role, now, conductedAt, entries).value))
  {
    ReportShape(c, role, now, conductedAt, entries);
    NothingToRemove(c.inspection.value.items, c.inspection.value.round);
  }

  lemma StepEvolvesItems(c: Case, event: Event)
    requires Figures(c)
    ensures ItemsEvolve(ItemsIn(c), ItemsIn(Apply(c, event)))
  {
    if Attempt(c, event).Err? {
    } else if !event.Requested? {
      OutcomeKeepsItems(c, event);
    } else if MoveOf(event.command).Some? {
      SingleMoveParts(c, event.command, event.role, event.now);
    } else if event.command.DoReport? {
      ReportEvolves(c, event.role, event.now, event.command.conductedAt, event.command.entries);
    } else if event.command.DoPay? {
      if c.settlement.value.netRefund > 0 {
        TransferShape(c, event.role, event.now, event.command.payoutMethod, event.command.requestedKey);
      } else {
        OffsetShape(c, event.role, event.now, event.command.payoutMethod, event.command.requestedKey);
      }
    } else if !event.command.DoRevoke? {
      ItemCommandEvolves(c, event.command, event.role, event.now);
    }
  }

  lemma {:induction false} ItemsEvolveOverRuns(c: Case, events: seq<Event>)
    requires CaseInv(c)
    ensures CaseInv(Run(c, events))
    ensures ItemsEvolve(ItemsIn(c), ItemsIn(Run(c, events)))
  {
    if events != [] {
      var before := Run(c, events[..|events| - 1]);
      ItemsEvolveOverRuns(c, events[..|events| - 1]);
      StepEvolvesItems(before, events[|events| - 1]);
      ApplyKeeps(before, events[|events| - 1]);
    }
  }

  /** The payment counter and the round number are what the history says they are. */
  lemma CountersMatchHistory(deposit: nat, defaultKey: string, events: seq<Event>)
    ensures var c := Run(NewCase(deposit, defaultKey), events);
      && (c.settlement.Some? ==> c.settlement.value.attempts == Count(c.history, PayDeposit))
      && (c.inspection.Some? ==> c.inspection.value.round == 1 + Count(c.history, Reinspect))
  {
    RunKeeps(deposit, defaultKey, events);
  }
}
