/** Safety of the payout protocol over every feasible run. */
module PayoutSafety {
  import opened Outcomes
  import opened ExitStates
  import opened ExitCase
  import opened ExitInvariants
  import opened PayoutProtocol

  // -------------------------------------- what a command does to the money

  /** How a settlement may change through a request: a bound key stays bound, figures under payment or
      paid are untouchable, and a payment starts only from figures awaiting one. */
  predicate RequestEvolves(before: Case, after: Case) {
    && (KeyOf(before).Some? ==> KeyOf(after) == KeyOf(before))
    && (HasStatus(before, Processing) || HasStatus(before, Paid) ==> after.settlement == before.settlement)
    && (HasStatus(after, Processing) ==>
          && after.settlement.value.netRefund > 0
          && KeyOf(after).Some?)
    && (HasStatus(after, Paid) && !HasStatus(before, Paid) ==> after.settlement.value.netRefund == 0)
    && (before.settlement.Some? ==> after.settlement.Some?)
    && (after.settlement.Some? ==>
          var reference := after.settlement.value.reference;
          reference.None? || reference == Some(Offset)
          || (before.settlement.Some? && reference == before.settlement.value.reference))
  }

  lemma OtherMovesKeepSettlement(c: Case, command: Command, role: Role, now: int)
    requires MoveOf(command).Some? && !command.DoFinalise? && !command.DoReopen?
    requires Perform(c, command, role, now).Ok?
    ensures Perform(c, command, role, now).value.settlement == c.settlement
  {
  }

  lemma FiguresMoveEvolves(c: Case, command: Command, role: Role, now: int)
    requires Figures(c) && (command.DoFinalise? || command.DoReopen?)
    requires Perform(c, command, role, now).Ok?
    ensures RequestEvolves(c, Perform(c, command, role, now).value)
  {
  }

  lemma RequestKeepsMoney(c: Case, command: Command, role: Role, now: int)
    requires Figures(c)
    ensures RequestEvolves(c, Apply(c, Event.Requested(command, role, now)))
  {
    if Perform(c, command, role, now).Ok? {
      if command.DoFinalise? || command.DoReopen? {
        FiguresMoveEvolves(c, command, role, now);
      } else if MoveOf(command).Some? {
        OtherMovesKeepSettlement(c, command, role, now);
      } else if command.DoReport? {
        ReportShape(c, role, now, command.conductedAt, command.entries);
      } else if command.DoPay? {
        if c.settlement.value.netRefund > 0 {
          TransferShape(c, role, now, command.payoutMethod, command.requestedKey);
        } else {
          OffsetShape(c, role, now, command.payoutMethod, command.requestedKey);
        }
      }
    }
  }

  lemma ConfirmElsewhere(c: Case, now: int, reference: Reference)
    requires Figures(c) && c.settlement.Some? && !HasStatus(c, Processing)
    ensures Committed(c, Confirm(c, now, Some(reference))).settlement == c.settlement
  {
  }

  /** A confirmation only ever turns a settlement under payment into a paid one. */
  lemma ConfirmKeepsMoney(c: Case, now: int, reference: Reference)
    requires Figures(c) && c.settlement.Some?
    ensures var after := Committed(c, Confirm(c, now, Some(reference)));
      if HasStatus(c, Processing)
      then after.settlement == Some(c.settlement.value.(status := Paid, reference := Some(reference)))
      else after.settlement == c.settlement
  {
    if HasStatus(c, Processing) {
      assert Confirm(c, now, Some(reference)).Ok?;
      ConfirmShape(c, now, Some(reference));
    } else {
      ConfirmElsewhere(c, now, reference);
    }
  }

  /** A failure only ever returns a settlement under payment to the owner. */
  lemma FailKeepsMoney(c: Case, now: int)
    requires Figures(c) && c.settlement.Some?
    ensures var after := Committed(c, FailPayout(c, now));
      if HasStatus(c, Processing)
      then after.settlement == Some(c.settlement.value.(status := PendingApproval))
      else after == c
  {
  }

  // ------------------------------------------------------------ invariants

  ghost predicate AllCases(cases: map<nat, Case>) {
    forall id :: id in cases ==> CaseInv(cases[id])
  }

  lemma AllCasesUpdate(cases: map<nat, Case>, id: nat, after: Case)
    requires AllCases(cases) && CaseInv(after)
    ensures AllCases(cases[id := after])
  {
  }

  /** Provider keys identify settlements, and payouts carry the key of their settlement. */
  predicate Bound(w: World) {
    && (forall i, j :: i in w.cases && j in w.cases && i != j && KeyOf(w.cases[i]).Some? ==>
          KeyOf(w.cases[i]) != KeyOf(w.cases[j]))
    && (forall p :: 0 <= p < |w.ledger| ==>
          && w.ledger[p].caseId in w.cases
          && KeyOf(w.cases[w.ledger[p].caseId]) == Some(w.ledger[p].key))
    && (forall p, q :: 0 <= p < q < |w.ledger| ==> w.ledger[p].key != w.ledger[q].key)
    && (forall id :: id in w.cases ==> Traceable(w.ledger, id, w.cases[id]))
  }

  /** A payout reference points at a payout of the same case. */
  predicate Traceable(ledger: seq<Payout>, id: nat, c: Case) {
    c.settlement.Some? && c.settlement.value.reference.Some? && c.settlement.value.reference.value.ProviderRef? ==>
      var index := c.settlement.value.reference.value.index;
      index < |ledger| && ledger[index].caseId == id
  }

  /** A settlement the provider may still pay, or has paid, for exactly `amount`. */
  predicate OwesOrPaid(c: Case, amount: nat) {
    && (HasStatus(c, Processing) || HasStatus(c, Paid))
    && c.settlement.value.netRefund == amount
    && amount > 0
  }

  predicate PaidBy(ledger: seq<Payout>, id: nat) {
    exists p :: 0 <= p < |ledger| && ledger[p].caseId == id && ledger[p].state.Succeeded?
  }

  /** Every payout that has not failed belongs to a settlement under payment or paid, for its refund. */
  predicate Owed(w: World) {
    forall p :: 0 <= p < |w.ledger| && !w.ledger[p].state.Failed? ==>
      w.ledger[p].caseId in w.cases && OwesOrPaid(w.cases[w.ledger[p].caseId], w.ledger[p].amount)
  }

  lemma BoundMeansAtMostOne(w: World)
    requires Bound(w)
    ensures AtMostOne(w.ledger)
  {
  }

  /** Replacing one case by a later version of itself keeps the keys bound, if its own key is kept. */
  lemma BoundUpdate(w: World, id: nat, after: Case)
    requires Bound(w) && id in w.cases
    requires KeyOf(w.cases[id]).Some? ==> KeyOf(after) == KeyOf(w.cases[id])
    requires !KeyClash(w.cases, id, after)
    requires Traceable(w.ledger, id, after)
    ensures Bound(w.(cases := w.cases[id := after]))
  {
  }

  lemma UnchangedKeyNoClash(w: World, id: nat, after: Case)
    requires Bound(w) && id in w.cases && KeyOf(after) == KeyOf(w.cases[id])
    ensures !KeyClash(w.cases, id, after)
  {
  }

  lemma BoundRegister(w: World, id: nat)
    requires Bound(w) && Dispatchable(w, id)
    ensures Bound(w.(ledger := Registered(w, id)))
  {
    var s := w.cases[id].settlement.value;
    if IndexOf(w.ledger, s.key.value).None? {
      assert Registered(w, id) == w.ledger + [Payout(s.key.value, id, s.netRefund, InFlight)];
    } else {
      assert w.(ledger := Registered(w, id)) == w;
    }
  }

  lemma BoundTurn(w: World, p: nat, outcome: PayoutState)
    requires Bound(w) && p < |w.ledger|
    ensures Bound(w.(ledger := w.ledger[p := w.ledger[p].(state := outcome)]))
  {
  }

  /** After registration the payout found under the key belongs to this very case. */
  lemma FoundPayout(w: World, id: nat)
    requires Bound(w) && Dispatchable(w, id)
    ensures var p := PayoutAt(w, id); p < |Registered(w, id)| && Registered(w, id)[p].caseId == id
  {
    BoundRegister(w, id);
  }

  // ------------------------------------------------------- outcome records

  /** Noting the provider's reference touches nothing else the invariant speaks of. */
  lemma NotedKeeps(c: Case, reference: Reference)
    requires CaseInv(c) && c.settlement.Some?
    ensures CaseInv(c.(settlement := Some(c.settlement.value.(reference := Some(reference)))))
  {
    SameRecord(c, c.(settlement := Some(c.settlement.value.(reference := Some(reference)))));
  }

  /** What recording an answer does to the settlement, word by word. */
  lemma AnswerKeepsMoney(c: Case, word: string, index: nat, now: int)
    requires Figures(c) && HasStatus(c, Processing)
    ensures var s, after := c.settlement.value, Committed(c, RecordAnswer(c, word, index, now));
      var noted := s.(reference := Some(ProviderRef(index)));
      after.settlement == Some(
        match Interpret(word)
        case None => s.(status := PendingApproval)
        case Some(InFlight) => noted
        case Some(Failed) => noted.(status := PendingApproval)
        case Some(Succeeded) => noted.(status := Paid))
  {
    var noted := c.(settlement := Some(c.settlement.value.(reference := Some(ProviderRef(index)))));
    assert Figures(noted);
    match Interpret(word)
    case None => FailKeepsMoney(c, now);
    case Some(Succeeded) => ConfirmKeepsMoney(noted, now, ProviderRef(index));
    case Some(Failed) => FailKeepsMoney(noted, now);
    case Some(InFlight) =>
  }

  /** Recording an answer leaves the case alone, notes the payout, or is one of the two outcome events. */
  lemma AnswerIs(c: Case, word: string, index: nat, now: int)
    requires c.settlement.Some?
    ensures var d := Committed(c, RecordAnswer(c, word, index, now));
      var noted := c.(settlement := Some(c.settlement.value.(reference := Some(ProviderRef(index)))));
      || d == c || d == noted || d == Apply(c, PayoutFailedAt(now))
      || d == Apply(noted, PayoutSucceeded(now, Some(ProviderRef(index)))) || d == Apply(noted, PayoutFailedAt(now))
  {
  }

  lemma AnswerKeepsCase(c: Case, word: string, index: nat, now: int)
    requires CaseInv(c) && c.settlement.Some?
    ensures CaseInv(Committed(c, RecordAnswer(c, word, index, now)))
  {
    var noted := c.(settlement := Some(c.settlement.value.(reference := Some(ProviderRef(index)))));
    AnswerIs(c, word, index, now);
    NotedKeeps(c, ProviderRef(index));
    ApplyKeeps(c, PayoutFailedAt(now));
    ApplyKeeps(noted, PayoutFailedAt(now));
    ApplyKeeps(noted, PayoutSucceeded(now, Some(ProviderRef(index))));
  }

  // ----------------------------------------------------- keeping every case

  lemma AnswerKeepsCases(w: World, id: nat, now: int, word: string, index: nat)
    requires AllCases(w.cases) && id in w.cases && w.cases[id].settlement.Some?
    ensures AllCases(w.cases[id := Committed(w.cases[id], RecordAnswer(w.cases[id], word, index, now))])
  {
    AnswerKeepsCase(w.cases[id], word, index, now);
    AllCasesUpdate(w.cases, id, Committed(w.cases[id], RecordAnswer(w.cases[id], word, index, now)));
  }

  lemma DispatchKeepsCases(w: World, id: nat, now: int, reply: Reply)
    requires AllCases(w.cases)
    ensures AllCases(Dispatched(w, id, now, reply).cases)
  {
    if Dispatchable(w, id) {
      var c := w.cases[id];
      if reply.Refused? {
        ApplyKeeps(c, PayoutFailedAt(now));
        AllCasesUpdate(w.cases, id, Apply(c, PayoutFailedAt(now)));
      } else if reply.Answered? {
        AnswerKeepsCases(w, id, now, reply.word, PayoutAt(w, id));
      }
    }
  }

  lemma ReportKeepsCases(w: World, id: nat, index: nat, success: bool, now: int)
    requires AllCases(w.cases)
    ensures AllCases(ReportArrives(w, id, index, success, now).cases)
  {
    if id in w.cases {
      var event := if success then PayoutSucceeded(now, Some(ProviderRef(index))) else PayoutFailedAt(now);
      ApplyKeeps(w.cases[id], event);
      AllCasesUpdate(w.cases, id, Apply(w.cases[id], event));
    }
  }

  lemma NextKeepsCases(w: World, step: Step)
    requires AllCases(w.cases)
    ensures AllCases(Next(w, step).cases)
  {
    match step
    case Initiate(id, deposit, defaultKey) =>
      NewCaseInv(deposit, defaultKey);
      AllCasesUpdate(w.cases, id, NewCase(deposit, defaultKey));
    case Ask(id, command, role, now) =>
      if id in w.cases {
        ApplyKeeps(w.cases[id], Event.Requested(command, role, now));
        AllCasesUpdate(w.cases, id, Apply(w.cases[id], Event.Requested(command, role, now)));
      }
    case RunHook(id, now, reply) => DispatchKeepsCases(w.(hooks := w.hooks - multiset{id}), id, now, reply);
    case LoseHook(_) =>
    case Redrive(id, now, reply) => DispatchKeepsCases(w, id, now, reply);
    case Settles(_, _) =>
    case Report(id, index, success, now) => ReportKeepsCases(w, id, index, success, now);
  }

  // ----------------------------------------------------- keeping keys bound

  predicate AllFigures(w: World) {
    forall id :: id in w.cases ==> Figures(w.cases[id])
  }

  lemma DispatchKeepsBound(w: World, id: nat, now: int, reply: Reply)
    requires Bound(w) && AllFigures(w)
    ensures Bound(Dispatched(w, id, now, reply))
  {
    if Dispatchable(w, id) {
      var c := w.cases[id];
      match reply
      case Unreachable(_) => BoundRegister(w, id);
      case Refused =>
        FailKeepsMoney(c, now);
        var after := Committed(c, FailPayout(c, now));
        UnchangedKeyNoClash(w, id, after);
        BoundUpdate(w, id, after);
      case Answered(word, outcome, committed) =>
        var at := PayoutAt(w, id);
        BoundRegister(w, id);
        FoundPayout(w, id);
        var turned := w.(ledger := Registered(w, id)[at := Registered(w, id)[at].(state := outcome)]);
        BoundTurn(w.(ledger := Registered(w, id)), at, outcome);
        if committed {
          AnswerKeepsMoney(c, word, at, now);
          var after := Committed(c, RecordAnswer(c, word, at, now));
          UnchangedKeyNoClash(turned, id, after);
          BoundUpdate(turned, id, after);
        }
    }
  }

  lemma AskKeepsBound(w: World, id: nat, command: Command, role: Role, now: int)
    requires Bound(w) && AllFigures(w)
    ensures Bound(Asked(w, id, Event.Requested(command, role, now)))
  {
    if id in w.cases {
      var after := Apply(w.cases[id], Event.Requested(command, role, now));
      RequestKeepsMoney(w.cases[id], command, role, now);
      if !KeyClash(w.cases, id, after) {
        BoundUpdate(w, id, after);
      }
    }
  }

  lemma ReportKeepsBound(w: World, id: nat, index: nat, success: bool, now: int)
    requires Bound(w) && AllFigures(w)
    ensures Bound(ReportArrives(w, id, index, success, now))
  {
    if id in w.cases && w.cases[id].settlement.Some?
       && w.cases[id].settlement.value.reference == Some(ProviderRef(index)) {
      var c := w.cases[id];
      ConfirmKeepsMoney(c, now, ProviderRef(index));
      FailKeepsMoney(c, now);
      var after := if success then Committed(c, Confirm(c, now, Some(ProviderRef(index))))
                   else Committed(c, FailPayout(c, now));
      UnchangedKeyNoClash(w, id, after);
      BoundUpdate(w, id, after);
    }
  }

  lemma HooksKeepBound(w: World, hooks: multiset<nat>)
    requires Bound(w) && AllFigures(w)
    ensures Bound(w.(hooks := hooks)) && AllFigures(w.(hooks := hooks))
  {
  }

  lemma NewCaseBound(w: World, id: nat, c: Case)
    requires Bound(w) && id !in w.cases && c.settlement.None?
    ensures Bound(w.(cases := w.cases[id := c]))
  {
  }

  lemma NextKeepsBound(w: World, step: Step)
    requires Bound(w) && AllFigures(w)
    ensures Bound(Next(w, step))
  {
    match step
    case Initiate(id, deposit, defaultKey) =>
      if id !in w.cases {
        NewCaseBound(w, id, NewCase(deposit, defaultKey));
      }
    case Ask(id, command, role, now) => AskKeepsBound(w, id, command, role, now);
    case RunHook(id, now, reply) =>
      HooksKeepBound(w, w.hooks - multiset{id});
      DispatchKeepsBound(w.(hooks := w.hooks - multiset{id}), id, now, reply);
    case LoseHook(id) => HooksKeepBound(w, w.hooks - multiset{id});
    case Redrive(id, now, reply) => DispatchKeepsBound(w, id, now, reply);
    case Settles(index, outcome) =>
      if index < |w.ledger| {
        BoundTurn(w, index, outcome);
      }
    case Report(id, index, success, now) => ReportKeepsBound(w, id, index, success, now);
  }

  /** In every run whatsoever, whatever the provider answers: all cases keep their invariant, keys stay
      bound, and the provider never holds two payouts for one settlement. */
  lemma {:induction false} AtMostOnePayout(steps: seq<Step>)
    ensures AllCases(After(steps).cases) && Bound(After(steps)) && AtMostOne(After(steps).ledger)
  {
    if steps != [] {
      var before := After(steps[..|steps| - 1]);
      AtMostOnePayout(steps[..|steps| - 1]);
      NextKeepsCases(before, steps[|steps| - 1]);
      NextKeepsBound(before, steps[|steps| - 1]);
    }
    BoundMeansAtMostOne(After(steps));
  }

  // ------------------------------------------------------- keeping amounts

  /** No payout of this case is still open or has succeeded. */
  predicate NothingLive(ledger: seq<Payout>, id: nat) {
    forall p :: 0 <= p < |ledger| && ledger[p].caseId == id ==> ledger[p].state.Failed?
  }

  lemma OwedUpdate(w: World, id: nat, after: Case)
    requires Owed(w) && id in w.cases
    requires NothingLive(w.ledger, id)
      || (after.settlement.Some? && w.cases[id].settlement.Some?
          && (HasStatus(after, Processing) || HasStatus(after, Paid))
          && after.settlement.value.netRefund == w.cases[id].settlement.value.netRefund)
    ensures Owed(w.(cases := w.cases[id := after]))
  {
  }

  /** Outside payment and completion a case has no live payout. */
  lemma IdleMeansNothingLive(w: World, id: nat)
    requires Owed(w) && id in w.cases && !HasStatus(w.cases[id], Processing) && !HasStatus(w.cases[id], Paid)
    ensures NothingLive(w.ledger, id)
  {
  }

  lemma OwedRegister(w: World, id: nat)
    requires Owed(w) && Dispatchable(w, id) && w.cases[id].settlement.value.netRefund > 0
    ensures Owed(w.(ledger := Registered(w, id)))
  {
  }

  lemma OwedTurn(w: World, p: nat, outcome: PayoutState)
    requires Owed(w) && p < |w.ledger| && MayTurn(w.ledger[p].state, outcome)
    ensures Owed(w.(ledger := w.ledger[p := w.ledger[p].(state := outcome)]))
  {
  }

  /** With at most one payout per case, a failed one leaves nothing live. */
  lemma FailedMeansNothingLive(ledger: seq<Payout>, p: nat)
    requires AtMostOne(ledger) && p < |ledger| && ledger[p].state.Failed?
    ensures NothingLive(ledger, ledger[p].caseId)
  {
  }

  lemma AnswerKeepsOwed(w: World, id: nat, now: int, word: string, outcome: PayoutState, committed: bool,
                        vocabulary: Vocabulary)
    requires Bound(w) && Owed(w) && Understood(vocabulary) && Dispatchable(w, id)
    requires Figures(w.cases[id])
    requires Honest(w, id, Answered(word, outcome, committed), vocabulary)
    ensures Owed(Dispatched(w, id, now, Answered(word, outcome, committed)))
  {
    var c, at := w.cases[id], PayoutAt(w, id);
    var registered := w.(ledger := Registered(w, id));
    var turned := w.(ledger := registered.ledger[at := registered.ledger[at].(state := outcome)]);
    OwedRegister(w, id);
    BoundRegister(w, id);
    FoundPayout(w, id);
    OwedTurn(registered, at, outcome);
    BoundTurn(registered, at, outcome);
    if committed {
      AnswerKeepsMoney(c, word, at, now);
      assert WordUnderstood(word, vocabulary[word]);
      if outcome.Failed? {
        BoundMeansAtMostOne(turned);
        FailedMeansNothingLive(turned.ledger, at);
      }
      OwedUpdate(turned, id, Committed(c, RecordAnswer(c, word, at, now)));
    }
  }

  lemma DispatchKeepsOwed(w: World, id: nat, now: int, reply: Reply, vocabulary: Vocabulary)
    requires Bound(w) && Owed(w) && AllFigures(w) && Understood(vocabulary) && Honest(w, id, reply, vocabulary)
    ensures Owed(Dispatched(w, id, now, reply))
  {
    if Dispatchable(w, id) {
      match reply
      case Unreachable(_) => OwedRegister(w, id);
      case Refused =>
        FailKeepsMoney(w.cases[id], now);
        assert NothingLive(w.ledger, id);
        OwedUpdate(w, id, Committed(w.cases[id], FailPayout(w.cases[id], now)));
      case Answered(word, outcome, committed) =>
        AnswerKeepsOwed(w, id, now, word, outcome, committed, vocabulary);
    }
  }

  lemma AskKeepsOwed(w: World, id: nat, command: Command, role: Role, now: int)
    requires Owed(w) && AllFigures(w)
    ensures Owed(Asked(w, id, Event.Requested(command, role, now)))
  {
    if id in w.cases {
      var after := Apply(w.cases[id], Event.Requested(command, role, now));
      RequestKeepsMoney(w.cases[id], command, role, now);
      if !HasStatus(w.cases[id], Processing) && !HasStatus(w.cases[id], Paid) {
        IdleMeansNothingLive(w, id);
      }
      OwedUpdate(w, id, after);
    }
  }

  lemma ReportKeepsOwed(w: World, id: nat, index: nat, success: bool, now: int)
    requires Bound(w) && Owed(w) && AllFigures(w) && index < |w.ledger|
    requires w.ledger[index].state == if success then Succeeded else Failed
    ensures Owed(ReportArrives(w, id, index, success, now))
  {
    if id in w.cases && w.cases[id].settlement.Some?
       && w.cases[id].settlement.value.reference == Some(ProviderRef(index)) {
      var c := w.cases[id];
      assert w.ledger[index].caseId == id by { assert Traceable(w.ledger, id, c); }
      if success {
        ConfirmKeepsMoney(c, now, ProviderRef(index));
        OwedUpdate(w, id, Committed(c, Confirm(c, now, Some(ProviderRef(index)))));
      } else {
        BoundMeansAtMostOne(w);
        FailedMeansNothingLive(w.ledger, index);
        FailKeepsMoney(c, now);
        OwedUpdate(w, id, Committed(c, FailPayout(c, now)));
      }
    }
  }

  lemma NextKeepsOwed(w: World, step: Step, vocabulary: Vocabulary)
    requires Bound(w) && Owed(w) && AllFigures(w) && Understood(vocabulary) && Possible(w, step, vocabulary)
    ensures Owed(Next(w, step))
  {
    match step
    case Initiate(_, _, _) =>
    case Ask(id, command, role, now) => AskKeepsOwed(w, id, command, role, now);
    case RunHook(id, now, reply) =>
      DispatchKeepsOwed(w.(hooks := w.hooks - multiset{id}), id, now, reply, vocabulary);
    case LoseHook(_) =>
    case Redrive(id, now, reply) => DispatchKeepsOwed(w, id, now, reply, vocabulary);
    case Settles(index, outcome) => OwedTurn(w, index, outcome);
    case Report(id, index, success, now) => ReportKeepsOwed(w, id, index, success, now);
  }

  lemma {:induction false} RunKeepsOwed(steps: seq<Step>, vocabulary: Vocabulary)
    requires Understood(vocabulary) && Feasible(steps, vocabulary)
    ensures Owed(After(steps))
  {
    if steps != [] {
      RunKeepsOwed(steps[..|steps| - 1], vocabulary);
      AtMostOnePayout(steps[..|steps| - 1]);
      NextKeepsOwed(After(steps[..|steps| - 1]), steps[|steps| - 1], vocabulary);
    }
  }

  // ------------------------------------------------------- becoming paid

  lemma ReportKeepsPaid(w: World, id: nat, index: nat, success: bool, now: int)
    requires AllFigures(w) && id in w.cases && HasStatus(w.cases[id], Paid)
    ensures ReportArrives(w, id, index, success, now) == w
  {
    FailKeepsMoney(w.cases[id], now);
    assert w.cases[id := w.cases[id]] == w.cases;
  }

  lemma AskKeepsPaid(w: World, id: nat, event: Event)
    requires AllFigures(w) && id in w.cases && HasStatus(w.cases[id], Paid) && event.Requested?
    ensures id in Asked(w, id, event).cases
    ensures Asked(w, id, event).cases[id].settlement == w.cases[id].settlement
  {
    RequestKeepsMoney(w.cases[id], event.command, event.role, event.now);
  }

  lemma DispatchKeepsPaid(w: World, id: nat, now: int, reply: Reply, paid: nat)
    requires paid in w.cases && HasStatus(w.cases[paid], Paid)
    ensures paid in Dispatched(w, id, now, reply).cases
    ensures Dispatched(w, id, now, reply).cases[paid] == w.cases[paid]
  {
  }

  /** A settlement recorded as paid keeps its record for ever. */
  lemma PaidStays(w: World, step: Step, id: nat)
    requires AllFigures(w) && id in w.cases && HasStatus(w.cases[id], Paid)
    ensures id in Next(w, step).cases && Next(w, step).cases[id].settlement == w.cases[id].settlement
  {
    match step
    case Ask(asked, command, role, now) =>
      if asked == id {
        AskKeepsPaid(w, id, Event.Requested(command, role, now));
      }
    case RunHook(asked, now, reply) =>
      DispatchKeepsPaid(w.(hooks := w.hooks - multiset{asked}), asked, now, reply, id);
    case Redrive(asked, now, reply) => DispatchKeepsPaid(w, asked, now, reply, id);
    case Report(told, index, success, now) =>
      if told == id {
        ReportKeepsPaid(w, id, index, success, now);
      }
    case Initiate(_, _, _) =>
    case LoseHook(_) =>
    case Settles(_, _) =>
  }

  lemma DispatchPays(w: World, id: nat, now: int, reply: Reply, vocabulary: Vocabulary, paid: nat)
    requires Bound(w) && AllFigures(w) && Understood(vocabulary) && Honest(w, id, reply, vocabulary)
    requires !PaysRefund(w, paid) && PaysRefund(Dispatched(w, id, now, reply), paid)
    ensures PaidBy(Dispatched(w, id, now, reply).ledger, paid)
  {
    match reply
    case Unreachable(_) =>
    case Refused => FailKeepsMoney(w.cases[id], now);
    case Answered(word, outcome, committed) =>
      FoundPayout(w, id);
      var at := PayoutAt(w, id);
      AnswerKeepsMoney(w.cases[id], word, at, now);
      assert WordUnderstood(word, vocabulary[word]);
      assert Dispatched(w, id, now, reply).ledger[at].caseId == id;
  }

  /** A settlement is recorded as paid only when a payout of it has succeeded, and still stands. */
  lemma NextPays(w: World, step: Step, vocabulary: Vocabulary, id: nat)
    requires Bound(w) && AllFigures(w) && Understood(vocabulary) && Possible(w, step, vocabulary)
    requires !PaysRefund(w, id) && PaysRefund(Next(w, step), id)
    ensures PaidBy(Next(w, step).ledger, id)
  {
    match step
    case Ask(asked, command, role, now) => RequestKeepsMoney(w.cases[id], command, role, now);
    case RunHook(asked, now, reply) =>
      DispatchPays(w.(hooks := w.hooks - multiset{asked}), asked, now, reply, vocabulary, id);
    case Redrive(asked, now, reply) => DispatchPays(w, asked, now, reply, vocabulary, id);
    case Report(told, index, success, now) =>
      ConfirmKeepsMoney(w.cases[id], now, ProviderRef(index));
      FailKeepsMoney(w.cases[id], now);
      assert Traceable(w.ledger, id, w.cases[id]);
    case Initiate(_, _, _) =>
    case LoseHook(_) =>
    case Settles(_, _) =>
  }

  // ----------------------------------------------------------- the ledger

  /** The ledger only grows; a payout keeps what it is for, and turns only as payouts may. */
  predicate LedgerEvolves(before: seq<Payout>, after: seq<Payout>) {
    && |before| <= |after|
    && (forall p :: 0 <= p < |before| ==>
          && after[p].key == before[p].key
          && after[p].caseId == before[p].caseId
          && after[p].amount == before[p].amount
          && MayTurn(before[p].state, after[p].state))
  }

  lemma DispatchEvolvesLedger(w: World, id: nat, now: int, reply: Reply, vocabulary: Vocabulary)
    requires Honest(w, id, reply, vocabulary)
    ensures LedgerEvolves(w.ledger, Dispatched(w, id, now, reply).ledger)
  {
  }

  lemma StepEvolvesLedger(w: World, step: Step, vocabulary: Vocabulary)
    requires Possible(w, step, vocabulary)
    ensures LedgerEvolves(w.ledger, Next(w, step).ledger)
  {
    match step
    case RunHook(id, now, reply) =>
      DispatchEvolvesLedger(w.(hooks := w.hooks - multiset{id}), id, now, reply, vocabulary);
    case Redrive(id, now, reply) => DispatchEvolvesLedger(w, id, now, reply, vocabulary);
    case Initiate(_, _, _) =>
    case Ask(_, _, _, _) =>
    case LoseHook(_) =>
    case Settles(_, _) =>
    case Report(_, _, _, _) =>
  }

  // ---------------------------------------------------------- money moved

  lemma {:induction false} NothingMoved(ledger: seq<Payout>, id: nat)
    requires forall p :: 0 <= p < |ledger| && ledger[p].caseId == id ==> !ledger[p].state.Succeeded?
    ensures Moved(ledger, id) == 0
  {
    if ledger != [] {
      NothingMoved(ledger[..|ledger| - 1], id);
    }
  }

  lemma {:induction false} MovedOnce(ledger: seq<Payout>, p: nat)
    requires AtMostOne(ledger) && p < |ledger| && ledger[p].state.Succeeded?
    ensures Moved(ledger, ledger[p].caseId) == ledger[p].amount
  {
    var last := |ledger| - 1;
    if p == last {
      NothingMoved(ledger[..last], ledger[p].caseId);
    } else {
      MovedOnce(ledger[..last], p);
    }
  }

  /** After `k` steps payout `p` stood as succeeded. */
  predicate StoodAt(steps: seq<Step>, k: nat, p: nat) {
    k <= |steps| && p < |After(steps[..k]).ledger| && After(steps[..k]).ledger[p].state.Succeeded?
  }

  /** At some point of the run a payout of this case had succeeded for exactly the refund it shows now. */
  ghost predicate Earned(steps: seq<Step>, id: nat) {
    exists k: nat, p: nat :: StoodAt(steps, k, p) && Pays(After(steps[..k]).ledger[p], After(steps), id)
  }

  predicate Pays(payout: Payout, w: World, id: nat) {
    && payout.caseId == id && id in w.cases && w.cases[id].settlement.Some?
    && payout.amount == w.cases[id].settlement.value.netRefund
  }

  lemma EarnedStays(front: seq<Step>, step: Step, id: nat)
    requires Earned(front, id) && id in After(front).cases && id in Next(After(front), step).cases
    requires Next(After(front), step).cases[id].settlement == After(front).cases[id].settlement
    ensures Earned(front + [step], id)
  {
    var steps := front + [step];
    assert steps[..|front|] == front;
    var k: nat, p: nat :| StoodAt(front, k, p) && Pays(After(front[..k]).ledger[p], After(front), id);
    assert steps[..k] == front[..k];
    assert StoodAt(steps, k, p);
  }

  lemma EarnedNow(steps: seq<Step>, id: nat)
    requires Owed(After(steps)) && PaidBy(After(steps).ledger, id)
    ensures Earned(steps, id)
  {
    var p :| 0 <= p < |After(steps).ledger| && After(steps).ledger[p].caseId == id
             && After(steps).ledger[p].state.Succeeded?;
    assert steps[..|steps|] == steps;
    assert StoodAt(steps, |steps|, p);
  }

  /** Exactly-once payout, exact amounts: over every interleaving of requests, lost hooks, dispatches that
      die before their commit, redrives, failures, returns, re-finalised figures and repeated reports, what
      has not failed is for the refund shown, and whoever is recorded as paid had been paid that. */
  lemma {:induction false} ExactPayouts(steps: seq<Step>, vocabulary: Vocabulary)
    requires Understood(vocabulary) && Feasible(steps, vocabulary)
    ensures Shown(After(steps))
    ensures forall id :: PaysRefund(After(steps), id) ==> Earned(steps, id)
  {
    RunKeepsOwed(steps, vocabulary);
    if steps != [] {
      var front, step := steps[..|steps| - 1], steps[|steps| - 1];
      assert steps == front + [step];
      ExactPayouts(front, vocabulary);
      AtMostOnePayout(front);
      forall id | PaysRefund(After(steps), id)
        ensures Earned(steps, id)
      {
        if PaysRefund(After(front), id) {
          PaidStays(After(front), step, id);
          EarnedStays(front, step, id);
        } else {
          NextPays(After(front), step, vocabulary, id);
          EarnedNow(steps, id);
        }
      }
    }
  }
}
