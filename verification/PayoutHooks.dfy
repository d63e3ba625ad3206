/** The post-commit hooks that dispatch payments: every payment that starts queues exactly one, and a hook
    alone can complete its payment. */
module PayoutHooks {
  import opened Outcomes
  import opened ExitStates
  import opened ExitCase
  import opened ExitInvariants
  import opened PayoutProtocol
  import opened PayoutSafety
  import opened PayoutLimits
  import opened ExitServices

  /** The settlement of `id` is under payment. */
  predicate UnderPayment(w: World, id: nat) {
    id in w.cases && HasStatus(w.cases[id], Processing)
  }

  /** At how many steps of the run the settlement of `id` came under payment. */
  function Starts(steps: seq<Step>, id: nat): nat {
    if steps == [] then 0
    else
      var front := steps[..|steps| - 1];
      Starts(front, id) + if UnderPayment(After(steps), id) && !UnderPayment(After(front), id) then 1 else 0
  }

  /** How many hooks of `id` the run has used up: each was run, or lost with its process. */
  function Taken(steps: seq<Step>, id: nat): nat {
    if steps == [] then 0
    else
      var last := steps[|steps| - 1];
      Taken(steps[..|steps| - 1], id) + if (last.RunHook? || last.LoseHook?) && last.id == id then 1 else 0
  }

  // -------------------------------------------------- one step at a time

  lemma AskQueues(w: World, asked: nat, event: Event, id: nat)
    requires event.Requested?
    ensures var d := Asked(w, asked, event);
      d.hooks[id] == w.hooks[id] + if UnderPayment(d, id) && !UnderPayment(w, id) then 1 else 0
  {
  }

  lemma DispatchQueuesNone(w: World, asked: nat, now: int, reply: Reply, id: nat)
    requires AllFigures(w)
    ensures var d := Dispatched(w, asked, now, reply);
      d.hooks == w.hooks && (UnderPayment(d, id) ==> UnderPayment(w, id))
  {
    if Dispatchable(w, asked) && asked == id {
      FailKeepsMoney(w.cases[id], now);
    }
  }

  lemma ReportQueuesNone(w: World, told: nat, index: nat, success: bool, now: int, id: nat)
    requires AllFigures(w)
    ensures var d := ReportArrives(w, told, index, success, now);
      d.hooks == w.hooks && (UnderPayment(d, id) ==> UnderPayment(w, id))
  {
    if told in w.cases && w.cases[told].settlement.Some? {
      ConfirmKeepsMoney(w.cases[told], now, ProviderRef(index));
      FailKeepsMoney(w.cases[told], now);
    }
  }

  lemma StepQueues(w: World, step: Step, vocabulary: Vocabulary, id: nat)
    requires AllFigures(w) && Possible(w, step, vocabulary)
    ensures var d := Next(w, step);
      d.hooks[id] + (if (step.RunHook? || step.LoseHook?) && step.id == id then 1 else 0)
      == w.hooks[id] + if UnderPayment(d, id) && !UnderPayment(w, id) then 1 else 0
  {
    match step
    case Initiate(_, _, _) =>
    case Ask(asked, command, role, now) => AskQueues(w, asked, Event.Requested(command, role, now), id);
    case RunHook(asked, now, reply) =>
      DispatchQueuesNone(w.(hooks := w.hooks - multiset{asked}), asked, now, reply, id);
    case LoseHook(_) =>
    case Redrive(asked, now, reply) => DispatchQueuesNone(w, asked, now, reply, id);
    case Settles(_, _) =>
    case Report(told, index, success, now) => ReportQueuesNone(w, told, index, success, now, id);
  }

  /** The handler asks for a dispatch exactly when its request brings the settlement under payment. */
  lemma TransferStarts(c: Case, command: Command, role: Role, now: int)
    requires Figures(c)
    ensures StartsTransfer(c, command, role, now)
       <==> HasStatus(Apply(c, Event.Requested(command, role, now)), Processing) && !HasStatus(c, Processing)
  {
    if Perform(c, command, role, now).Ok? {
      if command.DoPay? {
        PaymentStarts(c, command, role, now);
      } else if command.DoFinalise? || command.DoReopen? {
        FiguresMoveIdle(c, command, role, now);
      } else if MoveOf(command).Some? {
        OtherMovesKeepSettlement(c, command, role, now);
      } else if command.DoReport? {
        ReportShape(c, role, now, command.conductedAt, command.entries);
      } else {
        ItemsKeepSettlement(c, command, role, now);
      }
    }
  }

  lemma PaymentStarts(c: Case, command: Command, role: Role, now: int)
    requires Figures(c) && command.DoPay? && Perform(c, command, role, now).Ok?
    ensures !HasStatus(c, Processing)
    ensures HasStatus(Perform(c, command, role, now).value, Processing) <==> c.settlement.value.netRefund > 0
  {
    if c.settlement.value.netRefund > 0 {
      TransferShape(c, role, now, command.payoutMethod, command.requestedKey);
    } else {
      OffsetShape(c, role, now, command.payoutMethod, command.requestedKey);
    }
  }

  lemma FiguresMoveIdle(c: Case, command: Command, role: Role, now: int)
    requires (command.DoFinalise? || command.DoReopen?) && Perform(c, command, role, now).Ok?
    ensures !HasStatus(Perform(c, command, role, now).value, Processing)
  {
  }

  lemma ItemsKeepSettlement(c: Case, command: Command, role: Role, now: int)
    requires command.DoAdjust? || command.DoDispute? || command.DoResolve? || command.DoRevoke?
    requires Perform(c, command, role, now).Ok?
    ensures Perform(c, command, role, now).value.settlement == c.settlement
  {
  }

  // ------------------------------------------------------------ theorems

  lemma FiguresIn(steps: seq<Step>)
    ensures AllFigures(After(steps))
  {
    AtMostOnePayout(steps);
  }

  /** In every run the hooks of a settlement that wait, and those run or lost, are together as many as its
      payments started: each payment queues exactly one, and nothing else queues any. */
  lemma {:induction false} EveryStartQueuesOne(steps: seq<Step>, vocabulary: Vocabulary, id: nat)
    requires Feasible(steps, vocabulary)
    ensures After(steps).hooks[id] + Taken(steps, id) == Starts(steps, id)
  {
    if steps != [] {
      var front := steps[..|steps| - 1];
      EveryStartQueuesOne(front, vocabulary, id);
      FiguresIn(front);
      StepQueues(After(front), steps[|steps| - 1], vocabulary, id);
    }
  }

  lemma {:induction false} UnderPaymentStarted(steps: seq<Step>, id: nat)
    requires UnderPayment(After(steps), id)
    ensures Starts(steps, id) > 0
  {
    var front := steps[..|steps| - 1];
    if UnderPayment(After(front), id) {
      UnderPaymentStarted(front, id);
    }
  }

  lemma {:induction false} NoneTaken(steps: seq<Step>, id: nat)
    requires forall i :: 0 <= i < |steps| && (steps[i].RunHook? || steps[i].LoseHook?) ==> steps[i].id != id
    ensures Taken(steps, id) == 0
  {
    if steps != [] {
      NoneTaken(steps[..|steps| - 1], id);
    }
  }

  /** So the hook of a payment under way waits until it is run or lost. */
  lemma HookWaits(steps: seq<Step>, vocabulary: Vocabulary, id: nat)
    requires Feasible(steps, vocabulary) && UnderPayment(After(steps), id)
    requires forall i :: 0 <= i < |steps| && (steps[i].RunHook? || steps[i].LoseHook?) ==> steps[i].id != id
    ensures id in After(steps).hooks
  {
    EveryStartQueuesOne(steps, vocabulary, id);
    UnderPaymentStarted(steps, id);
    NoneTaken(steps, id);
  }

  lemma HookPays(w: World, id: nat, now: int, word: string)
    requires Bound(w) && AllCases(w.cases) && UnderPayment(w, id) && Interpret(word) == Some(Succeeded)
    ensures var d := Next(w, RunHook(id, now, Answered(word, Succeeded, true)));
      && d.hooks == w.hooks - multiset{id}
      && PaysRefund(d, id) && d.cases[id].state.NocIssued? && d.cases[id].noc.Some?
      && PaidBy(d.ledger, id)
  {
    var v := w.(hooks := w.hooks - multiset{id});
    HooksKeepBound(w, v.hooks);
    SuccessCompletes(v, id, now, word);
  }

  lemma HookPossible(w: World, id: nat, now: int, word: string, vocabulary: Vocabulary)
    requires Bound(w) && AllFigures(w) && UnderPayment(w, id) && id in w.hooks
    requires word in vocabulary && vocabulary[word].Succeeded?
    requires forall p :: 0 <= p < |w.ledger| && w.ledger[p].caseId == id ==> !w.ledger[p].state.Failed?
    ensures Possible(w, RunHook(id, now, Answered(word, Succeeded, true)), vocabulary)
  {
    FoundPayout(w, id);
  }

  /** A hook completes its payment: run, and answered with a success, it pays and certifies. */
  lemma HookCompletes(steps: seq<Step>, vocabulary: Vocabulary, id: nat, now: int, word: string)
    requires Feasible(steps, vocabulary) && UnderPayment(After(steps), id) && id in After(steps).hooks
    requires word in vocabulary && vocabulary[word].Succeeded? && Interpret(word) == Some(Succeeded)
    requires forall p :: 0 <= p < |After(steps).ledger| && After(steps).ledger[p].caseId == id ==>
               !After(steps).ledger[p].state.Failed?
    ensures var longer := steps + [RunHook(id, now, Answered(word, Succeeded, true))];
      && Feasible(longer, vocabulary) && PaysRefund(After(longer), id)
      && After(longer).cases[id].noc.Some? && PaidBy(After(longer).ledger, id)
  {
    AtMostOnePayout(steps);
    FiguresIn(steps);
    HookPossible(After(steps), id, now, word, vocabulary);
    HookPays(After(steps), id, now, word);
    Extend(steps, RunHook(id, now, Answered(word, Succeeded, true)), vocabulary);
  }

  lemma HookNext(steps: seq<Step>, c: Case)
    requires Stage(steps, MAPPED, c, []) && Paying(c) && OnlyRequests(steps)
    ensures var longer := steps + [RunHook(0, 0, Answered("SUCCEEDED", Succeeded, true))];
      && Feasible(longer, MAPPED) && PaysRefund(After(longer), 0)
      && After(longer).cases[0].noc.Some? && PaidBy(After(longer).ledger, 0)
  {
    assert After(steps).cases[0] == c;
    HookWaits(steps, MAPPED, 0);
    InterpretIsMapped("SUCCEEDED");
    HookCompletes(steps, MAPPED, 0, 0, "SUCCEEDED");
  }

  /** A run without any redrive: the owner pays, the hook of that payment runs, and the exit is paid and
      certified. */
  lemma HookAloneCompletes() returns (steps: seq<Step>)
    ensures Feasible(steps, MAPPED) && forall i :: 0 <= i < |steps| ==> !steps[i].Redrive? && !steps[i].Report?
    ensures PaysRefund(After(steps), 0) && After(steps).cases[0].noc.Some? && PaidBy(After(steps).ledger, 0)
  {
    var opening, c := ReachProcessing(MAPPED);
    HookNext(opening, c);
    steps := opening + [RunHook(0, 0, Answered("SUCCEEDED", Succeeded, true))];
  }
}
