/** Who may ask for what, and when, and what becomes of the parties' choices: the deposit and the provider
    key. */
module ExitChoices {
  import opened Outcomes
  import opened ExitStates
  import opened ExitCase
  import opened ExitInvariants

  const FIVE_DAYS: int := 432_000

  predicate Owns(role: Role) {
    role.Owner? || role.Admin?
  }

  /** Requests that only move the exit along, by state and role. */
  predicate MayMove(s: State, command: Command, role: Role) {
    match command
    case DoSubmit => s.Draft? && (role.Tenant? || role.Admin?)
    case DoExpire => s.Draft? && (role.System? || role.Admin?)
    case DoWithdraw => s.Submitted? && (role.Tenant? || role.Admin?)
    case DoReject => s.Submitted? && Owns(role)
    case DoCancel =>
      || (s.Draft? && (role.Tenant? || role.Admin?))
      || ((s.Submitted? || s.OwnerApproved? || s.SlotsProposed? || s.InspectionScheduled?)
          && (role.Tenant? || Owns(role)))
    case DoApprove(_) => s.Submitted? && Owns(role)
    case DoPropose => (s.OwnerApproved? || s.SlotsProposed?) && (role.Agency? || role.Admin?)
    case DoSelect => s.SlotsProposed? && (role.Tenant? || Owns(role))
    case DoReschedule => s.InspectionScheduled? && !role.System?
    case DoReinspect => s.DamageReview? && Owns(role)
    case DoReopen => s.SettlementPending? && Owns(role)
    case DoComplete => s.NocIssued? && !role.Agency?
    case _ => false
  }

  /** Those that start the exit or end it, and those around a visit. */
  predicate Lifecycle(command: Command) {
    || command.DoSubmit? || command.DoExpire? || command.DoWithdraw? || command.DoReject? || command.DoCancel?
    || command.DoComplete?
  }

  lemma LifecycleAcceptedIff(c: Case, command: Command, role: Role, now: int)
    requires Lifecycle(command)
    ensures Perform(c, command, role, now).Ok? <==> MayMove(c.state, command, role)
  {
  }

  lemma VisitAcceptedIff(c: Case, command: Command, role: Role, now: int)
    requires Figures(c)
    requires command.DoPropose? || command.DoSelect? || command.DoReschedule? || command.DoReinspect?
    ensures Perform(c, command, role, now).Ok? <==> MayMove(c.state, command, role)
  {
  }

  lemma OwnerAcceptedIff(c: Case, command: Command, role: Role, now: int)
    requires Figures(c) && (command.DoApprove? || command.DoReopen?)
    ensures Perform(c, command, role, now).Ok? <==> MayMove(c.state, command, role)
  {
  }

  /** Each is accepted in exactly the states and for exactly the roles of `MayMove`. */
  lemma MoveAcceptedIff(c: Case, command: Command, role: Role, now: int)
    requires Figures(c) && MoveOf(command).Some? && !command.DoFinalise?
    ensures Perform(c, command, role, now).Ok? <==> MayMove(c.state, command, role)
  {
    if Lifecycle(command) {
      LifecycleAcceptedIff(c, command, role, now);
    } else if command.DoApprove? || command.DoReopen? {
      OwnerAcceptedIff(c, command, role, now);
    } else {
      VisitAcceptedIff(c, command, role, now);
    }
  }

  /** The item of this identifier. */
  predicate IsItem(c: Case, id: nat, i: nat) {
    c.inspection.Some? && i < |c.inspection.value.items| && c.inspection.value.items[i].id == id
  }

  lemma ItemFound(c: Case, id: nat, i: nat)
    requires Figures(c) && IsItem(c, id, i)
    ensures FindItem(c.inspection.value.items, id) == Some(i)
  {
  }

  /** An item can be adjusted exactly during the review, by owner or administrator, to a cost within the
      estimate. */
  lemma AdjustAcceptedIff(c: Case, role: Role, id: nat, i: nat, approved: Option<nat>, liable: Option<bool>)
    requires Figures(c) && IsItem(c, id, i)
    ensures AdjustItem(c, role, id, approved, liable).Ok? <==>
      && c.state.DamageReview? && Owns(role)
      && (approved.Some? ==> approved.value <= c.inspection.value.items[i].estimated)
  {
    ItemFound(c, id, i);
  }

  /** An item can be disputed exactly during the review, by tenant or administrator, once, within five days
      of the review's opening. */
  lemma DisputeAcceptedIff(c: Case, role: Role, now: int, id: nat, i: nat)
    requires Figures(c) && IsItem(c, id, i)
    ensures DisputeItem(c, role, now, id).Ok? <==>
      && c.state.DamageReview? && (role.Tenant? || role.Admin?)
      && c.inspection.value.items[i].dispute.NoDispute?
      && now < c.reviewOpenedAt.value + FIVE_DAYS
  {
    ItemFound(c, id, i);
  }

  /** A dispute can be resolved exactly while it is raised, by owner or administrator, to a charge within the
      estimate. */
  lemma ResolveAcceptedIff(c: Case, role: Role, id: nat, i: nat, uphold: bool, approved: Option<nat>)
    requires Figures(c) && IsItem(c, id, i)
    ensures ResolveItem(c, role, id, uphold, approved).Ok? <==>
      && c.state.DamageReview? && Owns(role) && c.inspection.value.items[i].dispute.Raised?
      && (uphold && approved.Some? ==> approved.value <= c.inspection.value.items[i].estimated)
  {
    ItemFound(c, id, i);
  }

  /** `d` differs from `c` in item `i` alone. */
  predicate OnlyItem(c: Case, d: Case, i: nat) {
    && c.inspection.Some? && d.inspection.Some? && i < |c.inspection.value.items| == |d.inspection.value.items|
    && d == c.(inspection := d.inspection)
    && d.inspection == Some(c.inspection.value.(items := d.inspection.value.items))
    && (forall j :: 0 <= j < |c.inspection.value.items| && j != i ==>
          d.inspection.value.items[j] == c.inspection.value.items[j])
  }

  /** An accepted dispute opens one: nothing else of the item changes, and no other item. */
  lemma DisputeOpens(c: Case, role: Role, now: int, id: nat, i: nat)
    requires Figures(c) && IsItem(c, id, i) && DisputeItem(c, role, now, id).Ok?
    ensures var d := DisputeItem(c, role, now, id).value;
      && OnlyItem(c, d, i) && d.inspection.value.items[i].dispute.Raised?
      && d.inspection.value.items[i].(dispute := NoDispute) == c.inspection.value.items[i]
  {
    ItemFound(c, id, i);
  }

  /** A resolution closes it: upheld, with a charge of its own; rejected, with everything as it was. */
  lemma ResolutionCloses(c: Case, role: Role, id: nat, i: nat, uphold: bool, approved: Option<nat>)
    requires Figures(c) && IsItem(c, id, i) && ResolveItem(c, role, id, uphold, approved).Ok?
    ensures var d := ResolveItem(c, role, id, uphold, approved).value;
      && OnlyItem(c, d, i)
      && var before, after := c.inspection.value.items[i], d.inspection.value.items[i];
      && (after.dispute.Upheld? <==> uphold) && (after.dispute.DisputeRejected? <==> !uphold)
      && after.(approved := before.approved, dispute := before.dispute) == before
      && (uphold ==> after.approved.Some?) && (!uphold ==> after.approved == before.approved)
  {
    ItemFound(c, id, i);
  }

  /** An adjustment changes cost and liability where they are given, and nothing else. */
  lemma AdjustmentChanges(c: Case, role: Role, id: nat, i: nat, approved: Option<nat>, liable: Option<bool>)
    requires Figures(c) && IsItem(c, id, i) && AdjustItem(c, role, id, approved, liable).Ok?
    ensures var d := AdjustItem(c, role, id, approved, liable).value;
      && OnlyItem(c, d, i)
      && var before, after := c.inspection.value.items[i], d.inspection.value.items[i];
      && (if approved.Some? then after.approved == approved else after.approved == before.approved)
      && (if liable.Some? then after.liable == liable.value else after.liable == before.liable)
      && after.(approved := before.approved, liable := before.liable) == before
  {
    ItemFound(c, id, i);
  }

  /** A reported item starts undisputed, without an approved cost, as the agency described it, in this round. */
  lemma ReportedItems(c: Case, role: Role, now: int, conductedAt: int, entries: seq<Entry>, k: nat)
    requires Figures(c) && ReportDamage(c, role, now, conductedAt, entries).Ok? && k < |entries|
    ensures var before := c.inspection.value;
      var after := ReportDamage(c, role, now, conductedAt, entries).value.inspection.value;
      && |after.items| == |before.items| + |entries|
      && after.items[..|before.items|] == before.items
      && var item := after.items[|before.items| + k];
      && item.round == before.round == after.round && item.approved.None? && item.dispute.NoDispute?
      && item.estimated == entries[k].estimated && item.liable == entries[k].liable
  {
    ReportShape(c, role, now, conductedAt, entries);
    NothingToRemove(c.inspection.value.items, c.inspection.value.round);
  }

  /** A re-inspection starts the next round without a report; the items of earlier rounds stay. */
  lemma ReinspectionStarts(c: Case, role: Role, now: int)
    requires RequestReinspection(c, role, now).Ok?
    ensures var before, after := c.inspection.value, RequestReinspection(c, role, now).value.inspection.value;
      && after.round == before.round + 1 && !after.reported && after.items == before.items
  {
  }

  /** Nothing can be done to an item there is none of. */
  lemma NoItemRefused(c: Case, role: Role, now: int, id: nat, approved: Option<nat>, liable: Option<bool>, uphold: bool)
    requires forall i: nat :: !IsItem(c, id, i)
    ensures AdjustItem(c, role, id, approved, liable).Err? && DisputeItem(c, role, now, id).Err?
    ensures ResolveItem(c, role, id, uphold, approved).Err?
  {
    if c.inspection.Some? {
      var found := FindItem(c.inspection.value.items, id);
      assert found.Some? ==> IsItem(c, id, found.value);
    }
  }

  /** The agency, or an administrator, reports a visit that is booked and lies in the past. */
  lemma ReportAcceptedIff(c: Case, role: Role, now: int, conductedAt: int, entries: seq<Entry>)
    requires Figures(c)
    ensures ReportDamage(c, role, now, conductedAt, entries).Ok? <==>
      c.state.InspectionScheduled? && (role.Agency? || role.Admin?) && conductedAt <= now
  {
  }

  /** The owner, or an administrator, pays figures awaiting it: by transfer if there is something to refund,
      by offset if not. */
  lemma PayAcceptedIff(c: Case, role: Role, now: int, payoutMethod: PayoutMethod, requested: Option<string>)
    requires Figures(c)
    ensures Pay(c, role, now, payoutMethod, requested).Ok? <==>
      && c.state.SettlementPending? && Owns(role)
      && (c.settlement.value.netRefund > 0 <==> payoutMethod.Transfer?)
  {
    if c.state.SettlementPending? && Owns(role) {
      PaymentGoesThrough(c, role, now, payoutMethod, requested);
    }
  }

  lemma PaymentStarts(c: Case, role: Role, now: int, requested: Option<string>)
    requires c.state.SettlementPending? && Owns(role) && c.settlement.Some?
    ensures StartPayment(c, role, now, requested).Ok?
    ensures StartPayment(c, role, now, requested).value
            == Bind(c, requested).(state := SettlementProcessing,
                 history := c.history + [Row(SettlementPending, SettlementProcessing, PayDeposit)])
  {
  }

  lemma OffsetCompletes(started: Case, now: int)
    requires started.state.SettlementProcessing? && started.settlement.Some? && started.noc.None?
    ensures Confirm(Offsetting(started), now, None).Ok?
  {
  }

  lemma PaymentGoesThrough(c: Case, role: Role, now: int, payoutMethod: PayoutMethod, requested: Option<string>)
    requires c.state.SettlementPending? && Owns(role) && HasStatus(c, PendingApproval) && c.noc.None?
    ensures Pay(c, role, now, payoutMethod, requested).Ok?
       <==> (c.settlement.value.netRefund > 0 <==> payoutMethod.Transfer?)
  {
    PaymentStarts(c, role, now, requested);
    OffsetCompletes(StartPayment(c, role, now, requested).value, now);
  }

  // ------------------------------------------------- deposit and key

  /** The provider key of the settlement, once it is bound. */
  function Key(c: Case): Option<string> {
    if c.settlement.Some? then c.settlement.value.key else None
  }

  /** What the parties chose, and the default. */
  predicate SameChoices(c: Case, d: Case) {
    d.deposit == c.deposit && Key(d) == Key(c) && d.defaultKey == c.defaultKey
  }

  lemma ApprovalChooses(c: Case, role: Role, now: int, corrected: Option<nat>)
    requires ApproveExit(c, role, now, corrected).Ok?
    ensures var d := ApproveExit(c, role, now, corrected).value;
      SameChoices(c.(deposit := if corrected.Some? then corrected.value else c.deposit), d)
  {
  }

  lemma FiguresMoveKeeps(c: Case, command: Command, role: Role, now: int)
    requires (command.DoFinalise? || command.DoReopen? || command.DoReinspect?) && Perform(c, command, role, now).Ok?
    ensures SameChoices(c, Perform(c, command, role, now).value)
  {
  }

  lemma ItemsKeep(c: Case, command: Command, role: Role, now: int)
    requires command.DoAdjust? || command.DoDispute? || command.DoResolve? || command.DoRevoke?
    requires Perform(c, command, role, now).Ok?
    ensures SameChoices(c, Perform(c, command, role, now).value)
  {
  }

  lemma ReportKeeps(c: Case, role: Role, now: int, conductedAt: int, entries: seq<Entry>)
    requires ReportDamage(c, role, now, conductedAt, entries).Ok?
    ensures SameChoices(c, ReportDamage(c, role, now, conductedAt, entries).value)
  {
  }

  /** A payment binds the key it asks for, or the default when it asks for none; a bound key it keeps. */
  lemma PaymentBinds(c: Case, role: Role, now: int, payoutMethod: PayoutMethod, requested: Option<string>)
    requires Figures(c) && Pay(c, role, now, payoutMethod, requested).Ok?
    ensures var d := Pay(c, role, now, payoutMethod, requested).value;
      && d.deposit == c.deposit && d.defaultKey == c.defaultKey
      && Key(d) == if Key(c).Some? then Key(c)
                   else if requested.Some? && requested.value != "" then requested else Some(c.defaultKey)
  {
    if c.settlement.value.netRefund > 0 {
      TransferShape(c, role, now, payoutMethod, requested);
    } else {
      OffsetShape(c, role, now, payoutMethod, requested);
    }
  }

  lemma OutcomeKeeps(c: Case, event: Event)
    requires !event.Requested?
    ensures SameChoices(c, Apply(c, event))
  {
  }

  /** Only an accepted approval with a corrected deposit changes the deposit, to just that; only an accepted
      payment binds a key, and only when none is bound. */
  lemma ChoicesStep(c: Case, event: Event)
    requires Figures(c)
    ensures var d := Apply(c, event);
      && d.defaultKey == c.defaultKey
      && d.deposit == (if event.Requested? && event.command.DoApprove? && event.command.corrected.Some?
                          && MayMove(c.state, event.command, event.role)
                       then event.command.corrected.value else c.deposit)
      && (Key(d) == Key(c) || (Key(c).None? && event.Requested? && event.command.DoPay? && Attempt(c, event).Ok?))
  {
    if !event.Requested? {
      OutcomeKeeps(c, event);
    } else {
      RequestChooses(c, event.command, event.role, event.now);
    }
  }

  lemma RequestChooses(c: Case, command: Command, role: Role, now: int)
    requires Figures(c)
    ensures var d := Committed(c, Perform(c, command, role, now));
      && d.defaultKey == c.defaultKey
      && d.deposit == (if command.DoApprove? && command.corrected.Some? && MayMove(c.state, command, role)
                       then command.corrected.value else c.deposit)
      && (Key(d) == Key(c) || (Key(c).None? && command.DoPay? && Perform(c, command, role, now).Ok?))
  {
    if command.DoApprove? {
      OwnerAcceptedIff(c, command, role, now);
    }
    if Perform(c, command, role, now).Ok? {
      match command
      case DoApprove(corrected) => ApprovalChooses(c, role, now, corrected);
      case DoPay(payoutMethod, requested) => PaymentBinds(c, role, now, payoutMethod, requested);
      case DoReport(conductedAt, entries) => ReportKeeps(c, role, now, conductedAt, entries);
      case _ =>
        if command.DoFinalise? || command.DoReopen? || command.DoReinspect? {
          FiguresMoveKeeps(c, command, role, now);
        } else if MoveOf(command).Some? {
          OtherMoveParts(c, command, role, now);
        } else {
          ItemsKeep(c, command, role, now);
        }
    }
  }

  lemma BindingStep(c: Case, event: Event)
    requires Figures(c) && Key(c).None? && Key(Apply(c, event)).Some?
    ensures event.Requested? && event.command.DoPay? && Attempt(c, event).Ok?
    ensures var requested := event.command.requestedKey;
      Key(Apply(c, event)).value
      == if requested.Some? && requested.value != "" then requested.value else c.defaultKey
  {
    ChoicesStep(c, event);
    PaymentBinds(c, event.role, event.now, event.command.payoutMethod, event.command.requestedKey);
  }

  lemma KeyKept(c: Case, event: Event)
    requires Figures(c) && Key(c).Some?
    ensures Key(Apply(c, event)) == Key(c)
  {
    ChoicesStep(c, event);
  }

  lemma RunStep(c: Case, events: seq<Event>)
    requires events != []
    ensures Run(c, events) == Apply(Run(c, events[..|events| - 1]), events[|events| - 1])
  {
  }

  /** The payment that bound the key: the first accepted one. */
  predicate Binds(c: Case, events: seq<Event>, i: nat) {
    && i < |events| && events[i].Requested? && events[i].command.DoPay?
    && Key(Run(c, events[..i])).None? && Attempt(Run(c, events[..i]), events[i]).Ok?
  }

  lemma BindsFront(c: Case, events: seq<Event>, i: nat)
    requires events != [] && Binds(c, events[..|events| - 1], i)
    ensures Binds(c, events, i) && events[i] == events[..|events| - 1][i]
  {
    assert events[..|events| - 1][..i] == events[..i];
  }

  /** After every run the key is the one the first accepted payment asked for, or the default when it asked
      for none, whatever later payments asked for. */
  lemma {:induction false} KeyOfFirstPayment(deposit: nat, defaultKey: string, events: seq<Event>) returns (i: nat)
    requires Key(Run(NewCase(deposit, defaultKey), events)).Some?
    ensures Binds(NewCase(deposit, defaultKey), events, i)
    ensures var requested := events[i].command.requestedKey;
      Key(Run(NewCase(deposit, defaultKey), events)).value
      == if requested.Some? && requested.value != "" then requested.value else defaultKey
  {
    var start, front, last := NewCase(deposit, defaultKey), events[..|events| - 1], events[|events| - 1];
    RunKeeps(deposit, defaultKey, front);
    RunStep(start, events);
    if Key(Run(start, front)).Some? {
      KeyKept(Run(start, front), last);
      i := KeyOfFirstPayment(deposit, defaultKey, front);
      BindsFront(start, events, i);
    } else {
      i := |front|;
      DefaultKept(deposit, defaultKey, front);
      BindingStep(Run(start, front), last);
    }
  }

  lemma {:induction false} DefaultKept(deposit: nat, defaultKey: string, events: seq<Event>)
    ensures Run(NewCase(deposit, defaultKey), events).defaultKey == defaultKey
  {
    if events != [] {
      DefaultKept(deposit, defaultKey, events[..|events| - 1]);
      RunKeeps(deposit, defaultKey, events[..|events| - 1]);
      ChoicesStep(Run(NewCase(deposit, defaultKey), events[..|events| - 1]), events[|events| - 1]);
    }
  }

  // --------------------------------------------------------------- stamps

  lemma MoveStamps(c: Case, command: Command, role: Role, now: int)
    requires MoveOf(command).Some? && Perform(c, command, role, now).Ok?
    ensures var d := Perform(c, command, role, now).value;
      && d.closedAt == (if Terminal(d.state) then Some(now) else c.closedAt)
      && d.reviewOpenedAt == (if command.DoReinspect? then None else c.reviewOpenedAt)
  {
    SingleMoveRecord(c, command, role, now);
    ReviewKept(c, command, role, now);
  }

  lemma ReviewKept(c: Case, command: Command, role: Role, now: int)
    requires MoveOf(command).Some? && Perform(c, command, role, now).Ok?
    ensures Perform(c, command, role, now).value.reviewOpenedAt
            == if command.DoReinspect? then None else c.reviewOpenedAt
  {
    if !command.DoFinalise? && !command.DoReopen? && !command.DoApprove? && !command.DoReinspect? {
      OtherMoveParts(c, command, role, now);
    }
  }

  /** The closing time is the time of the request that ended the exit; the dispute window opens with the report
      and is taken back by a re-inspection. */
  lemma RequestStamps(c: Case, command: Command, role: Role, now: int)
    requires Figures(c) && Perform(c, command, role, now).Ok?
    ensures var d := Perform(c, command, role, now).value;
      && d.closedAt == (if Terminal(d.state) && !Terminal(c.state) then Some(now) else c.closedAt)
      && d.reviewOpenedAt == (if command.DoReport? then Some(now)
                              else if command.DoReinspect? then None else c.reviewOpenedAt)
  {
    if MoveOf(command).Some? {
      MoveStamps(c, command, role, now);
    } else {
      match command
      case DoReport(conductedAt, entries) => ReportStamps(c, role, now, conductedAt, entries);
      case DoPay(payoutMethod, requested) => PaymentStamps(c, role, now, payoutMethod, requested);
      case _ => ItemsStamp(c, command, role, now);
    }
  }

  lemma PaymentStamps(c: Case, role: Role, now: int, payoutMethod: PayoutMethod, requested: Option<string>)
    requires Figures(c) && Pay(c, role, now, payoutMethod, requested).Ok?
    ensures var d := Pay(c, role, now, payoutMethod, requested).value;
      && !Terminal(d.state) && d.closedAt == c.closedAt && d.reviewOpenedAt == c.reviewOpenedAt
  {
    if c.settlement.value.netRefund > 0 {
      TransferShape(c, role, now, payoutMethod, requested);
    } else {
      OffsetShape(c, role, now, payoutMethod, requested);
    }
  }

  lemma ReportStamps(c: Case, role: Role, now: int, conductedAt: int, entries: seq<Entry>)
    requires ReportDamage(c, role, now, conductedAt, entries).Ok?
    ensures var d := ReportDamage(c, role, now, conductedAt, entries).value;
      !Terminal(d.state) && d.closedAt == c.closedAt && d.reviewOpenedAt == Some(now)
  {
    ReportShape(c, role, now, conductedAt, entries);
  }

  lemma ItemsStamp(c: Case, command: Command, role: Role, now: int)
    requires command.DoAdjust? || command.DoDispute? || command.DoResolve? || command.DoRevoke?
    requires Perform(c, command, role, now).Ok?
    ensures var d := Perform(c, command, role, now).value;
      d.state == c.state && d.closedAt == c.closedAt && d.reviewOpenedAt == c.reviewOpenedAt
  {
  }
}
