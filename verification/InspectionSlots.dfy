/** Appointment windows of an exit's inspection: offered by the agency, selected by a party, cleared when
    the visit is rescheduled or repeated. */
module InspectionSlots {
  import opened Outcomes
  import opened ExitStates

  datatype Slot = Slot(id: nat, round: nat, startsAt: int, endsAt: int, selected: bool)

  datatype Window = Window(startsAt: int, endsAt: int)

  datatype Calendar = Calendar(state: State, round: nat, slots: seq<Slot>, nextId: nat, appointment: Option<Window>)

  function NewCalendar(): Calendar {
    Calendar(Draft, 1, [], 0, None)
  }

  // ------------------------------------------------------------ updates

  function Cleared(slots: seq<Slot>): (cleared: seq<Slot>)
    ensures |cleared| == |slots|
    ensures forall i :: 0 <= i < |slots| ==> cleared[i] == slots[i].(selected := false)
  {
    seq(|slots|, i requires 0 <= i < |slots| => slots[i].(selected := false))
  }

  function WithoutUnselected(slots: seq<Slot>): seq<Slot> {
    if slots == [] then []
    else WithoutUnselected(slots[..|slots| - 1]) + if slots[|slots| - 1].selected then [slots[|slots| - 1]] else []
  }

  function OfferedSlot(window: Window, id: nat, round: nat): Slot {
    Slot(id, round, window.startsAt, window.endsAt, false)
  }

  function Offered(windows: seq<Window>, firstId: nat, round: nat): (slots: seq<Slot>)
    ensures |slots| == |windows|
    ensures forall i :: 0 <= i < |slots| ==> slots[i] == OfferedSlot(windows[i], firstId + i, round)
  {
    seq(|windows|, i requires 0 <= i < |windows| => OfferedSlot(windows[i], firstId + i, round))
  }

  function FindSlot(slots: seq<Slot>, id: nat): (found: Option<nat>)
    ensures found.Some? ==> found.value < |slots| && slots[found.value].id == id
    ensures found.None? ==> forall i :: 0 <= i < |slots| ==> slots[i].id != id
  {
    IndexWhere(slots, (slot: Slot) => slot.id == id)
  }

  function Move(c: Calendar, action: Action): Result<Calendar> {
    var _ :- Need(!Terminal(c.state), WorkflowClosed);
    var edge := FindEdge(c.state, action);
    var _ :- Need(edge.Some?, IllegalTransition);
    Ok(c.(state := edge.value.target))
  }

  predicate AllAfter(windows: seq<Window>, now: int) {
    forall i :: 0 <= i < |windows| ==> windows[i].startsAt > now
  }

  // ----------------------------------------------------------- requests

  /** The request schema demands at least one window. */
  function Propose(c: Calendar, windows: seq<Window>, now: int): Result<Calendar> {
    var _ :- Need(windows != [], Invalid);
    var _ :- Need(AllAfter(windows, now), Invalid);
    Move(c.(slots := WithoutUnselected(Cleared(c.slots)) + Offered(windows, c.nextId, c.round),
            nextId := c.nextId + |windows|, appointment := None),
         ProposeSlots)
  }

  function Select(c: Calendar, id: nat, now: int): Result<Calendar> {
    var found := FindSlot(c.slots, id);
    var _ :- Need(found.Some?, NotFound);
    var slot := c.slots[found.value];
    var _ :- Need(slot.startsAt > now, RuleViolated);
    Move(c.(slots := Cleared(c.slots)[found.value := slot.(selected := true)],
            appointment := Some(Window(slot.startsAt, slot.endsAt))),
         SelectSlot)
  }

  function RescheduleVisit(c: Calendar): Result<Calendar> {
    Move(c.(slots := Cleared(c.slots), appointment := None), Reschedule)
  }

  function RepeatVisit(c: Calendar): Result<Calendar> {
    Move(c.(round := c.round + 1, slots := Cleared(c.slots), appointment := None), Reinspect)
  }

  /** The remaining actions of the workflow leave the slots alone. */
  predicate Indifferent(action: Action) {
    !action.ProposeSlots? && !action.SelectSlot? && !action.Reschedule? && !action.Reinspect?
  }

  datatype Step =
    | DoPropose(windows: seq<Window>, now: int)
    | DoSelect(id: nat, now: int)
    | DoReschedule
    | DoRepeat
    | DoOther(action: Action)

  function Perform(c: Calendar, step: Step): Result<Calendar> {
    match step
    case DoPropose(windows, now) => Propose(c, windows, now)
    case DoSelect(id, now) => Select(c, id, now)
    case DoReschedule => RescheduleVisit(c)
    case DoRepeat => RepeatVisit(c)
    case DoOther(action) =>
      var _ :- Need(Indifferent(action), Invalid);
      Move(c, action)
  }

  function Apply(c: Calendar, step: Step): Calendar {
    Committed(c, Perform(c, step))
  }

  function Run(steps: seq<Step>): Calendar {
    if steps == [] then NewCalendar() else Apply(Run(steps[..|steps| - 1]), steps[|steps| - 1])
  }

  // ------------------------------------------------------------ services

  class SlotBook {
    var state: State
    var round: nat
    var slots: seq<Slot>
    var nextId: nat
    var appointment: Option<Window>

    function View(): Calendar
      reads this
    {
      Calendar(state, round, slots, nextId, appointment)
    }

    constructor ()
      ensures View() == NewCalendar()
    {
      state, round, slots, nextId, appointment := Draft, 1, [], 0, None;
    }

    method Transition(action: Action) returns (r: Result<()>)
      modifies this`state
      ensures Realises(r, Move(old(View()), action), View())
    {
      var _ :- Need(!Terminal(state), WorkflowClosed);
      var edge := FindEdge(state, action);
      var _ :- Need(edge.Some?, IllegalTransition);
      state := edge.value.target;
      return Ok(());
    }

    method ClearSelection()
      modifies this`slots
      ensures slots == Cleared(old(slots))
    {
      for k := 0 to |slots|
        invariant |slots| == |old(slots)|
        invariant forall i :: 0 <= i < k ==> slots[i] == old(slots)[i].(selected := false)
        invariant forall i :: k <= i < |slots| ==> slots[i] == old(slots)[i]
      {
        if slots[k].selected {
          slots := slots[k := slots[k].(selected := false)];
        }
      }
    }

    method DeleteUnselected()
      modifies this`slots
      ensures slots == WithoutUnselected(old(slots))
    {
      var kept := [];
      for k := 0 to |slots|
        invariant slots == old(slots) && kept == WithoutUnselected(slots[..k])
      {
        assert slots[..k + 1][..k] == slots[..k];
        if slots[k].selected {
          kept := kept + [slots[k]];
        }
      }
      assert slots[..|slots|] == slots;
      slots := kept;
    }

    method ProposeWindows(windows: seq<Window>, now: int) returns (r: Result<()>)
      modifies this
      ensures Realises(r, Propose(old(View()), windows, now), View())
    {
      var _ :- Need(windows != [], Invalid);
      for k := 0 to |windows|
        invariant AllAfter(windows[..k], now)
      {
        var _ :- Need(windows[k].startsAt > now, Invalid);
      }
      assert windows[..|windows|] == windows;
      ClearSelection();
      DeleteUnselected();
      AddWindows(windows);
      appointment := None;
      r := Transition(ProposeSlots);
    }

    method AddWindows(windows: seq<Window>)
      modifies this`slots, this`nextId
      ensures slots == old(slots) + Offered(windows, old(nextId), round) && nextId == old(nextId) + |windows|
    {
      for k := 0 to |windows|
        invariant slots == old(slots) + Offered(windows[..k], old(nextId), round) && nextId == old(nextId) + k
      {
        assert Offered(windows[..k + 1], old(nextId), round)
            == Offered(windows[..k], old(nextId), round) + [OfferedSlot(windows[k], nextId, round)];
        slots := slots + [OfferedSlot(windows[k], nextId, round)];
        nextId := nextId + 1;
      }
      assert windows[..|windows|] == windows;
    }

    method SelectWindow(id: nat, now: int) returns (r: Result<()>)
      modifies this
      ensures Realises(r, Select(old(View()), id, now), View())
    {
      var found := FindSlot(slots, id);
      var _ :- Need(found.Some?, NotFound);
      var slot := slots[found.value];
      var _ :- Need(slot.startsAt > now, RuleViolated);
      ClearSelection();
      slots := slots[found.value := slot.(selected := true)];
      appointment := Some(Window(slot.startsAt, slot.endsAt));
      r := Transition(SelectSlot);
    }

    method MoveVisit() returns (r: Result<()>)
      modifies this
      ensures Realises(r, RescheduleVisit(old(View())), View())
    {
      ClearSelection();
      appointment := None;
      r := Transition(Reschedule);
    }

    method OrderAnother() returns (r: Result<()>)
      modifies this
      ensures Realises(r, RepeatVisit(old(View())), View())
    {
      round := round + 1;
      appointment := None;
      ClearSelection();
      r := Transition(Reinspect);
    }
  }

  // ----------------------------------------------------------- invariant

  predicate Unselected(slots: seq<Slot>) {
    forall i :: 0 <= i < |slots| ==> !slots[i].selected
  }

  /** Slot `i` is the only selected one, and it is the appointment. */
  predicate Booked(c: Calendar, i: nat) {
    && i < |c.slots| && c.slots[i].selected
    && c.appointment == Some(Window(c.slots[i].startsAt, c.slots[i].endsAt))
    && (forall j :: 0 <= j < |c.slots| && j != i ==> !c.slots[j].selected)
  }

  predicate BeforeVisit(s: State) {
    s.Draft? || s.Submitted? || s.OwnerApproved? || s.SlotsProposed? || s.Rejected? || s.Expired?
  }

  /** Either nothing is selected and there is no appointment, or exactly one slot is and it is the
      appointment; while the visit is to be arranged it is the former, from then on the latter. */
  ghost predicate OneAppointment(c: Calendar) {
    && ((Unselected(c.slots) && c.appointment.None?) || exists i: nat :: Booked(c, i))
    && (BeforeVisit(c.state) ==> Unselected(c.slots))
    && (!BeforeVisit(c.state) && !c.state.Cancelled? ==> !Unselected(c.slots))
  }

  /** All slots on offer were proposed together, in one round. */
  predicate OneOffer(c: Calendar) {
    && (forall i, j :: 0 <= i < |c.slots| && 0 <= j < |c.slots| ==> c.slots[i].round == c.slots[j].round <= c.round)
    && (forall i :: 0 <= i < |c.slots| ==> c.slots[i].id < c.nextId)
    && (forall i, j :: 0 <= i < j < |c.slots| ==> c.slots[i].id != c.slots[j].id)
  }

  ghost predicate Inv(c: Calendar) {
    OneAppointment(c) && OneOffer(c)
  }

  /** Clearing the selection first makes the deletion drop every old slot. */
  lemma {:induction false} NothingKept(slots: seq<Slot>)
    requires Unselected(slots)
    ensures WithoutUnselected(slots) == []
  {
    if slots != [] {
      NothingKept(slots[..|slots| - 1]);
    }
  }

  lemma ProposeShape(c: Calendar, windows: seq<Window>, now: int)
    requires Propose(c, windows, now).Ok?
    ensures Propose(c, windows, now).value
            == c.(state := SlotsProposed, slots := Offered(windows, c.nextId, c.round),
                  nextId := c.nextId + |windows|, appointment := None)
  {
    var offered := Offered(windows, c.nextId, c.round);
    NothingKept(Cleared(c.slots));
    assert [] + offered == offered;
  }

  lemma NothingBooked(c: Calendar)
    requires Unselected(c.slots) && c.appointment.None? && BeforeVisit(c.state)
    ensures OneAppointment(c)
  {
  }

  lemma ProposeKeeps(c: Calendar, windows: seq<Window>, now: int)
    requires Inv(c) && Propose(c, windows, now).Ok?
    ensures Inv(Propose(c, windows, now).value)
    ensures var slots := Propose(c, windows, now).value.slots;
      && |slots| == |windows|
      && forall i :: 0 <= i < |slots| ==>
           && slots[i].startsAt == windows[i].startsAt && slots[i].endsAt == windows[i].endsAt
           && slots[i].round == c.round && !slots[i].selected
  {
    ProposeShape(c, windows, now);
    NothingBooked(Propose(c, windows, now).value);
    assert OneOffer(Propose(c, windows, now).value);
  }

  lemma SelectKeeps(c: Calendar, id: nat, now: int)
    requires Inv(c) && Select(c, id, now).Ok?
    ensures Inv(Select(c, id, now).value)
  {
    assert Booked(Select(c, id, now).value, FindSlot(c.slots, id).value);
  }

  lemma ClearKeeps(c: Calendar, step: Step)
    requires Inv(c) && (step.DoReschedule? || step.DoRepeat?) && Perform(c, step).Ok?
    ensures Inv(Perform(c, step).value)
  {
  }

  lemma OtherKeeps(c: Calendar, action: Action)
    requires Inv(c) && Perform(c, DoOther(action)).Ok?
    ensures Inv(Perform(c, DoOther(action)).value)
  {
    if !Unselected(c.slots) {
      var i: nat :| Booked(c, i);
      assert Booked(Perform(c, DoOther(action)).value, i);
    }
  }

  /** Over every run at most one slot is selected, it is the appointment, and one is selected from the
      booking of a visit on. */
  lemma {:induction false} RunKeeps(steps: seq<Step>)
    ensures Inv(Run(steps))
  {
    if steps != [] {
      RunKeeps(steps[..|steps| - 1]);
      var c, step := Run(steps[..|steps| - 1]), steps[|steps| - 1];
      if Perform(c, step).Ok? {
        match step
        case DoPropose(windows, now) => ProposeKeeps(c, windows, now);
        case DoSelect(id, now) => SelectKeeps(c, id, now);
        case DoOther(action) => OtherKeeps(c, action);
        case _ => ClearKeeps(c, step);
      }
    }
  }

  // ----------------------------------------------------------- acceptance

  /** A proposal is accepted while a visit is to be arranged, for windows that all lie ahead. */
  predicate ProposalAccepted(c: Calendar, windows: seq<Window>, now: int) {
    (c.state.OwnerApproved? || c.state.SlotsProposed?) && windows != [] && AllAfter(windows, now)
  }

  /** A selection is accepted while slots are on offer, for a slot that lies ahead. */
  predicate SelectionAccepted(c: Calendar, id: nat, now: int) {
    c.state.SlotsProposed? && exists i :: 0 <= i < |c.slots| && c.slots[i].id == id && c.slots[i].startsAt > now
  }

  /** Another visit is accepted in damage review. */
  predicate RepeatAccepted(c: Calendar) {
    c.state.DamageReview?
  }

  lemma AcceptedIff(c: Calendar, step: Step)
    requires Inv(c)
    ensures step.DoPropose? ==> (Perform(c, step).Ok? <==> ProposalAccepted(c, step.windows, step.now))
    ensures step.DoSelect? ==> (Perform(c, step).Ok? <==> SelectionAccepted(c, step.id, step.now))
    ensures step.DoRepeat? ==> (Perform(c, step).Ok? <==> RepeatAccepted(c))
  {
    if step.DoSelect? && SelectionAccepted(c, step.id, step.now) {
      var i :| 0 <= i < |c.slots| && c.slots[i].id == step.id && c.slots[i].startsAt > step.now;
      assert FindSlot(c.slots, step.id) == Some(i);
    }
  }

  // --------------------------------------------------------- stale offers

  /** Something on offer was proposed for an earlier round. */
  predicate StaleOffer(c: Calendar) {
    exists i :: 0 <= i < |c.slots| && c.slots[i].round < c.round
  }

  /** The appointment is a slot of an earlier round. */
  predicate StaleBooking(c: Calendar) {
    exists i: nat | i < |c.slots| :: Booked(c, i) && c.slots[i].round < c.round
  }

  /** A visit was repeated at `i`, and no proposal was accepted after it. */
  predicate RepeatedAt(steps: seq<Step>, i: int) {
    && 0 <= i < |steps| && steps[i].DoRepeat? && RepeatAccepted(Run(steps[..i]))
    && forall j :: i < j < |steps| && steps[j].DoPropose? ==>
         !ProposalAccepted(Run(steps[..j]), steps[j].windows, steps[j].now)
  }

  ghost predicate RepeatedSinceProposal(steps: seq<Step>) {
    exists i :: RepeatedAt(steps, i)
  }

  lemma RepeatedStep(front: seq<Step>, step: Step)
    ensures RepeatedSinceProposal(front + [step])
       <==> || (step.DoRepeat? && RepeatAccepted(Run(front)))
            || (RepeatedSinceProposal(front)
                && !(step.DoPropose? && ProposalAccepted(Run(front), step.windows, step.now)))
  {
    var steps := front + [step];
    assert forall j :: 0 <= j <= |front| ==> steps[..j] == front[..j];
    assert front[..|front|] == front;
    if RepeatedSinceProposal(steps) {
      var i :| RepeatedAt(steps, i);
      if i < |front| {
        assert RepeatedAt(front, i);
        assert steps[|front|] == step;
      }
    }
    if step.DoRepeat? && RepeatAccepted(Run(front)) {
      assert RepeatedAt(steps, |front|);
    }
    if RepeatedSinceProposal(front) && !(step.DoPropose? && ProposalAccepted(Run(front), step.windows, step.now)) {
      var i :| RepeatedAt(front, i);
      assert RepeatedAt(steps, i);
    }
  }

  /** What one step does to a stale offer. */
  lemma StaleStep(c: Calendar, step: Step)
    requires Inv(c)
    ensures StaleOffer(Apply(c, step)) <==>
      || (step.DoRepeat? && RepeatAccepted(c))
      || (StaleOffer(c) && !(step.DoPropose? && ProposalAccepted(c, step.windows, step.now)))
  {
    AcceptedIff(c, step);
    if Perform(c, step).Ok? {
      match step
      case DoPropose(windows, now) => ProposeKeeps(c, windows, now);
      case DoRepeat => RepeatStales(c);
      case DoSelect(_, _) => SameRounds(c, Apply(c, step));
      case DoReschedule => SameRounds(c, Apply(c, step));
      case DoOther(_) =>
    }
  }

  lemma SameRounds(c: Calendar, d: Calendar)
    requires d.round == c.round && |d.slots| == |c.slots|
    requires forall i :: 0 <= i < |c.slots| ==> d.slots[i].round == c.slots[i].round
    ensures StaleOffer(d) <==> StaleOffer(c)
  {
  }

  lemma RepeatStales(c: Calendar)
    requires Inv(c) && RepeatAccepted(c)
    ensures StaleOffer(Apply(c, DoRepeat))
  {
    assert c.slots != [];
    assert Apply(c, DoRepeat).slots[0].round < Apply(c, DoRepeat).round;
  }

  /** After any run the offer is stale exactly when a visit was repeated since the last accepted proposal. */
  lemma {:induction false} StaleOfferIff(steps: seq<Step>)
    ensures StaleOffer(Run(steps)) <==> RepeatedSinceProposal(steps)
  {
    if steps != [] {
      var front, step := steps[..|steps| - 1], steps[|steps| - 1];
      assert steps == front + [step];
      StaleOfferIff(front);
      RepeatedStep(front, step);
      RunKeeps(front);
      StaleStep(Run(front), step);
    }
  }

  /** "Parties never choose a stale slot": after any run, an accepted selection books a slot of an earlier
      round exactly when a visit was repeated since the last accepted proposal. */
  lemma StaleBookingIff(steps: seq<Step>, id: nat, now: int)
    requires SelectionAccepted(Run(steps), id, now)
    ensures StaleBooking(Apply(Run(steps), DoSelect(id, now))) <==> RepeatedSinceProposal(steps)
  {
    var c := Run(steps);
    RunKeeps(steps);
    StaleOfferIff(steps);
    AcceptedIff(c, DoSelect(id, now));
    SelectKeeps(c, id, now);
    var d, i := Apply(c, DoSelect(id, now)), FindSlot(c.slots, id).value;
    assert Booked(d, i);
    assert StaleOffer(c) ==> c.slots[i].round < c.round;
  }

  /** From every case in review, each window of the round that still lies ahead can be booked for the next. */
  lemma StaleSlotBooked(c: Calendar, i: nat, now: int)
    requires Inv(c) && c.state.DamageReview? && i < |c.slots| && c.slots[i].startsAt > now
    ensures var d := Apply(Apply(c, DoRepeat), DoSelect(c.slots[i].id, now));
      d.state.InspectionScheduled? && Booked(d, i) && d.slots[i].round < d.round
  {
    var repeated := Apply(c, DoRepeat);
    assert repeated.state.SlotsProposed?;
    assert repeated.slots[i].id == c.slots[i].id;
    assert FindSlot(repeated.slots, c.slots[i].id) == Some(i);
  }

  lemma RunAppend(steps: seq<Step>, step: Step)
    ensures Run(steps + [step]) == Apply(Run(steps), step)
  {
    assert (steps + [step])[..|steps|] == steps;
  }

  const APPROVED: Calendar := Calendar(OwnerApproved, 1, [], 0, None)

  const OFFERED: Calendar :=
    Calendar(SlotsProposed, 1, [Slot(0, 1, 10, 11, false), Slot(1, 1, 20, 21, false)], 2, None)

  const BOOKED: Calendar :=
    Calendar(InspectionScheduled, 1, [Slot(0, 1, 10, 11, true), Slot(1, 1, 20, 21, false)], 2, Some(Window(10, 11)))

  lemma OfferReached()
    ensures Apply(APPROVED, DoPropose([Window(10, 11), Window(20, 21)], 0)) == OFFERED
  {
    assert WithoutUnselected(Cleared([])) + Offered([Window(10, 11), Window(20, 21)], 0, 1) == OFFERED.slots;
  }

  lemma VisitReached()
    ensures Apply(OFFERED, DoSelect(0, 0)) == BOOKED
  {
    assert OFFERED.slots[..1][0].id == 0;
    assert FindSlot(OFFERED.slots, 0) == Some(0);
    assert Cleared(OFFERED.slots)[0 := OFFERED.slots[0].(selected := true)] == BOOKED.slots;
  }

  lemma ApprovedRun() returns (steps: seq<Step>)
    ensures Run(steps) == APPROVED
  {
    RunAppend([], DoOther(Submit));
    RunAppend([DoOther(Submit)], DoOther(OwnerApprove));
    assert [] + [DoOther(Submit)] == [DoOther(Submit)];
    steps := [DoOther(Submit)] + [DoOther(OwnerApprove)];
  }

  lemma BookedRun() returns (steps: seq<Step>)
    ensures Run(steps) == BOOKED
  {
    steps := ApprovedRun();
    var offer, choice := DoPropose([Window(10, 11), Window(20, 21)], 0), DoSelect(0, 0);
    RunAppend(steps, offer);
    OfferReached();
    RunAppend(steps + [offer], choice);
    VisitReached();
    steps := steps + [offer] + [choice];
  }

  lemma ReviewedRun() returns (steps: seq<Step>)
    ensures Run(steps) == BOOKED.(state := DamageReview)
  {
    steps := BookedRun();
    RunAppend(steps, DoOther(SubmitReport));
    RunAppend(steps + [DoOther(SubmitReport)], DoOther(OpenReview));
    steps := steps + [DoOther(SubmitReport)] + [DoOther(OpenReview)];
  }

  /** A run that books a stale slot: two windows are proposed, the first is visited and reported, the visit
      is repeated, and the second window, proposed for the first round, is booked for the second. */
  lemma StaleBookingReached() returns (steps: seq<Step>)
    ensures StaleBooking(Run(steps)) && Run(steps).state.InspectionScheduled?
  {
    steps := ReviewedRun();
    RunKeeps(steps);
    StaleSlotBooked(Run(steps), 1, 15);
    RunAppend(steps, DoRepeat);
    RunAppend(steps + [DoRepeat], DoSelect(1, 15));
    steps := steps + [DoRepeat] + [DoSelect(1, 15)];
  }
}
