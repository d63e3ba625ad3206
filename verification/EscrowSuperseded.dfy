/** Figures of a report after which another visit was ordered: when they come back under review, and that they
    can become payable. */
module EscrowSuperseded {
  import opened Outcomes
  import opened Texts
  import opened EscrowCase
  import opened EscrowSafety

  // ------------------------------------------------- requests that count

  /** Another visit is ordered while the damage is under review, voiding the figures or not. */
  predicate Reorders(c: Case, request: Request) {
    && c.state.DamageReview?
    && (|| (request.Inspect? && request.inspector.Active?)
        || (request.Reinspect? && request.inspector.Active? && !Blank(request.why)))
  }

  /** It is ordered as a re-inspection, which voids the figures. */
  predicate Voids(c: Case, request: Request) {
    c.state.DamageReview? && request.Reinspect? && request.inspector.Active? && !Blank(request.why)
  }

  /** A report is filed. */
  predicate Files(c: Case, request: Request) {
    request.File?
    && GoodReport(c, request.assignment, request.summary, request.inspectedAt, request.now, request.amounts)
  }

  /** A repeated visit is disputed before its report is in. */
  predicate Revives(c: Case, request: Request) {
    request.Contest? && !Blank(request.why) && c.state.Inspected? && c.reports != []
  }

  /** Figures are drafted: from a new report, or by a dispute from the last one. */
  predicate Drafts(c: Case, request: Request) {
    Files(c, request) || Revives(c, request)
      || (request.Contest? && !Blank(request.why) && c.state.PendingSettlement?)
  }

  /** These are the accepted requests of their kinds. */
  lemma AcceptedIff(c: Case, request: Request)
    requires Inv(c)
    ensures c.state.DamageReview? && (request.Inspect? || request.Reinspect?) ==>
      (Perform(c, request).Ok? <==> Reorders(c, request))
    ensures request.Reinspect? ==> (Perform(c, request).Ok? <==> Voids(c, request))
    ensures request.File? || request.Contest? ==> (Perform(c, request).Ok? <==> Drafts(c, request))
  {
    if request.File? {
      ReportAcceptedIff(c, request.assignment, request.summary, request.inspectedAt, request.now, request.amounts);
    } else if request.Contest? {
      DisputeAcceptedIff(c, request.why);
    }
  }

  // ---------------------------------------------------- since a request

  predicate MarkedAt(start: Case, requests: seq<Request>, mark: (Case, Request) -> bool,
                     reset: (Case, Request) -> bool, i: int) {
    && 0 <= i < |requests| && mark(Run(start, requests[..i]), requests[i])
    && forall j :: i < j < |requests| ==> !reset(Run(start, requests[..j]), requests[j])
  }

  /** Some request of the run was a `mark`, and none after it a `reset`. */
  ghost predicate Since(start: Case, requests: seq<Request>, mark: (Case, Request) -> bool,
                        reset: (Case, Request) -> bool) {
    exists i :: MarkedAt(start, requests, mark, reset, i)
  }

  lemma SinceStep(start: Case, front: seq<Request>, request: Request, mark: (Case, Request) -> bool,
                  reset: (Case, Request) -> bool)
    ensures Since(start, front + [request], mark, reset)
       <==> || mark(Run(start, front), request)
            || (Since(start, front, mark, reset) && !reset(Run(start, front), request))
  {
    var requests := front + [request];
    assert forall j :: 0 <= j <= |front| ==> requests[..j] == front[..j];
    assert front[..|front|] == front && requests[|front|] == request;
    if Since(start, requests, mark, reset) {
      var i :| MarkedAt(start, requests, mark, reset, i);
      if i < |front| {
        assert MarkedAt(start, front, mark, reset, i);
      }
    }
    if mark(Run(start, front), request) {
      assert MarkedAt(start, requests, mark, reset, |front|);
    }
    if Since(start, front, mark, reset) && !reset(Run(start, front), request) {
      var i :| MarkedAt(start, front, mark, reset, i);
      assert MarkedAt(start, requests, mark, reset, i);
    }
  }

  // --------------------------------------------------- superseded figures

  /** How a case shows that a visit was ordered since the last report (`reordered`), and that it was
      disputed since (`revived`). */
  predicate Shows(c: Case, reordered: bool, revived: bool) {
    && (revived ==> reordered)
    && (reordered && (c.state.DamageReview? || c.state.PendingSettlement?) ==> revived)
    && (Inspecting(c.state) && c.reports != [] ==> reordered)
  }

  /** What requests other than these do to the reports, the review and the void figures: nothing. */
  predicate Bystander(request: Request) {
    !request.File? && !request.Contest? && !request.Inspect? && !request.Reinspect?
  }

  predicate Unmoved(c: Case, d: Case) {
    && d.reports == c.reports && (HasStatus(d, Void) <==> HasStatus(c, Void))
    && (Inspecting(d.state) && d.reports != [] ==> Inspecting(c.state))
    && (d.state.DamageReview? ==> c.state.DamageReview?)
    && (d.state.PendingSettlement? ==> c.state.DamageReview? || c.state.PendingSettlement?)
  }

  lemma PlainUnmoved(c: Case, request: Request)
    requires Inv(c) && Plain(request) && Perform(c, request).Ok?
    ensures Unmoved(c, Perform(c, request).value)
  {
  }

  lemma AcceptUnmoved(c: Case)
    requires Inv(c) && ApproveSettlement(c).Ok?
    ensures Unmoved(c, ApproveSettlement(c).value)
  {
  }

  lemma PaymentUnmoved(c: Case, request: Request)
    requires Inv(c) && (request.PayLeg? || request.Fetch?) && Perform(c, request).Ok?
    ensures Unmoved(c, Perform(c, request).value)
  {
  }

  lemma SlotsUnmoved(c: Case, request: Request)
    requires Inv(c) && (request.Offer? || request.Select? || request.Approve?) && Perform(c, request).Ok?
    ensures Unmoved(c, Perform(c, request).value)
  {
  }

  lemma BystanderUnmoved(c: Case, request: Request)
    requires Inv(c) && Bystander(request)
    ensures Unmoved(c, Apply(c, request))
  {
    if Perform(c, request).Ok? {
      if Plain(request) {
        PlainUnmoved(c, request);
      } else if request.Accept? {
        AcceptUnmoved(c);
      } else if request.PayLeg? || request.Fetch? {
        PaymentUnmoved(c, request);
      } else {
        SlotsUnmoved(c, request);
      }
    }
  }

  /** A filed report leaves its fresh draft under review. */
  lemma FileLeaves(c: Case, request: Request)
    requires Inv(c) && request.File?
    ensures var d := Apply(c, request);
      if Files(c, request) then d.state.DamageReview? && HasStatus(d, DraftFigures) else d == c
  {
    ReportAcceptedIff(c, request.assignment, request.summary, request.inspectedAt, request.now, request.amounts);
    if Files(c, request) {
      ReportShape(c, request.assignment, request.summary, request.inspectedAt, request.now, request.amounts);
    }
  }

  /** So does an accepted dispute, with the figures there are. */
  lemma ContestLeaves(c: Case, request: Request)
    requires Inv(c) && request.Contest?
    ensures var d := Apply(c, request);
      if Drafts(c, request) then d.state.DamageReview? && HasStatus(d, DraftFigures) && d.reports == c.reports
      else d == c
  {
    DisputeAcceptedIff(c, request.why);
  }

  /** An accepted order of a visit leads to its scheduling; in review it is one of `Reorders`. */
  lemma VisitLeaves(c: Case, request: Request)
    requires Inv(c) && (request.Inspect? || request.Reinspect?)
    ensures var d := Apply(c, request);
      && d.reports == c.reports
      && (d == c || d.state.Scheduling?)
      && (Reorders(c, request) ==> d.state.Scheduling?)
      && (d != c && d.reports != [] ==> Reorders(c, request) || Inspecting(c.state))
      && (HasStatus(d, Void) <==> Voids(c, request) || HasStatus(c, Void))
  {
  }

  lemma ShowsStep(c: Case, request: Request, reordered: bool, revived: bool)
    requires Inv(c) && Shows(c, reordered, revived)
    ensures Shows(Apply(c, request), Reorders(c, request) || (reordered && !Files(c, request)),
                  Revives(c, request) || (revived && !Files(c, request)))
  {
    match request
    case File(_, _, _, _, _) => FileLeaves(c, request);
    case Contest(_) => ContestLeaves(c, request);
    case Inspect(_) => VisitLeaves(c, request);
    case Reinspect(_, _) => VisitLeaves(c, request);
    case _ => BystanderUnmoved(c, request);
  }

  lemma {:induction false} RunShows(deposit: nat, documentsRequired: bool, requests: seq<Request>)
    ensures var start := Initiated(deposit, documentsRequired);
      Shows(Run(start, requests), Since(start, requests, Reorders, Files), Since(start, requests, Revives, Files))
  {
    if requests != [] {
      var start := Initiated(deposit, documentsRequired);
      var front, last := requests[..|requests| - 1], requests[|requests| - 1];
      assert requests == front + [last];
      RunShows(deposit, documentsRequired, front);
      RunKeeps(deposit, documentsRequired, front);
      SinceStep(start, front, last, Reorders, Files);
      SinceStep(start, front, last, Revives, Files);
      ShowsStep(Run(start, front), last, Since(start, front, Reorders, Files), Since(start, front, Revives, Files));
    }
  }

  /** For every run that ends in review or awaiting a payment: the figures are those of a report after which
      another visit was ordered, if and only if a repeated visit was disputed since that report. */
  lemma SupersededIff(deposit: nat, documentsRequired: bool, requests: seq<Request>)
    requires var c := Run(Initiated(deposit, documentsRequired), requests);
      c.state.DamageReview? || c.state.PendingSettlement?
    ensures Since(Initiated(deposit, documentsRequired), requests, Reorders, Files)
       <==> Since(Initiated(deposit, documentsRequired), requests, Revives, Files)
  {
    RunShows(deposit, documentsRequired, requests);
  }

  // ---------------------------------------------------------- void figures

  lemma VoidStep(c: Case, request: Request)
    requires Inv(c)
    ensures HasStatus(Apply(c, request), Void) <==> Voids(c, request) || (HasStatus(c, Void) && !Drafts(c, request))
  {
    match request
    case File(_, _, _, _, _) => FileLeaves(c, request);
    case Contest(_) => ContestLeaves(c, request);
    case Inspect(_) => VisitLeaves(c, request);
    case Reinspect(_, _) => VisitLeaves(c, request);
    case _ => BystanderUnmoved(c, request);
  }

  /** After any run the figures are void exactly when a re-inspection was ordered and no report filed and no
      dispute accepted since: a plain request for a visit voids nothing, and a dispute undoes it. */
  lemma {:induction false} VoidIff(deposit: nat, documentsRequired: bool, requests: seq<Request>)
    ensures HasStatus(Run(Initiated(deposit, documentsRequired), requests), Void)
       <==> Since(Initiated(deposit, documentsRequired), requests, Voids, Drafts)
  {
    if requests != [] {
      var start := Initiated(deposit, documentsRequired);
      var front, last := requests[..|requests| - 1], requests[|requests| - 1];
      assert requests == front + [last];
      VoidIff(deposit, documentsRequired, front);
      RunKeeps(deposit, documentsRequired, front);
      SinceStep(start, front, last, Voids, Drafts);
      VoidStep(Run(start, front), last);
    }
  }

  /** Void figures become draft again in exactly two ways: a good report recomputes them, or a dispute right
      after the repeated visit revives the superseded ones. */
  lemma VoidRevivedIff(c: Case, request: Request)
    requires Inv(c) && HasStatus(c, Void)
    ensures HasStatus(Apply(c, request), DraftFigures) <==> Files(c, request) || Revives(c, request)
    ensures !HasStatus(Apply(c, request), Payable) && !HasStatus(Apply(c, request), Closed)
    ensures Revives(c, request) ==> Apply(c, request).settlement.value.report == c.settlement.value.report
  {
    if request.File? {
      ReportAcceptedIff(c, request.assignment, request.summary, request.inspectedAt, request.now, request.amounts);
    } else if request.Contest? {
      DisputeAcceptedIff(c, request.why);
    }
  }

  // ------------------------------------- superseded figures become payable

  /** Nothing was reported or paid, and the figures' amounts are still `refund` and `balance`. */
  predicate Stalled(c: Case, state: State, status: SettlementStatus, reports: seq<Report>, refund: int, balance: int) {
    && c.state == state && HasStatus(c, status) && c.reports == reports && c.payments == []
    && c.settlement.value.refund == refund && c.settlement.value.balance == balance
  }

  predicate LastVisit(c: Case, index: nat, status: AssignmentStatus, offered: nat) {
    |c.assignments| == index + 1 && c.assignments[index].status == status && c.assignments[index].offered == offered
  }

  /** The two ways to order another visit. */
  predicate Order(request: Request) {
    request == Inspect(Active) || request == Reinspect(Active, "leak")
  }

  function StatusAfter(order: Request): SettlementStatus {
    if order.Reinspect? then Void else DraftFigures
  }

  lemma OrderRuns(c: Case, order: Request, n: nat, refund: int, balance: int)
    requires Stalled(c, DamageReview, DraftFigures, c.reports, refund, balance) && n == |c.assignments| && Order(order)
    ensures var d := Apply(c, order);
      Stalled(d, Scheduling, StatusAfter(order), c.reports, refund, balance) && LastVisit(d, n, Requested, 0)
  {
    assert !Space("leak"[0]);
  }

  lemma OfferRuns(c: Case, status: SettlementStatus, n: nat, refund: int, balance: int)
    requires Stalled(c, Scheduling, status, c.reports, refund, balance) && LastVisit(c, n, Requested, 0)
    ensures var d := Apply(c, Offer(n, 1, 1));
      Stalled(d, Scheduling, status, c.reports, refund, balance) && LastVisit(d, n, SlotsProposed, 1)
  {
  }

  lemma SelectRuns(c: Case, status: SettlementStatus, n: nat, refund: int, balance: int)
    requires Stalled(c, Scheduling, status, c.reports, refund, balance) && LastVisit(c, n, SlotsProposed, 1)
    ensures var d := Apply(c, Select(0, 1, 0));
      Stalled(d, Scheduled, status, c.reports, refund, balance) && LastVisit(d, n, Booked, 1)
  {
  }

  lemma VisitRuns(c: Case, status: SettlementStatus, n: nat, refund: int, balance: int)
    requires Stalled(c, Scheduled, status, c.reports, refund, balance) && LastVisit(c, n, Booked, 1)
    ensures Stalled(Apply(c, Visit(n)), Inspected, status, c.reports, refund, balance)
  {
  }

  lemma ContestRevives(c: Case, status: SettlementStatus, refund: int, balance: int)
    requires Stalled(c, Inspected, status, c.reports, refund, balance)
    ensures var d := Apply(c, Contest("leak"));
      && Stalled(d, DamageReview, DraftFigures, c.reports, refund, balance)
      && !d.settlement.value.refundSettled && !d.settlement.value.balanceSettled
  {
    assert !Space("leak"[0]);
  }

  lemma AcceptPends(c: Case, refund: int, balance: int)
    requires Stalled(c, DamageReview, DraftFigures, c.reports, refund, balance) && refund != balance
    requires refund >= 0 && balance >= 0 && !c.settlement.value.refundSettled && !c.settlement.value.balanceSettled
    ensures Stalled(Apply(c, Accept), PendingSettlement, Payable, c.reports, refund, balance)
  {
  }

  lemma RunStep(c: Case, front: seq<Request>, request: Request)
    ensures Run(c, front + [request]) == Apply(Run(c, front), request)
  {
    assert (front + [request])[..|front|] == front;
  }

  lemma {:induction false} RunSplit(c: Case, before: seq<Request>, after: seq<Request>)
    ensures Run(c, before + after) == Run(Run(c, before), after)
  {
    if after == [] {
      assert before + after == before;
    } else {
      var last := |after| - 1;
      assert before + after == (before + after[..last]) + [after[last]];
      RunStep(c, before + after[..last], after[last]);
      RunSplit(c, before, after[..last]);
    }
  }

  /** Order another visit, let it take place, dispute before its report, and accept. */
  function Repeated(order: Request, n: nat): seq<Request> {
    [order] + [Offer(n, 1, 1)] + [Select(0, 1, 0)] + [Visit(n)]
  }

  function Revival(order: Request, n: nat): seq<Request> {
    Repeated(order, n) + [Contest("leak")] + [Accept]
  }

  lemma RepeatedRuns(c: Case, order: Request, n: nat, refund: int, balance: int)
    requires Stalled(c, DamageReview, DraftFigures, c.reports, refund, balance) && n == |c.assignments| && Order(order)
    ensures Stalled(Run(c, Repeated(order, n)), Inspected, StatusAfter(order), c.reports, refund, balance)
  {
    var status := StatusAfter(order);
    OrderRuns(c, order, n, refund, balance);
    var ordered := Apply(c, order);
    RunStep(c, [], order);
    assert [] + [order] == [order];
    OfferRuns(ordered, status, n, refund, balance);
    RunStep(c, [order], Offer(n, 1, 1));
    var offered := Apply(ordered, Offer(n, 1, 1));
    SelectRuns(offered, status, n, refund, balance);
    RunStep(c, [order] + [Offer(n, 1, 1)], Select(0, 1, 0));
    VisitRuns(Apply(offered, Select(0, 1, 0)), status, n, refund, balance);
    RunStep(c, [order] + [Offer(n, 1, 1)] + [Select(0, 1, 0)], Visit(n));
  }

  /** From every case in review with money at stake: whether the other visit is ordered with voiding or
      without, the superseded figures can become payable although no second report was ever filed. */
  lemma SupersededBecomePayable(c: Case, order: Request)
    requires Inv(c) && c.state.DamageReview? && Order(order)
    requires c.settlement.value.refund != c.settlement.value.balance
    ensures Stalled(Run(c, Revival(order, |c.assignments|)), PendingSettlement, Payable, c.reports,
                    c.settlement.value.refund, c.settlement.value.balance)
  {
    var n, refund, balance := |c.assignments|, c.settlement.value.refund, c.settlement.value.balance;
    RepeatedRuns(c, order, n, refund, balance);
    var visited := Run(c, Repeated(order, n));
    ContestRevives(visited, StatusAfter(order), refund, balance);
    RunStep(c, Repeated(order, n), Contest("leak"));
    AcceptPends(Apply(visited, Contest("leak")), refund, balance);
    RunStep(c, Repeated(order, n) + [Contest("leak")], Accept);
  }

  // ------------------------------------------------------------- witness

  /** The way to a first report that finds nothing. */
  function Opening(): seq<Request> {
    [Submit(false)] + [Approve(None)] + [Inspect(Active)] + [Offer(0, 1, 1)] + [Select(0, 1, 0)]
    + [File(0, "leak", 0, 0, [])]
  }

  lemma BookedCase(start: Case)
    requires start == Initiated(2, false)
    ensures var asked := Apply(Apply(Apply(start, Submit(false)), Approve(None)), Inspect(Active));
      var c := Apply(Apply(asked, Offer(0, 1, 1)), Select(0, 1, 0));
      && c.state.Scheduled? && c.assignments == [Assignment(Booked, 1, None)] && c.reports == []
      && c.settlement.None? && c.deposit == 2
  {
  }

  lemma {:induction false} RunFive(c: Case, a: Request, b: Request, d: Request, e: Request, f: Request)
    ensures Run(c, [a] + [b] + [d] + [e] + [f]) == Apply(Apply(Apply(Apply(Apply(c, a), b), d), e), f)
  {
    assert [] + [a] == [a];
    RunStep(c, [], a);
    RunStep(c, [a], b);
    RunStep(c, [a] + [b], d);
    RunStep(c, [a] + [b] + [d], e);
    RunStep(c, [a] + [b] + [d] + [e], f);
  }

  lemma BookedRun(start: Case)
    requires start == Initiated(2, false)
    ensures var c := Run(start, Opening()[..5]);
      && c.state.Scheduled? && c.assignments == [Assignment(Booked, 1, None)] && c.reports == []
      && c.settlement.None? && c.deposit == 2
  {
    BookedCase(start);
    RunFive(start, Submit(false), Approve(None), Inspect(Active), Offer(0, 1, 1), Select(0, 1, 0));
    assert Opening()[..5]
        == [Submit(false)] + [Approve(None)] + [Inspect(Active)] + [Offer(0, 1, 1)] + [Select(0, 1, 0)];
  }

  lemma ReviewedRun(start: Case)
    requires start == Initiated(2, false)
    ensures var c := Run(start, Opening());
      && c.state.DamageReview? && |c.assignments| == 1 && |c.reports| == 1
      && c.settlement.Some? && c.settlement.value.refund == 2 && c.settlement.value.balance == 0
  {
    BookedRun(start);
    var booked := Run(start, Opening()[..5]);
    assert Opening() == Opening()[..5] + [File(0, "leak", 0, 0, [])];
    RunStep(start, Opening()[..5], File(0, "leak", 0, 0, []));
    assert !Space("leak"[0]);
    assert ReportDamage(booked, 0, "leak", 0, 0, []).Ok?;
    ReportShape(booked, 0, "leak", 0, 0, []);
  }

  /** Both ways happen: a run from the start, with a single report, after which another visit was ordered, and
      which ends with that report's figures payable; only a re-inspection has voided them meanwhile. */
  lemma SupersededPayableReached(order: Request)
    requires Order(order)
    ensures var start, requests := Initiated(2, false), Opening() + Revival(order, 1);
      && Run(start, requests).state.PendingSettlement? && HasStatus(Run(start, requests), Payable)
      && |Run(start, requests).reports| == 1 && Run(start, requests).settlement.value.refund == 2
      && Since(start, requests, Reorders, Files)
    ensures Since(Initiated(2, false), Opening() + [order], Voids, Drafts) <==> order.Reinspect?
  {
    var start := Initiated(2, false);
    ReviewedRun(start);
    RunKeeps(2, false, Opening());
    SupersededBecomePayable(Run(start, Opening()), order);
    RunSplit(start, Opening(), Revival(order, 1));
    OrderMarks(start, order);
    OrderVoids(start, order);
  }

  lemma OrderMarks(start: Case, order: Request)
    requires Order(order) && Run(start, Opening()).state.DamageReview?
    ensures Since(start, Opening() + Revival(order, 1), Reorders, Files)
  {
    RevivalIs(order, 1);
    assert !Space("leak"[0]);
    OrderCounts(start, Opening(), order, AfterOrder(1));
    assert Opening() + Revival(order, 1) == Opening() + [order] + AfterOrder(1);
  }

  lemma OrderCounts(start: Case, front: seq<Request>, order: Request, tail: seq<Request>)
    requires Reorders(Run(start, front), order) && forall i :: 0 <= i < |tail| ==> !tail[i].File?
    ensures Since(start, front + [order] + tail, Reorders, Files)
  {
    var requests := front + [order] + tail;
    assert requests[..|front|] == front && requests[|front|] == order;
    forall j | |front| < j < |requests|
      ensures !Files(Run(start, requests[..j]), requests[j])
    {
      assert requests[j] == tail[j - |front| - 1];
    }
    assert MarkedAt(start, requests, Reorders, Files, |front|);
  }

  /** What follows the order in `Revival`. */
  function AfterOrder(n: nat): seq<Request> {
    [Offer(n, 1, 1)] + [Select(0, 1, 0)] + [Visit(n)] + [Contest("leak")] + [Accept]
  }

  lemma RevivalIs(order: Request, n: nat)
    ensures Revival(order, n) == [order] + AfterOrder(n)
    ensures forall i :: 0 <= i < |AfterOrder(n)| ==> !AfterOrder(n)[i].File?
  {
  }

  lemma OrderVoids(start: Case, order: Request)
    requires start == Initiated(2, false) && Order(order) && Run(start, Opening()).state.DamageReview?
    ensures Since(start, Opening() + [order], Voids, Drafts) <==> order.Reinspect?
  {
    assert !Space("leak"[0]);
    RunKeeps(2, false, Opening());
    VoidIff(2, false, Opening());
    SinceStep(start, Opening(), order, Voids, Drafts);
  }
}
