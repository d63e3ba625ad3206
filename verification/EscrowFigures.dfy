/** How the escrow settlement's figures follow from single damage items, which requests are accepted when, and
    what a download counts. */
module EscrowFigures {
  import opened Outcomes
  import opened Texts
  import opened EscrowCase
  import opened EscrowSafety

  // ------------------------------------------------------------- figures

  /** Adding amounts up: nothing is nothing, one amount is itself, parts add together. */
  lemma {:induction false} SumConcat(a: seq<int>, b: seq<int>)
    ensures Sum([]) == 0 && (|a| == 1 ==> Sum(a) == a[0]) && Sum(a + b) == Sum(a) + Sum(b)
  {
    if b == [] {
      assert a + b == a;
    } else {
      assert (a + b)[..|a + b| - 1] == a + b[..|b| - 1];
      SumConcat(a, b[..|b| - 1]);
    }
  }

  lemma SumInsert(before: seq<int>, x: int, after: seq<int>)
    ensures Sum(before + [x] + after) == Sum(before + after) + x
  {
    SumConcat(before + [x], after);
    SumConcat(before, [x]);
    SumConcat([x], []);
    SumConcat(before, after);
  }

  lemma FewerAccepted(c: Case, index: nat, summary: string, inspectedAt: int, now: int, amounts: seq<int>,
                      fewer: seq<int>)
    requires ReportDamage(c, index, summary, inspectedAt, now, amounts).Ok?
    requires forall i :: 0 <= i < |fewer| ==> fewer[i] in amounts
    ensures ReportDamage(c, index, summary, inspectedAt, now, fewer).Ok?
  {
  }

  /** One more damage item of amount `x`, anywhere in a report, raises the deductions by exactly `x` and lowers
      what the owner refunds less what the tenant still pays by exactly `x`. */
  lemma ItemCounts(c: Case, index: nat, summary: string, inspectedAt: int, now: int,
                   before: seq<int>, x: int, after: seq<int>)
    requires ReportDamage(c, index, summary, inspectedAt, now, before + [x] + after).Ok?
    ensures ReportDamage(c, index, summary, inspectedAt, now, before + after).Ok?
    ensures var more := ReportDamage(c, index, summary, inspectedAt, now, before + [x] + after).value.settlement;
      var less := ReportDamage(c, index, summary, inspectedAt, now, before + after).value.settlement;
      && more.Some? && less.Some?
      && more.value.deductions == less.value.deductions + x
      && more.value.refund - more.value.balance == less.value.refund - less.value.balance - x
  {
    FewerAccepted(c, index, summary, inspectedAt, now, before + [x] + after, before + after);
    ReportShape(c, index, summary, inspectedAt, now, before + [x] + after);
    ReportShape(c, index, summary, inspectedAt, now, before + after);
    SumInsert(before, x, after);
  }

  /** A report ends its visit and leaves every other one as it was. */
  lemma ReportEndsVisit(c: Case, index: nat, summary: string, inspectedAt: int, now: int, amounts: seq<int>)
    requires ReportDamage(c, index, summary, inspectedAt, now, amounts).Ok?
    ensures var d := ReportDamage(c, index, summary, inspectedAt, now, amounts).value;
      && |d.assignments| == |c.assignments|
      && d.assignments[index].status.Done? && d.assignments[index].report == Some(|c.reports|)
      && (forall i :: 0 <= i < |c.assignments| && i != index ==> d.assignments[i] == c.assignments[i])
  {
    ReportShape(c, index, summary, inspectedAt, now, amounts);
  }

  /** Windows offered add to those on offer for the same visit, and to no other's. */
  lemma OffersAdd(c: Case, index: nat, count: nat, added: nat)
    requires OfferSlots(c, index, count, added).Ok?
    ensures var d := OfferSlots(c, index, count, added).value;
      && |d.assignments| == |c.assignments| && index < |c.assignments|
      && d.assignments[index].offered - c.assignments[index].offered == added
      && (forall i :: 0 <= i < |c.assignments| && i != index ==> d.assignments[i] == c.assignments[i])
  {
  }

  /** A report that finds nothing leaves the whole deposit to refund. */
  lemma NothingFound(c: Case, index: nat, summary: string, inspectedAt: int, now: int)
    requires ReportDamage(c, index, summary, inspectedAt, now, []).Ok?
    ensures var s := ReportDamage(c, index, summary, inspectedAt, now, []).value.settlement;
      s.Some? && s.value.deductions == 0 && s.value.refund == c.deposit && s.value.balance == 0
  {
    ReportShape(c, index, summary, inspectedAt, now, []);
  }

  // ---------------------------------------------------------- acceptance

  /** In which cases each request is accepted; reports, disputes and payments have conditions of their own. */
  predicate May(c: Case, request: Request) {
    match request
    case Submit(documentsMissing) => (c.state.Draft? || c.state.DocumentsPending?) && !documentsMissing
    case Approve(agency) => c.state.PendingOwnerApproval? && (agency.None? || agency.value.Active?)
    case Reject(why) => c.state.PendingOwnerApproval? && !Blank(why)
    case Cancel(why) =>
      && !Blank(why) && !c.state.Settled? && !c.state.NocIssued?
      && !c.state.Completed? && !c.state.Cancelled? && !c.state.Rejected?
    case Inspect(inspector) =>
      (c.state.OwnerApproved? || c.state.Scheduled? || c.state.DamageReview?) && inspector.Active?
    case Offer(a, count, _) =>
      && c.state.Scheduling? && a < |c.assignments| && 0 < count <= 10
      && (c.assignments[a].status.Requested? || c.assignments[a].status.SlotsProposed?)
    case Select(slot, startsAt, now) =>
      && c.state.Scheduling? && c.assignments != []
      && slot < c.assignments[|c.assignments| - 1].offered && startsAt > now
    case Visit(a) => c.state.Scheduled? && a < |c.assignments|
    case Reinspect(inspector, why) => c.state.DamageReview? && inspector.Active? && !Blank(why)
    case Accept => c.state.DamageReview?
    case Fetch => c.noc.Some?
    case Finish => c.state.NocIssued?
    case _ => false
  }

  lemma PlainAcceptedIff(c: Case, request: Request)
    requires Plain(request)
    ensures Perform(c, request).Ok? <==> May(c, request)
  {
  }

  lemma VisitAcceptedIff(c: Case, request: Request)
    requires Inv(c)
    requires request.Approve? || request.Inspect? || request.Offer? || request.Select? || request.Reinspect?
    ensures Perform(c, request).Ok? <==> May(c, request)
  {
  }

  lemma FiguresAcceptedIff(c: Case)
    requires Inv(c)
    ensures ApproveSettlement(c).Ok? <==> c.state.DamageReview?
  {
    if c.state.DamageReview? && Accepted(c.settlement.value).FullySettled() {
      CloseShape(Move(c, PendingSettlement).value.(settlement := Some(Accepted(c.settlement.value))));
    }
  }

  /** After every run each request but a report, a dispute or a payment is accepted exactly as `May` says. */
  lemma AcceptedIff(deposit: nat, documentsRequired: bool, requests: seq<Request>, request: Request)
    requires !request.File? && !request.Contest? && !request.PayLeg?
    ensures var c := Run(Initiated(deposit, documentsRequired), requests);
      Perform(c, request).Ok? <==> May(c, request)
  {
    RunKeeps(deposit, documentsRequired, requests);
    var c := Run(Initiated(deposit, documentsRequired), requests);
    if Plain(request) {
      PlainAcceptedIff(c, request);
    } else if request.Accept? {
      FiguresAcceptedIff(c);
    } else if !request.Fetch? {
      VisitAcceptedIff(c, request);
    }
  }

  // ----------------------------------------------------------- downloads

  /** How many downloads the run accepted. */
  function Downloads(start: Case, requests: seq<Request>): nat {
    if requests == [] then 0
    else
      var front, last := requests[..|requests| - 1], requests[|requests| - 1];
      Downloads(start, front) + if last.Fetch? && Perform(Run(start, front), last).Ok? then 1 else 0
  }

  predicate Counts(c: Case, downloads: nat) {
    && (if c.noc.Some? then c.noc.value.downloads == downloads else downloads == 0)
    && (c.state.NocIssued? ==> downloads == 0)
  }

  lemma FetchCounts(c: Case, downloads: nat)
    requires Inv(c) && Counts(c, downloads) && Download(c).Ok?
    ensures Counts(Download(c).value, downloads + 1) && Download(c).value.state.Completed?
  {
  }

  lemma OtherCounts(c: Case, request: Request, downloads: nat)
    requires Inv(c) && Counts(c, downloads) && !request.Fetch?
    ensures Counts(Apply(c, request), downloads)
  {
    if Perform(c, request).Ok? {
      match request
      case File(a, summary, inspectedAt, now, amounts) =>
        ReportShape(c, a, summary, inspectedAt, now, amounts);
      case Accept => AcceptCounts(c, downloads);
      case PayLeg(leg, key, usedElsewhere, outcome) => PayCounts(c, leg, key, usedElsewhere, outcome, downloads);
      case _ => RestCounts(c, request, downloads);
    }
  }

  lemma AcceptCounts(c: Case, downloads: nat)
    requires Inv(c) && Counts(c, downloads) && ApproveSettlement(c).Ok?
    ensures Counts(ApproveSettlement(c).value, downloads)
  {
  }

  lemma PayCounts(c: Case, leg: Leg, key: string, usedElsewhere: bool, outcome: Outcome, downloads: nat)
    requires Inv(c) && Counts(c, downloads) && Pay(c, leg, key, usedElsewhere, outcome).Ok?
    ensures Counts(Pay(c, leg, key, usedElsewhere, outcome).value, downloads)
  {
  }

  lemma RestCounts(c: Case, request: Request, downloads: nat)
    requires Inv(c) && Counts(c, downloads) && Perform(c, request).Ok?
    requires !request.Fetch? && !request.File? && !request.Accept? && !request.PayLeg?
    ensures Counts(Perform(c, request).value, downloads)
  {
  }

  /** After every run a certificate's counter is the number of downloads accepted, and the exit is completed
      from the first one on. */
  lemma {:induction false} DownloadsCounted(deposit: nat, documentsRequired: bool, requests: seq<Request>)
    ensures var start := Initiated(deposit, documentsRequired);
      && Counts(Run(start, requests), Downloads(start, requests))
      && (Downloads(start, requests) > 0 ==> Run(start, requests).state.Completed?)
  {
    if requests != [] {
      var start := Initiated(deposit, documentsRequired);
      var front, last := requests[..|requests| - 1], requests[|requests| - 1];
      DownloadsCounted(deposit, documentsRequired, front);
      RunKeeps(deposit, documentsRequired, front);
      if last.Fetch? {
        if Download(Run(start, front)).Ok? {
          FetchCounts(Run(start, front), Downloads(start, front));
        }
      } else {
        OtherCounts(Run(start, front), last, Downloads(start, front));
        if Downloads(start, front) > 0 {
          ApplyEvolves(Run(start, front), last);
        }
      }
    }
  }
}
