/** The exit workflow state machine: states, roles, the transition table and the milestones a
    completed workflow must have passed. */
module ExitStates {
  import opened Outcomes

  datatype State =
    | Draft
    | Submitted
    | OwnerApproved
    | SlotsProposed
    | InspectionScheduled
    | InspectionCompleted
    | DamageReview
    | SettlementPending
    | SettlementProcessing
    | SettlementCompleted
    | NocIssued
    | Completed
    | Rejected
    | Cancelled
    | Expired

  datatype Role = Tenant | Owner | Agency | Admin | System

  datatype Action =
    | Submit
    | Cancel
    | Expire
    | OwnerApprove
    | OwnerReject
    | Withdraw
    | ProposeSlots
    | SelectSlot
    | Reschedule
    | SubmitReport
    | OpenReview
    | Finalise
    | Reinspect
    | PayDeposit
    | Reopen
    | SettlementSucceeded
    | SettlementFailed
    | IssueNoc
    | Complete

  predicate Terminal(s: State) {
    s.Completed? || s.Rejected? || s.Cancelled? || s.Expired?
  }

  /** The groups of roles the table names. */
  datatype Actors =
    | TenantOnly
    | OwnerOnly
    | AgencyOnly
    | SystemOnly
    | TenantOrOwner
    | OwnerOrSystem
    | Parties
    | Closers
  {
    predicate Include(role: Role) {
      match role
      case Tenant => TenantOnly? || TenantOrOwner? || Parties? || Closers?
      case Owner => OwnerOnly? || TenantOrOwner? || OwnerOrSystem? || Parties? || Closers?
      case Agency => AgencyOnly? || Parties?
      case System => SystemOnly? || OwnerOrSystem? || Closers?
      case Admin => true
    }
  }

  /** Where an action leads, and the roles that may trigger it (an administrator always may). */
  datatype Edge = Edge(target: State, actors: Actors)

  /** The table, grouped by action: every action leads to one state, from the states listed here. */
  function FindEdge(source: State, action: Action): Option<Edge> {
    match action
    case Submit => From(source.Draft?, Submitted, TenantOnly)
    case Cancel => From(source.Draft? || source.Submitted? || source.OwnerApproved? || source.SlotsProposed?
                        || source.InspectionScheduled?,
                        Cancelled, if source.Draft? then TenantOnly else TenantOrOwner)
    case Expire => From(source.Draft?, Expired, SystemOnly)
    case OwnerApprove => From(source.Submitted?, OwnerApproved, OwnerOnly)
    case OwnerReject => From(source.Submitted?, Rejected, OwnerOnly)
    case Withdraw => From(source.Submitted?, Draft, TenantOnly)
    case ProposeSlots => From(source.OwnerApproved? || source.SlotsProposed?, SlotsProposed, AgencyOnly)
    case SelectSlot => From(source.SlotsProposed?, InspectionScheduled, TenantOrOwner)
    case Reschedule => From(source.InspectionScheduled?, SlotsProposed, Parties)
    case SubmitReport => From(source.InspectionScheduled?, InspectionCompleted, AgencyOnly)
    case OpenReview => From(source.InspectionCompleted?, DamageReview, OwnerOrSystem)
    case Finalise => From(source.DamageReview?, SettlementPending, OwnerOnly)
    case Reinspect => From(source.DamageReview?, SlotsProposed, OwnerOnly)
    case PayDeposit => From(source.SettlementPending?, SettlementProcessing, OwnerOnly)
    case Reopen => From(source.SettlementPending?, DamageReview, OwnerOnly)
    case SettlementSucceeded => From(source.SettlementProcessing?, SettlementCompleted, SystemOnly)
    case SettlementFailed => From(source.SettlementProcessing?, SettlementPending, SystemOnly)
    case IssueNoc => From(source.SettlementCompleted?, NocIssued, SystemOnly)
    case Complete => From(source.NocIssued?, Completed, Closers)
  }

  function From(applies: bool, target: State, actors: Actors): Option<Edge> {
    if applies then Some(Edge(target, actors)) else None
  }

  /** The state an action leads to, or why it is refused. */
  function Authorise(source: State, action: Action, role: Role): Result<State> {
    var edge := FindEdge(source, action);
    if edge.None? then
      Err(IllegalTransition)
    else if !edge.value.actors.Include(role) then
      Err(Unauthorised)
    else
      Ok(edge.value.target)
  }

  /** One appended row of the state history. */
  datatype Row = Row(source: State, target: State, action: Action)

  /** The state reached by replaying history rows from the initial draft, if each row starts where
      the one before it ended and is an edge of the table. */
  function Replay(history: seq<Row>): Option<State> {
    if history == [] then
      Some(Draft)
    else
      var before := Replay(history[..|history| - 1]);
      var row := history[|history| - 1];
      var edge := FindEdge(row.source, row.action);
      if before == Some(row.source) && edge.Some? && edge.value.target == row.target then
        Some(row.target)
      else
        None
  }

  function Actions(history: seq<Row>): (actions: seq<Action>)
    ensures |actions| == |history|
  {
    seq(|history|, i requires 0 <= i < |history| => history[i].action)
  }

  /** The actions no completed exit can have skipped, in the order the process prescribes. */
  const MILESTONES: seq<Action> :=
    [Submit, OwnerApprove, ProposeSlots, SelectSlot, SubmitReport, OpenReview, Finalise, PayDeposit,
     SettlementSucceeded, IssueNoc, Complete]

  /** How many milestones lie behind a workflow in state `s`. */
  function Progress(s: State): nat {
    match s
    case Submitted => 1
    case OwnerApproved => 2
    case SlotsProposed => 3
    case InspectionScheduled => 4
    case InspectionCompleted => 5
    case DamageReview => 6
    case SettlementPending => 7
    case SettlementProcessing => 8
    case SettlementCompleted => 9
    case NocIssued => 10
    case Completed => 11
    case _ => 0
  }

  /** `at` picks, for each element of `xs`, its place in `ys`, in strictly increasing order. */
  predicate Embeds<T(==)>(xs: seq<T>, ys: seq<T>, at: seq<nat>) {
    && |at| == |xs|
    && (forall i :: 0 <= i < |at| ==> at[i] < |ys| && ys[at[i]] == xs[i])
    && (forall i, j :: 0 <= i < j < |at| ==> at[i] < at[j])
  }

  ghost predicate Subsequence<T>(xs: seq<T>, ys: seq<T>) {
    exists at: seq<nat> :: Embeds(xs, ys, at)
  }

  lemma SubsequencePrefix<T>(xs: seq<T>, ys: seq<T>, k: nat, y: T)
    requires k <= |xs| && Subsequence(xs, ys)
    ensures Subsequence(xs[..k], ys + [y])
  {
    var at: seq<nat> :| Embeds(xs, ys, at);
    assert Embeds(xs[..k], ys + [y], at[..k]);
  }

  lemma SubsequenceAppend<T>(xs: seq<T>, ys: seq<T>, y: T)
    requires Subsequence(xs, ys)
    ensures Subsequence(xs + [y], ys + [y])
  {
    var at: seq<nat> :| Embeds(xs, ys, at);
    assert Embeds(xs + [y], ys + [y], at + [|ys|]);
  }

  /** Along every edge the milestones behind the workflow either shrink to a prefix or grow by
      exactly the action taken. */
  lemma EdgeProgress(source: State, action: Action)
    requires FindEdge(source, action).Some?
    ensures var target := FindEdge(source, action).value.target;
      Progress(target) <= Progress(source)
      || (Progress(target) == Progress(source) + 1 && MILESTONES[Progress(source)] == action)
  {
  }

  /** Appending a legal row keeps the milestones of the new state embedded in the history. */
  lemma MilestonesStep(history: seq<Row>, row: Row)
    requires FindEdge(row.source, row.action).Some?
    requires FindEdge(row.source, row.action).value.target == row.target
    requires Subsequence(MILESTONES[..Progress(row.source)], Actions(history))
    ensures Subsequence(MILESTONES[..Progress(row.target)], Actions(history + [row]))
  {
    EdgeProgress(row.source, row.action);
    var done := MILESTONES[..Progress(row.source)];
    assert Actions(history + [row]) == Actions(history) + [row.action];
    if Progress(row.target) <= Progress(row.source) {
      SubsequencePrefix(done, Actions(history), Progress(row.target), row.action);
      assert done[..Progress(row.target)] == MILESTONES[..Progress(row.target)];
    } else {
      SubsequenceAppend(done, Actions(history), row.action);
      assert done + [row.action] == MILESTONES[..Progress(row.target)];
    }
  }
}
