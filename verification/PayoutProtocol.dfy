/** The deposit payout protocol: exit cases, the provider's ledger, and the steps by which a payment is
    requested, dispatched after the commit, lost, redriven, answered and reported. */
module PayoutProtocol {
  import opened Outcomes
  import opened ExitStates
  import opened ExitCase
  import opened ExitInvariants

  // ---------------------------------------------------------- provider

  datatype PayoutState = InFlight | Succeeded | Failed

  datatype Payout = Payout(key: string, caseId: nat, amount: nat, state: PayoutState)

  /** Where the ledger holds the payout of this key. */
  function IndexOf(ledger: seq<Payout>, key: string): (at: Option<nat>)
    ensures at.Some? ==> at.value < |ledger| && ledger[at.value].key == key
    ensures at.None? ==> forall p :: 0 <= p < |ledger| ==> ledger[p].key != key
  {
    if ledger == [] then None
    else if ledger[|ledger| - 1].key == key then Some(|ledger| - 1)
    else IndexOf(ledger[..|ledger| - 1], key)
  }

  /** The provider treats the key as authoritative: a replay finds the original payout. */
  function Register(ledger: seq<Payout>, key: string, caseId: nat, amount: nat): (after: seq<Payout>)
    ensures IndexOf(after, key).Some?
  {
    if IndexOf(ledger, key).Some? then ledger else ledger + [Payout(key, caseId, amount, InFlight)]
  }

  /** The gateway's reading of a provider's status word; any other word is a non-retryable error. */
  function Interpret(word: string): Option<PayoutState> {
    if word in ["PENDING", "PROCESSING", "SUBMITTED"] then Some(InFlight)
    else if word in ["SUCCEEDED", "PAID", "COMPLETED"] then Some(Succeeded)
    else if word in ["FAILED", "REJECTED", "CANCELLED"] then Some(Failed)
    else None
  }

  /** What the provider means by its words. */
  type Vocabulary = map<string, PayoutState>

  /** The reading may lag behind (a word read as "in flight" never does harm) but must not run ahead:
      what is read as success succeeded, and what is read as failure, or not at all, failed. */
  predicate WordUnderstood(word: string, meaning: PayoutState) {
    match Interpret(word)
    case Some(InFlight) => true
    case Some(Succeeded) => meaning.Succeeded?
    case Some(Failed) => meaning.Failed?
    case None => meaning.Failed?
  }

  predicate Understood(vocabulary: Vocabulary) {
    forall word :: word in vocabulary ==> WordUnderstood(word, vocabulary[word])
  }

  /** How one call of the provider may end. */
  datatype Reply =
    | Unreachable(registered: bool)                                  // retryable error, before or after registration
    | Refused                                                        // non-retryable error, nothing registered
    | Answered(word: string, outcome: PayoutState, committed: bool)  // the dispatcher may die before its commit

  // -------------------------------------------------------------- world

  datatype World = World(cases: map<nat, Case>, ledger: seq<Payout>, hooks: multiset<nat>)

  const EMPTY := World(map[], [], multiset{})

  function KeyOf(c: Case): Option<string> {
    if c.settlement.Some? then c.settlement.value.key else None
  }

  /** The unique index on the key column: no other settlement may hold the same key. */
  predicate KeyClash(cases: map<nat, Case>, id: nat, c: Case) {
    KeyOf(c).Some? && exists other :: other in cases && other != id && KeyOf(cases[other]) == KeyOf(c)
  }

  /** A request on one case: committed, or rolled back by a raise or by the unique index. */
  function Asked(w: World, id: nat, event: Event): World {
    if id !in w.cases then w
    else
      var after := Apply(w.cases[id], event);
      if KeyClash(w.cases, id, after) then w
      else
        w.(cases := w.cases[id := after],
           hooks := if HasStatus(after, Processing) && !HasStatus(w.cases[id], Processing)
                    then w.hooks + multiset{id} else w.hooks)
  }

  /** The outcome transaction after the provider answered with `word` about payout `index`. */
  function RecordAnswer(c: Case, word: string, index: nat, now: int): Result<Case>
    requires c.settlement.Some?
  {
    match Interpret(word)
    case None => FailPayout(c, now)
    case Some(state) =>
      var noted := c.(settlement := Some(c.settlement.value.(reference := Some(ProviderRef(index)))));
      match state
      case Succeeded => Confirm(noted, now, Some(ProviderRef(index)))
      case Failed => FailPayout(noted, now)
      case InFlight => Ok(noted)
  }

  predicate Dispatchable(w: World, id: nat) {
    id in w.cases && HasStatus(w.cases[id], Processing) && KeyOf(w.cases[id]).Some?
  }

  function Registered(w: World, id: nat): seq<Payout>
    requires Dispatchable(w, id)
  {
    var s := w.cases[id].settlement.value;
    Register(w.ledger, s.key.value, id, s.netRefund)
  }

  function PayoutAt(w: World, id: nat): nat
    requires Dispatchable(w, id)
  {
    IndexOf(Registered(w, id), w.cases[id].settlement.value.key.value).value
  }

  /** One dispatch: skipped unless the settlement is being processed; otherwise the provider is asked
      under the settlement's key and its answer recorded in a transaction of its own. */
  function Dispatched(w: World, id: nat, now: int, reply: Reply): World {
    if !Dispatchable(w, id) then w
    else
      var c := w.cases[id];
      match reply
      case Unreachable(registered) =>
        if registered then w.(ledger := Registered(w, id)) else w
      case Refused =>
        w.(cases := w.cases[id := Committed(c, FailPayout(c, now))])
      case Answered(word, outcome, committed) =>
        var at := PayoutAt(w, id);
        var ledger := Registered(w, id)[at := Registered(w, id)[at].(state := outcome)];
        if committed then
          w.(ledger := ledger, cases := w.cases[id := Committed(c, RecordAnswer(c, word, at, now))])
        else
          w.(ledger := ledger)
  }

  /** A provider report finds its settlement by the payout reference; without one it is ignored. */
  function ReportArrives(w: World, id: nat, index: nat, success: bool, now: int): World {
    if id !in w.cases || w.cases[id].settlement.None?
       || w.cases[id].settlement.value.reference != Some(ProviderRef(index)) then w
    else
      var c := w.cases[id];
      if success then
        if HasStatus(c, Paid) then w
        else w.(cases := w.cases[id := Committed(c, Confirm(c, now, Some(ProviderRef(index))))])
      else
        w.(cases := w.cases[id := Committed(c, FailPayout(c, now))])
  }

  datatype Step =
    | Initiate(id: nat, deposit: nat, defaultKey: string)
    | Ask(id: nat, command: Command, role: Role, now: int)
    | RunHook(id: nat, now: int, reply: Reply)
    | LoseHook(id: nat)
    | Redrive(id: nat, now: int, reply: Reply)
    | Settles(index: nat, outcome: PayoutState)
    | Report(id: nat, index: nat, success: bool, now: int)

  function Next(w: World, step: Step): World {
    match step
    case Initiate(id, deposit, defaultKey) =>
      if id in w.cases then w else w.(cases := w.cases[id := NewCase(deposit, defaultKey)])
    case Ask(id, command, role, now) => Asked(w, id, Event.Requested(command, role, now))
    case RunHook(id, now, reply) => Dispatched(w.(hooks := w.hooks - multiset{id}), id, now, reply)
    case LoseHook(id) => w.(hooks := w.hooks - multiset{id})
    case Redrive(id, now, reply) => Dispatched(w, id, now, reply)
    case Settles(index, outcome) =>
      if index < |w.ledger| then w.(ledger := w.ledger[index := w.ledger[index].(state := outcome)]) else w
    case Report(id, index, success, now) => ReportArrives(w, id, index, success, now)
  }

  // ------------------------------------------------ what the provider may do

  /** A payout in flight succeeds or fails; one that succeeded may still be returned; a failure is final. */
  predicate MayTurn(before: PayoutState, after: PayoutState) {
    after == before || before.InFlight? || (before.Succeeded? && after.Failed?)
  }

  /** The provider's side of the contract: a known key is never refused, an answer tells the payout's
      state in the provider's words (or the original "in flight" answer again), reports are true. */
  predicate Honest(w: World, id: nat, reply: Reply, vocabulary: Vocabulary) {
    Dispatchable(w, id) ==>
      match reply
      case Unreachable(_) => true
      case Refused => IndexOf(w.ledger, w.cases[id].settlement.value.key.value).None?
      case Answered(word, outcome, _) =>
        && word in vocabulary
        && (vocabulary[word] == outcome || vocabulary[word].InFlight?)
        && MayTurn(Registered(w, id)[PayoutAt(w, id)].state, outcome)
  }

  predicate Possible(w: World, step: Step, vocabulary: Vocabulary) {
    match step
    case Initiate(_, _, _) => true
    case Ask(_, _, _, _) => true
    case RunHook(id, _, reply) => id in w.hooks && Honest(w, id, reply, vocabulary)
    case LoseHook(id) => id in w.hooks
    case Redrive(id, _, reply) => Honest(w, id, reply, vocabulary)
    case Settles(index, outcome) => index < |w.ledger| && MayTurn(w.ledger[index].state, outcome)
    case Report(_, index, success, _) =>
      index < |w.ledger| && w.ledger[index].state == if success then Succeeded else Failed
  }

  function After(steps: seq<Step>): World {
    if steps == [] then EMPTY else Next(After(steps[..|steps| - 1]), steps[|steps| - 1])
  }

  /** A run the environment can produce: every step is possible where it is taken. */
  predicate Feasible(steps: seq<Step>, vocabulary: Vocabulary) {
    steps == []
    || (Feasible(steps[..|steps| - 1], vocabulary)
        && Possible(After(steps[..|steps| - 1]), steps[|steps| - 1], vocabulary))
  }

  // ---------------------------------------------------------- safety

  /** The money the provider has moved for a case. */
  function Moved(ledger: seq<Payout>, id: nat): nat {
    if ledger == [] then 0
    else
      var last := ledger[|ledger| - 1];
      Moved(ledger[..|ledger| - 1], id) + if last.caseId == id && last.state.Succeeded? then last.amount else 0
  }

  predicate AtMostOne(ledger: seq<Payout>) {
    forall p, q :: 0 <= p < q < |ledger| ==> ledger[p].caseId != ledger[q].caseId
  }

  /** Every payout that has not failed is for exactly the refund its settlement shows. */
  predicate Shown(w: World) {
    forall p :: 0 <= p < |w.ledger| && !w.ledger[p].state.Failed? ==>
      && w.ledger[p].caseId in w.cases
      && w.cases[w.ledger[p].caseId].settlement.Some?
      && w.cases[w.ledger[p].caseId].settlement.value.netRefund == w.ledger[p].amount
  }

  /** For a settlement recorded as paid, exactly its refund has moved, and has not come back. */
  predicate StillMoved(w: World) {
    forall id :: id in w.cases && HasStatus(w.cases[id], Paid) ==>
      Moved(w.ledger, id) == w.cases[id].settlement.value.netRefund
  }

  predicate Exact(w: World) {
    Shown(w) && StillMoved(w)
  }

  /** The settlement is recorded as paid, with something to pay. */
  predicate PaysRefund(w: World, id: nat) {
    id in w.cases && HasStatus(w.cases[id], Paid) && w.cases[id].settlement.value.netRefund > 0
  }

  /** The step takes back a payout that had succeeded for a settlement recorded as paid. No answer can do
      so, since the dispatcher skips such a settlement. */
  predicate Returns(w: World, step: Step) {
    && step.Settles? && step.outcome.Failed?
    && step.index < |w.ledger| && w.ledger[step.index].state.Succeeded?
    && PaysRefund(w, w.ledger[step.index].caseId)
  }

  /** Some step of the run did. */
  predicate Returned(steps: seq<Step>) {
    exists k :: 0 <= k < |steps| && Returns(After(steps[..k]), steps[k])
  }
}
