/** The imperative side of the payout protocol: the post-commit hook queue, the in-process gateway and
    the dispatcher, each proved against the protocol's value-level steps. */
module PayoutServices {
  import opened Outcomes
  import opened ExitStates
  import opened ExitCase
  import opened ExitInvariants
  import opened ExitServices
  import opened PayoutProtocol

  // ------------------------------------------------------ unit of work

  /** What callers do with a unit of work. */
  datatype Call = Queue(effect: nat) | Commit | Rollback

  /** The effects a history of calls has run, and those still waiting. */
  function EffectsOf(calls: seq<Call>): (seq<nat>, seq<nat>) {
    if calls == [] then ([], [])
    else
      var (ran, waiting) := EffectsOf(calls[..|calls| - 1]);
      match calls[|calls| - 1]
      case Queue(effect) => (ran, waiting + [effect])
      case Commit => (ran + waiting, [])
      case Rollback => (ran, [])
  }

  /** Every call strictly between `i` and `j` queues. */
  predicate OnlyQueues(calls: seq<Call>, i: int, j: int)
    requires 0 <= i && j <= |calls|
  {
    forall k :: i < k < j ==> calls[k].Queue?
  }

  /** `effect` was queued at `i`, and the first commit or rollback after it is the commit at `j`. */
  predicate CommittedAt(calls: seq<Call>, effect: nat, i: int, j: int) {
    0 <= i < j < |calls| && calls[i] == Queue(effect) && calls[j].Commit? && OnlyQueues(calls, i, j)
  }

  /** `effect` was queued at `i` and its transaction is still open. */
  predicate OpenAt(calls: seq<Call>, effect: nat, i: int) {
    0 <= i < |calls| && calls[i] == Queue(effect) && OnlyQueues(calls, i, |calls|)
  }

  ghost predicate QueuedAndCommitted(calls: seq<Call>, effect: nat) {
    exists i, j :: CommittedAt(calls, effect, i, j)
  }

  ghost predicate QueuedAndOpen(calls: seq<Call>, effect: nat) {
    exists i :: OpenAt(calls, effect, i)
  }

  lemma OpenStep(calls: seq<Call>, call: Call, effect: nat)
    ensures QueuedAndOpen(calls + [call], effect)
            <==> call.Queue? && (call.effect == effect || QueuedAndOpen(calls, effect))
  {
    var longer := calls + [call];
    if call.Queue? {
      if call.effect == effect {
        assert OpenAt(longer, effect, |calls|);
      }
      if QueuedAndOpen(calls, effect) {
        var i :| OpenAt(calls, effect, i);
        assert OpenAt(longer, effect, i);
      }
    }
    if QueuedAndOpen(longer, effect) {
      var i :| OpenAt(longer, effect, i);
      assert longer[|calls|] == call;
      if i < |calls| {
        assert forall k :: i < k < |calls| ==> longer[k] == calls[k];
        assert OpenAt(calls, effect, i);
      }
    }
  }

  lemma CommittedStep(calls: seq<Call>, call: Call, effect: nat)
    ensures QueuedAndCommitted(calls + [call], effect)
            <==> QueuedAndCommitted(calls, effect) || (call.Commit? && QueuedAndOpen(calls, effect))
  {
    var longer := calls + [call];
    if QueuedAndCommitted(calls, effect) {
      var i, j :| CommittedAt(calls, effect, i, j);
      assert CommittedAt(longer, effect, i, j);
    }
    if call.Commit? && QueuedAndOpen(calls, effect) {
      var i :| OpenAt(calls, effect, i);
      assert CommittedAt(longer, effect, i, |calls|);
    }
    if QueuedAndCommitted(longer, effect) {
      var i, j :| CommittedAt(longer, effect, i, j);
      assert forall k :: 0 <= k < |calls| ==> longer[k] == calls[k];
      if j < |calls| {
        assert CommittedAt(calls, effect, i, j);
      } else {
        assert OpenAt(calls, effect, i);
      }
    }
  }

  /** An effect runs exactly if it was queued in a transaction that then committed; one queued before a
      rollback never runs. */
  lemma {:induction false} RanMeansCommitted(calls: seq<Call>, effect: nat)
    ensures effect in EffectsOf(calls).0 <==> QueuedAndCommitted(calls, effect)
    ensures effect in EffectsOf(calls).1 <==> QueuedAndOpen(calls, effect)
  {
    if calls != [] {
      var shorter, call := calls[..|calls| - 1], calls[|calls| - 1];
      RanMeansCommitted(shorter, effect);
      assert calls == shorter + [call];
      OpenStep(shorter, call, effect);
      CommittedStep(shorter, call, effect);
    }
  }

  predicate Increasing(at: seq<nat>) {
    forall i, j :: 0 <= i < j < |at| ==> at[i] < at[j]
  }

  /** Which queue calls the effects of a history come from: those run, then those waiting. */
  predicate From(calls: seq<Call>, effects: seq<nat>, at: seq<nat>) {
    && |at| == |effects| && Increasing(at)
    && forall k :: 0 <= k < |at| ==> at[k] < |calls| && calls[at[k]] == Queue(effects[k])
  }

  /** Effects run in the order they were queued, each queue call's at most once, and those that wait were all
      queued later than those that ran. */
  lemma {:induction false} RunInOrder(calls: seq<Call>) returns (at: seq<nat>)
    ensures From(calls, EffectsOf(calls).0 + EffectsOf(calls).1, at)
  {
    if calls == [] {
      at := [];
    } else {
      var front, last := calls[..|calls| - 1], calls[|calls| - 1];
      at := RunInOrder(front);
      var (ran, waiting) := EffectsOf(front);
      match last
      case Queue(effect) =>
        assert ran + (waiting + [effect]) == (ran + waiting) + [effect];
        at := at + [|front|];
      case Commit => assert (ran + waiting) + [] == ran + waiting;
      case Rollback =>
        assert ran + [] == (ran + waiting)[..|ran|];
        at := at[..|ran|];
    }
  }

  class UnitOfWork {
    var afterCommit: seq<nat>
    var ran: seq<nat>
    ghost var calls: seq<Call>

    ghost predicate Valid()
      reads this
    {
      EffectsOf(calls) == (ran, afterCommit)
    }

    constructor ()
      ensures Valid() && calls == []
    {
      afterCommit, ran, calls := [], [], [];
    }

    method AfterCommit(effect: nat)
      requires Valid()
      modifies this
      ensures Valid() && calls == old(calls) + [Queue(effect)]
    {
      afterCommit := afterCommit + [effect];
      calls := calls + [Queue(effect)];
      assert calls[..|calls| - 1] == old(calls);
    }

    method DoCommit()
      requires Valid()
      modifies this
      ensures Valid() && calls == old(calls) + [Commit]
    {
      var effects := afterCommit;
      afterCommit := [];
      var before := ran;
      for k := 0 to |effects|
        invariant ran == before + effects[..k] && afterCommit == [] && calls == old(calls)
      {
        ran := ran + [effects[k]];    // a raising effect is logged; the loop goes on
      }
      calls := calls + [Commit];
      assert effects[..|effects|] == effects && calls[..|calls| - 1] == old(calls);
    }

    method DoRollback()
      requires Valid()
      modifies this
      ensures Valid() && calls == old(calls) + [Rollback]
    {
      afterCommit := [];
      calls := calls + [Rollback];
      assert calls[..|calls| - 1] == old(calls);
    }
  }

  // ----------------------------------------------------------- gateway

  /** The in-process gateway: accepts every payout as in flight and answers a known key with the
      original payout. It realises the registration the protocol assumes of every provider. */
  class NullPaymentGateway {
    var requests: seq<Payout>
    var byKey: map<string, nat>

    ghost predicate Valid()
      reads this
    {
      && (forall key :: key in byKey ==> byKey[key] < |requests| && requests[byKey[key]].key == key)
      && (forall p :: 0 <= p < |requests| ==> requests[p].key in byKey && byKey[requests[p].key] == p)
    }

    constructor ()
      ensures Valid() && requests == []
    {
      requests, byKey := [], map[];
    }

    method InitiatePayout(key: string, caseId: nat, amount: int) returns (r: Result<nat>)
      requires Valid()
      modifies this
      ensures Valid()
      ensures r.Err? <==> amount < 0 && IndexOf(old(requests), key).None?
      ensures if r.Err? then requests == old(requests)
              else requests == Register(old(requests), key, caseId, if amount < 0 then 0 else amount)
                   && IndexOf(requests, key) == Some(r.value)
    {
      if key in byKey {
        assert IndexOf(requests, key).Some?;
        return Ok(byKey[key]);
      }
      if amount < 0 {
        return Err(Invalid);
      }
      requests := requests + [Payout(key, caseId, amount, InFlight)];
      byKey := byKey[key := |requests| - 1];
      return Ok(|requests| - 1);
    }
  }

  // -------------------------------------------------------- dispatcher

  /** How the gateway call ended, as the dispatcher sees it. */
  datatype GatewayCall = Unreached | Declined | Replied(word: string, index: nat)

  /** The case after the dispatcher's own transaction. */
  function AfterDispatch(c: Case, now: int, call: GatewayCall): Case {
    if !HasStatus(c, Processing) then c
    else
      match call
      case Unreached => c
      case Declined => Committed(c, FailPayout(c, now))
      case Replied(word, index) => Committed(c, RecordAnswer(c, word, index, now))
  }

  /** A committed dispatch step of the protocol leaves its case as the dispatcher does. */
  lemma DispatchStepMatches(w: World, id: nat, now: int, reply: Reply)
    requires Dispatchable(w, id) && (reply.Answered? ==> reply.committed)
    ensures var call := match reply
              case Unreachable(_) => Unreached
              case Refused => Declined
              case Answered(word, _, _) => Replied(word, PayoutAt(w, id));
      Dispatched(w, id, now, reply).cases == w.cases[id := AfterDispatch(w.cases[id], now, call)]
  {
    assert w.cases[id := w.cases[id]] == w.cases;
  }

  method DispatchPayout(record: ExitRecord, now: int, call: GatewayCall)
    modifies record
    ensures record.View() == AfterDispatch(old(record.View()), now, call)
  {
    if record.settlement.None? || !record.settlement.value.status.Processing? {
      return;
    }
    var before := record.View();
    var outcome: Result<()> := Ok(());
    match call {
      case Unreached =>
        return;
      case Declined =>
        outcome := record.FailSettlement(now);
      case Replied(word, index) =>
        var state := Interpret(word);
        if state.None? {
          outcome := record.FailSettlement(now);
        } else {
          record.settlement := Some(record.settlement.value.(reference := Some(ProviderRef(index))));
          if state == Some(Succeeded) {
            outcome := record.ConfirmSettlement(now, Some(ProviderRef(index)));
          } else if state == Some(Failed) {
            outcome := record.FailSettlement(now);
          }
        }
    }
    if outcome.Err? {
      record.Restore(before);
    }
  }
}
