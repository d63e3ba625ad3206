/** The sweep that redrives stuck payouts: it takes at most fifty at a time, in no stated order. */
module PayoutSweep {
  import opened Outcomes
  import opened ExitStates
  import opened ExitCase
  import opened ExitInvariants
  import opened PayoutProtocol
  import opened PayoutSafety
  import opened PayoutLimits
  import opened ExitChoices

  const SWEEP_LIMIT: nat := 50

  /** The settlements under payment among those whose payment began long enough ago. */
  function Stuck(w: World, late: set<nat>): set<nat> {
    set id | id in late && id in w.cases && HasStatus(w.cases[id], Processing)
  }

  predicate Distinct(ids: seq<nat>) {
    forall i, j :: 0 <= i < j < |ids| ==> ids[i] != ids[j]
  }

  /** What the query may return: as many stuck settlements as there are, but at most the limit. */
  predicate MayPick(stuck: set<nat>, picked: seq<nat>) {
    && Distinct(picked) && (forall i :: 0 <= i < |picked| ==> picked[i] in stuck)
    && |picked| == if |stuck| <= SWEEP_LIMIT then |stuck| else SWEEP_LIMIT
  }

  /** The run followed by a sweep, which dispatches them one after another, each in a transaction of its own. */
  function Sweep(steps: seq<Step>, picked: seq<nat>, now: int, replies: nat -> Reply): seq<Step> {
    if picked == [] then steps
    else
      var last := |picked| - 1;
      Sweep(steps, picked[..last], now, replies) + [Redrive(picked[last], now, replies(picked[last]))]
  }

  // ------------------------------------------------------- who is reached

  lemma {:induction false} DistinctIsAll(stuck: set<nat>, picked: seq<nat>)
    requires Distinct(picked) && |picked| == |stuck| && forall i :: 0 <= i < |picked| ==> picked[i] in stuck
    ensures forall id :: id in stuck ==> id in picked
  {
    if picked != [] {
      var last := picked[|picked| - 1];
      DistinctIsAll(stuck - {last}, picked[..|picked| - 1]);
      assert forall id :: id in stuck ==> id == last || id in stuck - {last};
    }
  }

  lemma {:induction false} PickFrom(stuck: set<nat>, n: nat) returns (picked: seq<nat>)
    requires n <= |stuck|
    ensures |picked| == n && Distinct(picked) && forall i :: 0 <= i < n ==> picked[i] in stuck
  {
    if n == 0 {
      picked := [];
    } else {
      var id :| id in stuck;
      picked := PickFrom(stuck - {id}, n - 1);
      picked := picked + [id];
    }
  }

  lemma PickWithout(stuck: set<nat>, id: nat) returns (picked: seq<nat>)
    requires |stuck| > SWEEP_LIMIT && id in stuck
    ensures MayPick(stuck, picked) && id !in picked
  {
    picked := PickFrom(stuck - {id}, SWEEP_LIMIT);
  }

  /** A sweep is sure to reach a stuck settlement exactly when at most fifty are stuck. */
  lemma SweepReachesIff(stuck: set<nat>, id: nat)
    requires id in stuck
    ensures (forall picked: seq<nat> :: MayPick(stuck, picked) ==> id in picked) <==> |stuck| <= SWEEP_LIMIT
  {
    if |stuck| <= SWEEP_LIMIT {
      forall picked: seq<nat> | MayPick(stuck, picked)
        ensures id in picked
      {
        DistinctIsAll(stuck, picked);
      }
    } else {
      var picked := PickWithout(stuck, id);
    }
  }

  // ------------------------------------------------------------- recovery

  predicate ProcessedIn(w: World, id: nat) {
    id in w.cases && HasStatus(w.cases[id], Processing)
  }

  predicate PaidIn(w: World, id: nat) {
    id in w.cases && HasStatus(w.cases[id], Paid)
  }

  lemma AfterRedrive(steps: seq<Step>, id: nat, now: int, reply: Reply)
    ensures After(steps + [Redrive(id, now, reply)]) == Dispatched(After(steps), id, now, reply)
  {
    assert (steps + [Redrive(id, now, reply)])[..|steps|] == steps;
  }

  lemma OtherRedriven(steps: seq<Step>, other: nat, now: int, reply: Reply, id: nat)
    requires ProcessedIn(After(steps), id) && other != id
    ensures ProcessedIn(After(steps + [Redrive(other, now, reply)]), id)
  {
    AfterRedrive(steps, other, now, reply);
  }

  lemma SuccessPays(steps: seq<Step>, id: nat, now: int, word: string)
    requires ProcessedIn(After(steps), id) && Interpret(word) == Some(Succeeded)
    ensures PaidIn(After(steps + [Redrive(id, now, Answered(word, Succeeded, true))]), id)
  {
    AtMostOnePayout(steps);
    AfterRedrive(steps, id, now, Answered(word, Succeeded, true));
    SuccessCompletes(After(steps), id, now, word);
  }

  lemma PaidRedriven(steps: seq<Step>, other: nat, now: int, reply: Reply, id: nat)
    requires PaidIn(After(steps), id)
    ensures PaidIn(After(steps + [Redrive(other, now, reply)]), id)
  {
    AfterRedrive(steps, other, now, reply);
    DispatchKeepsPaid(After(steps), other, now, reply, id);
  }

  /** Sweeping others leaves a settlement under payment. */
  lemma {:induction false} OthersSwept(steps: seq<Step>, picked: seq<nat>, now: int, replies: nat -> Reply, id: nat)
    requires ProcessedIn(After(steps), id) && id !in picked
    ensures ProcessedIn(After(Sweep(steps, picked, now, replies)), id)
  {
    if picked != [] {
      var last := |picked| - 1;
      OthersSwept(steps, picked[..last], now, replies, id);
      OtherRedriven(Sweep(steps, picked[..last], now, replies), picked[last], now, replies(picked[last]), id);
    }
  }

  /** However the other dispatches of a sweep end, a settlement it reaches and for which the provider answers
      with a success is recorded as paid. */
  lemma {:induction false} SweepPays(steps: seq<Step>, picked: seq<nat>, now: int, replies: nat -> Reply, id: nat,
                                     word: string)
    requires ProcessedIn(After(steps), id) && Distinct(picked) && id in picked
    requires replies(id) == Answered(word, Succeeded, true) && Interpret(word) == Some(Succeeded)
    ensures PaidIn(After(Sweep(steps, picked, now, replies)), id)
  {
    var last := |picked| - 1;
    if picked[last] == id {
      OthersSwept(steps, picked[..last], now, replies, id);
      SuccessPays(Sweep(steps, picked[..last], now, replies), id, now, word);
    } else {
      SweepPays(steps, picked[..last], now, replies, id, word);
      PaidRedriven(Sweep(steps, picked[..last], now, replies), picked[last], now, replies(picked[last]), id);
    }
  }

  /** With at most fifty stuck, one sweep pays every settlement whose payout the provider reports a success
      of, whatever it answers about the others. */
  lemma SweepRecovers(steps: seq<Step>, late: set<nat>, picked: seq<nat>, now: int, replies: nat -> Reply,
                      id: nat, word: string)
    requires MayPick(Stuck(After(steps), late), picked) && |Stuck(After(steps), late)| <= SWEEP_LIMIT
    requires id in Stuck(After(steps), late)
    requires replies(id) == Answered(word, Succeeded, true) && Interpret(word) == Some(Succeeded)
    ensures PaidIn(After(Sweep(steps, picked, now, replies)), id)
  {
    SweepReachesIff(Stuck(After(steps), late), id);
    SweepPays(steps, picked, now, replies, id, word);
  }

  // ----------------------------------------------------------- starvation

  const UNREACHABLE: nat -> Reply := _ => Unreachable(false)

  /** The run followed by `n` sweeps that pick the same settlements and never reach the provider. */
  function Unreached(steps: seq<Step>, picked: seq<nat>, n: nat): seq<Step> {
    if n == 0 then steps else Sweep(Unreached(steps, picked, n - 1), picked, n, UNREACHABLE)
  }

  lemma UnreachableNext(w: World, id: nat, now: int, vocabulary: Vocabulary)
    ensures Possible(w, Redrive(id, now, Unreachable(false)), vocabulary)
    ensures Next(w, Redrive(id, now, Unreachable(false))) == w
  {
  }

  /** `longer` is a feasible run that ends where `steps` does. */
  predicate Idles(steps: seq<Step>, longer: seq<Step>, vocabulary: Vocabulary) {
    Feasible(longer, vocabulary) && After(longer) == After(steps)
  }

  lemma IdleStep(steps: seq<Step>, longer: seq<Step>, id: nat, now: int, vocabulary: Vocabulary)
    requires Idles(steps, longer, vocabulary)
    ensures Idles(steps, longer + [Redrive(id, now, Unreachable(false))], vocabulary)
  {
    UnreachableNext(After(longer), id, now, vocabulary);
    Extend(longer, Redrive(id, now, Unreachable(false)), vocabulary);
  }

  lemma {:induction false} IdleSweep(steps: seq<Step>, longer: seq<Step>, picked: seq<nat>, now: int,
                                     vocabulary: Vocabulary)
    requires Idles(steps, longer, vocabulary)
    ensures Idles(steps, Sweep(longer, picked, now, UNREACHABLE), vocabulary)
  {
    if picked != [] {
      var last := |picked| - 1;
      IdleSweep(steps, longer, picked[..last], now, vocabulary);
      IdleStep(steps, Sweep(longer, picked[..last], now, UNREACHABLE), picked[last], now, vocabulary);
    }
  }

  /** Those sweeps change nothing. */
  lemma {:induction false} UnreachedIdles(steps: seq<Step>, picked: seq<nat>, n: nat, vocabulary: Vocabulary)
    requires Feasible(steps, vocabulary)
    ensures Idles(steps, Unreached(steps, picked, n), vocabulary)
  {
    if n > 0 {
      UnreachedIdles(steps, picked, n - 1, vocabulary);
      IdleSweep(steps, Unreached(steps, picked, n - 1), picked, n, vocabulary);
    }
  }

  /** With more than fifty stuck, any one of them may be starved for ever: fifty others whose provider cannot
      be reached may be picked by every sweep, however many there are. */
  lemma SweepStarves(steps: seq<Step>, late: set<nat>, id: nat, vocabulary: Vocabulary) returns (picked: seq<nat>)
    requires Feasible(steps, vocabulary)
    requires id in Stuck(After(steps), late) && |Stuck(After(steps), late)| > SWEEP_LIMIT
    ensures id !in picked
    ensures forall n: nat ::
      && Idles(steps, Unreached(steps, picked, n), vocabulary)
      && MayPick(Stuck(After(Unreached(steps, picked, n)), late), picked)
  {
    picked := PickWithout(Stuck(After(steps), late), id);
    forall n: nat
      ensures Idles(steps, Unreached(steps, picked, n), vocabulary)
      ensures MayPick(Stuck(After(Unreached(steps, picked, n)), late), picked)
    {
      UnreachedIdles(steps, picked, n, vocabulary);
    }
  }

  // -------------------------------------------- a run with many payments

  /** The provider key of a settlement is its default one, once it has one. */
  predicate OwnKey(c: Case, key: string) {
    c.defaultKey == key && (KeyOf(c).None? || KeyOf(c) == Some(key))
  }

  /** Requests that name no other key leave a settlement without one or with its own. */
  lemma KeylessOwn(c: Case, event: Event, key: string)
    requires Figures(c) && OwnKey(c, key) && Keyless(event)
    ensures OwnKey(Apply(c, event), key)
  {
    ChoicesStep(c, event);
    if event.command.DoPay? && Attempt(c, event).Ok? {
      PaymentBinds(c, event.role, event.now, event.command.payoutMethod, event.command.requestedKey);
    }
  }

  /** A feasible run with nothing at the provider yet, whose cases are `others` and, under `id`, `c`. */
  predicate Beside(steps: seq<Step>, vocabulary: Vocabulary, others: map<nat, Case>, id: nat, c: Case) {
    && Feasible(steps, vocabulary) && id !in others
    && After(steps).cases == others[id := c] && After(steps).ledger == []
  }

  predicate NoneHas(others: map<nat, Case>, key: string) {
    forall other :: other in others ==> KeyOf(others[other]) != Some(key)
  }

  lemma AskBeside(steps: seq<Step>, vocabulary: Vocabulary, others: map<nat, Case>, id: nat, c: Case, event: Event,
                  key: string)
    requires Beside(steps, vocabulary, others, id, c) && NoneHas(others, key) && OwnKey(Apply(c, event), key)
    requires event.Requested?
    ensures Beside(steps + [Ask(id, event.command, event.role, event.now)], vocabulary, others, id, Apply(c, event))
  {
    var after := Apply(c, event);
    assert !KeyClash(After(steps).cases, id, after);
    Extend(steps, Ask(id, event.command, event.role, event.now), vocabulary);
    assert others[id := c][id := after] == others[id := after];
  }

  lemma {:induction false} ScriptBeside(steps: seq<Step>, vocabulary: Vocabulary, others: map<nat, Case>, id: nat,
                                        deposit: nat, key: string, script: seq<Event>)
    returns (longer: seq<Step>)
    requires Beside(steps, vocabulary, others, id, NewCase(deposit, key)) && NoneHas(others, key)
    requires forall i :: 0 <= i < |script| ==> Keyless(script[i])
    ensures Beside(longer, vocabulary, others, id, Run(NewCase(deposit, key), script))
    ensures OwnKey(Run(NewCase(deposit, key), script), key)
  {
    if script == [] {
      longer := steps;
    } else {
      var last, event := |script| - 1, script[|script| - 1];
      longer := ScriptBeside(steps, vocabulary, others, id, deposit, key, script[..last]);
      var before := Run(NewCase(deposit, key), script[..last]);
      RunKeeps(deposit, key, script[..last]);
      KeylessOwn(before, event, key);
      AskBeside(longer, vocabulary, others, id, before, event, key);
      longer := longer + [Ask(id, event.command, event.role, event.now)];
    }
  }

  function Name(n: nat): (name: string)
    ensures |name| == n
  {
    seq(n, _ => 'k')
  }

  function Below(n: nat): (ids: set<nat>)
    ensures |ids| == n && forall id: nat :: id in ids <==> id < n
  {
    if n == 0 then {} else Below(n - 1) + {n - 1}
  }

  /** Cases 0 to n - 1, each under payment. */
  predicate Crowd(cases: map<nat, Case>, n: nat) {
    && cases.Keys == Below(n)
    && (forall id :: id in cases ==> HasStatus(cases[id], Processing) && KeyOf(cases[id]) == Some(Name(id)))
  }

  lemma JoinCrowd(others: map<nat, Case>, n: nat, c: Case)
    requires Crowd(others, n) && HasStatus(c, Processing) && KeyOf(c) == Some(Name(n))
    ensures Crowd(others[n := c], n + 1)
  {
  }

  lemma OpenBeside(steps: seq<Step>, vocabulary: Vocabulary, n: nat)
    requires Feasible(steps, vocabulary) && Crowd(After(steps).cases, n) && After(steps).ledger == []
    ensures Beside(steps + [Initiate(n, 2, Name(n))], vocabulary, After(steps).cases, n, NewCase(2, Name(n)))
    ensures NoneHas(After(steps).cases, Name(n))
  {
    Extend(steps, Initiate(n, 2, Name(n)), vocabulary);
    forall other | other in After(steps).cases
      ensures KeyOf(After(steps).cases[other]) != Some(Name(n))
    {
      assert |Name(other)| != |Name(n)|;
    }
  }

  /** Any number of payments can be under way at once. */
  lemma {:induction false} ReachCrowd(n: nat, vocabulary: Vocabulary) returns (steps: seq<Step>)
    ensures Feasible(steps, vocabulary) && Crowd(After(steps).cases, n) && After(steps).ledger == []
  {
    if n == 0 {
      steps := [];
    } else {
      var front := ReachCrowd(n - 1, vocabulary);
      var others, key := After(front).cases, Name(n - 1);
      NewCaseInv(2, key);
      var script, c := OpeningScript(NewCase(2, key));
      OpenBeside(front, vocabulary, n - 1);
      steps := ScriptBeside(front + [Initiate(n - 1, 2, key)], vocabulary, others, n - 1, 2, key, script);
      JoinCrowd(others, n - 1, c);
    }
  }

  lemma CrowdStuck(w: World, n: nat)
    requires Crowd(w.cases, n)
    ensures Stuck(w, Below(n)) == Below(n)
  {
  }

  /** A run with fifty-one stuck payments, one of which no sweep ever reaches. */
  lemma StarvationReached(vocabulary: Vocabulary) returns (steps: seq<Step>, id: nat, picked: seq<nat>)
    ensures id in Stuck(After(steps), Below(SWEEP_LIMIT + 1)) && id !in picked
    ensures forall n: nat ::
      && Idles(steps, Unreached(steps, picked, n), vocabulary)
      && MayPick(Stuck(After(Unreached(steps, picked, n)), Below(SWEEP_LIMIT + 1)), picked)
  {
    steps := ReachCrowd(SWEEP_LIMIT + 1, vocabulary);
    id := 0;
    CrowdStuck(After(steps), SWEEP_LIMIT + 1);
    picked := SweepStarves(steps, Below(SWEEP_LIMIT + 1), id, vocabulary);
  }
}
