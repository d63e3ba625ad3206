/** When "drain all" drains everything: it stops with the first batch that publishes less than it holds. */
module RelayDrainAll {
  import opened Relay

  // ------------------------------------------------------------ backlog

  /** The deliverable rows, in order. */
  function Backlog(rows: seq<Row>): seq<nat> {
    if rows == [] then []
    else
      var last := |rows| - 1;
      Backlog(rows[..last]) + if rows[last].Deliverable() then [last] else []
  }

  predicate Lists(ids: seq<nat>, rows: seq<Row>) {
    && Increasing(ids)
    && (forall i :: 0 <= i < |ids| ==> ids[i] < |rows| && rows[ids[i]].Deliverable())
    && (forall id :: 0 <= id < |rows| && rows[id].Deliverable() ==> id in ids)
  }

  lemma ListsGrow(front: seq<nat>, rows: seq<Row>, row: Row)
    requires Lists(front, rows)
    ensures Lists(front + if row.Deliverable() then [|rows|] else [], rows + [row])
  {
    var ids := front + if row.Deliverable() then [|rows|] else [];
    forall id | 0 <= id <= |rows| && (rows + [row])[id].Deliverable()
      ensures id in ids
    {
      if id < |rows| {
        assert rows[id].Deliverable();
      }
    }
  }

  lemma {:induction false} BacklogLists(rows: seq<Row>)
    ensures Lists(Backlog(rows), rows)
  {
    if rows != [] {
      var front, row := rows[..|rows| - 1], rows[|rows| - 1];
      BacklogLists(front);
      ListsGrow(Backlog(front), front, row);
      assert rows == front + [row];
    }
  }

  /** With nothing locked a batch is the front of the backlog. */
  lemma {:induction false} BatchIsFront(rows: seq<Row>, limit: nat)
    ensures Selected(rows, {}, limit)
            == if |Backlog(rows)| <= limit then Backlog(rows) else Backlog(rows)[..limit]
  {
    if rows != [] {
      BatchIsFront(rows[..|rows| - 1], limit);
    }
  }

  lemma {:induction false} IncreasingUnique(a: seq<nat>, b: seq<nat>)
    requires Increasing(a) && Increasing(b) && forall id :: id in a <==> id in b
    ensures a == b
  {
    if a == [] {
      assert forall i :: 0 <= i < |b| ==> b[i] in b;
    } else {
      assert a[|a| - 1] in a;
      assert forall id :: id in b ==> id <= a[|a| - 1];
      LastIs(b, a[|a| - 1]);
      FrontMembers(a);
      FrontMembers(b);
      var front, other := a[..|a| - 1], b[..|b| - 1];
      forall id: nat
        ensures id in front <==> id in other
      {
        assert id in a <==> id in b;
      }
      IncreasingUnique(front, other);
    }
  }

  lemma Partitioned(ids: seq<nat>, k: nat)
    requires Increasing(ids) && k <= |ids|
    ensures Increasing(ids[k..])
    ensures forall id :: id in ids[k..] <==> id in ids && id !in ids[..k]
  {
  }

  /** After a batch that succeeds throughout, the backlog is what came behind it. */
  lemma BacklogAfter(rows: seq<Row>, k: nat, answer: nat -> bool)
    requires k <= |Backlog(rows)| && AllAnswered(Backlog(rows)[..k], answer)
    ensures Backlog(Drained(rows, Backlog(rows)[..k], answer)) == Backlog(rows)[k..]
  {
    var backlog := Backlog(rows);
    var drained := Drained(rows, backlog[..k], answer);
    BacklogLists(rows);
    BacklogLists(drained);
    Partitioned(backlog, k);
    forall id
      ensures id in Backlog(drained) <==> id in backlog[k..]
    {
    }
    IncreasingUnique(Backlog(drained), backlog[k..]);
  }

  lemma EmptyBacklogIff(rows: seq<Row>)
    ensures Backlog(rows) == [] <==> forall id :: 0 <= id < |rows| ==> !rows[id].Deliverable()
  {
    BacklogLists(rows);
    if Backlog(rows) != [] {
      assert rows[Backlog(rows)[0]].Deliverable();
    }
  }

  // ------------------------------------------------------------ batches

  /** The number of the batch that holds position `i`, and where that batch ends. */
  function BatchOf(i: nat, limit: nat): nat
    requires limit > 0
  {
    if i < limit then 0 else 1 + BatchOf(i - limit, limit)
  }

  function BatchEnd(i: nat, limit: nat): (end: nat)
    requires limit > 0
    ensures end >= limit
  {
    if i < limit then limit else limit + BatchEnd(i - limit, limit)
  }

  /** They are the quotient by the batch size and the next multiple of it. */
  lemma {:induction false} BatchIsQuotient(i: nat, limit: nat)
    requires limit > 0
    ensures BatchOf(i, limit) * limit <= i < BatchEnd(i, limit) == BatchOf(i, limit) * limit + limit
  {
    if i >= limit {
      BatchIsQuotient(i - limit, limit);
      assert BatchOf(i, limit) * limit == BatchOf(i - limit, limit) * limit + limit;
    }
  }

  /** Nothing is locked at any time. */
  ghost predicate Unlocked(locks: nat -> set<nat>) {
    forall round :: locks(round) == {}
  }

  /** The delivery of every position that is followed by another batch succeeds in its batch's round. */
  predicate Unbroken(backlog: seq<nat>, limit: nat, round: nat, answers: nat -> nat -> bool)
    requires limit > 0
  {
    forall i :: 0 <= i < |backlog| && BatchEnd(i, limit) < |backlog| ==> answers(round + BatchOf(i, limit))(backlog[i])
  }

  predicate AllAnswered(ids: seq<nat>, answer: nat -> bool) {
    forall i :: 0 <= i < |ids| ==> answer(ids[i])
  }

  /** A backlog of several batches is unbroken when its first batch succeeds and the rest is. */
  lemma UnbrokenSplit(backlog: seq<nat>, limit: nat, round: nat, answers: nat -> nat -> bool)
    requires limit > 0 && |backlog| > limit
    ensures Unbroken(backlog, limit, round, answers)
       <==> AllAnswered(backlog[..limit], answers(round)) && Unbroken(backlog[limit..], limit, round + 1, answers)
  {
    if Unbroken(backlog, limit, round, answers) {
      UnbrokenFirst(backlog, limit, round, answers);
      UnbrokenRest(backlog, limit, round, answers);
    }
    if AllAnswered(backlog[..limit], answers(round)) && Unbroken(backlog[limit..], limit, round + 1, answers) {
      UnbrokenJoin(backlog, limit, round, answers);
    }
  }

  lemma UnbrokenJoin(backlog: seq<nat>, limit: nat, round: nat, answers: nat -> nat -> bool)
    requires limit > 0 && |backlog| > limit
    requires AllAnswered(backlog[..limit], answers(round)) && Unbroken(backlog[limit..], limit, round + 1, answers)
    ensures Unbroken(backlog, limit, round, answers)
  {
    var rest := backlog[limit..];
    forall i | 0 <= i < |backlog| && BatchEnd(i, limit) < |backlog|
      ensures answers(round + BatchOf(i, limit))(backlog[i])
    {
      if i < limit {
        assert backlog[..limit][i] == backlog[i];
      } else {
        var k: nat := i - limit;
        assert BatchEnd(i, limit) == limit + BatchEnd(k, limit) && BatchOf(i, limit) == 1 + BatchOf(k, limit);
        assert answers(round + 1 + BatchOf(k, limit))(rest[k]);
      }
    }
  }

  lemma UnbrokenFirst(backlog: seq<nat>, limit: nat, round: nat, answers: nat -> nat -> bool)
    requires limit > 0 && |backlog| > limit && Unbroken(backlog, limit, round, answers)
    ensures AllAnswered(backlog[..limit], answers(round))
  {
    forall i | 0 <= i < limit
      ensures answers(round)(backlog[..limit][i])
    {
      assert BatchEnd(i, limit) == limit && BatchOf(i, limit) == 0;
      assert answers(round + 0)(backlog[i]);
    }
  }

  lemma UnbrokenRest(backlog: seq<nat>, limit: nat, round: nat, answers: nat -> nat -> bool)
    requires limit > 0 && |backlog| > limit && Unbroken(backlog, limit, round, answers)
    ensures Unbroken(backlog[limit..], limit, round + 1, answers)
  {
    var rest := backlog[limit..];
    forall i | 0 <= i < |rest| && BatchEnd(i, limit) < |rest|
      ensures answers(round + 1 + BatchOf(i, limit))(rest[i])
    {
      assert BatchEnd(limit + i, limit) == limit + BatchEnd(i, limit);
      assert BatchOf(limit + i, limit) == 1 + BatchOf(i, limit);
      assert rest[i] == backlog[limit + i];
    }
  }

  /** `batches` batches hold `n` rows. */
  predicate Enough(batches: nat, limit: nat, n: nat) {
    n == 0 || (batches > 0 && Enough(batches - 1, limit, if n <= limit then 0 else n - limit))
  }

  lemma {:induction false} EnoughIff(batches: nat, limit: nat, n: nat)
    requires limit > 0
    ensures Enough(batches, limit, n) <==> batches * limit >= n
  {
    if n > 0 && batches > 0 {
      EnoughIff(batches - 1, limit, if n <= limit then 0 else n - limit);
      assert batches * limit == (batches - 1) * limit + limit;
    }
  }

  // ------------------------------------------------------------- drains

  /** What was not deliverable is as it was. */
  predicate KeepsRest(rows: seq<Row>, after: seq<Row>) {
    |after| == |rows| && forall id :: 0 <= id < |rows| && !rows[id].Deliverable() ==> after[id] == rows[id]
  }

  lemma {:induction false} UndeliverableKept(rows: seq<Row>, limit: nat, batches: nat, round: nat,
                                             locks: nat -> set<nat>, answers: nat -> nat -> bool)
    ensures KeepsRest(rows, DrainedAll(rows, limit, batches, round, locks, answers))
    decreases batches
  {
    if batches > 0 {
      var drained := Drained(rows, Selected(rows, locks(round), limit), answers(round));
      UndeliverableKept(drained, limit, batches - 1, round + 1, locks, answers);
    }
  }

  lemma NothingLeft(rows: seq<Row>, limit: nat, batches: nat, round: nat,
                    locks: nat -> set<nat>, answers: nat -> nat -> bool)
    requires Backlog(rows) == []
    ensures DrainedAll(rows, limit, batches, round, locks, answers) == rows
  {
    EmptyBacklogIff(rows);
    UndeliverableKept(rows, limit, batches, round, locks, answers);
  }

  /** A short or failing drain is the last; another one follows a full batch that succeeds. */
  lemma DrainThen(rows: seq<Row>, batch: seq<nat>, limit: nat, batches: nat, round: nat,
                  locks: nat -> set<nat>, answers: nat -> nat -> bool)
    requires batches > 0 && batch == Selected(rows, locks(round), limit)
    ensures var drained := Drained(rows, batch, answers(round));
      DrainedAll(rows, limit, batches, round, locks, answers)
      == if |batch| == limit && AllAnswered(batch, answers(round))
         then DrainedAll(drained, limit, batches - 1, round + 1, locks, answers)
         else drained
  {
    ContinuesIff(rows, locks(round), limit, answers(round));
    if |batch| == limit && !AllAnswered(batch, answers(round)) {
      var i :| 0 <= i < |batch| && !answers(round)(batch[i]);
      assert batch[i] in batch;
    }
  }

  /** Once everything is delivered further drains find nothing. */
  lemma ClearedStays(rows: seq<Row>, limit: nat, batches: nat, round: nat,
                     locks: nat -> set<nat>, answers: nat -> nat -> bool)
    ensures var drained := Drained(rows, Backlog(rows), answers(round));
      AllAnswered(Backlog(rows), answers(round)) ==>
        DrainedAll(drained, limit, batches, round + 1, locks, answers) == drained
  {
    if AllAnswered(Backlog(rows), answers(round)) {
      BacklogGone(rows, answers(round));
      NothingLeft(Drained(rows, Backlog(rows), answers(round)), limit, batches, round + 1, locks, answers);
    }
  }

  lemma ShortBatch(rows: seq<Row>, limit: nat, locked: set<nat>)
    requires locked == {} && |Backlog(rows)| <= limit
    ensures Selected(rows, locked, limit) == Backlog(rows)
  {
    BatchIsFront(rows, limit);
  }

  /** A backlog of at most one batch is tried in one drain. */
  lemma OneBatch(rows: seq<Row>, limit: nat, batches: nat, round: nat,
                 locks: nat -> set<nat>, answers: nat -> nat -> bool)
    requires limit > 0 && Unlocked(locks) && |Backlog(rows)| <= limit && batches > 0
    ensures DrainedAll(rows, limit, batches, round, locks, answers) == Drained(rows, Backlog(rows), answers(round))
  {
    ShortUnlocked(rows, limit, locks, round);
    FullIsCleared(rows, limit, batches, round, locks, answers);
    LastDrain(rows, Backlog(rows), Drained(rows, Backlog(rows), answers(round)), limit, batches, round, locks, answers);
  }

  lemma ShortUnlocked(rows: seq<Row>, limit: nat, locks: nat -> set<nat>, round: nat)
    requires Unlocked(locks) && |Backlog(rows)| <= limit
    ensures Selected(rows, locks(round), limit) == Backlog(rows)
  {
    ShortBatch(rows, limit, locks(round));
  }

  lemma FullIsCleared(rows: seq<Row>, limit: nat, batches: nat, round: nat,
                      locks: nat -> set<nat>, answers: nat -> nat -> bool)
    requires batches > 0 && Selected(rows, locks(round), limit) == Backlog(rows)
    ensures var drained := Drained(rows, Backlog(rows), answers(round));
      CountPublished(drained) - CountPublished(rows) >= limit ==>
        DrainedAll(drained, limit, batches - 1, round + 1, locks, answers) == drained
  {
    ContinuesIff(rows, locks(round), limit, answers(round));
    ClearedStays(rows, limit, batches - 1, round, locks, answers);
  }

  lemma LastDrain(rows: seq<Row>, batch: seq<nat>, drained: seq<Row>, limit: nat, batches: nat, round: nat,
                  locks: nat -> set<nat>, answers: nat -> nat -> bool)
    requires batches > 0 && batch == Selected(rows, locks(round), limit)
    requires drained == Drained(rows, batch, answers(round))
    requires CountPublished(drained) - CountPublished(rows) >= limit ==>
               DrainedAll(drained, limit, batches - 1, round + 1, locks, answers) == drained
    ensures DrainedAll(rows, limit, batches, round, locks, answers) == drained
  {
  }

  lemma BacklogGone(rows: seq<Row>, answer: nat -> bool)
    requires AllAnswered(Backlog(rows), answer)
    ensures Backlog(Drained(rows, Backlog(rows), answer)) == []
  {
    var backlog := Backlog(rows);
    assert backlog[..|backlog|] == backlog;
    BacklogAfter(rows, |backlog|, answer);
  }

  /** After a first batch that succeeds the next drain takes the rest of the backlog. */
  lemma BatchSucceeds(rows: seq<Row>, limit: nat, batches: nat, round: nat,
                      locks: nat -> set<nat>, answers: nat -> nat -> bool)
    requires limit > 0 && Unlocked(locks) && |Backlog(rows)| > limit && batches > 0
    requires AllAnswered(Backlog(rows)[..limit], answers(round))
    ensures var drained := Drained(rows, Backlog(rows)[..limit], answers(round));
      && Backlog(drained) == Backlog(rows)[limit..]
      && DrainedAll(rows, limit, batches, round, locks, answers)
         == DrainedAll(drained, limit, batches - 1, round + 1, locks, answers)
  {
    BatchIsFront(rows, limit);
    DrainThen(rows, Backlog(rows)[..limit], limit, batches, round, locks, answers);
    BacklogAfter(rows, limit, answers(round));
  }

  /** A failure in it makes this drain the last. */
  lemma BatchFails(rows: seq<Row>, limit: nat, batches: nat, round: nat,
                   locks: nat -> set<nat>, answers: nat -> nat -> bool)
    requires limit > 0 && Unlocked(locks) && |Backlog(rows)| > limit && batches > 0
    requires !AllAnswered(Backlog(rows)[..limit], answers(round))
    ensures DrainedAll(rows, limit, batches, round, locks, answers)
            == Drained(rows, Backlog(rows)[..limit], answers(round))
  {
    BatchIsFront(rows, limit);
    DrainThen(rows, Backlog(rows)[..limit], limit, batches, round, locks, answers);
  }

  // ----------------------------------------------------------- theorems

  /** Every row of the backlog got one attempt, answered in its batch's round. */
  predicate TriedInTurn(rows: seq<Row>, after: seq<Row>, backlog: seq<nat>, limit: nat, round: nat,
                        answers: nat -> nat -> bool)
    requires limit > 0 && |after| == |rows|
  {
    forall i :: 0 <= i < |backlog| ==>
      && backlog[i] < |rows|
      && after[backlog[i]] == Tried(rows[backlog[i]], answers(round + BatchOf(i, limit))(backlog[i]))
  }

  lemma RestInTurn(rows: seq<Row>, after: seq<Row>, backlog: seq<nat>, limit: nat, round: nat,
                   answers: nat -> nat -> bool)
    requires limit > 0 && |backlog| > limit && |after| == |rows| && Lists(backlog, rows)
    requires AllAnswered(backlog[..limit], answers(round))
    requires var drained := Drained(rows, backlog[..limit], answers(round));
      KeepsRest(drained, after) && TriedInTurn(drained, after, backlog[limit..], limit, round + 1, answers)
    ensures TriedInTurn(rows, after, backlog, limit, round, answers)
  {
    var drained := Drained(rows, backlog[..limit], answers(round));
    Partitioned(backlog, limit);
    forall i | 0 <= i < |backlog|
      ensures after[backlog[i]] == Tried(rows[backlog[i]], answers(round + BatchOf(i, limit))(backlog[i]))
    {
      if i < limit {
        assert backlog[..limit][i] == backlog[i];
        assert drained[backlog[i]].published;
      } else {
        assert backlog[limit..][i - limit] == backlog[i];
      }
    }
  }

  /** A single batch is tried in its round. */
  lemma OneInTurn(rows: seq<Row>, backlog: seq<nat>, limit: nat, round: nat, answers: nat -> nat -> bool)
    requires |backlog| <= limit && limit > 0 && Lists(backlog, rows)
    ensures TriedInTurn(rows, Drained(rows, backlog, answers(round)), backlog, limit, round, answers)
  {
  }

  /** An unbroken backlog is tried to its end, each row once. */
  lemma {:induction false} UnbrokenIsTried(rows: seq<Row>, limit: nat, batches: nat, round: nat,
                                           locks: nat -> set<nat>, answers: nat -> nat -> bool)
    requires limit > 0 && Unlocked(locks) && Enough(batches, limit, |Backlog(rows)|)
    requires Unbroken(Backlog(rows), limit, round, answers)
    ensures |DrainedAll(rows, limit, batches, round, locks, answers)| == |rows|
    ensures TriedInTurn(rows, DrainedAll(rows, limit, batches, round, locks, answers), Backlog(rows), limit, round,
                        answers)
    decreases batches, 2
  {
    var backlog := Backlog(rows);
    if backlog == [] {
      NothingLeft(rows, limit, batches, round, locks, answers);
    } else if |backlog| <= limit {
      BacklogLists(rows);
      OneBatch(rows, limit, batches, round, locks, answers);
      OneInTurn(rows, backlog, limit, round, answers);
    } else {
      UnbrokenSplit(backlog, limit, round, answers);
      TriedBehind(rows, limit, batches, round, locks, answers);
    }
  }

  lemma {:induction false} TriedBehind(rows: seq<Row>, limit: nat, batches: nat, round: nat,
                                       locks: nat -> set<nat>, answers: nat -> nat -> bool)
    requires limit > 0 && Unlocked(locks) && |Backlog(rows)| > limit && Enough(batches, limit, |Backlog(rows)|)
    requires AllAnswered(Backlog(rows)[..limit], answers(round))
    requires Unbroken(Backlog(rows)[limit..], limit, round + 1, answers)
    ensures |DrainedAll(rows, limit, batches, round, locks, answers)| == |rows|
    ensures TriedInTurn(rows, DrainedAll(rows, limit, batches, round, locks, answers), Backlog(rows), limit, round,
                        answers)
    decreases batches, 1
  {
    BatchSucceeds(rows, limit, batches, round, locks, answers);
    RestIsTried(rows, Drained(rows, Backlog(rows)[..limit], answers(round)), limit, batches, round, locks, answers);
  }

  lemma {:induction false} RestIsTried(rows: seq<Row>, drained: seq<Row>, limit: nat, batches: nat, round: nat,
                                       locks: nat -> set<nat>, answers: nat -> nat -> bool)
    requires limit > 0 && Unlocked(locks) && |Backlog(rows)| > limit && batches > 0
    requires AllAnswered(Backlog(rows)[..limit], answers(round))
    requires drained == Drained(rows, Backlog(rows)[..limit], answers(round))
    requires Backlog(drained) == Backlog(rows)[limit..] && Enough(batches - 1, limit, |Backlog(drained)|)
    requires Unbroken(Backlog(drained), limit, round + 1, answers)
    ensures var after := DrainedAll(drained, limit, batches - 1, round + 1, locks, answers);
      |after| == |rows| && TriedInTurn(rows, after, Backlog(rows), limit, round, answers)
    decreases batches, 0
  {
    var after := DrainedAll(drained, limit, batches - 1, round + 1, locks, answers);
    BacklogLists(rows);
    UnbrokenIsTried(drained, limit, batches - 1, round + 1, locks, answers);
    UndeliverableKept(drained, limit, batches - 1, round + 1, locks, answers);
    RestInTurn(rows, after, Backlog(rows), limit, round, answers);
  }

  /** The row is as it was, and still deliverable. */
  predicate Untried(rows: seq<Row>, after: seq<Row>, id: nat) {
    id < |rows| && |after| == |rows| && rows[id].Deliverable() && after[id] == rows[id]
  }

  lemma UntriedBehind(rows: seq<Row>, after: seq<Row>, backlog: seq<nat>, limit: nat, answer: nat -> bool, id: nat)
    requires limit <= |backlog| && Lists(backlog, rows) && id in backlog[limit..]
    requires Untried(Drained(rows, backlog[..limit], answer), after, id)
    ensures Untried(rows, after, id)
  {
    Partitioned(backlog, limit);
  }

  /** A failure in the first batch leaves the first row behind it untried. */
  lemma FailureLeavesUntried(rows: seq<Row>, limit: nat, batches: nat, round: nat,
                             locks: nat -> set<nat>, answers: nat -> nat -> bool)
    requires limit > 0 && Unlocked(locks) && |Backlog(rows)| > limit && batches > 0
    requires !AllAnswered(Backlog(rows)[..limit], answers(round))
    ensures Untried(rows, DrainedAll(rows, limit, batches, round, locks, answers), Backlog(rows)[limit])
  {
    var backlog := Backlog(rows);
    var id := backlog[limit];
    BatchFails(rows, limit, batches, round, locks, answers);
    BacklogLists(rows);
    assert id !in backlog[..limit];
  }

  /** A broken backlog leaves a row untried. */
  lemma {:induction false} BrokenLeavesUntried(rows: seq<Row>, limit: nat, batches: nat, round: nat,
                                               locks: nat -> set<nat>, answers: nat -> nat -> bool) returns (id: nat)
    requires limit > 0 && Unlocked(locks) && Enough(batches, limit, |Backlog(rows)|)
    requires !Unbroken(Backlog(rows), limit, round, answers)
    ensures id in Backlog(rows) && Untried(rows, DrainedAll(rows, limit, batches, round, locks, answers), id)
    decreases batches, 2
  {
    var backlog := Backlog(rows);
    UnbrokenSplit(backlog, limit, round, answers);
    if AllAnswered(backlog[..limit], answers(round)) {
      id := BrokenBehind(rows, limit, batches, round, locks, answers);
    } else {
      id := backlog[limit];
      FailureLeavesUntried(rows, limit, batches, round, locks, answers);
    }
  }

  /** So does a break behind a first batch that succeeds. */
  lemma {:induction false} BrokenBehind(rows: seq<Row>, limit: nat, batches: nat, round: nat,
                                        locks: nat -> set<nat>, answers: nat -> nat -> bool) returns (id: nat)
    requires limit > 0 && Unlocked(locks) && |Backlog(rows)| > limit && Enough(batches, limit, |Backlog(rows)|)
    requires AllAnswered(Backlog(rows)[..limit], answers(round))
    requires !Unbroken(Backlog(rows)[limit..], limit, round + 1, answers)
    ensures id in Backlog(rows) && Untried(rows, DrainedAll(rows, limit, batches, round, locks, answers), id)
    decreases batches, 1
  {
    BatchSucceeds(rows, limit, batches, round, locks, answers);
    id := RestLeavesUntried(rows, Drained(rows, Backlog(rows)[..limit], answers(round)), limit, batches, round, locks,
                            answers);
  }

  lemma {:induction false} RestLeavesUntried(rows: seq<Row>, drained: seq<Row>, limit: nat, batches: nat, round: nat,
                                             locks: nat -> set<nat>, answers: nat -> nat -> bool) returns (id: nat)
    requires limit > 0 && Unlocked(locks) && |Backlog(rows)| > limit && batches > 0
    requires drained == Drained(rows, Backlog(rows)[..limit], answers(round))
    requires Backlog(drained) == Backlog(rows)[limit..] && Enough(batches - 1, limit, |Backlog(drained)|)
    requires !Unbroken(Backlog(drained), limit, round + 1, answers)
    ensures id in Backlog(rows)
    ensures Untried(rows, DrainedAll(drained, limit, batches - 1, round + 1, locks, answers), id)
    decreases batches, 0
  {
    id := BrokenLeavesUntried(drained, limit, batches - 1, round + 1, locks, answers);
    BacklogLists(rows);
    UntriedBehind(rows, DrainedAll(drained, limit, batches - 1, round + 1, locks, answers), Backlog(rows), limit,
                  answers(round), id);
  }

  /** Every row that was deliverable was tried; trying a row always changes it. */
  predicate AllTried(rows: seq<Row>, after: seq<Row>)
    requires |after| == |rows|
  {
    forall id :: 0 <= id < |rows| && rows[id].Deliverable() ==> after[id] != rows[id]
  }

  lemma TriedChanges(rows: seq<Row>, after: seq<Row>, backlog: seq<nat>, limit: nat, round: nat,
                     answers: nat -> nat -> bool)
    requires limit > 0 && |after| == |rows| && Lists(backlog, rows)
    requires TriedInTurn(rows, after, backlog, limit, round, answers)
    ensures AllTried(rows, after)
  {
    forall id | 0 <= id < |rows| && rows[id].Deliverable()
      ensures after[id] != rows[id]
    {
      var i :| 0 <= i < |backlog| && backlog[i] == id;
    }
  }

  /** Given enough batches and nothing locked, "drain all" tries every deliverable row exactly when no
      delivery fails in a batch that more of the backlog follows. */
  lemma DrainAllTriesIff(rows: seq<Row>, limit: nat, batches: nat, round: nat,
                         locks: nat -> set<nat>, answers: nat -> nat -> bool)
    requires limit > 0 && Unlocked(locks) && batches * limit >= |Backlog(rows)|
    ensures |DrainedAll(rows, limit, batches, round, locks, answers)| == |rows|
    ensures AllTried(rows, DrainedAll(rows, limit, batches, round, locks, answers))
       <==> Unbroken(Backlog(rows), limit, round, answers)
  {
    EnoughIff(batches, limit, |Backlog(rows)|);
    UndeliverableKept(rows, limit, batches, round, locks, answers);
    BacklogLists(rows);
    if Unbroken(Backlog(rows), limit, round, answers) {
      UnbrokenIsTried(rows, limit, batches, round, locks, answers);
      TriedChanges(rows, DrainedAll(rows, limit, batches, round, locks, answers), Backlog(rows), limit, round, answers);
    } else {
      var id := BrokenLeavesUntried(rows, limit, batches, round, locks, answers);
    }
  }

  /** Every delivery of the backlog either succeeds or was its row's last attempt. */
  predicate FinalAnswers(rows: seq<Row>, backlog: seq<nat>, limit: nat, round: nat, answers: nat -> nat -> bool)
    requires limit > 0
  {
    forall i :: 0 <= i < |backlog| && backlog[i] < |rows| ==>
      answers(round + BatchOf(i, limit))(backlog[i]) || rows[backlog[i]].attempts == MAX_ATTEMPTS - 1
  }

  /** It leaves nothing deliverable exactly when, besides, every failed delivery was its row's last: a
      failed row with attempts to spare stays deliverable even in the last batch. */
  lemma DrainAllClearsIff(rows: seq<Row>, limit: nat, batches: nat, round: nat,
                          locks: nat -> set<nat>, answers: nat -> nat -> bool)
    requires limit > 0 && Unlocked(locks) && batches * limit >= |Backlog(rows)|
    ensures Backlog(DrainedAll(rows, limit, batches, round, locks, answers)) == []
       <==> Unbroken(Backlog(rows), limit, round, answers) && FinalAnswers(rows, Backlog(rows), limit, round, answers)
  {
    var after := DrainedAll(rows, limit, batches, round, locks, answers);
    EnoughIff(batches, limit, |Backlog(rows)|);
    UndeliverableKept(rows, limit, batches, round, locks, answers);
    EmptyBacklogIff(after);
    if Unbroken(Backlog(rows), limit, round, answers) {
      UnbrokenIsTried(rows, limit, batches, round, locks, answers);
      BacklogLists(rows);
      ClearedIff(rows, after, Backlog(rows), limit, round, answers);
    } else {
      var id := BrokenLeavesUntried(rows, limit, batches, round, locks, answers);
      BacklogLists(rows);
      assert after[id].Deliverable();
    }
  }

  lemma ClearedIff(rows: seq<Row>, after: seq<Row>, backlog: seq<nat>, limit: nat, round: nat,
                   answers: nat -> nat -> bool)
    requires limit > 0 && KeepsRest(rows, after) && Lists(backlog, rows)
    requires TriedInTurn(rows, after, backlog, limit, round, answers)
    ensures (forall id :: 0 <= id < |rows| ==> !after[id].Deliverable())
       <==> FinalAnswers(rows, backlog, limit, round, answers)
  {
    if FinalAnswers(rows, backlog, limit, round, answers) {
      forall id | 0 <= id < |rows|
        ensures !after[id].Deliverable()
      {
        if rows[id].Deliverable() {
          var i :| 0 <= i < |backlog| && backlog[i] == id;
          TriedCleared(rows[id], answers(round + BatchOf(i, limit))(id));
        }
      }
    }
    if forall id :: 0 <= id < |rows| ==> !after[id].Deliverable() {
      forall i | 0 <= i < |backlog|
        ensures answers(round + BatchOf(i, limit))(backlog[i]) || rows[backlog[i]].attempts == MAX_ATTEMPTS - 1
      {
        assert !after[backlog[i]].Deliverable();
        TriedCleared(rows[backlog[i]], answers(round + BatchOf(i, limit))(backlog[i]));
      }
    }
  }

  lemma TriedCleared(row: Row, delivered: bool)
    requires row.Deliverable()
    ensures !Tried(row, delivered).Deliverable() <==> delivered || row.attempts == MAX_ATTEMPTS - 1
  {
  }

  /** Two rows, batches of one, and a first delivery that fails: the second row is never tried, however
      many batches are allowed. */
  lemma UntriedRowLeft(batches: nat)
    requires batches > 0
    ensures var rows := [Row(false, 0), Row(false, 0)];
      DrainedAll(rows, 1, batches, 0, _ => {}, _ => _ => false) == [Row(false, 1), Row(false, 0)]
  {
    var rows := [Row(false, 0), Row(false, 0)];
    SelectsFirst(rows);
    ContinuesIff(rows, {}, 1, _ => false);
  }

  lemma SelectsFirst(rows: seq<Row>)
    requires |rows| == 2 && rows[0].Deliverable()
    ensures Selected(rows, {}, 1) == [0]
  {
    assert rows[..1][..0] == [] && rows[..1][0] == rows[0];
    assert Selected(rows[..1], {}, 1) == [0];
  }
}
