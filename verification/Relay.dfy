/** The outbox relay of the escrow service: every drain takes the first deliverable rows that no other
    replica has locked, tries each once, and commits. Rows are numbered in order of insertion. */
module Relay {

  const MAX_ATTEMPTS: nat := 10

  datatype Row = Row(published: bool, attempts: nat) {
    predicate Deliverable() {
      !published && attempts < MAX_ATTEMPTS
    }
  }

  lemma DeliverableIff(row: Row)
    ensures row.Deliverable() <==> !row.published && row.attempts < 10
  {
  }

  function Tried(row: Row, delivered: bool): Row {
    if delivered then row.(published := true) else row.(attempts := row.attempts + 1)
  }

  /** The first `limit` deliverable rows, in order, skipping locked ones. */
  function Selected(rows: seq<Row>, locked: set<nat>, limit: nat): (ids: seq<nat>)
    ensures |ids| <= limit
    ensures forall i :: 0 <= i < |ids| ==> ids[i] < |rows| && rows[ids[i]].Deliverable() && ids[i] !in locked
    ensures forall i, j :: 0 <= i < j < |ids| ==> ids[i] < ids[j]
    ensures |ids| < limit ==> forall id :: 0 <= id < |rows| && rows[id].Deliverable() && id !in locked ==> id in ids
  {
    if rows == [] then []
    else
      var last := |rows| - 1;
      var front := Selected(rows[..last], locked, limit);
      if |front| < limit && rows[last].Deliverable() && last !in locked then front + [last] else front
  }

  function Drained(rows: seq<Row>, ids: seq<nat>, answer: nat -> bool): (drained: seq<Row>)
    ensures |drained| == |rows|
    ensures forall id :: 0 <= id < |rows| ==> drained[id] == if id in ids then Tried(rows[id], answer(id)) else rows[id]
  {
    seq(|rows|, id requires 0 <= id < |rows| => if id in ids then Tried(rows[id], answer(id)) else rows[id])
  }

  function CountPublished(rows: seq<Row>): nat {
    if rows == [] then 0
    else CountPublished(rows[..|rows| - 1]) + if rows[|rows| - 1].published then 1 else 0
  }

  /** Up to `batches` drains; a drain that publishes less than a full batch is the last. */
  function DrainedAll(rows: seq<Row>, limit: nat, batches: nat, round: nat,
                      locks: nat -> set<nat>, answers: nat -> nat -> bool): seq<Row>
    decreases batches
  {
    if batches == 0 then rows
    else
      var drained := Drained(rows, Selected(rows, locks(round), limit), answers(round));
      if CountPublished(drained) - CountPublished(rows) < limit then drained
      else DrainedAll(drained, limit, batches - 1, round + 1, locks, answers)
  }

  // ------------------------------------------------------------- relay

  class OutboxRelay {
    var rows: seq<Row>
    const batchSize: nat

    constructor (rows: seq<Row>, batchSize: nat)
      ensures this.rows == rows && this.batchSize == batchSize
    {
      this.rows := rows;
      this.batchSize := batchSize;
    }

    /** One committed drain; returns how many rows it newly published. */
    method DrainOnce(locked: set<nat>, answer: nat -> bool) returns (published: nat)
      modifies this`rows
      ensures rows == Drained(old(rows), Selected(old(rows), locked, batchSize), answer)
      ensures published == CountPublished(rows) - CountPublished(old(rows))
    {
      published := 0;
      var ids := Selected(rows, locked, batchSize);
      for k := 0 to |ids|
        invariant rows == Drained(old(rows), ids[..k], answer)
        invariant published == CountPublished(rows) - CountPublished(old(rows))
      {
        ghost var before := rows;
        DrainedStep(old(rows), ids, k, answer);
        var row := rows[ids[k]];
        if answer(ids[k]) {
          row := row.(published := true);
          published := published + 1;
        } else {
          row := row.(attempts := row.attempts + 1);
        }
        rows := rows[ids[k] := row];
        CountUpdate(before, ids[k], row);
      }
      assert ids[..|ids|] == ids;
    }

    /** Drain batch after batch; the total is exactly the number of rows newly published. */
    method DrainAll(maxBatches: nat, locks: nat -> set<nat>, answers: nat -> nat -> bool) returns (total: nat)
      modifies this`rows
      ensures rows == DrainedAll(old(rows), batchSize, maxBatches, 0, locks, answers)
      ensures total == CountPublished(rows) - CountPublished(old(rows))
    {
      total := 0;
      for round := 0 to maxBatches
        invariant DrainedAll(old(rows), batchSize, maxBatches, 0, locks, answers)
               == DrainedAll(rows, batchSize, maxBatches - round, round, locks, answers)
        invariant total == CountPublished(rows) - CountPublished(old(rows))
      {
        var count := DrainOnce(locks(round), answers(round));
        total := total + count;
        if count < batchSize {
          return;
        }
      }
    }
  }

  lemma DrainedStep(rows: seq<Row>, ids: seq<nat>, k: nat, answer: nat -> bool)
    requires k < |ids| && ids[k] < |rows| && forall i, j :: 0 <= i < j < |ids| ==> ids[i] < ids[j]
    ensures Drained(rows, ids[..k], answer)[ids[k]] == rows[ids[k]]
    ensures Drained(rows, ids[..k + 1], answer)
            == Drained(rows, ids[..k], answer)[ids[k] := Tried(rows[ids[k]], answer(ids[k]))]
  {
    assert ids[..k + 1] == ids[..k] + [ids[k]];
  }

  lemma {:induction false} CountUpdate(rows: seq<Row>, id: nat, row: Row)
    requires id < |rows|
    ensures CountPublished(rows[id := row])
            == CountPublished(rows) + (if row.published then 1 else 0) - (if rows[id].published then 1 else 0)
  {
    var last := |rows| - 1;
    if id < last {
      CountUpdate(rows[..last], id, row);
      assert rows[id := row][..last] == rows[..last][id := row];
    } else {
      assert rows[id := row][..last] == rows[..last];
    }
  }

  // ---------------------------------------------------------- progress

  /** How many attempts the unpublished rows have left. */
  function Remaining(rows: seq<Row>): nat {
    if rows == [] then 0
    else
      var row := rows[|rows| - 1];
      Remaining(rows[..|rows| - 1]) + if row.Deliverable() then MAX_ATTEMPTS - row.attempts else 0
  }

  function CountIn(ids: seq<nat>, n: nat): nat {
    if n == 0 then 0 else CountIn(ids, n - 1) + if n - 1 in ids then 1 else 0
  }

  /** Every row a drain tries costs at least one remaining attempt. */
  lemma {:induction false} DrainCosts(rows: seq<Row>, ids: seq<nat>, answer: nat -> bool, n: nat)
    requires n <= |rows| && forall i :: 0 <= i < |ids| ==> ids[i] < |rows| && rows[ids[i]].Deliverable()
    ensures Remaining(Drained(rows, ids, answer)[..n]) + CountIn(ids, n) <= Remaining(rows[..n])
  {
    if n > 0 {
      DrainCosts(rows, ids, answer, n - 1);
      assert Drained(rows, ids, answer)[..n][..n - 1] == Drained(rows, ids, answer)[..n - 1];
      assert rows[..n][..n - 1] == rows[..n - 1];
    }
  }

  lemma {:induction false} CountInSome(ids: seq<nat>, n: nat, id: nat)
    requires id in ids && id < n
    ensures CountIn(ids, n) > 0
  {
    if id < n - 1 {
      CountInSome(ids, n - 1, id);
    }
  }

  /** Every non-empty committed drain strictly uses up remaining attempts, whatever the answers. */
  lemma DrainProgresses(rows: seq<Row>, locked: set<nat>, limit: nat, answer: nat -> bool)
    requires Selected(rows, locked, limit) != []
    ensures Remaining(Drained(rows, Selected(rows, locked, limit), answer)) < Remaining(rows)
  {
    var ids := Selected(rows, locked, limit);
    DrainCosts(rows, ids, answer, |rows|);
    assert rows[..|rows|] == rows;
    assert Drained(rows, ids, answer)[..|rows|] == Drained(rows, ids, answer);
    CountInSome(ids, |rows|, ids[0]);
  }

  /** The rows after `n` committed drains, by any relays; drain `k` skips what is locked by others then. */
  function Drains(rows: seq<Row>, limit: nat, n: nat, locks: nat -> set<nat>,
                  answers: nat -> nat -> bool): (after: seq<Row>)
    ensures |after| == |rows|
    decreases n, 1
  {
    if n == 0 then rows
    else Drained(Drains(rows, limit, n - 1, locks, answers), Picked(rows, limit, n, locks, answers), answers(n))
  }

  /** What drain `n` tries. */
  function Picked(rows: seq<Row>, limit: nat, n: nat, locks: nat -> set<nat>, answers: nat -> nat -> bool): seq<nat>
    requires n > 0
    decreases n, 0
  {
    Selected(Drains(rows, limit, n - 1, locks, answers), locks(n), limit)
  }

  /** Drains that overlap are covered: what a relay selected before others committed, under locks they
      respected, is what a drain at its own commit selects when exactly the other rows are locked. */
  lemma OverlapIsSerial(rows: seq<Row>, later: seq<Row>, locked: set<nat>, limit: nat, others: set<nat>)
    requires |later| == |rows| && others == set id | 0 <= id < |rows| && id !in Selected(rows, locked, limit)
    requires forall id :: id in Selected(rows, locked, limit) ==> later[id] == rows[id]
    ensures Selected(later, others, limit) == Selected(rows, locked, limit)
  {
    SelectsExactly(later, others, limit, Selected(rows, locked, limit));
  }

  predicate Increasing(ids: seq<nat>) {
    forall i, j :: 0 <= i < j < |ids| ==> ids[i] < ids[j]
  }

  lemma FrontMembers(ids: seq<nat>)
    requires ids != [] && Increasing(ids)
    ensures forall id :: id in ids[..|ids| - 1] <==> id in ids && id != ids[|ids| - 1]
    ensures ids == ids[..|ids| - 1] + [ids[|ids| - 1]]
  {
  }

  lemma LastIs(ids: seq<nat>, last: nat)
    requires Increasing(ids) && last in ids && forall id :: id in ids ==> id <= last
    ensures ids != [] && ids[|ids| - 1] == last
  {
    assert ids[|ids| - 1] in ids;
  }

  /** The rows of `ids`, and no others, are free to take. */
  predicate JustFree(rows: seq<Row>, locked: set<nat>, ids: seq<nat>) {
    && (forall i :: 0 <= i < |ids| ==> ids[i] < |rows| && rows[ids[i]].Deliverable() && ids[i] !in locked)
    && (forall id :: 0 <= id < |rows| && rows[id].Deliverable() && id !in locked ==> id in ids)
  }

  lemma JustFreeFront(rows: seq<Row>, locked: set<nat>, ids: seq<nat>)
    requires Increasing(ids) && JustFree(rows, locked, ids) && rows != []
    ensures var last := |rows| - 1;
      if rows[last].Deliverable() && last !in locked then
        && ids != [] && ids == ids[..|ids| - 1] + [last]
        && JustFree(rows[..last], locked, ids[..|ids| - 1])
      else
        JustFree(rows[..last], locked, ids)
  {
    var last := |rows| - 1;
    if rows[last].Deliverable() && last !in locked {
      LastIs(ids, last);
      FrontMembers(ids);
    }
  }

  lemma NoRoom(ids: seq<nat>, n: nat)
    requires forall i :: 0 <= i < |ids| ==> ids[i] < n
    ensures n == 0 ==> ids == []
  {
    if ids != [] {
      assert ids[0] < n;
    }
  }

  /** When just the rows of `ids` are free to take, they are taken. */
  lemma {:induction false} SelectsExactly(rows: seq<Row>, locked: set<nat>, limit: nat, ids: seq<nat>)
    requires Increasing(ids) && |ids| <= limit && JustFree(rows, locked, ids)
    ensures Selected(rows, locked, limit) == ids
  {
    if rows == [] {
      NoRoom(ids, |rows|);
    } else {
      var last := |rows| - 1;
      JustFreeFront(rows, locked, ids);
      if rows[last].Deliverable() && last !in locked {
        SelectsExactly(rows[..last], locked, limit, ids[..|ids| - 1]);
      } else {
        SelectsExactly(rows[..last], locked, limit, ids);
      }
    }
  }

  predicate Finished(row: Row) {
    row.published || row.attempts == MAX_ATTEMPTS
  }

  predicate WithinAttempts(rows: seq<Row>) {
    forall id :: 0 <= id < |rows| ==> rows[id].attempts <= MAX_ATTEMPTS
  }

  predicate AllFinished(rows: seq<Row>) {
    forall id :: 0 <= id < |rows| ==> Finished(rows[id])
  }

  /** Rows are left to deliver, but others have locked every one of them. */
  predicate Hindered(rows: seq<Row>, locked: set<nat>) {
    && (exists id :: 0 <= id < |rows| && rows[id].Deliverable())
    && (forall id :: 0 <= id < |rows| && rows[id].Deliverable() ==> id in locked)
  }

  /** How many of the first `n` drains were hindered. */
  function CountHindered(rows: seq<Row>, limit: nat, n: nat, locks: nat -> set<nat>,
                         answers: nat -> nat -> bool): (count: nat)
    ensures count <= n
  {
    if n == 0 then 0
    else
      CountHindered(rows, limit, n - 1, locks, answers)
      + if Hindered(Drains(rows, limit, n - 1, locks, answers), locks(n)) then 1 else 0
  }

  /** No drain, whatever it skips, ever counts a row beyond ten attempts. */
  lemma {:induction false} AttemptsBounded(rows: seq<Row>, limit: nat, n: nat, locks: nat -> set<nat>,
                                           answers: nat -> nat -> bool)
    requires WithinAttempts(rows)
    ensures WithinAttempts(Drains(rows, limit, n, locks, answers))
  {
    if n > 0 {
      AttemptsBounded(rows, limit, n - 1, locks, answers);
    }
  }

  /** Everything is finished, or `used` attempts of the budget are gone. */
  predicate Spent(rows: seq<Row>, used: nat, budget: nat) {
    AllFinished(rows) || Remaining(rows) + used <= budget
  }

  lemma DrainSpends(rows: seq<Row>, locked: set<nat>, limit: nat, answer: nat -> bool, used: nat, budget: nat)
    requires limit > 0 && WithinAttempts(rows) && Spent(rows, used, budget)
    ensures Spent(Drained(rows, Selected(rows, locked, limit), answer),
                  used + if Hindered(rows, locked) then 0 else 1, budget)
  {
    var ids := Selected(rows, locked, limit);
    if ids == [] {
      assert Drained(rows, ids, answer) == rows;
    } else {
      assert !Hindered(rows, locked) && !AllFinished(rows) by {
        assert rows[ids[0]].Deliverable() && ids[0] !in locked;
      }
      DrainProgresses(rows, locked, limit, answer);
    }
  }

  lemma {:induction false} DrainsSpend(rows: seq<Row>, limit: nat, n: nat, locks: nat -> set<nat>,
                                       answers: nat -> nat -> bool)
    requires limit > 0 && WithinAttempts(rows)
    ensures Spent(Drains(rows, limit, n, locks, answers), n - CountHindered(rows, limit, n, locks, answers),
                  Remaining(rows))
  {
    if n > 0 {
      DrainsSpend(rows, limit, n - 1, locks, answers);
      AttemptsBounded(rows, limit, n - 1, locks, answers);
      DrainSpends(Drains(rows, limit, n - 1, locks, answers), locks(n), limit, answers(n),
                  n - 1 - CountHindered(rows, limit, n - 1, locks, answers), Remaining(rows));
    }
  }

  /** Finitely many drains settle the outbox: once more drains went unhindered than attempts remained,
      every row is published or at exactly ten attempts, whatever was locked meanwhile. */
  lemma DrainsSettle(rows: seq<Row>, limit: nat, n: nat, locks: nat -> set<nat>, answers: nat -> nat -> bool)
    requires limit > 0 && WithinAttempts(rows)
    requires n - CountHindered(rows, limit, n, locks, answers) > Remaining(rows)
    ensures AllFinished(Drains(rows, limit, n, locks, answers))
  {
    DrainsSpend(rows, limit, n, locks, answers);
  }

  /** From any point of a run on, a row that is published, or out of attempts, is never touched again. */
  lemma {:induction false} FinishedStays(rows: seq<Row>, limit: nat, k: nat, n: nat, locks: nat -> set<nat>,
                                         answers: nat -> nat -> bool, id: nat)
    requires k <= n && id < |rows| && !Drains(rows, limit, k, locks, answers)[id].Deliverable()
    ensures Drains(rows, limit, n, locks, answers)[id] == Drains(rows, limit, k, locks, answers)[id]
    ensures k < n ==> id !in Picked(rows, limit, n, locks, answers)
  {
    if k < n {
      FinishedStays(rows, limit, k, n - 1, locks, answers, id);
    }
  }

  /** No row is published by two committed drains. */
  lemma PublishedOnce(rows: seq<Row>, limit: nat, k: nat, n: nat, locks: nat -> set<nat>,
                      answers: nat -> nat -> bool, id: nat)
    requires 0 < k < n && id in Picked(rows, limit, k, locks, answers) && answers(k)(id)
    ensures id !in Picked(rows, limit, n, locks, answers)
    ensures Drains(rows, limit, n, locks, answers)[id].published
  {
    FinishedStays(rows, limit, k, n, locks, answers, id);
  }

  // ------------------------------------------------------- early stops

  lemma {:induction false} PublishedAtMost(rows: seq<Row>, ids: seq<nat>, answer: nat -> bool, n: nat)
    requires n <= |rows| && forall i :: 0 <= i < |ids| ==> ids[i] < |rows| && !rows[ids[i]].published
    ensures CountPublished(Drained(rows, ids, answer)[..n]) <= CountPublished(rows[..n]) + CountIn(ids, n)
    ensures CountPublished(Drained(rows, ids, answer)[..n]) == CountPublished(rows[..n]) + CountIn(ids, n)
       <==> forall id :: id in ids && id < n ==> answer(id)
  {
    if n > 0 {
      PublishedAtMost(rows, ids, answer, n - 1);
      assert Drained(rows, ids, answer)[..n][..n - 1] == Drained(rows, ids, answer)[..n - 1];
      assert rows[..n][..n - 1] == rows[..n - 1];
    }
  }

  lemma {:induction false} CountInLength(ids: seq<nat>, n: nat)
    requires forall i, j :: 0 <= i < j < |ids| ==> ids[i] < ids[j]
    requires forall i :: 0 <= i < |ids| ==> ids[i] < n
    ensures CountIn(ids, n) == |ids|
    decreases n
  {
    if n > 0 {
      var last := |ids| - 1;
      if ids != [] && ids[last] == n - 1 {
        CountInLength(ids[..last], n - 1);
        CountInDrop(ids, n - 1);
      } else {
        CountInLength(ids, n - 1);
        assert n - 1 !in ids;
      }
    }
  }

  lemma {:induction false} CountInDrop(ids: seq<nat>, n: nat)
    requires ids != [] && ids[|ids| - 1] >= n
    ensures CountIn(ids, n) == CountIn(ids[..|ids| - 1], n)
  {
    if n > 0 {
      CountInDrop(ids, n - 1);
      assert n - 1 in ids <==> n - 1 in ids[..|ids| - 1];
    }
  }

  /** A drain keeps "drain all" going exactly when it fills its batch and every delivery succeeds. */
  lemma ContinuesIff(rows: seq<Row>, locked: set<nat>, limit: nat, answer: nat -> bool)
    ensures var ids := Selected(rows, locked, limit);
      CountPublished(Drained(rows, ids, answer)) - CountPublished(rows) >= limit
      <==> |ids| == limit && forall id :: id in ids ==> answer(id)
  {
    var ids := Selected(rows, locked, limit);
    PublishedAtMost(rows, ids, answer, |rows|);
    CountInLength(ids, |rows|);
    assert rows[..|rows|] == rows;
    assert Drained(rows, ids, answer)[..|rows|] == Drained(rows, ids, answer);
  }
}
