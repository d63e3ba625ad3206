/** The outbox of the property service: any number of dispatcher replicas claim due rows, publish them one
    by one and write the outcome in the transaction that holds the locks. A crash loses the outcome, never
    the row. */
module Outbox {
  import opened Outcomes

  datatype Status = Pending | Published | Failed | DeadLetter

  datatype Message = Message(status: Status, attempts: nat, availableAt: int, publishedAt: Option<int>)

  /** The broker accepts the event, refuses it, or accepts it without the dispatcher learning so. */
  datatype Outcome = Accepted | Refused | AcceptedUnheard

  const BACKOFF_SECONDS: seq<nat> := [1, 5, 15, 60, 300, 900, 1800, 3600]

  function BackoffFor(attempts: nat): nat {
    var index := if attempts == 0 then 0 else attempts - 1;
    BACKOFF_SECONDS[if index < |BACKOFF_SECONDS| then index else |BACKOFF_SECONDS| - 1]
  }

  /** What one attempt at time `now` makes of a message. */
  function Attempted(m: Message, outcome: Outcome, now: int, maxAttempts: nat): Message {
    if outcome.Accepted? then m.(status := Published, publishedAt := Some(now))
    else if m.attempts + 1 >= maxAttempts then m.(attempts := m.attempts + 1, status := DeadLetter)
    else m.(attempts := m.attempts + 1, status := Failed, availableAt := now + BackoffFor(m.attempts + 1))
  }

  // ------------------------------------------------------------ replicas

  /** Rows a replica holds locked, in claiming order; what became of the first `done` of them is not yet
      committed. */
  datatype Batch = Batch(now: int, ids: seq<nat>, done: nat, worked: map<nat, Message>)

  /** Rows are numbered in order of insertion and some are purged later. `deliveries` counts what the
      broker accepted; `failures` keeps the times of committed failures. */
  datatype World = World(rows: map<nat, Message>, nextId: nat, held: map<nat, Batch>,
                         deliveries: map<nat, nat>, failures: map<nat, seq<int>>)

  function Start(): World {
    World(map[], 0, map[], map[], map[])
  }

  predicate Due(m: Message, now: int) {
    (m.status.Pending? || m.status.Failed?) && m.availableAt <= now
  }

  predicate Locked(w: World, id: nat) {
    exists r :: r in w.held && id in w.held[r].ids
  }

  predicate Claimable(w: World, id: nat, now: int) {
    id in w.rows && Due(w.rows[id], now) && !Locked(w, id)
  }

  predicate Before(w: World, a: nat, b: nat)
    requires a in w.rows && b in w.rows
  {
    var x, y := w.rows[a].availableAt, w.rows[b].availableAt;
    x < y || (x == y && a < b)
  }

  /** `ids` are the first `limit` claimable rows by due time and number, skipping locked ones. */
  ghost predicate Claims(w: World, ids: seq<nat>, now: int, limit: nat) {
    && |ids| <= limit
    && (forall i :: 0 <= i < |ids| ==> Claimable(w, ids[i], now))
    && (forall i, j :: 0 <= i < j < |ids| ==> Before(w, ids[i], ids[j]))
    && (forall id :: Claimable(w, id, now) && id !in ids ==>
          |ids| == limit && forall i :: 0 <= i < |ids| ==> Before(w, ids[i], id))
  }

  datatype Step =
    | Record(availableAt: int)
    | Claim(replica: nat, now: int, limit: nat, ids: seq<nat>)
    | Publish(replica: nat, outcome: Outcome)
    | Commit(replica: nat)
    | Crash(replica: nat)
    | Purge(before: int)

  ghost predicate Enabled(w: World, step: Step) {
    match step
    case Record(_) => true
    case Claim(replica, now, limit, ids) => replica !in w.held && Claims(w, ids, now, limit)
    case Publish(replica, _) =>
      && replica in w.held && w.held[replica].done < |w.held[replica].ids|
      && w.held[replica].ids[w.held[replica].done] in w.rows
    case Commit(replica) => replica in w.held && w.held[replica].done == |w.held[replica].ids|
    case Crash(replica) => replica in w.held
    case Purge(_) => true
  }

  function Delivered(w: World, id: nat): nat {
    if id in w.deliveries then w.deliveries[id] else 0
  }

  function FailuresOf(w: World, id: nat): seq<int> {
    if id in w.failures then w.failures[id] else []
  }

  function Released(w: World, replica: nat): World {
    w.(held := w.held - {replica})
  }

  /** Write a finished batch: the rows, and the failures among them. */
  function Written(w: World, batch: Batch): World {
    w.(rows := w.rows + batch.worked,
       failures := map id | id in w.failures.Keys + batch.worked.Keys ::
         FailuresOf(w, id) + (if id in batch.worked && !batch.worked[id].status.Published? then [batch.now] else []))
  }

  predicate Purgeable(m: Message, before: int) {
    m.status.Published? && m.publishedAt.Some? && m.publishedAt.value < before
  }

  /** The batch after an attempt at its next message. */
  function WorkedOn(w: World, batch: Batch, outcome: Outcome, maxAttempts: nat): Batch
    requires batch.done < |batch.ids| && batch.ids[batch.done] in w.rows
  {
    var id := batch.ids[batch.done];
    batch.(done := batch.done + 1, worked := batch.worked[id := Attempted(w.rows[id], outcome, batch.now, maxAttempts)])
  }

  function Next(w: World, step: Step, maxAttempts: nat): World
    requires Enabled(w, step)
  {
    match step
    case Record(availableAt) =>
      w.(rows := w.rows[w.nextId := Message(Pending, 0, availableAt, None)], nextId := w.nextId + 1)
    case Claim(replica, now, _, ids) => w.(held := w.held[replica := Batch(now, ids, 0, map[])])
    case Publish(replica, outcome) =>
      var batch := w.held[replica];
      var id := batch.ids[batch.done];
      w.(held := w.held[replica := WorkedOn(w, batch, outcome, maxAttempts)],
         deliveries := if outcome.Refused? then w.deliveries else w.deliveries[id := Delivered(w, id) + 1])
    case Commit(replica) => Released(Written(w, w.held[replica]), replica)
    case Crash(replica) => Released(w, replica)
    case Purge(before) => w.(rows := map id | id in w.rows && !Purgeable(w.rows[id], before) :: w.rows[id])
  }

  /** A run: each step must be possible where it happens. */
  ghost predicate Feasible(steps: seq<Step>, maxAttempts: nat)
    decreases |steps|, 0
  {
    steps == [] || (Feasible(steps[..|steps| - 1], maxAttempts)
                    && Enabled(After(steps[..|steps| - 1], maxAttempts), steps[|steps| - 1]))
  }

  ghost function After(steps: seq<Step>, maxAttempts: nat): World
    requires Feasible(steps, maxAttempts)
    decreases |steps|, 1
  {
    if steps == [] then Start() else Next(After(steps[..|steps| - 1], maxAttempts), steps[|steps| - 1], maxAttempts)
  }

  // ----------------------------------------------------------- invariant

  predicate Open(m: Message) {
    m.status.Pending? || m.status.Failed?
  }

  ghost predicate Holds(w: World, replica: nat, id: nat) {
    replica in w.held && id in w.held[replica].ids
  }

  predicate Distinct(ids: seq<nat>) {
    forall i, j :: 0 <= i < j < |ids| ==> ids[i] != ids[j]
  }

  /** No row is held by two replicas, or twice by one. */
  ghost predicate Disjoint(w: World) {
    && (forall r, s, id :: Holds(w, r, id) && Holds(w, s, id) ==> r == s)
    && (forall r :: r in w.held ==> Distinct(w.held[r].ids))
  }

  /** `worked` is one attempt away from the committed row. */
  ghost predicate OneAttempt(m: Message, worked: Message, now: int, maxAttempts: nat) {
    exists outcome :: worked == Attempted(m, outcome, now, maxAttempts)
  }

  ghost predicate BatchOk(w: World, batch: Batch, maxAttempts: nat) {
    && batch.done <= |batch.ids|
    && (forall id :: id in batch.ids ==> id in w.rows && Open(w.rows[id]))
    && (forall id :: id in batch.worked <==> id in batch.ids[..batch.done])
    && (forall id :: id in batch.worked && id in w.rows ==>
          && OneAttempt(w.rows[id], batch.worked[id], batch.now, maxAttempts)
          && (batch.worked[id].status.Published? ==> Delivered(w, id) > 0))
  }

  /** Attempts count committed failures; a dead letter has used up all of them; a failed row is due exactly
      one backoff after its last failure; a published row was delivered. */
  predicate RowOk(m: Message, failures: seq<int>, deliveries: nat, maxAttempts: nat) {
    && m.attempts == |failures| <= maxAttempts
    && (m.status.DeadLetter? <==> m.attempts == maxAttempts)
    && (m.status.Pending? ==> m.attempts == 0)
    && (m.status.Failed? ==> m.attempts > 0 && m.availableAt == failures[|failures| - 1] + BackoffFor(m.attempts))
    && (m.status.Published? ==> deliveries > 0)
  }

  ghost predicate RowsOk(w: World, maxAttempts: nat) {
    && (forall id :: id in w.rows ==> RowOk(w.rows[id], FailuresOf(w, id), Delivered(w, id), maxAttempts))
    && (forall id :: id in w.rows || id in w.failures || id in w.deliveries ==> id < w.nextId)
  }

  ghost predicate Inv(w: World, maxAttempts: nat) {
    && Disjoint(w) && RowsOk(w, maxAttempts)
    && forall r :: r in w.held ==> BatchOk(w, w.held[r], maxAttempts)
  }

  lemma ClaimDistinct(w: World, ids: seq<nat>, now: int, limit: nat)
    requires Claims(w, ids, now, limit)
    ensures Distinct(ids)
  {
  }

  lemma DisjointFrom(w: World, d: World)
    requires Disjoint(w)
    requires forall r, id :: Holds(d, r, id) ==> Holds(w, r, id)
    requires forall r :: r in d.held ==> Distinct(d.held[r].ids)
    ensures Disjoint(d)
  {
  }

  /** A batch stays good while its rows stay as they are. */
  lemma BatchStays(w: World, d: World, batch: Batch, maxAttempts: nat)
    requires BatchOk(w, batch, maxAttempts)
    requires forall id :: id in batch.ids ==> id in d.rows && d.rows[id] == w.rows[id]
    requires forall id :: id in batch.ids ==> Delivered(d, id) >= Delivered(w, id)
    ensures BatchOk(d, batch, maxAttempts)
  {
    assert forall id :: id in batch.worked ==> id in batch.ids;
  }

  lemma ClaimDisjoint(w: World, replica: nat, batch: Batch)
    requires Disjoint(w) && replica !in w.held && Distinct(batch.ids)
    requires forall id :: id in batch.ids ==> !Locked(w, id)
    ensures Disjoint(w.(held := w.held[replica := batch]))
  {
    var d := w.(held := w.held[replica := batch]);
    forall r, s, id | Holds(d, r, id) && Holds(d, s, id)
      ensures r == s
    {
      assert r != replica ==> Holds(w, r, id) && Locked(w, id);
      assert s != replica ==> Holds(w, s, id) && Locked(w, id);
    }
  }

  lemma ClaimKeeps(w: World, replica: nat, now: int, limit: nat, ids: seq<nat>, maxAttempts: nat)
    requires Inv(w, maxAttempts) && replica !in w.held && Claims(w, ids, now, limit)
    ensures Inv(w.(held := w.held[replica := Batch(now, ids, 0, map[])]), maxAttempts)
  {
    var batch := Batch(now, ids, 0, map[]);
    var d := w.(held := w.held[replica := batch]);
    ClaimDistinct(w, ids, now, limit);
    assert forall id :: id in ids ==> Claimable(w, id, now);
    ClaimDisjoint(w, replica, batch);
    forall r | r in d.held
      ensures BatchOk(d, d.held[r], maxAttempts)
    {
      if r != replica {
        BatchStays(w, d, w.held[r], maxAttempts);
      }
    }
  }

  lemma PublishBatch(w: World, d: World, batch: Batch, outcome: Outcome, maxAttempts: nat)
    requires BatchOk(w, batch, maxAttempts) && batch.done < |batch.ids| && batch.ids[batch.done] in w.rows
    requires d.rows == w.rows && forall id :: id in batch.ids ==> Delivered(d, id) >= Delivered(w, id)
    requires outcome.Accepted? ==> Delivered(d, batch.ids[batch.done]) > 0
    ensures BatchOk(d, WorkedOn(w, batch, outcome, maxAttempts), maxAttempts)
  {
  }

  lemma PublishRows(w: World, d: World, maxAttempts: nat)
    requires RowsOk(w, maxAttempts) && d.rows == w.rows && d.failures == w.failures && d.nextId == w.nextId
    requires forall id :: Delivered(d, id) >= Delivered(w, id)
    requires forall id :: id in d.deliveries ==> id in w.deliveries || id in w.rows
    ensures RowsOk(d, maxAttempts)
  {
  }

  lemma PublishDisjoint(w: World, d: World)
    requires Disjoint(w) && d.held.Keys == w.held.Keys && forall r :: r in d.held ==> d.held[r].ids == w.held[r].ids
    ensures Disjoint(d)
  {
    assert forall r, id :: Holds(d, r, id) ==> Holds(w, r, id);
    DisjointFrom(w, d);
  }

  /** What a publish does to the rest of the world. */
  lemma PublishShape(w: World, replica: nat, outcome: Outcome, maxAttempts: nat)
    requires Enabled(w, Publish(replica, outcome))
    ensures var d, batch := Next(w, Publish(replica, outcome), maxAttempts), w.held[replica];
      var id := batch.ids[batch.done];
      && d.rows == w.rows && d.failures == w.failures && d.nextId == w.nextId
      && d.held == w.held[replica := WorkedOn(w, batch, outcome, maxAttempts)]
      && (forall other ::
            Delivered(d, other) == Delivered(w, other) + if other == id && !outcome.Refused? then 1 else 0)
      && (forall other :: other in d.deliveries ==> other in w.deliveries || other in w.rows)
  {
  }

  lemma PublishKeeps(w: World, replica: nat, outcome: Outcome, maxAttempts: nat)
    requires Inv(w, maxAttempts) && Enabled(w, Publish(replica, outcome))
    ensures Inv(Next(w, Publish(replica, outcome), maxAttempts), maxAttempts)
  {
    PublishShape(w, replica, outcome, maxAttempts);
    PublishKept(w, Next(w, Publish(replica, outcome), maxAttempts), replica, outcome, maxAttempts);
  }

  lemma PublishKept(w: World, d: World, replica: nat, outcome: Outcome, maxAttempts: nat)
    requires Inv(w, maxAttempts) && Enabled(w, Publish(replica, outcome))
    requires d.rows == w.rows && d.failures == w.failures && d.nextId == w.nextId
    requires d.held == w.held[replica := WorkedOn(w, w.held[replica], outcome, maxAttempts)]
    requires outcome.Accepted? ==> Delivered(d, w.held[replica].ids[w.held[replica].done]) > 0
    requires forall id :: Delivered(d, id) >= Delivered(w, id)
    requires forall id :: id in d.deliveries ==> id in w.deliveries || id in w.rows
    ensures Inv(d, maxAttempts)
  {
    PublishDisjoint(w, d);
    PublishRows(w, d, maxAttempts);
    PublishBatch(w, d, w.held[replica], outcome, maxAttempts);
    forall r | r in d.held && r != replica
      ensures BatchOk(d, d.held[r], maxAttempts)
    {
      assert d.held[r] == w.held[r];
      BatchStays(w, d, w.held[r], maxAttempts);
    }
  }

  /** Steps that finish or take away batches, and leave the rows held by the others alone. */
  lemma OthersStay(w: World, d: World, maxAttempts: nat)
    requires Disjoint(w) && forall r :: r in w.held ==> BatchOk(w, w.held[r], maxAttempts)
    requires RowsOk(d, maxAttempts) && d.deliveries == w.deliveries
    requires forall r :: r in d.held ==> r in w.held && d.held[r] == w.held[r]
    requires forall r, id :: Holds(d, r, id) ==> id in d.rows && id in w.rows && d.rows[id] == w.rows[id]
    ensures Inv(d, maxAttempts)
  {
    assert forall r, id :: Holds(d, r, id) ==> Holds(w, r, id);
    DisjointFrom(w, d);
    forall r | r in d.held
      ensures BatchOk(d, d.held[r], maxAttempts)
    {
      assert forall id :: id in d.held[r].ids ==> Holds(d, r, id);
      BatchStays(w, d, w.held[r], maxAttempts);
    }
  }

  lemma WorkedOk(w: World, batch: Batch, id: nat, maxAttempts: nat)
    requires RowsOk(w, maxAttempts) && BatchOk(w, batch, maxAttempts) && maxAttempts > 0 && id in batch.worked
    ensures id in w.rows
    ensures RowOk(batch.worked[id],
                  FailuresOf(w, id) + (if batch.worked[id].status.Published? then [] else [batch.now]),
                  Delivered(w, id), maxAttempts)
  {
  }

  lemma WrittenFailures(w: World, batch: Batch, id: nat)
    ensures FailuresOf(Written(w, batch), id)
            == FailuresOf(w, id)
               + (if id in batch.worked && !batch.worked[id].status.Published? then [batch.now] else [])
  {
  }

  lemma CommitRows(w: World, batch: Batch, maxAttempts: nat)
    requires RowsOk(w, maxAttempts) && BatchOk(w, batch, maxAttempts) && maxAttempts > 0
    ensures RowsOk(Written(w, batch), maxAttempts)
  {
    var d := Written(w, batch);
    forall id | id in d.rows
      ensures RowOk(d.rows[id], FailuresOf(d, id), Delivered(d, id), maxAttempts)
    {
      WrittenFailures(w, batch, id);
      if id in batch.worked {
        WorkedOk(w, batch, id, maxAttempts);
      }
    }
    forall id | id in batch.worked
      ensures id < w.nextId
    {
      WorkedOk(w, batch, id, maxAttempts);
    }
  }

  lemma SameRows(w: World, d: World, maxAttempts: nat)
    requires RowsOk(w, maxAttempts) && d.failures == w.failures && d.deliveries == w.deliveries && d.nextId == w.nextId
    requires forall id :: id in d.rows ==> id in w.rows && d.rows[id] == w.rows[id]
    ensures RowsOk(d, maxAttempts)
  {
  }

  lemma CommitKeeps(w: World, replica: nat, maxAttempts: nat)
    requires Inv(w, maxAttempts) && Enabled(w, Commit(replica)) && maxAttempts > 0
    ensures Inv(Next(w, Commit(replica), maxAttempts), maxAttempts)
  {
    var batch := w.held[replica];
    var written := Written(w, batch);
    var d := Released(written, replica);
    CommitRows(w, batch, maxAttempts);
    SameRows(written, d, maxAttempts);
    forall r, id | Holds(d, r, id)
      ensures id in d.rows && id in w.rows && d.rows[id] == w.rows[id]
    {
      assert Holds(w, r, id);
      assert BatchOk(w, w.held[r], maxAttempts);
      assert id in batch.worked ==> Holds(w, replica, id);
    }
    OthersStay(w, d, maxAttempts);
  }

  lemma PurgeKeeps(w: World, before: int, maxAttempts: nat)
    requires Inv(w, maxAttempts)
    ensures Inv(Next(w, Purge(before), maxAttempts), maxAttempts)
  {
    var d := Next(w, Purge(before), maxAttempts);
    SameRows(w, d, maxAttempts);
    forall r, id | Holds(d, r, id)
      ensures id in d.rows && id in w.rows && d.rows[id] == w.rows[id]
    {
      assert BatchOk(w, w.held[r], maxAttempts);
    }
    OthersStay(w, d, maxAttempts);
  }

  lemma RecordKeeps(w: World, availableAt: int, maxAttempts: nat)
    requires Inv(w, maxAttempts) && maxAttempts > 0
    ensures Inv(Next(w, Record(availableAt), maxAttempts), maxAttempts)
  {
    var d := Next(w, Record(availableAt), maxAttempts);
    forall id | id in d.rows
      ensures RowOk(d.rows[id], FailuresOf(d, id), Delivered(d, id), maxAttempts)
    {
      assert id in w.rows ==> RowOk(w.rows[id], FailuresOf(w, id), Delivered(w, id), maxAttempts);
    }
    forall r, id | Holds(d, r, id)
      ensures id in d.rows && id in w.rows && d.rows[id] == w.rows[id]
    {
      assert BatchOk(w, w.held[r], maxAttempts);
    }
    OthersStay(w, d, maxAttempts);
  }

  lemma CrashKeeps(w: World, replica: nat, maxAttempts: nat)
    requires Inv(w, maxAttempts)
    ensures Inv(Released(w, replica), maxAttempts)
  {
    var d := Released(w, replica);
    SameRows(w, d, maxAttempts);
    forall r, id | Holds(d, r, id)
      ensures id in d.rows && id in w.rows && d.rows[id] == w.rows[id]
    {
      assert BatchOk(w, w.held[r], maxAttempts);
    }
    OthersStay(w, d, maxAttempts);
  }

  lemma NextKeeps(w: World, step: Step, maxAttempts: nat)
    requires Inv(w, maxAttempts) && Enabled(w, step) && maxAttempts > 0
    ensures Inv(Next(w, step, maxAttempts), maxAttempts)
  {
    match step
    case Record(availableAt) => RecordKeeps(w, availableAt, maxAttempts);
    case Claim(replica, now, limit, ids) => ClaimKeeps(w, replica, now, limit, ids, maxAttempts);
    case Publish(replica, outcome) => PublishKeeps(w, replica, outcome, maxAttempts);
    case Commit(replica) => CommitKeeps(w, replica, maxAttempts);
    case Crash(replica) => CrashKeeps(w, replica, maxAttempts);
    case Purge(before) => PurgeKeeps(w, before, maxAttempts);
  }

  /** Over every interleaving of replicas, crashes and purges: batches held at once are disjoint, attempts
      count committed failures and reach the maximum exactly in dead letters, retries are due one backoff
      after the last failure, and nothing is published undelivered. */
  lemma {:induction false} RunKeeps(steps: seq<Step>, maxAttempts: nat)
    requires maxAttempts > 0 && Feasible(steps, maxAttempts)
    ensures Inv(After(steps, maxAttempts), maxAttempts)
  {
    if steps != [] {
      RunKeeps(steps[..|steps| - 1], maxAttempts);
      NextKeeps(After(steps[..|steps| - 1], maxAttempts), steps[|steps| - 1], maxAttempts);
    }
  }

  // ------------------------------------------------------------ theorems

  /** A retry is never claimed before its backoff has passed. */
  lemma RetryWaits(w: World, replica: nat, now: int, limit: nat, ids: seq<nat>, maxAttempts: nat)
    requires Inv(w, maxAttempts) && Enabled(w, Claim(replica, now, limit, ids))
    ensures forall id :: id in ids && w.rows[id].status.Failed? ==>
      && FailuresOf(w, id) != []
      && now >= FailuresOf(w, id)[|FailuresOf(w, id)| - 1] + BackoffFor(|FailuresOf(w, id)|)
  {
  }

  /** The longest due are claimed first: no row is passed over for one that became due later. */
  lemma LongestDueFirst(w: World, replica: nat, now: int, limit: nat, ids: seq<nat>, taken: nat, left: nat)
    requires Enabled(w, Claim(replica, now, limit, ids)) && taken in ids && left !in ids && Claimable(w, left, now)
    ensures taken in w.rows && w.rows[taken].availableAt <= w.rows[left].availableAt <= now
    ensures |ids| == limit
  {
    var i :| 0 <= i < |ids| && ids[i] == taken;
    assert Before(w, ids[i], left);
  }

  /** The waits after the first eight failures, and one hour from then on. */
  lemma BackoffSchedule(n: nat)
    requires n > 0
    ensures BackoffFor(n) == if n <= 8 then [1, 5, 15, 60, 300, 900, 1800, 3600][n - 1] else 3600
    ensures forall m :: 0 < m <= n ==> BackoffFor(m) <= BackoffFor(n)
  {
  }

  /** A row is stamped with the time of the batch that published it, and not before. */
  lemma PublishedStamped(w: World, step: Step, id: nat, maxAttempts: nat)
    requires Inv(w, maxAttempts) && Enabled(w, step) && id in w.rows && !w.rows[id].status.Published?
    requires id in Next(w, step, maxAttempts).rows && Next(w, step, maxAttempts).rows[id].status.Published?
    ensures step.Commit? && id in w.held[step.replica].ids
    ensures Next(w, step, maxAttempts).rows[id].publishedAt == Some(w.held[step.replica].now)
  {
    if step.Commit? {
      CommitStamps(w, step.replica, id, maxAttempts);
    }
  }

  lemma AttemptStamps(m: Message, worked: Message, now: int, maxAttempts: nat)
    requires OneAttempt(m, worked, now, maxAttempts) && worked.status.Published? && !m.status.Published?
    ensures worked.publishedAt == Some(now)
  {
  }

  lemma CommitStamps(w: World, replica: nat, id: nat, maxAttempts: nat)
    requires replica in w.held && BatchOk(w, w.held[replica], maxAttempts)
    requires id in w.rows && !w.rows[id].status.Published?
    requires id in Written(w, w.held[replica]).rows && Written(w, w.held[replica]).rows[id].status.Published?
    ensures id in w.held[replica].ids
    ensures Written(w, w.held[replica]).rows[id].publishedAt == Some(w.held[replica].now)
  {
    var batch := w.held[replica];
    assert id in batch.worked && id in batch.ids[..batch.done];
    AttemptStamps(w.rows[id], batch.worked[id], batch.now, maxAttempts);
  }

  /** From any point of a run on, a row that was published at `t` is kept, as it is, until a purge of what was
      published before some time later than `t`. */
  lemma {:induction false} KeptUntilPurged(steps: seq<Step>, k: nat, id: nat, maxAttempts: nat)
    requires maxAttempts > 0 && Feasible(steps, maxAttempts) && k <= |steps| && Feasible(steps[..k], maxAttempts)
    requires id in After(steps[..k], maxAttempts).rows && After(steps[..k], maxAttempts).rows[id].status.Published?
    requires After(steps[..k], maxAttempts).rows[id].publishedAt.Some?
    requires forall i :: k <= i < |steps| && steps[i].Purge? ==>
               steps[i].before <= After(steps[..k], maxAttempts).rows[id].publishedAt.value
    ensures id in After(steps, maxAttempts).rows
    ensures After(steps, maxAttempts).rows[id] == After(steps[..k], maxAttempts).rows[id]
    decreases |steps|
  {
    if k == |steps| {
      assert steps[..k] == steps;
    } else {
      var front, last := steps[..|steps| - 1], steps[|steps| - 1];
      assert front[..k] == steps[..k];
      KeptUntilPurged(front, k, id, maxAttempts);
      RunKeeps(front, maxAttempts);
      PublishedStep(After(front, maxAttempts), last, id, maxAttempts);
    }
  }

  lemma PublishedStep(w: World, step: Step, id: nat, maxAttempts: nat)
    requires Inv(w, maxAttempts) && Enabled(w, step) && id in w.rows && w.rows[id].status.Published?
    requires w.rows[id].publishedAt.Some? && (step.Purge? ==> step.before <= w.rows[id].publishedAt.value)
    ensures id in Next(w, step, maxAttempts).rows && Next(w, step, maxAttempts).rows[id] == w.rows[id]
  {
    FinalStays(w, step, id, maxAttempts);
  }

  predicate Final(m: Message) {
    m.status.Published? || m.status.DeadLetter?
  }

  lemma FinalStays(w: World, step: Step, id: nat, maxAttempts: nat)
    requires Inv(w, maxAttempts) && Enabled(w, step) && id in w.rows && Final(w.rows[id])
    ensures var d := Next(w, step, maxAttempts);
      if id in d.rows then d.rows[id] == w.rows[id] else step.Purge? && w.rows[id].status.Published?
  {
  }

  /** Published rows and dead letters are final: from any point of a run on they stay exactly as they are,
      except that published ones may be purged. */
  lemma {:induction false} FinalForever(steps: seq<Step>, k: nat, id: nat, maxAttempts: nat)
    requires maxAttempts > 0 && Feasible(steps, maxAttempts) && k <= |steps|
    requires Feasible(steps[..k], maxAttempts)
    requires id in After(steps[..k], maxAttempts).rows && Final(After(steps[..k], maxAttempts).rows[id])
    ensures var m, w := After(steps[..k], maxAttempts).rows[id], After(steps, maxAttempts);
      if id in w.rows then w.rows[id] == m else m.status.Published? && id < w.nextId
    decreases |steps|
  {
    RunKeeps(steps, maxAttempts);
    if k == |steps| {
      assert steps[..k] == steps;
    } else {
      var front, last := steps[..|steps| - 1], steps[|steps| - 1];
      assert front[..k] == steps[..k];
      FinalForever(front, k, id, maxAttempts);
      RunKeeps(front, maxAttempts);
      if id in After(front, maxAttempts).rows {
        FinalStays(After(front, maxAttempts), last, id, maxAttempts);
      }
    }
  }

  // -------------------------------------------------------- exactly once

  /** No transaction is lost and every delivery is acknowledged. */
  predicate Clean(step: Step) {
    !step.Crash? && !(step.Publish? && step.outcome.AcceptedUnheard?)
  }

  predicate AllClean(steps: seq<Step>) {
    forall i :: 0 <= i < |steps| ==> Clean(steps[i])
  }

  /** Published in a transaction that has not committed yet. */
  ghost predicate Publishing(w: World, id: nat) {
    exists r :: r in w.held && id in w.held[r].worked && w.held[r].worked[id].status.Published?
  }

  ghost predicate OnceEach(w: World) {
    forall id :: id in w.rows ==>
      Delivered(w, id) == if w.rows[id].status.Published? || Publishing(w, id) then 1 else 0
  }

  /** The row a replica turns to next is published nowhere yet. */
  lemma NotPublishingYet(w: World, replica: nat, maxAttempts: nat)
    requires Inv(w, maxAttempts) && replica in w.held && w.held[replica].done < |w.held[replica].ids|
    ensures var id := w.held[replica].ids[w.held[replica].done];
      id in w.rows && Open(w.rows[id]) && !Publishing(w, id)
  {
    var batch := w.held[replica];
    var id := batch.ids[batch.done];
    assert BatchOk(w, batch, maxAttempts);
    assert id !in batch.ids[..batch.done];
    assert Holds(w, replica, id);
    if Publishing(w, id) {
      var r :| r in w.held && id in w.held[r].worked && w.held[r].worked[id].status.Published?;
      assert BatchOk(w, w.held[r], maxAttempts);
      assert Holds(w, r, id);
      assert false;
    }
  }

  lemma PublishingAfter(w: World, d: World, replica: nat, id: nat, worked: Message, other: nat)
    requires replica in w.held && d.held.Keys == w.held.Keys
    requires forall r :: r in w.held && r != replica ==> d.held[r] == w.held[r]
    requires d.held[replica].worked == w.held[replica].worked[id := worked]
    requires !Publishing(w, id)
    ensures Publishing(d, other) <==> Publishing(w, other) || (other == id && worked.status.Published?)
  {
  }

  lemma PublishOnce(w: World, replica: nat, outcome: Outcome, maxAttempts: nat)
    requires Inv(w, maxAttempts) && OnceEach(w) && Enabled(w, Publish(replica, outcome)) && !outcome.AcceptedUnheard?
    ensures OnceEach(Next(w, Publish(replica, outcome), maxAttempts))
  {
    var d, batch := Next(w, Publish(replica, outcome), maxAttempts), w.held[replica];
    var id := batch.ids[batch.done];
    PublishShape(w, replica, outcome, maxAttempts);
    NotPublishingYet(w, replica, maxAttempts);
    forall other | other in d.rows
      ensures Delivered(d, other) == if d.rows[other].status.Published? || Publishing(d, other) then 1 else 0
    {
      PublishingAfter(w, d, replica, id, Attempted(w.rows[id], outcome, batch.now, maxAttempts), other);
    }
  }

  lemma CommitOnce(w: World, replica: nat, maxAttempts: nat)
    requires Inv(w, maxAttempts) && OnceEach(w) && Enabled(w, Commit(replica))
    ensures OnceEach(Next(w, Commit(replica), maxAttempts))
  {
    var d, batch := Next(w, Commit(replica), maxAttempts), w.held[replica];
    assert BatchOk(w, batch, maxAttempts);
    assert batch.ids[..batch.done] == batch.ids;
    forall id | id in d.rows
      ensures Delivered(d, id) == if d.rows[id].status.Published? || Publishing(d, id) then 1 else 0
    {
      assert Delivered(d, id) == Delivered(w, id);
      if id in batch.worked {
        WorkedElsewhere(w, d, replica, id, maxAttempts);
      } else if Publishing(w, id) {
        var r :| r in w.held && id in w.held[r].worked && w.held[r].worked[id].status.Published?;
        assert r in d.held && d.held[r] == w.held[r];
      }
    }
  }

  /** A row worked on in a batch that is released is worked on nowhere else. */
  lemma WorkedElsewhere(w: World, d: World, replica: nat, id: nat, maxAttempts: nat)
    requires Inv(w, maxAttempts) && replica in w.held && id in w.held[replica].worked && d.held == w.held - {replica}
    ensures !Publishing(d, id) && id in w.rows && Open(w.rows[id])
    ensures Publishing(w, id) <==> w.held[replica].worked[id].status.Published?
  {
    assert BatchOk(w, w.held[replica], maxAttempts);
    assert Holds(w, replica, id);
    forall r | r in w.held && id in w.held[r].worked
      ensures r == replica
    {
      assert BatchOk(w, w.held[r], maxAttempts);
      assert Holds(w, r, id);
    }
  }

  lemma PublishingSame(w: World, d: World, id: nat)
    requires forall r :: r in w.held ==> r in d.held && d.held[r] == w.held[r]
    requires forall r :: r in d.held && r !in w.held ==> d.held[r].worked == map[]
    ensures Publishing(d, id) <==> Publishing(w, id)
  {
  }

  lemma NewNotPublishing(w: World, maxAttempts: nat)
    requires Inv(w, maxAttempts)
    ensures !Publishing(w, w.nextId) && Delivered(w, w.nextId) == 0
  {
  }

  lemma OtherOnce(w: World, step: Step, maxAttempts: nat)
    requires Inv(w, maxAttempts) && OnceEach(w) && Enabled(w, step) && (step.Record? || step.Claim? || step.Purge?)
    ensures OnceEach(Next(w, step, maxAttempts))
  {
    var d := Next(w, step, maxAttempts);
    NewNotPublishing(w, maxAttempts);
    forall id | id in d.rows
      ensures Delivered(d, id) == if d.rows[id].status.Published? || Publishing(d, id) then 1 else 0
    {
      PublishingSame(w, d, id);
    }
  }

  /** In a run without crashes or unheard acknowledgements every row is delivered once when it is
      published, and not at all before. */
  lemma {:induction false} ExactlyOnce(steps: seq<Step>, maxAttempts: nat)
    requires maxAttempts > 0 && Feasible(steps, maxAttempts) && AllClean(steps)
    ensures OnceEach(After(steps, maxAttempts))
  {
    if steps != [] {
      var front, last := steps[..|steps| - 1], steps[|steps| - 1];
      ExactlyOnce(front, maxAttempts);
      RunKeeps(front, maxAttempts);
      var w := After(front, maxAttempts);
      match last
      case Publish(replica, outcome) => PublishOnce(w, replica, outcome, maxAttempts);
      case Commit(replica) => CommitOnce(w, replica, maxAttempts);
      case _ => OtherOnce(w, last, maxAttempts);
    }
  }

  // ---------------------------------------------------------- dispatcher

  /** The rows of a batch after one attempt each. */
  function Worked(rows: map<nat, Message>, ids: seq<nat>, outcomes: seq<Outcome>, now: int,
                  maxAttempts: nat): map<nat, Message>
    requires |outcomes| == |ids| && forall i :: 0 <= i < |ids| ==> ids[i] in rows
  {
    if ids == [] then map[]
    else
      var last := |ids| - 1;
      Worked(rows, ids[..last], outcomes[..last], now, maxAttempts)
        [ids[last] := Attempted(rows[ids[last]], outcomes[last], now, maxAttempts)]
  }

  function CountAccepted(outcomes: seq<Outcome>): nat {
    if outcomes == [] then 0
    else CountAccepted(outcomes[..|outcomes| - 1]) + if outcomes[|outcomes| - 1].Accepted? then 1 else 0
  }

  /** Exactly the claimed rows are worked on, each with the outcome of its own attempt. */
  lemma {:induction false} WorkedExact(rows: map<nat, Message>, ids: seq<nat>, outcomes: seq<Outcome>, now: int,
                                       maxAttempts: nat)
    requires |outcomes| == |ids| && Distinct(ids) && forall i :: 0 <= i < |ids| ==> ids[i] in rows
    ensures var worked := Worked(rows, ids, outcomes, now, maxAttempts);
      && (forall id :: id in worked <==> id in ids)
      && (forall i :: 0 <= i < |ids| ==> worked[ids[i]] == Attempted(rows[ids[i]], outcomes[i], now, maxAttempts))
  {
    if ids != [] {
      var last := |ids| - 1;
      WorkedExact(rows, ids[..last], outcomes[..last], now, maxAttempts);
      assert ids == ids[..last] + [ids[last]];
    }
  }

  /** The count is of the accepted ones, each for one. */
  lemma {:induction false} AcceptedCount(a: seq<Outcome>, b: seq<Outcome>)
    ensures CountAccepted(a + b) == CountAccepted(a) + CountAccepted(b)
    ensures |a| == 1 ==> CountAccepted(a) == if a[0].Accepted? then 1 else 0
  {
    if b == [] {
      assert a + b == a;
    } else {
      assert (a + b)[..|a + b| - 1] == a + b[..|b| - 1];
      AcceptedCount(a, b[..|b| - 1]);
    }
  }

  lemma WorkedStep(rows: map<nat, Message>, ids: seq<nat>, outcomes: seq<Outcome>, k: nat, now: int, maxAttempts: nat)
    requires k < |ids| == |outcomes| && forall i :: 0 <= i < |ids| ==> ids[i] in rows
    ensures rows + Worked(rows, ids[..k + 1], outcomes[..k + 1], now, maxAttempts)
            == (rows + Worked(rows, ids[..k], outcomes[..k], now, maxAttempts))
                 [ids[k] := Attempted(rows[ids[k]], outcomes[k], now, maxAttempts)]
    ensures CountAccepted(outcomes[..k + 1]) == CountAccepted(outcomes[..k]) + if outcomes[k].Accepted? then 1 else 0
  {
    assert ids[..k + 1][..k] == ids[..k] && outcomes[..k + 1][..k] == outcomes[..k];
  }

  class Dispatcher {
    var rows: map<nat, Message>
    const maxAttempts: nat

    constructor (maxAttempts: nat)
      ensures this.maxAttempts == maxAttempts && rows == map[]
    {
      this.maxAttempts := maxAttempts;
      rows := map[];
    }

    /** Record how one attempt ended. */
    method Settle(claimed: Message, outcome: Outcome, now: int) returns (message: Message)
      ensures message == Attempted(claimed, outcome, now, maxAttempts)
    {
      message := claimed;
      if outcome.Accepted? {
        message := message.(status := Published);
        message := message.(publishedAt := Some(now));
      } else {
        message := message.(attempts := message.attempts + 1);
        if message.attempts >= maxAttempts {
          message := message.(status := DeadLetter);
        } else {
          message := message.(status := Failed);
          message := message.(availableAt := now + BackoffFor(message.attempts));
        }
      }
    }

    /** One transaction over one claimed batch; `outcomes` is how the broker answers each message. */
    method RunOnce(ids: seq<nat>, outcomes: seq<Outcome>, now: int) returns (published: nat)
      requires |outcomes| == |ids| && Distinct(ids) && forall i :: 0 <= i < |ids| ==> ids[i] in rows
      modifies this`rows
      ensures rows == old(rows) + Worked(old(rows), ids, outcomes, now, maxAttempts)
      ensures published == CountAccepted(outcomes)
    {
      published := 0;
      for k := 0 to |ids|
        invariant rows == old(rows) + Worked(old(rows), ids[..k], outcomes[..k], now, maxAttempts)
        invariant forall i :: k <= i < |ids| ==> ids[i] in rows && rows[ids[i]] == old(rows)[ids[i]]
        invariant published == CountAccepted(outcomes[..k])
      {
        WorkedStep(old(rows), ids, outcomes, k, now, maxAttempts);
        var message := Settle(rows[ids[k]], outcomes[k], now);
        if outcomes[k].Accepted? {
          published := published + 1;
        }
        rows := rows[ids[k] := message];
      }
      assert ids[..|ids|] == ids && outcomes[..|outcomes|] == outcomes;
    }
  }

  /** Publishing a claimed batch to its end, message by message. */
  ghost function PublishAll(w: World, replica: nat, outcomes: seq<Outcome>, maxAttempts: nat): World
    requires replica in w.held && w.held[replica].done == 0 && |outcomes| <= |w.held[replica].ids|
    requires forall id :: id in w.held[replica].ids ==> id in w.rows
    ensures var d := PublishAll(w, replica, outcomes, maxAttempts);
      && d.rows == w.rows && replica in d.held
      && d.held[replica].ids == w.held[replica].ids && d.held[replica].now == w.held[replica].now
      && d.held[replica].done == |outcomes|
  {
    if outcomes == [] then w
    else
      var before := PublishAll(w, replica, outcomes[..|outcomes| - 1], maxAttempts);
      Next(before, Publish(replica, outcomes[|outcomes| - 1]), maxAttempts)
  }

  lemma {:induction false} PublishAllWorked(w: World, replica: nat, outcomes: seq<Outcome>, maxAttempts: nat)
    requires replica in w.held && w.held[replica].done == 0 && |outcomes| <= |w.held[replica].ids|
    requires w.held[replica].worked == map[]
    requires forall id :: id in w.held[replica].ids ==> id in w.rows
    ensures var batch := w.held[replica];
      PublishAll(w, replica, outcomes, maxAttempts).held[replica].worked
      == Worked(w.rows, batch.ids[..|outcomes|], outcomes, batch.now, maxAttempts)
  {
    if outcomes != [] {
      var k := |outcomes| - 1;
      PublishAllWorked(w, replica, outcomes[..k], maxAttempts);
      assert w.held[replica].ids[..k + 1][..k] == w.held[replica].ids[..k];
    }
  }

  /** What the dispatcher's loop does to the table is what the steps of one replica do to it. */
  lemma RunOnceIsSteps(w: World, replica: nat, outcomes: seq<Outcome>, maxAttempts: nat)
    requires replica in w.held && w.held[replica].done == 0 && |outcomes| == |w.held[replica].ids|
    requires w.held[replica].worked == map[] && forall id :: id in w.held[replica].ids ==> id in w.rows
    ensures var batch := w.held[replica];
      Next(PublishAll(w, replica, outcomes, maxAttempts), Commit(replica), maxAttempts).rows
      == w.rows + Worked(w.rows, batch.ids, outcomes, batch.now, maxAttempts)
  {
    PublishAllWorked(w, replica, outcomes, maxAttempts);
    assert w.held[replica].ids[..|outcomes|] == w.held[replica].ids;
  }
}
