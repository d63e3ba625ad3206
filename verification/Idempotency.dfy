/** Idempotency keys: a reservation is inserted with the work it protects and commits or rolls back with
    it; a later request under the same key gets the stored response. */
module Idempotency {
  import opened Outcomes

  datatype Slot = Slot(key: string, endpoint: string)

  datatype Response = Response(status: nat, body: string)

  /** The exit a record was made for is stored with it, but is not part of the slot. */
  datatype Record = Record(exit: nat, hash: string, response: Option<Response>, expiresAt: int)

  const RETENTION: nat := 24 * 3_600
  const MIN_KEY: nat := 8

  /** How a request starts: it runs (under a reservation, when it has a key), is answered from the record,
      or is refused. */
  datatype Begun = Proceed(reserved: Option<Slot>) | Replay(response: Response) | Refuse(error: Error)

  function Begin(records: map<Slot, Record>, key: Option<string>, endpoint: string, hash: string,
                 required: bool): Begun
  {
    if key.None? then if required then Refuse(Invalid) else Proceed(None)
    else if |key.value| < MIN_KEY then Refuse(Invalid)
    else
      var slot := Slot(key.value, endpoint);
      if slot !in records then Proceed(Some(slot))
      else if records[slot].hash != hash then Refuse(KeyReused)
      else if records[slot].response.None? then Refuse(Conflict)
      else Replay(records[slot].response.value)
  }

  /** The guard of one request, over the records its session sees. */
  class IdempotencyGuard {
    var records: map<Slot, Record>
    var mine: Option<Slot>

    constructor (records: map<Slot, Record>)
      ensures this.records == records && mine == None
    {
      this.records := records;
      mine := None;
    }

    method BeginRequest(key: Option<string>, endpoint: string, exit: nat, hash: string, now: int, required: bool)
      returns (begun: Begun)
      modifies this
      ensures begun == Begin(old(records), key, endpoint, hash, required)
      ensures if begun.Proceed? && begun.reserved.Some?
              then && records == old(records)[begun.reserved.value := Record(exit, hash, None, now + RETENTION)]
                   && mine == begun.reserved
              else records == old(records) && mine == old(mine)
    {
      if key.None? {
        return if required then Refuse(Invalid) else Proceed(None);
      }
      if |key.value| < MIN_KEY {
        return Refuse(Invalid);
      }
      var slot := Slot(key.value, endpoint);
      if slot in records {
        var existing := records[slot];
        if existing.hash != hash {
          return Refuse(KeyReused);
        }
        if existing.response.None? {
          return Refuse(Conflict);
        }
        return Replay(existing.response.value);
      }
      records := records[slot := Record(exit, hash, None, now + RETENTION)];
      mine := Some(slot);
      return Proceed(mine);
    }

    /** Store the response under the reservation, if there is one. */
    method Complete(response: Response)
      requires mine.Some? ==> mine.value in records
      modifies this`records
      ensures records == if mine.None? then old(records)
                         else old(records)[mine.value := old(records)[mine.value].(response := Some(response))]
    {
      if mine.None? {
        return;
      }
      records := records[mine.value := records[mine.value].(response := Some(response))];
    }
  }

  // --------------------------------------------------------------- runs

  /** A request that reserved its key and has not ended. */
  datatype Work = Work(slot: Slot, record: Record)

  datatype Entry =
    | Executed(slot: Slot, exit: nat, hash: string, stored: Option<Response>)
    | Replayed(slot: Slot, exit: nat, hash: string, response: Response)
    | Purged(slots: set<Slot>)

  /** Committed records, open reservations by transaction, and what has happened so far. */
  datatype World = World(records: map<Slot, Record>, open: map<nat, Work>, log: seq<Entry>)

  datatype Step =
    | Start(txn: nat, key: string, endpoint: string, exit: nat, hash: string, now: int)
    | Finish(txn: nat, response: Response)
    | Commit(txn: nat)
    | Rollback(txn: nat)
    | Purge(now: int)

  /** The unique index makes a request wait while another one holds its reservation. */
  predicate Waits(w: World, slot: Slot) {
    exists txn :: txn in w.open && w.open[txn].slot == slot
  }

  predicate Enabled(w: World, step: Step) {
    match step
    case Start(txn, key, endpoint, _, _, _) => txn !in w.open && !Waits(w, Slot(key, endpoint))
    case Finish(txn, _) => txn in w.open
    case Commit(txn) => txn in w.open
    case Rollback(txn) => txn in w.open
    case Purge(_) => true
  }

  function Expired(records: map<Slot, Record>, now: int): set<Slot> {
    set slot | slot in records && records[slot].expiresAt < now
  }

  function Next(w: World, step: Step): World
    requires Enabled(w, step)
  {
    match step
    case Start(txn, key, endpoint, exit, hash, now) =>
      var slot := Slot(key, endpoint);
      (match Begin(w.records, Some(key), endpoint, hash, true)
       case Proceed(_) => w.(open := w.open[txn := Work(slot, Record(exit, hash, None, now + RETENTION))])
       case Replay(response) => w.(log := w.log + [Replayed(slot, exit, hash, response)])
       case Refuse(_) => w)
    case Finish(txn, response) =>
      var work := w.open[txn];
      w.(open := w.open[txn := work.(record := work.record.(response := Some(response)))])
    case Commit(txn) =>
      var work := w.open[txn];
      World(w.records[work.slot := work.record], w.open - {txn},
            w.log + [Executed(work.slot, work.record.exit, work.record.hash, work.record.response)])
    case Rollback(txn) => w.(open := w.open - {txn})
    case Purge(now) =>
      var expired := Expired(w.records, now);
      w.(records := w.records - expired, log := w.log + [Purged(expired)])
  }

  ghost predicate Feasible(steps: seq<Step>)
    decreases |steps|, 0
  {
    steps == [] || (Feasible(steps[..|steps| - 1]) && Enabled(After(steps[..|steps| - 1]), steps[|steps| - 1]))
  }

  ghost function After(steps: seq<Step>): World
    requires Feasible(steps)
    decreases |steps|, 1
  {
    if steps == [] then World(map[], map[], []) else Next(After(steps[..|steps| - 1]), steps[|steps| - 1])
  }

  // ------------------------------------------------------- what happened

  /** The execution that is remembered for a slot: the last one no purge has forgotten. */
  function Remembered(log: seq<Entry>, slot: Slot): Option<Entry> {
    if log == [] then None
    else
      var last := log[|log| - 1];
      if last.Executed? && last.slot == slot then Some(last)
      else if last.Purged? && slot in last.slots then None
      else Remembered(log[..|log| - 1], slot)
  }

  /** Executions under a slot since it was last forgotten. */
  function ExecutionsSince(log: seq<Entry>, slot: Slot): nat {
    if log == [] then 0
    else
      var last := log[|log| - 1];
      if last.Executed? && last.slot == slot then ExecutionsSince(log[..|log| - 1], slot) + 1
      else if last.Purged? && slot in last.slots then 0
      else ExecutionsSince(log[..|log| - 1], slot)
  }

  /** The remembered execution had this body and stored this response. */
  predicate Answers(remembered: Option<Entry>, hash: string, response: Response) {
    && remembered.Some? && remembered.value.Executed?
    && remembered.value.hash == hash && remembered.value.stored == Some(response)
  }

  /** Every replay returns, word for word, the response of the one remembered execution, which had the
      same body; and every execution is the first since its slot was last forgotten. */
  ghost predicate Faithful(log: seq<Entry>) {
    forall i {:trigger log[i]} :: 0 <= i < |log| ==>
      && (log[i].Replayed? ==>
            Answers(Remembered(log[..i], log[i].slot), log[i].hash, log[i].response))
      && (log[i].Executed? ==> ExecutionsSince(log[..i], log[i].slot) == 0)
  }

  ghost predicate Agrees(w: World, slot: Slot) {
    if slot in w.records then
      && var record := w.records[slot];
      && Remembered(w.log, slot) == Some(Executed(slot, record.exit, record.hash, record.response))
      && ExecutionsSince(w.log, slot) == 1
    else
      Remembered(w.log, slot) == None && ExecutionsSince(w.log, slot) == 0
  }

  /** Open reservations are for different slots, none of them recorded yet. */
  ghost predicate Exclusive(w: World) {
    && (forall t, u :: t in w.open && u in w.open && w.open[t].slot == w.open[u].slot ==> t == u)
    && (forall t :: t in w.open ==> w.open[t].slot !in w.records)
  }

  ghost predicate Inv(w: World) {
    && (forall slot :: Agrees(w, slot))
    && Exclusive(w)
    && Faithful(w.log)
  }

  lemma Appended(log: seq<Entry>, entry: Entry, slot: Slot)
    ensures Remembered(log + [entry], slot)
            == if entry.Executed? && entry.slot == slot then Some(entry)
               else if entry.Purged? && slot in entry.slots then None
               else Remembered(log, slot)
    ensures ExecutionsSince(log + [entry], slot)
            == if entry.Executed? && entry.slot == slot then ExecutionsSince(log, slot) + 1
               else if entry.Purged? && slot in entry.slots then 0
               else ExecutionsSince(log, slot)
  {
    assert (log + [entry])[..|log|] == log;
  }

  lemma FaithfulGrows(log: seq<Entry>, entry: Entry)
    requires Faithful(log)
    requires entry.Replayed? ==> Answers(Remembered(log, entry.slot), entry.hash, entry.response)
    requires entry.Executed? ==> ExecutionsSince(log, entry.slot) == 0
    ensures Faithful(log + [entry])
  {
    var grown := log + [entry];
    forall i | 0 <= i < |grown|
      ensures grown[i].Replayed? ==>
        Answers(Remembered(grown[..i], grown[i].slot), grown[i].hash, grown[i].response)
      ensures grown[i].Executed? ==> ExecutionsSince(grown[..i], grown[i].slot) == 0
    {
      assert grown[..i] == log[..i];
      assert i == |log| ==> log[..i] == log;
      assert i < |log| ==> grown[i] == log[i];
    }
  }

  lemma StartKeeps(w: World, step: Step)
    requires Inv(w) && step.Start? && Enabled(w, step)
    ensures Inv(Next(w, step))
  {
    var slot := Slot(step.key, step.endpoint);
    var begun := Begin(w.records, Some(step.key), step.endpoint, step.hash, true);
    if begun.Replay? {
      var entry := Replayed(slot, step.exit, step.hash, begun.response);
      assert Agrees(w, slot);
      FaithfulGrows(w.log, entry);
      forall other
        ensures Agrees(Next(w, step), other)
      {
        assert Agrees(w, other);
        Appended(w.log, entry, other);
      }
    } else if begun.Proceed? {
      forall other
        ensures Agrees(Next(w, step), other)
      {
        assert Agrees(w, other);
      }
    }
  }

  lemma CommitKeeps(w: World, txn: nat)
    requires Inv(w) && txn in w.open
    ensures Inv(Next(w, Commit(txn)))
  {
    var work := w.open[txn];
    var entry := Executed(work.slot, work.record.exit, work.record.hash, work.record.response);
    assert Agrees(w, work.slot);
    FaithfulGrows(w.log, entry);
    forall other
      ensures Agrees(Next(w, Commit(txn)), other)
    {
      assert Agrees(w, other);
      Appended(w.log, entry, other);
    }
  }

  lemma PurgeKeeps(w: World, now: int)
    requires Inv(w)
    ensures Inv(Next(w, Purge(now)))
  {
    var entry := Purged(Expired(w.records, now));
    FaithfulGrows(w.log, entry);
    forall other
      ensures Agrees(Next(w, Purge(now)), other)
    {
      assert Agrees(w, other);
      Appended(w.log, entry, other);
    }
  }

  lemma OpenKeeps(w: World, step: Step)
    requires Inv(w) && Enabled(w, step) && (step.Finish? || step.Rollback?)
    ensures Inv(Next(w, step))
  {
    forall other
      ensures Agrees(Next(w, step), other)
    {
      assert Agrees(w, other);
    }
  }

  lemma {:induction false} RunKeeps(steps: seq<Step>)
    requires Feasible(steps)
    ensures Inv(After(steps))
  {
    if steps != [] {
      RunKeeps(steps[..|steps| - 1]);
      var w, step := After(steps[..|steps| - 1]), steps[|steps| - 1];
      match step
      case Start(_, _, _, _, _, _) => StartKeeps(w, step);
      case Commit(txn) => CommitKeeps(w, txn);
      case Purge(now) => PurgeKeeps(w, now);
      case _ => OpenKeeps(w, step);
    }
  }

  // ------------------------------------------------------------ theorems

  /** Over every run: between purges a key and endpoint execute at most once, and every replay is faithful. */
  lemma AtMostOneExecution(steps: seq<Step>, slot: Slot)
    requires Feasible(steps)
    ensures ExecutionsSince(After(steps).log, slot) <= 1
    ensures Faithful(After(steps).log)
  {
    RunKeeps(steps);
    assert Agrees(After(steps), slot);
  }

  /** A request with a proper key that starts at the end of any run executes exactly when its slot has no
      remembered execution; it is replayed exactly when that execution had the same body and stored a
      response, and then with that response; another body is always refused. */
  lemma StartDecides(steps: seq<Step>, key: string, endpoint: string, hash: string)
    requires Feasible(steps) && |key| >= MIN_KEY
    ensures var known := Remembered(After(steps).log, Slot(key, endpoint));
      Begin(After(steps).records, Some(key), endpoint, hash, true)
      == if known.None? then Proceed(Some(Slot(key, endpoint)))
         else if !known.value.Executed? || known.value.hash != hash then Refuse(KeyReused)
         else if known.value.stored.None? then Refuse(Conflict)
         else Replay(known.value.stored.value)
  {
    RunKeeps(steps);
    assert Agrees(After(steps), Slot(key, endpoint));
  }

  /** Every transaction stores its response before it commits. */
  ghost predicate Careful(steps: seq<Step>)
    requires Feasible(steps)
    decreases |steps|
  {
    steps == [] ||
    (var front, last := steps[..|steps| - 1], steps[|steps| - 1];
     Careful(front) && (last.Commit? ==> After(front).open[last.txn].record.response.Some?))
  }

  ghost predicate AllAnswered(w: World) {
    forall slot :: slot in w.records ==> w.records[slot].response.Some?
  }

  /** "Still being processed" is never answered when responses are stored before the commit: a concurrent
      request waits for the first one instead. */
  lemma {:induction false} NeverInFlight(steps: seq<Step>, key: string, endpoint: string, hash: string)
    requires Feasible(steps) && Careful(steps)
    ensures AllAnswered(After(steps))
    ensures Begin(After(steps).records, Some(key), endpoint, hash, true) != Refuse(Conflict)
  {
    if steps != [] {
      NeverInFlight(steps[..|steps| - 1], key, endpoint, hash);
    }
  }

  // ------------------------------------------------- answers across exits

  /** The remembered execution of a slot ran for an exit other than `exit`, with this body, and stored
      its response. */
  predicate RanForAnother(remembered: Option<Entry>, exit: nat, hash: string) {
    && remembered.Some? && remembered.value.Executed? && remembered.value.exit != exit
    && remembered.value.hash == hash && remembered.value.stored.Some?
  }

  /** The request is answered with what another exit's execution stored. */
  predicate AnsweredForAnother(w: World, exit: nat, key: string, endpoint: string, hash: string) {
    var slot := Slot(key, endpoint);
    Begin(w.records, Some(key), endpoint, hash, true).Replay? && slot in w.records && w.records[slot].exit != exit
  }

  /** The endpoint is a path template without the exit in it, so after any run a request is answered with
      another exit's response exactly when the remembered execution of its key and endpoint ran for
      another exit with the same body and stored a response. */
  lemma AnsweredForAnotherIff(steps: seq<Step>, exit: nat, key: string, endpoint: string, hash: string)
    requires Feasible(steps)
    ensures AnsweredForAnother(After(steps), exit, key, endpoint, hash)
       <==> |key| >= MIN_KEY && RanForAnother(Remembered(After(steps).log, Slot(key, endpoint)), exit, hash)
  {
    RunKeeps(steps);
    assert Agrees(After(steps), Slot(key, endpoint));
  }

  /** Two exits, one key, one body: the second exit's payment is answered with the first one's response
      and never runs. */
  lemma AnotherExitsResponse(endpoint: string, hash: string, response: Response)
    ensures var slot := Slot("12345678", endpoint);
      var steps := [Start(0, "12345678", endpoint, 0, hash, 0), Finish(0, response), Commit(0),
                    Start(1, "12345678", endpoint, 1, hash, 0)];
      && Feasible(steps)
      && After(steps).log == [Executed(slot, 0, hash, Some(response)), Replayed(slot, 1, hash, response)]
  {
    var slot := Slot("12345678", endpoint);
    var steps := [Start(0, "12345678", endpoint, 0, hash, 0), Finish(0, response), Commit(0),
                  Start(1, "12345678", endpoint, 1, hash, 0)];
    assert Feasible(steps[..0]) && After(steps[..0]) == World(map[], map[], []);
    Extend(steps, 0);
    Extend(steps, 1);
    Extend(steps, 2);
    var w := After(steps[..3]);
    assert w.records == map[slot := Record(0, hash, Some(response), RETENTION)];
    assert w.open == map[];
    Extend(steps, 3);
    assert steps[..4] == steps;
  }

  lemma Extend(steps: seq<Step>, k: nat)
    requires k < |steps| && Feasible(steps[..k]) && Enabled(After(steps[..k]), steps[k])
    ensures Feasible(steps[..k + 1]) && After(steps[..k + 1]) == Next(After(steps[..k]), steps[k])
  {
    assert steps[..k + 1][..k] == steps[..k];
  }

  /** Clients never use one key for two exits. */
  predicate KeysApart(steps: seq<Step>) {
    forall i, j :: 0 <= i < |steps| && 0 <= j < |steps| && SameKey(steps[i], steps[j]) ==>
      steps[i].exit == steps[j].exit
  }

  predicate SameKey(a: Step, b: Step) {
    a.Start? && b.Start? && a.key == b.key && a.endpoint == b.endpoint
  }

  /** Some request under this slot was for this exit. */
  predicate AskedFor(steps: seq<Step>, slot: Slot, exit: nat) {
    exists i :: 0 <= i < |steps| && Asks(steps[i], slot, exit)
  }

  predicate Asks(step: Step, slot: Slot, exit: nat) {
    step.Start? && Slot(step.key, step.endpoint) == slot && step.exit == exit
  }

  /** Every record and every open reservation carries the exit of a request under its slot. */
  ghost predicate Traced(w: World, steps: seq<Step>) {
    && (forall slot :: slot in w.records ==> AskedFor(steps, slot, w.records[slot].exit))
    && (forall txn :: txn in w.open ==> AskedFor(steps, w.open[txn].slot, w.open[txn].record.exit))
  }

  lemma AskedForMore(steps: seq<Step>, step: Step, slot: Slot, exit: nat)
    requires AskedFor(steps, slot, exit)
    ensures AskedFor(steps + [step], slot, exit)
  {
    var i :| 0 <= i < |steps| && Asks(steps[i], slot, exit);
    assert (steps + [step])[i] == steps[i];
  }

  lemma {:induction false} RunTraces(steps: seq<Step>)
    requires Feasible(steps)
    ensures Traced(After(steps), steps)
  {
    if steps != [] {
      var front, step := steps[..|steps| - 1], steps[|steps| - 1];
      RunTraces(front);
      assert steps == front + [step];
      forall slot, exit | AskedFor(front, slot, exit)
        ensures AskedFor(steps, slot, exit)
      {
        AskedForMore(front, step, slot, exit);
      }
      if step.Start? {
        assert Asks(steps[|steps| - 1], Slot(step.key, step.endpoint), step.exit);
      }
    }
  }

  /** Every replay answers with the response of an execution for the same exit. */
  ghost predicate OwnAnswers(log: seq<Entry>) {
    forall i {:trigger log[i]} :: 0 <= i < |log| && log[i].Replayed? ==>
      && Remembered(log[..i], log[i].slot).Some? && Remembered(log[..i], log[i].slot).value.Executed?
      && Remembered(log[..i], log[i].slot).value.exit == log[i].exit
  }

  /** Clients that keep keys apart always get their own exit's response. */
  lemma {:induction false} KeysApartOwnAnswers(steps: seq<Step>)
    requires Feasible(steps) && KeysApart(steps)
    ensures OwnAnswers(After(steps).log)
  {
    if steps != [] {
      var front, step := steps[..|steps| - 1], steps[|steps| - 1];
      assert KeysApart(front);
      KeysApartOwnAnswers(front);
      var w, grown := After(front), After(steps).log;
      assert forall i :: 0 <= i < |w.log| ==> grown[i] == w.log[i] && grown[..i] == w.log[..i];
      if |grown| > |w.log| && grown[|w.log|].Replayed? {
        OwnReplay(front, step, steps);
        assert grown[..|w.log|] == w.log;
      }
    }
  }

  lemma OwnReplay(front: seq<Step>, step: Step, steps: seq<Step>)
    requires Feasible(front) && steps == front + [step] && KeysApart(steps)
    requires Enabled(After(front), step) && step.Start?
    requires Begin(After(front).records, Some(step.key), step.endpoint, step.hash, true).Replay?
    ensures var remembered := Remembered(After(front).log, Slot(step.key, step.endpoint));
      remembered.Some? && remembered.value.Executed? && remembered.value.exit == step.exit
  {
    var slot, w := Slot(step.key, step.endpoint), After(front);
    RunKeeps(front);
    RunTraces(front);
    assert Agrees(w, slot);
    AskedForMore(front, step, slot, w.records[slot].exit);
    var i :| 0 <= i < |steps| && Asks(steps[i], slot, w.records[slot].exit);
    assert steps[|front|] == step && SameKey(steps[i], step);
  }

  // ----------------------------------------------------------- retention

  const ONE_DAY: int := 86_400

  /** `steps[i]` reserved this record, a day before it expires. */
  predicate Reserves(step: Step, slot: Slot, record: Record) {
    && step.Start? && Slot(step.key, step.endpoint) == slot
    && step.hash == record.hash && step.exit == record.exit && record.expiresAt == step.now + ONE_DAY
  }

  ghost predicate Reserved(steps: seq<Step>, slot: Slot, record: Record) {
    exists i :: 0 <= i < |steps| && Reserves(steps[i], slot, record)
  }

  /** Records and open reservations all began with a request a day before they expire. */
  ghost predicate AllReserved(w: World, steps: seq<Step>) {
    && (forall slot :: slot in w.records ==> Reserved(steps, slot, w.records[slot]))
    && (forall txn :: txn in w.open ==> Reserved(steps, w.open[txn].slot, w.open[txn].record))
  }

  lemma ReservedMore(steps: seq<Step>, step: Step, slot: Slot, record: Record, response: Option<Response>)
    requires Reserved(steps, slot, record)
    ensures Reserved(steps + [step], slot, record.(response := response))
  {
    var i :| 0 <= i < |steps| && Reserves(steps[i], slot, record);
    assert Reserves((steps + [step])[i], slot, record.(response := response));
  }

  lemma ReservedStep(front: seq<Step>, step: Step)
    requires Feasible(front) && Enabled(After(front), step) && AllReserved(After(front), front)
    ensures AllReserved(Next(After(front), step), front + [step])
  {
    var w, d, steps := After(front), Next(After(front), step), front + [step];
    forall slot, record, response | Reserved(front, slot, record)
      ensures Reserved(steps, slot, record.(response := response))
    {
      ReservedMore(front, step, slot, record, response);
    }
    forall slot | slot in d.records
      ensures Reserved(steps, slot, d.records[slot])
    {
      if slot in w.records && d.records[slot] == w.records[slot] {
        ReservedMore(front, step, slot, w.records[slot], w.records[slot].response);
      } else {
        ReservedMore(front, step, slot, w.open[step.txn].record, w.open[step.txn].record.response);
      }
    }
    forall txn | txn in d.open
      ensures Reserved(steps, d.open[txn].slot, d.open[txn].record)
    {
      if step.Start? && txn == step.txn {
        assert Reserves(steps[|front|], d.open[txn].slot, d.open[txn].record);
      } else {
        ReservedMore(front, step, w.open[txn].slot, w.open[txn].record, d.open[txn].record.response);
      }
    }
  }

  /** In every run a record expires one day after the request that made it. */
  lemma {:induction false} ExpiresAfterADay(steps: seq<Step>)
    requires Feasible(steps)
    ensures AllReserved(After(steps), steps)
  {
    if steps != [] {
      var front, last := steps[..|steps| - 1], steps[|steps| - 1];
      assert steps == front + [last];
      ExpiresAfterADay(front);
      ReservedStep(front, last);
    }
  }

  /** A purge forgets exactly the records that have expired, and nothing else forgets any. */
  lemma ForgottenIff(w: World, step: Step, slot: Slot)
    requires Inv(w) && Enabled(w, step) && slot in w.records
    ensures slot !in Next(w, step).records <==> step.Purge? && w.records[slot].expiresAt < step.now
    ensures slot in Next(w, step).records ==> Next(w, step).records[slot] == w.records[slot]
  {
  }

  /** A key of fewer than eight characters is refused, and so is a request without one that needs one; nothing
      else is refused as malformed. */
  lemma MalformedIff(records: map<Slot, Record>, key: Option<string>, endpoint: string, hash: string, required: bool)
    ensures Begin(records, key, endpoint, hash, required) == Refuse(Invalid)
       <==> if key.Some? then |key.value| < 8 else required
  {
  }
}
