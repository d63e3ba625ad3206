/** The in-process rate limiter: per client a queue of accepted times, pruned from the front, for at most
    ten thousand clients. A reference limiter remembers every accepted time instead. */
module RateLimit {

  const MAX_CLIENTS: nat := 10_000

  // ------------------------------------------------------------ limiter

  /** Clients in the order their buckets were created. */
  datatype Buckets = Buckets(clients: seq<string>, hits: map<string, seq<real>>)

  const EMPTY: Buckets := Buckets([], map[])

  /** Times that are still inside the window, dropped from the front. */
  function Pruned(bucket: seq<real>, cutoff: real): seq<real> {
    if bucket != [] && bucket[0] < cutoff then Pruned(bucket[1..], cutoff) else bucket
  }

  /** What is dropped is stale, and what is kept starts inside the window. */
  lemma {:induction false} PrunedTail(bucket: seq<real>, cutoff: real)
    ensures var kept := Pruned(bucket, cutoff);
      && |kept| <= |bucket| && kept == bucket[|bucket| - |kept|..]
      && (forall i :: 0 <= i < |bucket| - |kept| ==> bucket[i] < cutoff)
      && (kept != [] ==> kept[0] >= cutoff)
  {
    if bucket != [] && bucket[0] < cutoff {
      PrunedTail(bucket[1..], cutoff);
      assert forall i :: 1 <= i < |bucket| ==> bucket[i] == bucket[1..][i - 1];
    }
  }

  /** Make sure the client has a bucket, giving up the oldest bucket when there are too many. */
  function WithBucket(b: Buckets, client: string): Buckets {
    if client in b.hits then b
    else
      var kept := if |b.clients| >= MAX_CLIENTS then Buckets(b.clients[1..], b.hits - {b.clients[0]}) else b;
      Buckets(kept.clients + [client], kept.hits[client := []])
  }

  function Checked(b: Buckets, client: string, now: real, limit: nat, window: nat): (Buckets, bool) {
    var ready := WithBucket(b, client);
    var bucket := Pruned(ready.hits[client], now - window as real);
    if |bucket| >= limit then (ready.(hits := ready.hits[client := bucket]), false)
    else (ready.(hits := ready.hits[client := bucket + [now]]), true)
  }

  class SlidingWindowLimiter {
    const limit: nat
    const window: nat
    var clients: seq<string>
    var hits: map<string, seq<real>>

    function View(): Buckets
      reads this
    {
      Buckets(clients, hits)
    }

    constructor (limit: nat, window: nat)
      ensures this.limit == limit && this.window == window && View() == EMPTY
    {
      this.limit := limit;
      this.window := window;
      clients := [];
      hits := map[];
    }

    method Check(client: string, now: real) returns (accepted: bool)
      modifies this`clients, this`hits
      ensures View() == Checked(old(View()), client, now, limit, window).0
      ensures accepted == Checked(old(View()), client, now, limit, window).1
    {
      EnsureBucket(client);
      ghost var ready := hits;
      var bucket := Prune(hits[client], now - window as real);
      hits := hits[client := bucket];
      accepted := |bucket| < limit;
      if accepted {
        hits := hits[client := bucket + [now]];
        assert hits == ready[client := bucket + [now]];
      }
    }

    method EnsureBucket(client: string)
      modifies this`clients, this`hits
      ensures View() == WithBucket(old(View()), client) && client in hits
    {
      if client !in hits {
        if |clients| >= MAX_CLIENTS {
          hits := hits - {clients[0]};
          clients := clients[1..];
        }
        hits := hits[client := []];
        clients := clients + [client];
      }
    }

    method Prune(bucket: seq<real>, cutoff: real) returns (kept: seq<real>)
      ensures kept == Pruned(bucket, cutoff)
    {
      kept := bucket;
      while kept != [] && kept[0] < cutoff
        invariant Pruned(kept, cutoff) == Pruned(bucket, cutoff)
        decreases |kept|
      {
        kept := kept[1..];
      }
    }
  }

  // ---------------------------------------------------------- reference

  function CountWithin(times: seq<real>, from: real, to: real): nat {
    if times == [] then 0
    else CountWithin(times[..|times| - 1], from, to) + if from <= times[|times| - 1] <= to then 1 else 0
  }

  /** The same limiter with nothing forgotten: a request is accepted when fewer than `limit` accepted ones
      lie in the closed window that ends now. */
  function Remembered(b: Buckets, client: string, now: real, limit: nat, window: nat): (Buckets, bool) {
    var ready := WithBucket(b, client);
    var history := ready.hits[client];
    if CountWithin(history, now - window as real, now) >= limit then (ready, false)
    else (ready.(hits := ready.hits[client := history + [now]]), true)
  }

  // --------------------------------------------------------------- runs

  datatype Request = Request(client: string, now: real)

  predicate InOrder(requests: seq<Request>) {
    forall i, j :: 0 <= i < j < |requests| ==> requests[i].now <= requests[j].now
  }

  function Run(requests: seq<Request>, limit: nat, window: nat): (Buckets, seq<bool>) {
    if requests == [] then (EMPTY, [])
    else
      var (before, verdicts) := Run(requests[..|requests| - 1], limit, window);
      var last := requests[|requests| - 1];
      var (after, verdict) := Checked(before, last.client, last.now, limit, window);
      (after, verdicts + [verdict])
  }

  function ReferenceRun(requests: seq<Request>, limit: nat, window: nat): (Buckets, seq<bool>) {
    if requests == [] then (EMPTY, [])
    else
      var (before, verdicts) := ReferenceRun(requests[..|requests| - 1], limit, window);
      var last := requests[|requests| - 1];
      var (after, verdict) := Remembered(before, last.client, last.now, limit, window);
      (after, verdicts + [verdict])
  }

  // --------------------------------------------------------- refinement

  predicate Sorted(times: seq<real>) {
    forall i, j :: 0 <= i < j < |times| ==> times[i] <= times[j]
  }

  /** `bucket` is the history without a front part that has left every window ending at `now` or later. */
  predicate Remains(bucket: seq<real>, history: seq<real>, now: real, window: nat) {
    && |bucket| <= |history| && bucket == history[|history| - |bucket|..]
    && (forall i :: 0 <= i < |history| - |bucket| ==> history[i] < now - window as real)
    && (forall i :: 0 <= i < |history| ==> history[i] <= now)
    && Sorted(history)
  }

  predicate Refines(b: Buckets, full: Buckets, now: real, window: nat) {
    && b.clients == full.clients
    && b.hits.Keys == full.hits.Keys
    && forall client :: client in b.hits ==> Remains(b.hits[client], full.hits[client], now, window)
  }

  /** Any `limit` + 1 accepted hits span more than a window. */
  predicate Spaced(history: seq<real>, limit: nat, window: nat) {
    forall i, j :: 0 <= i && i + limit <= j < |history| ==> history[i] < history[j] - window as real
  }

  predicate Tracked(b: Buckets) {
    && |b.clients| == |b.hits.Keys| <= MAX_CLIENTS
    && (forall i :: 0 <= i < |b.clients| ==> b.clients[i] in b.hits)
    && (forall i, j :: 0 <= i < j < |b.clients| ==> b.clients[i] != b.clients[j])
  }

  lemma {:induction false} CountNone(times: seq<real>, from: real, to: real, n: nat)
    requires n <= |times| && forall i :: 0 <= i < n ==> times[i] < from
    ensures CountWithin(times, from, to) <= |times| - n
  {
    if times != [] {
      CountNone(times[..|times| - 1], from, to, if n == |times| then n - 1 else n);
    }
  }

  lemma {:induction false} CountRest(times: seq<real>, from: real, to: real, n: nat)
    requires n <= |times| && forall i :: 0 <= i < n ==> times[i] < from
    requires forall i :: n <= i < |times| ==> from <= times[i] <= to
    ensures CountWithin(times, from, to) == |times| - n
  {
    if times != [] {
      CountRest(times[..|times| - 1], from, to, if n == |times| then n - 1 else n);
    }
  }

  predicate AllBelow(times: seq<real>, n: nat, cutoff: real) {
    n <= |times| && forall i :: 0 <= i < n ==> times[i] < cutoff
  }

  lemma BelowExtends(history: seq<real>, bucket: seq<real>, k: nat, cutoff: real)
    requires |bucket| <= |history| && bucket == history[|history| - |bucket|..]
    requires AllBelow(history, |history| - |bucket|, cutoff) && AllBelow(bucket, k, cutoff)
    ensures AllBelow(history, |history| - |bucket| + k, cutoff)
  {
  }

  lemma SortedFrom(history: seq<real>, n: nat, cutoff: real, now: real)
    requires Sorted(history) && n <= |history| && (n < |history| ==> history[n] >= cutoff)
    requires forall i :: 0 <= i < |history| ==> history[i] <= now
    ensures forall i :: n <= i < |history| ==> cutoff <= history[i] <= now
  {
  }

  lemma RemainsWhen(bucket: seq<real>, history: seq<real>, now: real, window: nat)
    requires |bucket| <= |history| && bucket == history[|history| - |bucket|..]
    requires AllBelow(history, |history| - |bucket|, now - window as real)
    requires forall i :: 0 <= i < |history| ==> history[i] <= now
    requires Sorted(history)
    ensures Remains(bucket, history, now, window)
  {
  }

  /** A pruned bucket holds exactly the accepted times of the window that ends now. */
  lemma PrunedCounts(bucket: seq<real>, history: seq<real>, now: real, window: nat)
    requires Remains(bucket, history, now, window)
    ensures Remains(Pruned(bucket, now - window as real), history, now, window)
    ensures |Pruned(bucket, now - window as real)| == CountWithin(history, now - window as real, now)
  {
    var cutoff := now - window as real;
    var kept := Pruned(bucket, cutoff);
    PrunedTail(bucket, cutoff);
    var n := |history| - |kept|;
    TailOfTail(history, bucket, kept);
    BelowExtends(history, bucket, |bucket| - |kept|, cutoff);
    RemainsWhen(kept, history, now, window);
    assert kept != [] ==> kept[0] == history[n];
    SortedFrom(history, n, cutoff, now);
    CountRest(history, cutoff, now, n);
  }

  lemma TailOfTail(history: seq<real>, bucket: seq<real>, kept: seq<real>)
    requires |kept| <= |bucket| <= |history|
    requires bucket == history[|history| - |bucket|..] && kept == bucket[|bucket| - |kept|..]
    ensures kept == history[|history| - |kept|..]
  {
  }

  /** An accepted hit keeps the history sorted and spaced. */
  lemma SpacedGrows(history: seq<real>, now: real, limit: nat, window: nat)
    requires limit > 0 && Sorted(history) && Spaced(history, limit, window)
    requires forall i :: 0 <= i < |history| ==> history[i] <= now
    requires CountWithin(history, now - window as real, now) < limit
    ensures Sorted(history + [now]) && Spaced(history + [now], limit, window)
  {
    var n := |history|;
    if n >= limit && history[n - limit] >= now - window as real {
      CountSome(history, now - window as real, now, n - limit);
    }
    assert forall i :: 0 <= i && i + limit <= n ==> history[i] <= history[n - limit];
  }

  lemma {:induction false} CountSome(times: seq<real>, from: real, to: real, n: nat)
    requires n <= |times| && forall i :: n <= i < |times| ==> from <= times[i] <= to
    ensures CountWithin(times, from, to) >= |times| - n
  {
    if n < |times| {
      CountSome(times[..|times| - 1], from, to, n);
    }
  }

  ghost predicate Good(full: Buckets, limit: nat, window: nat) {
    forall client :: client in full.hits ==> Spaced(full.hits[client], limit, window)
  }

  lemma BucketTracked(b: Buckets, client: string)
    requires Tracked(b)
    ensures Tracked(WithBucket(b, client)) && client in WithBucket(b, client).hits
  {
  }

  lemma BucketRefines(b: Buckets, full: Buckets, client: string, now: real, limit: nat, window: nat)
    requires Refines(b, full, now, window) && Good(full, limit, window)
    requires |b.clients| >= MAX_CLIENTS ==> b.clients != []
    ensures Refines(WithBucket(b, client), WithBucket(full, client), now, window)
    ensures Good(WithBucket(full, client), limit, window)
  {
  }

  lemma Later(b: Buckets, full: Buckets, before: real, now: real, window: nat)
    requires Refines(b, full, before, window) && before <= now
    ensures Refines(b, full, now, window)
  {
  }

  /** One request: same verdict, and the buckets keep refining the histories. */
  lemma CheckRefines(b: Buckets, full: Buckets, client: string, before: real, now: real, limit: nat, window: nat)
    requires Refines(b, full, before, window) && before <= now && limit > 0
    requires Good(full, limit, window) && Tracked(b)
    ensures var (b', verdict) := Checked(b, client, now, limit, window);
      var (full', reference) := Remembered(full, client, now, limit, window);
      verdict == reference && Refines(b', full', now, window) && Good(full', limit, window) && Tracked(b')
  {
    Later(b, full, before, now, window);
    BucketRefines(b, full, client, now, limit, window);
    BucketTracked(b, client);
    HitRefines(WithBucket(b, client), WithBucket(full, client), client, now, limit, window);
  }

  /** The two limiters reach the same verdict. */
  lemma SameVerdict(b: Buckets, full: Buckets, client: string, now: real, limit: nat, window: nat)
    requires Refines(b, full, now, window) && client in b.hits
    ensures |Pruned(b.hits[client], now - window as real)| == CountWithin(full.hits[client], now - window as real, now)
    ensures Remains(Pruned(b.hits[client], now - window as real), full.hits[client], now, window)
  {
    PrunedCounts(b.hits[client], full.hits[client], now, window);
  }

  /** An accepted hit joins both the pruned bucket and the history. */
  lemma AcceptedRefines(b: Buckets, full: Buckets, client: string, now: real, limit: nat, window: nat)
    requires Refines(b, full, now, window) && Good(full, limit, window) && Tracked(b) && client in b.hits && limit > 0
    requires CountWithin(full.hits[client], now - window as real, now) < limit
    ensures var kept := Pruned(b.hits[client], now - window as real);
      var d := b.(hits := b.hits[client := kept + [now]]);
      var e := full.(hits := full.hits[client := full.hits[client] + [now]]);
      Refines(d, e, now, window) && Good(e, limit, window) && Tracked(d)
  {
    var history, kept := full.hits[client], Pruned(b.hits[client], now - window as real);
    SameVerdict(b, full, client, now, limit, window);
    SpacedGrows(history, now, limit, window);
    RemainsGrows(kept, history, now, window);
    Replaced(b, full, client, kept + [now], history + [now], now, limit, window);
  }

  /** A refused one only prunes. */
  lemma RefusedRefines(b: Buckets, full: Buckets, client: string, now: real, limit: nat, window: nat)
    requires Refines(b, full, now, window) && Good(full, limit, window) && Tracked(b) && client in b.hits
    ensures var d := b.(hits := b.hits[client := Pruned(b.hits[client], now - window as real)]);
      Refines(d, full, now, window) && Tracked(d)
  {
    SameVerdict(b, full, client, now, limit, window);
    Replaced(b, full, client, Pruned(b.hits[client], now - window as real), full.hits[client], now, limit, window);
    assert full.hits[client := full.hits[client]] == full.hits;
  }

  lemma HitRefines(b: Buckets, full: Buckets, client: string, now: real, limit: nat, window: nat)
    requires Refines(b, full, now, window) && Good(full, limit, window) && Tracked(b) && client in b.hits && limit > 0
    ensures var (d, verdict) := Checked(b, client, now, limit, window);
      var (e, reference) := Remembered(full, client, now, limit, window);
      verdict == reference && Refines(d, e, now, window) && Good(e, limit, window) && Tracked(d)
  {
    SameVerdict(b, full, client, now, limit, window);
    if CountWithin(full.hits[client], now - window as real, now) < limit {
      AcceptedRefines(b, full, client, now, limit, window);
    } else {
      RefusedRefines(b, full, client, now, limit, window);
    }
  }

  /** Replacing one client's bucket and history. */
  lemma Replaced(b: Buckets, full: Buckets, client: string, bucket: seq<real>, history: seq<real>,
                 now: real, limit: nat, window: nat)
    requires Refines(b, full, now, window) && Good(full, limit, window) && Tracked(b) && client in b.hits
    requires Remains(bucket, history, now, window) && Spaced(history, limit, window)
    ensures var d, e := b.(hits := b.hits[client := bucket]), full.(hits := full.hits[client := history]);
      Refines(d, e, now, window) && Good(e, limit, window) && Tracked(d)
  {
    ReplacedTracked(b, client, bucket);
    ReplacedRefines(b, full, client, bucket, history, now, window);
  }

  lemma ReplacedTracked(b: Buckets, client: string, bucket: seq<real>)
    requires Tracked(b) && client in b.hits
    ensures Tracked(b.(hits := b.hits[client := bucket]))
  {
    assert b.hits[client := bucket].Keys == b.hits.Keys;
  }

  lemma ReplacedRefines(b: Buckets, full: Buckets, client: string, bucket: seq<real>, history: seq<real>,
                        now: real, window: nat)
    requires Refines(b, full, now, window) && client in b.hits && Remains(bucket, history, now, window)
    ensures Refines(b.(hits := b.hits[client := bucket]), full.(hits := full.hits[client := history]), now, window)
  {
    assert b.hits[client := bucket].Keys == b.hits.Keys && full.hits[client := history].Keys == full.hits.Keys;
  }

  lemma RemainsGrows(bucket: seq<real>, history: seq<real>, now: real, window: nat)
    requires Remains(bucket, history, now, window)
    ensures Remains(bucket + [now], history + [now], now, window)
  {
  }

  /** Over every run whose times do not decrease, forgetting never changes a verdict. */
  lemma {:induction false} PruningChangesNothing(requests: seq<Request>, limit: nat, window: nat)
    requires limit > 0 && InOrder(requests)
    ensures Run(requests, limit, window).1 == ReferenceRun(requests, limit, window).1
    ensures Refines(Run(requests, limit, window).0, ReferenceRun(requests, limit, window).0,
                    if requests == [] then 0.0 else requests[|requests| - 1].now, window)
    ensures Good(ReferenceRun(requests, limit, window).0, limit, window)
    ensures Tracked(Run(requests, limit, window).0)
  {
    if requests != [] {
      var front, last := requests[..|requests| - 1], requests[|requests| - 1];
      PruningChangesNothing(front, limit, window);
      var b, full := Run(front, limit, window).0, ReferenceRun(front, limit, window).0;
      var before := if front == [] then last.now else front[|front| - 1].now;
      CheckRefines(b, full, last.client, before, last.now, limit, window);
    }
  }

  /** While a client's bucket lives, no closed window holds more than `limit` of its accepted hits, and
      never more than ten thousand clients are tracked. */
  lemma WindowsHold(requests: seq<Request>, limit: nat, window: nat, client: string, from: real)
    requires limit > 0 && InOrder(requests) && client in ReferenceRun(requests, limit, window).0.hits
    ensures CountWithin(ReferenceRun(requests, limit, window).0.hits[client], from, from + window as real) <= limit
    ensures |Run(requests, limit, window).0.clients| <= MAX_CLIENTS
  {
    PruningChangesNothing(requests, limit, window);
    assert Remains(Run(requests, limit, window).0.hits[client], ReferenceRun(requests, limit, window).0.hits[client],
                   if requests == [] then 0.0 else requests[|requests| - 1].now, window);
    SpacedBounds(ReferenceRun(requests, limit, window).0.hits[client], from, limit, window);
  }

  lemma {:induction false} SpacedBounds(history: seq<real>, from: real, limit: nat, window: nat)
    requires limit > 0 && Sorted(history) && Spaced(history, limit, window)
    ensures CountWithin(history, from, from + window as real) <= limit
  {
    if history != [] {
      var last := |history| - 1;
      if from <= history[last] <= from + window as real {
        CountNone(history, from, from + window as real, if last >= limit then last - limit + 1 else 0);
      } else {
        SpacedBounds(history[..last], from, limit, window);
      }
    }
  }

  // ------------------------------------------------------------ isolation

  /** A request touches no other client's queue; only a new client, when ten thousand are tracked, takes the
      place of the one whose queue is the oldest. */
  lemma OthersUntouched(b: Buckets, client: string, other: string, now: real, limit: nat, window: nat)
    requires Tracked(b) && other in b.hits && other != client
    ensures var after := Checked(b, client, now, limit, window).0;
      if client !in b.hits && |b.clients| == 10_000 && other == b.clients[0]
      then other !in after.hits
      else other in after.hits && after.hits[other] == b.hits[other]
  {
  }

  /** Known clients keep their places in the line, and a new one joins at its end. */
  lemma LineKept(b: Buckets, client: string, now: real, limit: nat, window: nat)
    requires Tracked(b)
    ensures Checked(b, client, now, limit, window).0.clients ==
      if client in b.hits then b.clients
      else (if |b.clients| == 10_000 then b.clients[1..] else b.clients) + [client]
  {
  }

  /** A client starts afresh, and its first request is accepted whenever any is. */
  lemma FirstAccepted(b: Buckets, client: string, now: real, limit: nat, window: nat)
    requires client !in b.hits
    ensures Checked(b, client, now, limit, window).1 <==> limit > 0
    ensures Checked(b, client, now, limit, window).0.hits[client] == if limit > 0 then [now] else []
  {
  }
}
