/** The handler pool of a queue worker: workers share one cursor over the received messages, and
    the messages that were handled are deleted in batches. */
module SqsPool {
  import opened Options

  const SQS_BATCH_LIMIT: int := 10

  datatype Message = Message(id: int, receiptHandle: Option<int>)

  /** A JavaScript number, as far as it matters here. */
  datatype Number = NotFinite | Finite(value: real)

  /** `normalizeSqsWorkerCount`. */
  function WorkerCount(value: Number): (n: int)
    ensures 1 <= n <= 10
    ensures value.Finite? && 1.0 <= value.value < 11.0 ==> n as real <= value.value < n as real + 1.0
    ensures value.NotFinite? || value.value < 1.0 ==> n == 1
    ensures value.Finite? && value.value >= 11.0 ==> n == 10
  {
    var numeric := if value.Finite? then value.value.Floor else 1;
    if numeric < 1 then 1 else if numeric > SQS_BATCH_LIMIT then SQS_BATCH_LIMIT else numeric
  }

  /** A worker handles the message of an index, or has left the loop, or was ended by a deadline. */
  datatype Worker = Handling(index: nat) | Left | Dead

  datatype Outcome = Resolved | Rejected | TimedOut

  /** The fate of a started message. */
  datatype Fate = InFlight | Handled | Failed | Late

  // ---------- what holds between two steps

  ghost predicate DistinctIndexes(s: seq<nat>) { forall i, j :: 0 <= i < j < |s| ==> s[i] != s[j] }

  /** `fates` has an entry for every message that was started, in the order of the messages. */
  ghost predicate PoolOk(messages: seq<Message>, limit: nat, workers: seq<Worker>, next: nat, successful: seq<nat>, fates: seq<Fate>, shutdown: bool) {
    && next <= |messages| && |fates| == next && |workers| <= limit
    // each worker has one message, and no message has two workers
    && (forall w :: 0 <= w < |workers| && workers[w].Handling? ==> workers[w].index < next && fates[workers[w].index].InFlight?)
    && (forall v, w :: 0 <= v < w < |workers| && workers[v].Handling? && workers[w].Handling? ==> workers[v].index != workers[w].index)
    && (forall i :: 0 <= i < next && fates[i].InFlight? ==> exists w :: 0 <= w < |workers| && workers[w] == Handling(i))
    // the successful messages are those whose handler resolved, each once
    && DistinctIndexes(successful)
    && (forall i: nat :: i in successful <==> i < next && fates[i].Handled?)
    // a worker leaves only when nothing is left or the process shuts down
    && (forall w :: 0 <= w < |workers| && workers[w].Left? ==> next == |messages| || shutdown)
    && ((exists i :: 0 <= i < next && fates[i].Late?) ==> exists w :: 0 <= w < |workers| && workers[w].Dead?)
  }

  /** The loop head of worker `w`: it takes the next message or leaves. */
  function Taken(messages: seq<Message>, workers: seq<Worker>, w: nat, next: nat, shutdown: bool): seq<Worker>
    requires w < |workers|
  {
    workers[w := if !shutdown && next < |messages| then Handling(next) else Left]
  }

  lemma TakeKeeps(messages: seq<Message>, limit: nat, workers: seq<Worker>, next: nat, successful: seq<nat>, fates: seq<Fate>, shutdown: bool, w: nat)
    requires w < |workers| && PoolOk(messages, limit, workers[w := Left], next, successful, fates, true)
    requires forall v :: 0 <= v < |workers| && v != w && workers[v].Left? ==> next == |messages| || shutdown
    ensures var go := !shutdown && next < |messages|;
            PoolOk(messages, limit, Taken(messages, workers, w, next, shutdown), if go then next + 1 else next, successful,
                   if go then fates + [InFlight] else fates, shutdown)
  {
    var before, after := workers[w := Left], Taken(messages, workers, w, next, shutdown);
    assert forall v :: 0 <= v < |workers| && v != w ==> after[v] == before[v] == workers[v];
    forall i | 0 <= i < next && fates[i].InFlight?
      ensures exists v :: 0 <= v < |after| && after[v] == Handling(i)
    {
      var v :| 0 <= v < |before| && before[v] == Handling(i);
      assert after[v] == Handling(i);
    }
    if !shutdown && next < |messages| { assert after[w] == Handling(next); }
    if exists i :: 0 <= i < next && fates[i].Late? {
      var v :| 0 <= v < |before| && before[v].Dead?;
      assert after[v].Dead?;
    }
  }

  /** The fate of the message that worker `w` gives up. */
  function FateOf(outcome: Outcome): Fate {
    match outcome
    case Resolved => Handled
    case Rejected => Failed
    case TimedOut => Late
  }

  lemma ResolvedOnce(successful: seq<nat>, i: nat)
    requires DistinctIndexes(successful) && i !in successful
    ensures DistinctIndexes(successful + [i])
  {
  }

  lemma FinishKeeps(messages: seq<Message>, limit: nat, workers: seq<Worker>, next: nat, successful: seq<nat>, fates: seq<Fate>, shutdown: bool, w: nat, outcome: Outcome)
    requires PoolOk(messages, limit, workers, next, successful, fates, shutdown) && w < |workers| && workers[w].Handling?
    ensures var i := workers[w].index;
            && i < |fates| && i !in successful
            && PoolOk(messages, limit, workers[w := if outcome.TimedOut? then Dead else Left], next,
                      if outcome.Resolved? then successful + [i] else successful, fates[i := FateOf(outcome)],
                      if outcome.TimedOut? then shutdown else true)
  {
    hide DistinctIndexes;
    var i := workers[w].index;
    ResolvedOnce(successful, i);
    var after, fates', successful' := workers[w := if outcome.TimedOut? then Dead else Left], fates[i := FateOf(outcome)],
      if outcome.Resolved? then successful + [i] else successful;
    assert forall v :: 0 <= v < |workers| && v != w ==> after[v] == workers[v];
    forall j | 0 <= j < next && fates'[j].InFlight?
      ensures exists v :: 0 <= v < |after| && after[v] == Handling(j)
    {
      var v :| 0 <= v < |workers| && workers[v] == Handling(j);
      assert after[v] == Handling(j);
    }
    if outcome.TimedOut? {
      assert after[w].Dead?;
    } else if exists j :: 0 <= j < next && fates[j].Late? {
      var v :| 0 <= v < |workers| && workers[v].Dead?;
      assert after[v].Dead?;
    }
  }

  lemma ShutdownKeeps(messages: seq<Message>, limit: nat, workers: seq<Worker>, next: nat, successful: seq<nat>, fates: seq<Fate>, shutdown: bool)
    requires PoolOk(messages, limit, workers, next, successful, fates, shutdown)
    ensures PoolOk(messages, limit, workers, next, successful, fates, true)
  {
  }

  /** No more handlers run than there are workers. */
  lemma {:induction false} BoundedInFlight(workers: seq<Worker>, running: set<nat>)
    requires forall i <- running :: exists w :: 0 <= w < |workers| && workers[w] == Handling(i)
    ensures |running| <= |workers|
  {
    if workers == [] {
      assert running == {};
    } else {
      var n := |workers| - 1;
      var rest := if workers[n].Handling? then running - {workers[n].index} else running;
      forall i | i in rest
        ensures exists w :: 0 <= w < n && workers[..n][w] == Handling(i)
      {
        var w :| 0 <= w < |workers| && workers[w] == Handling(i);
        assert workers[..n][w] == Handling(i);
      }
      BoundedInFlight(workers[..n], rest);
    }
  }

  function MessagesAt(messages: seq<Message>, indexes: seq<nat>): seq<Message>
    requires forall k :: 0 <= k < |indexes| ==> indexes[k] < |messages|
  {
    seq(|indexes|, k requires 0 <= k < |indexes| => messages[indexes[k]])
  }

  datatype Settlement = Pending | PoolRejected | PoolResolved(successful: seq<Message>)

  /** `processWithConcurrency`. Its workers run until they await a handler; the steps are the ends
      of handlers and the request to shut down. */
  class Pool {
    const messages: seq<Message>
    const workerCount: nat
    var workers: seq<Worker>
    var next: nat
    var successful: seq<Message>
    var shutdownRequested: bool
    /** The indexes of the successful messages, and the fate of each started one. */
    ghost var indexes: seq<nat>
    ghost var fates: seq<Fate>

    ghost predicate Valid()
      reads this
    {
      && PoolOk(messages, workerCount, workers, next, indexes, fates, shutdownRequested)
      && (forall k :: 0 <= k < |indexes| ==> indexes[k] < |messages|) && successful == MessagesAt(messages, indexes)
    }

    /** The messages whose handlers run. */
    ghost function Running(): set<nat>
      reads this
    {
      set i: nat | i < |fates| && fates[i].InFlight?
    }

    constructor (messages: seq<Message>, maxConcurrency: Number, shutdownRequested: bool)
      ensures Valid() && this.messages == messages && |workers| == workerCount
      ensures workerCount == if |messages| < WorkerCount(maxConcurrency) then |messages| else WorkerCount(maxConcurrency)
      ensures this.shutdownRequested == shutdownRequested
    {
      this.messages := messages;
      workerCount := if |messages| < WorkerCount(maxConcurrency) then |messages| else WorkerCount(maxConcurrency);
      workers, next, successful, this.shutdownRequested := [], 0, [], shutdownRequested;
      indexes, fates := [], [];
      new;
      hide PoolOk;
      PoolEmpty(messages, workerCount, shutdownRequested);
      while |workers| < workerCount
        invariant Valid() && |workers| <= workerCount && this.shutdownRequested == shutdownRequested
        decreases workerCount - |workers|
      {
        WorkerJoins(messages, workerCount, workers, next, indexes, fates, shutdownRequested);
        workers := workers + [Left];
        LoopHead(|workers| - 1);
      }
    }

    /** The condition of the worker's loop and, if it holds, the start of the next handler. */
    method LoopHead(w: nat)
      requires w < |workers| && PoolOk(messages, workerCount, workers[w := Left], next, indexes, fates, true)
      requires forall v :: 0 <= v < |workers| && v != w && workers[v].Left? ==> next == |messages| || shutdownRequested
      requires (forall k :: 0 <= k < |indexes| ==> indexes[k] < |messages|) && successful == MessagesAt(messages, indexes)
      modifies this`workers, this`next, this`fates
      ensures Valid() && workers == Taken(messages, old(workers), w, old(next), shutdownRequested)
      ensures var go := !shutdownRequested && old(next) < |messages|;
              next == old(next) + (if go then 1 else 0) && fates == old(fates) + if go then [InFlight] else []
    {
      hide PoolOk;
      TakeKeeps(messages, workerCount, workers, next, indexes, fates, shutdownRequested, w);
      if !shutdownRequested && next < |messages| {
        workers := workers[w := Handling(next)];
        next := next + 1;
        fates := fates + [InFlight];
      } else {
        workers := workers[w := Left];
      }
    }

    /** The handler of worker `w` resolves, rejects, or misses its deadline. */
    method HandlerEnds(w: nat, outcome: Outcome)
      requires Valid() && w < |workers| && workers[w].Handling?
      modifies this`workers, this`next, this`fates, this`indexes, this`successful
      ensures Valid() && old(workers)[w].index < |old(fates)|
      ensures var i, go := old(workers)[w].index, !outcome.TimedOut? && !shutdownRequested && old(next) < |messages|;
              && workers == (if outcome.TimedOut? then old(workers)[w := Dead] else Taken(messages, old(workers), w, old(next), shutdownRequested))
              && next == old(next) + (if go then 1 else 0)
              && fates == old(fates)[i := FateOf(outcome)] + if go then [InFlight] else []
      ensures successful == old(successful) + if outcome.Resolved? then [messages[old(workers)[w].index]] else []
    {
      hide PoolOk;
      var i := workers[w].index;
      FinishKeeps(messages, workerCount, workers, next, indexes, fates, shutdownRequested, w, outcome);
      LeftOnlyAtEnd(messages, workerCount, workers, next, indexes, fates, shutdownRequested);
      fates := fates[i := FateOf(outcome)];
      if outcome.TimedOut? {
        workers := workers[w := Dead];
        return;
      }
      if outcome.Resolved? {
        successful := successful + [messages[i]];
        indexes := indexes + [i];
      }
      LoopHead(w);
    }

    method RequestShutdown()
      requires Valid()
      modifies this`shutdownRequested
      ensures Valid() && shutdownRequested
    {
      ShutdownKeeps(messages, workerCount, workers, next, indexes, fates, shutdownRequested);
      shutdownRequested := true;
    }

    /** `Promise.all`: it rejects with the first missed deadline, and resolves when all workers have left. */
    method Settled() returns (r: Settlement)
      requires Valid()
      ensures r.PoolResolved? ==> r.successful == successful && Running() == {}
      ensures r.PoolResolved? && !shutdownRequested && |workers| > 0 ==> next == |messages|
      ensures r.PoolRejected? <==> exists w :: 0 <= w < |workers| && workers[w].Dead?
      ensures !r.PoolRejected? ==> forall i :: 0 <= i < |fates| ==> !fates[i].Late?
      ensures r.Pending? ==> exists w :: 0 <= w < |workers| && workers[w].Handling?
    {
      if exists w :: 0 <= w < |workers| && workers[w].Dead? { return PoolRejected; }
      if exists w :: 0 <= w < |workers| && workers[w].Handling? { return Pending; }
      assert |workers| > 0 ==> workers[0].Left?;
      r := PoolResolved(successful);
    }

    /** In every state at most `workerCount` handlers run. */
    lemma InFlightBounded()
      requires Valid()
      ensures |Running()| <= |workers| <= workerCount
    {
      BoundedInFlight(workers, Running());
    }
  }

  lemma PoolEmpty(messages: seq<Message>, limit: nat, shutdown: bool)
    ensures PoolOk(messages, limit, [], 0, [], [], shutdown) && MessagesAt(messages, []) == []
  {
  }

  lemma WorkerJoins(messages: seq<Message>, limit: nat, workers: seq<Worker>, next: nat, successful: seq<nat>, fates: seq<Fate>, shutdown: bool)
    requires PoolOk(messages, limit, workers, next, successful, fates, shutdown) && |workers| < limit
    ensures PoolOk(messages, limit, (workers + [Left])[|workers| := Left], next, successful, fates, true)
    ensures forall v :: 0 <= v < |workers| && workers[v].Left? ==> next == |messages| || shutdown
  {
    var more := workers + [Left];
    assert more[|workers| := Left] == more;
    assert forall v :: 0 <= v < |workers| ==> more[v] == workers[v];
    forall i | 0 <= i < next && fates[i].InFlight?
      ensures exists w :: 0 <= w < |more| && more[w] == Handling(i)
    {
      var w :| 0 <= w < |workers| && workers[w] == Handling(i);
      assert more[w] == Handling(i);
    }
    if exists i :: 0 <= i < next && fates[i].Late? {
      var w :| 0 <= w < |workers| && workers[w].Dead?;
      assert more[w].Dead?;
    }
  }

  lemma LeftOnlyAtEnd(messages: seq<Message>, limit: nat, workers: seq<Worker>, next: nat, successful: seq<nat>, fates: seq<Fate>, shutdown: bool)
    requires PoolOk(messages, limit, workers, next, successful, fates, shutdown)
    ensures forall v :: 0 <= v < |workers| && workers[v].Left? ==> next == |messages| || shutdown
    ensures forall w :: 0 <= w < |workers| && workers[w].Handling? ==> workers[w].index < next <= |messages| && |fates| == next
  {
  }

  // ---------- deletion

  function Ackable(messages: seq<Message>): (r: seq<Message>)
    ensures forall m :: m in r <==> m in messages && m.receiptHandle.Some?
  {
    if messages == [] then []
    else
      var n := |messages| - 1;
      assert messages == messages[..n] + [messages[n]];
      Ackable(messages[..n]) + if messages[n].receiptHandle.Some? then [messages[n]] else []
  }

  /** The service's answer to the k-th delete request: the entries it names as deleted, or nothing
      when the request fails. */
  type Answers = nat -> Option<set<nat>>

  /** How many of the first `size` entries an answer confirms. */
  function Confirmed(answer: Option<set<nat>>, size: nat): nat {
    if answer.None? || size == 0 then 0
    else Confirmed(answer, size - 1) + if size - 1 in answer.value then 1 else 0
  }

  function Concat(batches: seq<seq<Message>>): seq<Message> {
    if batches == [] then [] else Concat(batches[..|batches| - 1]) + batches[|batches| - 1]
  }

  function TotalConfirmed(batches: seq<seq<Message>>, answers: Answers): nat {
    if batches == [] then 0
    else TotalConfirmed(batches[..|batches| - 1], answers) + Confirmed(answers(|batches| - 1), |batches[|batches| - 1]|)
  }

  /** The entries of a request that an answer names; a failed request confirms none. */
  lemma {:induction false} ConfirmedExactly(answer: Option<set<nat>>, size: nat)
    ensures Confirmed(answer, size) == if answer.None? then 0 else |set i: nat | i < size && i in answer.value|
  {
    if answer.Some? {
      if size == 0 {
        assert (set i: nat | i < size && i in answer.value) == {};
      } else {
        ConfirmedExactly(answer, size - 1);
        var before, all := set i: nat | i < size - 1 && i in answer.value, set i: nat | i < size && i in answer.value;
        assert all == if size - 1 in answer.value then before + {size - 1} else before;
      }
    }
  }

  /** `deleteMessageBatch`: the number of confirmed entries. */
  method DeleteMessageBatch(batch: seq<Message>, answer: Option<set<nat>>) returns (count: nat)
    ensures count == Confirmed(answer, |batch|)
    ensures count == if answer.None? then 0 else |set i: nat | i < |batch| && i in answer.value|
  {
    ConfirmedExactly(answer, |batch|);
    count := 0;
    if batch == [] || answer.None? { return; }
    var i := 0;
    while i < |batch|
      invariant 0 <= i <= |batch| && count == Confirmed(answer, i)
    {
      if i in answer.value { count := count + 1; }
      i := i + 1;
    }
  }

  /** The second half of `processSqsMessages`: every handled message with a receipt is asked to be
      deleted exactly once, at most ten at a time, and the confirmed deletions are counted. */
  method DeleteHandled(successful: seq<Message>, answers: Answers) returns (acknowledged: nat, batches: seq<seq<Message>>)
    ensures Concat(batches) == Ackable(successful)
    ensures forall k :: 0 <= k < |batches| ==> 0 < |batches[k]| <= 10
    ensures acknowledged == TotalConfirmed(batches, answers) <= |Ackable(successful)|
  {
    var ackable := Ackable(successful);
    acknowledged, batches := 0, [];
    var offset := 0;
    while offset < |ackable|
      invariant 0 <= offset <= |ackable| && Concat(batches) == ackable[..offset]
      invariant forall k :: 0 <= k < |batches| ==> 0 < |batches[k]| <= SQS_BATCH_LIMIT
      invariant acknowledged == TotalConfirmed(batches, answers)
    {
      var end := if offset + SQS_BATCH_LIMIT < |ackable| then offset + SQS_BATCH_LIMIT else |ackable|;
      var batch := ackable[offset..end];
      var count := DeleteMessageBatch(batch, answers(|batches|));
      acknowledged := acknowledged + count;
      assert (batches + [batch])[..|batches|] == batches;
      assert ackable[..offset] + batch == ackable[..end];
      batches := batches + [batch];
      offset := end;
    }
    assert ackable[..offset] == ackable;
    ConfirmedAtMost(batches, answers);
  }

  lemma {:induction false} ConfirmedAtMost(batches: seq<seq<Message>>, answers: Answers)
    ensures TotalConfirmed(batches, answers) <= |Concat(batches)|
  {
    if batches != [] {
      ConfirmedAtMost(batches[..|batches| - 1], answers);
      OneAtMost(answers(|batches| - 1), |batches[|batches| - 1]|);
    }
  }

  lemma {:induction false} OneAtMost(answer: Option<set<nat>>, size: nat)
    ensures Confirmed(answer, size) <= size
  {
    if size > 0 { OneAtMost(answer, size - 1); }
  }

  /** `processSqsMessages` once its pool has settled: after a missed deadline nothing is deleted;
      otherwise only messages whose handler resolved and that have a receipt. */
  method Acknowledge(pool: Pool, answers: Answers) returns (acknowledged: Option<nat>, batches: seq<seq<Message>>)
    requires pool.Valid()
    ensures acknowledged.None? ==> batches == []
    ensures acknowledged.Some? ==> pool.Running() == {} && Concat(batches) == Ackable(pool.successful)
    ensures acknowledged.Some? ==> acknowledged.value == TotalConfirmed(batches, answers)
    ensures forall m <- Concat(batches) ::
            m.receiptHandle.Some? && exists i: nat :: i < |pool.fates| && i < |pool.messages| && pool.fates[i].Handled? && pool.messages[i] == m
  {
    hide Ackable;
    var settled := pool.Settled();
    if !settled.PoolResolved? { return None, []; }
    var count, all := DeleteHandled(settled.successful, answers);
    HandledOnly(pool.messages, pool.workerCount, pool.workers, pool.next, pool.indexes, pool.fates, pool.shutdownRequested);
    acknowledged, batches := Some(count), all;
  }

  lemma HandledOnly(messages: seq<Message>, limit: nat, workers: seq<Worker>, next: nat, indexes: seq<nat>, fates: seq<Fate>, shutdown: bool)
    requires PoolOk(messages, limit, workers, next, indexes, fates, shutdown) && forall k :: 0 <= k < |indexes| ==> indexes[k] < |messages|
    ensures forall m <- MessagesAt(messages, indexes) :: exists i: nat :: i < |fates| && i < |messages| && fates[i].Handled? && messages[i] == m
  {
    forall m | m in MessagesAt(messages, indexes)
      ensures exists i: nat :: i < |fates| && i < |messages| && fates[i].Handled? && messages[i] == m
    {
      var k :| 0 <= k < |indexes| && MessagesAt(messages, indexes)[k] == m;
      assert indexes[k] in indexes;
      assert fates[indexes[k]].Handled? && messages[indexes[k]] == m;
    }
  }
}
