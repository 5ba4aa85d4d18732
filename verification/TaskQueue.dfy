/** The rate-limited, bounded-concurrency task queue. Its code runs to the next await without
    interruption, so each method below is one such step: an enqueue, a timer that wakes the
    processing loop, a task that settles, a wait, a clear. Tasks are named by tickets in the order
    in which they were enqueued. */
module TaskQueue {
  import opened Options

  datatype Stats = Stats(settledCount: nat, failedCount: nat)

  datatype Resolution = Resolution(waiter: nat, stats: Stats)

  ghost predicate StrictlyAscending(s: seq<int>) {
    forall i, j :: 0 <= i < j < |s| ==> s[i] < s[j]
  }

  /** Two starts in a row are at least `delay` apart. */
  ghost predicate Spaced(times: seq<int>, delay: int) {
    forall i :: 0 <= i < |times| - 1 ==> times[i] + delay <= times[i + 1]
  }

  ghost function Tickets(s: seq<nat>): set<nat> { set t | t in s }

  ghost function Below(n: nat): (r: set<nat>)
    ensures forall t: nat :: t in r <==> t < n
  {
    if n == 0 then {} else Below(n - 1) + {n - 1}
  }

  function Most(a: int, b: int): int { if a < b then b else a }

  const COMPACTION: nat := 1000

  /** The history of a run. `cycle` holds the tickets settled since the statistics were last reset,
      `cycleFailures` those of them that failed. */
  datatype Log = Log(
    starts: seq<nat>, times: seq<int>, running: set<nat>, settled: set<nat>, cleared: set<nat>, now: int,
    cycle: set<nat>, cycleFailures: set<nat>)

  /** Nothing but starts was added. */
  ghost predicate Grown(a: Log, b: Log) {
    b == a.(starts := b.starts, times := b.times, running := b.running) && a.starts <= b.starts && a.times <= b.times
  }

  ghost function Restarted(log: Log, counting: bool): Log { if counting then log else log.(cycle := {}, cycleFailures := {}) }

  ghost function Settled(log: Log, ticket: nat, failed: bool): Log {
    log.(settled := log.settled + {ticket}, cycle := log.cycle + {ticket},
         cycleFailures := log.cycleFailures + if failed then {ticket} else {})
  }

  /** Everything that the steps look at or that is said about a run, as one value: the fields of the
      queue, and the history of the run. */
  datatype State = State(
    queue: seq<nat>, head: nat, runningCount: int, isProcessing: bool, counting: bool, waiters: seq<nat>,
    issued: nat, starts: seq<nat>, times: seq<int>, running: set<nat>, settled: set<nat>, cleared: set<nat>, now: int)
  {
    ghost function Pending(): seq<nat>
      requires head <= |queue|
    {
      queue[head..]
    }
  }

  /** Every ticket is settled, running, pending or cleared, and only one of these; tickets start in
      order and once. */
  ghost predicate Accounted(s: State)
    requires s.head <= |s.queue|
  {
    && StrictlyAscending(s.starts + s.Pending())
    && Tickets(s.starts) == s.running + s.settled && s.running !! s.settled
    && Below(s.issued) == Tickets(s.starts) + Tickets(s.Pending()) + s.cleared
    && s.cleared !! Tickets(s.starts) && s.cleared !! Tickets(s.Pending())
    && |s.running| == s.runningCount
  }

  /** Starts keep their distance, and while nothing sleeps the distance has passed. */
  ghost predicate Timed(s: State, delay: int) {
    && |s.times| == |s.starts| && Spaced(s.times, delay)
    && (s.times != [] ==> s.times[|s.times| - 1] <= s.now)
    && (s.isProcessing ==> delay > 0 && s.times != [])
    && (!s.isProcessing && s.times != [] ==> s.times[|s.times| - 1] + delay <= s.now)
  }

  /** What holds between any two steps. */
  ghost predicate Good(s: State, delay: int, maxConcurrent: int) {
    && delay >= 0 && s.head <= |s.queue| && s.head <= COMPACTION + (if s.isProcessing then 1 else 0)
    && Accounted(s) && Timed(s, delay)
    && 0 <= s.runningCount <= Most(maxConcurrent, 0)
    // no lost wakeup
    && (s.Pending() != [] ==> s.isProcessing || s.runningCount >= maxConcurrent)
    && (s.Pending() != [] || s.runningCount > 0 ==> s.counting)
    // no forgotten waiter
    && (s.waiters != [] ==> s.Pending() != [] || s.runningCount > 0)
  }

  // ---------- consequences

  /** The four kinds of tickets add up. */
  lemma Conservation(s: State, delay: int, maxConcurrent: int)
    requires Good(s, delay, maxConcurrent)
    ensures s.issued == |s.settled| + s.runningCount + |s.Pending()| + |s.cleared|
  {
    hide Tickets, Below, StrictlyAscending, Timed;
    SplitAscending(s.starts, s.Pending());
    AscendingSize(s.starts);
    AscendingSize(s.Pending());
    BelowSize(s.issued);
    UnionSize(Tickets(s.starts), Tickets(s.Pending()));
    UnionSize(Tickets(s.starts) + Tickets(s.Pending()), s.cleared);
    UnionSize(s.running, s.settled);
  }

  /** No more tasks run than the limit says, and none waits while one more could run and nobody starts it. */
  lemma Concurrency(s: State, delay: int, maxConcurrent: int)
    requires Good(s, delay, maxConcurrent)
    ensures maxConcurrent >= 0 ==> |s.running| <= maxConcurrent
    ensures maxConcurrent < 0 ==> s.running == {}
    ensures s.queue[s.head..] != [] && !s.isProcessing ==> |s.running| >= maxConcurrent
    ensures s.waiters != [] ==> s.queue[s.head..] != [] || s.running != {}
  {
    hide Tickets, Below, StrictlyAscending, Timed;
  }

  lemma UnionSize(a: set<nat>, b: set<nat>)
    requires a !! b
    ensures |a + b| == |a| + |b|
  {
  }

  lemma {:induction false} AscendingSize(s: seq<nat>)
    requires StrictlyAscending(s)
    ensures |Tickets(s)| == |s|
  {
    if s == [] {
      assert Tickets(s) == {};
    } else {
      var n := |s| - 1;
      AscendingSize(s[..n]);
      assert s == s[..n] + [s[n]];
      assert Tickets(s) == Tickets(s[..n]) + {s[n]};
      assert s[n] !in s[..n];
    }
  }

  lemma {:induction false} BelowSize(n: nat)
    ensures |Below(n)| == n
  {
    if n == 0 {
      assert Below(n) == {};
    } else {
      BelowSize(n - 1);
      assert Below(n) == Below(n - 1) + {n - 1};
    }
  }

  lemma SplitAscending(a: seq<nat>, b: seq<nat>)
    requires StrictlyAscending(a + b)
    ensures StrictlyAscending(a) && StrictlyAscending(b) && Tickets(a) !! Tickets(b)
  {
    assert forall i :: 0 <= i < |a| ==> (a + b)[i] == a[i];
    assert forall j :: 0 <= j < |b| ==> (a + b)[|a| + j] == b[j];
    forall i, j | 0 <= i < |a| && 0 <= j < |b|
      ensures a[i] < b[j]
    {
      assert (a + b)[i] < (a + b)[|a| + j];
    }
  }

  /** A ticket that starts before another was enqueued before it, and starts only once. */
  lemma FirstInFirstOut(s: State, delay: int, maxConcurrent: int, i: nat, j: nat)
    requires Good(s, delay, maxConcurrent) && i < j < |s.starts|
    ensures s.starts[i] < s.starts[j]
    ensures forall t <- s.Pending() :: s.starts[i] < t
  {
    var all := s.starts + s.Pending();
    assert all[i] < all[j];
    forall t | t in s.Pending()
      ensures s.starts[i] < t
    {
      var k :| 0 <= k < |s.Pending()| && s.Pending()[k] == t;
      assert all[i] < all[|s.starts| + k];
    }
  }

  lemma {:induction false} SpacedApart(times: seq<int>, delay: int, i: nat, j: nat)
    requires Spaced(times, delay) && delay >= 0 && i <= j < |times|
    ensures times[i] + (j - i) * delay <= times[j]
  {
    if i < j {
      SpacedApart(times, delay, i, j - 1);
      assert times[j - 1] + delay <= times[j - 1 + 1];
      assert (j - i) * delay == (j - 1 - i) * delay + delay;
    }
  }

  /** A window of length T holds at most T / delay + 1 starts. */
  lemma RateLimit(s: State, delay: int, maxConcurrent: int, i: nat, j: nat, window: nat)
    requires Good(s, delay, maxConcurrent) && delay > 0
    requires i <= j < |s.times| && s.times[j] - s.times[i] <= window
    ensures j - i + 1 <= window / delay + 1
  {
    SpacedApart(s.times, delay, i, j);
    Quotient(j - i, delay, window);
  }

  lemma Quotient(n: nat, d: int, w: nat)
    requires d > 0 && n * d <= w
    ensures n <= w / d
  {
    var q := w / d;
    var k := n - q;
    assert w == q * d + w % d && w % d < d;
    assert n * d == q * d + k * d;
    ProductGrows(k, d);
  }

  lemma ProductGrows(k: int, d: int)
    requires d > 0
    ensures k >= 1 ==> k * d >= d
  {
    if k >= 1 {
      assert (k - 1) * d >= 0;
      assert k * d == (k - 1) * d + d;
    }
  }

  // ---------- steps on states

  /** At the head of the processing loop, which is awake. */
  ghost predicate Awake(s: State, delay: int, maxConcurrent: int) {
    && delay >= 0 && s.head <= |s.queue| && s.head <= COMPACTION && s.isProcessing
    && Accounted(s)
    && |s.times| == |s.starts| && Spaced(s.times, delay) && (s.times != [] ==> s.times[|s.times| - 1] + delay <= s.now)
    && 0 <= s.runningCount <= Most(maxConcurrent, 0)
    && (s.Pending() != [] || s.runningCount > 0 ==> s.counting)
    && (s.waiters != [] ==> s.Pending() != [] || s.runningCount > 0)
  }

  /** The loop stops at capacity or when nothing is pending. */
  lemma LoopEnds(s: State, delay: int, maxConcurrent: int)
    requires Awake(s, delay, maxConcurrent) && (s.runningCount >= maxConcurrent || s.Pending() == [])
    ensures Good(s.(isProcessing := false), delay, maxConcurrent)
  {
    assert s.(isProcessing := false).Pending() == s.Pending();
  }

  lemma PendingEmpty(s: State)
    requires s.head <= |s.queue|
    ensures s.Pending() == [] <==> s.head == |s.queue|
  {
  }

  /** Dropping the started front of the array does not change the queue. */
  function Compacted(s: State): State
    requires s.head <= |s.queue|
  {
    if s.head > COMPACTION then s.(queue := s.queue[s.head..], head := 0) else s
  }

  lemma CompactionKeepsPending(s: State)
    requires s.head <= |s.queue|
    ensures Compacted(s).head <= COMPACTION && Compacted(s).head <= |Compacted(s).queue| && Compacted(s).Pending() == s.Pending()
  {
  }

  function Start(s: State): State
    requires s.head < |s.queue|
  {
    var t := s.queue[s.head];
    s.(head := s.head + 1, runningCount := s.runningCount + 1, starts := s.starts + [t], times := s.times + [s.now], running := s.running + {t})
  }

  lemma TicketsSnoc(s: seq<nat>, t: nat)
    ensures Tickets(s + [t]) == Tickets(s) + {t}
  {
  }

  lemma TicketsCons(t: nat, s: seq<nat>)
    ensures Tickets([t] + s) == {t} + Tickets(s)
  {
  }

  lemma TicketIn(s: seq<nat>, t: nat)
    ensures t in s <==> t in Tickets(s)
  {
  }

  lemma StartAccounted(s: State)
    requires s.head < |s.queue| && Accounted(s)
    ensures Accounted(Start(s)) && s.starts + s.Pending() == Start(s).starts + Start(s).Pending()
  {
    hide Below, Tickets, StrictlyAscending;
    var t, rest := s.queue[s.head], s.queue[s.head + 1..];
    assert s.Pending() == [t] + rest;
    MoveOver(s.starts, t, rest);
    TicketsSnoc(s.starts, t);
    TicketsCons(t, rest);
    SplitAscending(s.starts, s.Pending());
    MoveTicket(Tickets(s.starts), Tickets(s.Pending()), Tickets(rest), s.running, s.settled, s.cleared, t);
    OneMore(s.running, t);
  }

  lemma MoveTicket(started: set<nat>, pending: set<nat>, rest: set<nat>, running: set<nat>, settled: set<nat>, cleared: set<nat>, t: nat)
    requires started == running + settled && running !! settled && started !! pending && pending == {t} + rest
    requires cleared !! started && cleared !! pending
    ensures t !in running && started + {t} == (running + {t}) + settled && (running + {t}) !! settled
    ensures started + pending + cleared == (started + {t}) + rest + cleared && cleared !! (started + {t}) && cleared !! rest
  {
  }

  lemma MoveOver(a: seq<nat>, t: nat, b: seq<nat>)
    ensures a + ([t] + b) == (a + [t]) + b
  {
  }

  lemma OneMore(a: set<nat>, t: nat)
    requires t !in a
    ensures |a + {t}| == |a| + 1
  {
  }

  lemma SpacedSnoc(times: seq<int>, delay: int, at: int)
    requires Spaced(times, delay) && (times != [] ==> times[|times| - 1] + delay <= at)
    ensures Spaced(times + [at], delay)
  {
  }

  /** A start when there is room; afterwards the loop sleeps, or without a delay goes on. */
  lemma StartKeeps(s: State, delay: int, maxConcurrent: int)
    requires Awake(s, delay, maxConcurrent) && s.head < |s.queue| && s.runningCount < maxConcurrent
    ensures delay > 0 ==> Good(Start(s), delay, maxConcurrent)
    ensures delay == 0 ==> Awake(Compacted(Start(s)), delay, maxConcurrent)
    ensures s.starts + s.Pending() == Start(s).starts + Start(s).Pending()
  {
    hide Accounted, Spaced;
    StartAccounted(s);
    SpacedSnoc(s.times, delay, s.now);
    CompactionKeepsPending(Start(s));
    CompactedAccounted(Start(s));
  }

  lemma CompactedAccounted(s: State)
    requires s.head <= |s.queue| && Accounted(s)
    ensures Accounted(Compacted(s))
  {
    hide StrictlyAscending, Tickets, Below;
    CompactionKeepsPending(s);
  }

  /** The timer wakes the loop. */
  lemma WakeKeeps(s: State, at: int, delay: int, maxConcurrent: int)
    requires Good(s, delay, maxConcurrent) && s.isProcessing && s.times[|s.times| - 1] + delay <= at
    ensures Awake(Compacted(s.(now := at)), delay, maxConcurrent)
  {
    hide Accounted, Spaced;
    var later := s.(now := at);
    TimePasses(s, at);
    CompactionKeepsPending(later);
    CompactedAccounted(later);
  }

  lemma TimePasses(s: State, at: int)
    requires s.head <= |s.queue| && Accounted(s)
    ensures Accounted(s.(now := at)) && s.(now := at).Pending() == s.Pending()
  {
    hide StrictlyAscending, Tickets, Below;
  }

  lemma LaterIsGood(s: State, at: int, delay: int, maxConcurrent: int)
    requires Good(s, delay, maxConcurrent) && s.now <= at
    ensures Good(s.(now := at), delay, maxConcurrent)
  {
    hide Accounted, Spaced;
    TimePasses(s, at);
  }

  function Push(s: State): State {
    s.(queue := s.queue + [s.issued], issued := s.issued + 1, counting := true)
  }

  lemma {:induction false} AscendingPush(s: seq<nat>, n: nat)
    requires StrictlyAscending(s) && Tickets(s) <= Below(n)
    ensures StrictlyAscending(s + [n])
  {
    forall i | 0 <= i < |s|
      ensures s[i] < n
    {
      assert s[i] in Tickets(s);
    }
  }

  lemma TicketsConcat(a: seq<nat>, b: seq<nat>)
    ensures Tickets(a + b) == Tickets(a) + Tickets(b)
  {
  }

  lemma PushAccounted(s: State)
    requires s.head <= |s.queue| && Accounted(s)
    ensures Push(s).Pending() == s.Pending() + [s.issued] && Accounted(Push(s))
  {
    hide Tickets, StrictlyAscending;
    assert Push(s).Pending() == s.Pending() + [s.issued];
    assert s.starts + (s.Pending() + [s.issued]) == (s.starts + s.Pending()) + [s.issued];
    TicketsConcat(s.starts, s.Pending());
    AscendingPush(s.starts + s.Pending(), s.issued);
    TicketsSnoc(s.Pending(), s.issued);
    assert s.issued !in Below(s.issued);
  }

  /** A new task wakes the loop unless it is at work. */
  lemma PushKeeps(s: State, delay: int, maxConcurrent: int)
    requires Good(s, delay, maxConcurrent)
    ensures Push(s).Pending() == s.Pending() + [s.issued]
    ensures s.isProcessing ==> Good(Push(s), delay, maxConcurrent)
    ensures !s.isProcessing ==> Awake(Push(s).(isProcessing := true), delay, maxConcurrent)
  {
    hide Accounted, Spaced;
    PushAccounted(s);
    WhileProcessing(Push(s));
  }

  lemma WhileProcessing(s: State)
    requires s.head <= |s.queue| && Accounted(s)
    ensures Accounted(s.(isProcessing := true)) && s.(isProcessing := true).Pending() == s.Pending()
  {
    hide StrictlyAscending, Tickets, Below;
  }

  function Settle(s: State, t: nat): State {
    s.(runningCount := s.runningCount - 1, running := s.running - {t}, settled := s.settled + {t})
  }

  /** `triggerFinish`. */
  function Finish(s: State): State { s.(counting := false, waiters := []) }

  lemma SettleAccounted(s: State, t: nat)
    requires s.head <= |s.queue| && Accounted(s) && t in s.running
    ensures Accounted(Settle(s, t)) && Settle(s, t).Pending() == s.Pending() && t in s.running
  {
    hide StrictlyAscending, Below, Tickets;
    assert |s.running - {t}| == |s.running| - 1;
  }

  /** A settled task ends the run, or wakes the loop. */
  lemma SettleKeeps(s: State, t: nat, delay: int, maxConcurrent: int)
    requires Good(s, delay, maxConcurrent) && t in s.running
    ensures Settle(s, t).Pending() == s.Pending() && s.counting && s.runningCount > 0
    ensures s.Pending() == [] && s.runningCount == 1 ==> Good(Finish(Settle(s, t)), delay, maxConcurrent)
    ensures !(s.Pending() == [] && s.runningCount == 1) && (s.isProcessing || s.Pending() == []) ==> Good(Settle(s, t), delay, maxConcurrent)
    ensures !s.isProcessing && s.Pending() != [] ==> Awake(Settle(s, t).(isProcessing := true), delay, maxConcurrent)
  {
    hide Spaced, Accounted;
    SettleAccounted(s, t);
    SomeRunning(s, t);
    WhileProcessing(Settle(s, t));
    FinishAccounted(Settle(s, t));
  }

  lemma FinishAccounted(s: State)
    requires s.head <= |s.queue| && Accounted(s)
    ensures Accounted(Finish(s)) && Finish(s).Pending() == s.Pending()
  {
    hide StrictlyAscending, Below, Tickets;
  }

  lemma SomeRunning(s: State, t: nat)
    requires s.head <= |s.queue| && Accounted(s) && t in s.running
    ensures s.runningCount > 0
  {
    hide StrictlyAscending, Below, Tickets;
    assert |s.running| > 0;
  }

  ghost function Clear(s: State): State
    requires s.head <= |s.queue|
  {
    s.(queue := [], head := 0, cleared := s.cleared + Tickets(s.Pending()))
  }

  lemma ClearAccounted(s: State)
    requires s.head <= |s.queue| && Accounted(s)
    ensures Accounted(Clear(s)) && Clear(s).Pending() == []
  {
    hide StrictlyAscending, Below, Tickets;
    SplitAscending(s.starts, s.Pending());
    assert Clear(s).Pending() == [] && s.starts + [] == s.starts;
    NoTickets();
  }

  lemma NoTickets()
    ensures Tickets([]) == {}
  {
  }

  /** Clearing keeps the running tasks and the sleeping loop. */
  lemma ClearKeeps(s: State, delay: int, maxConcurrent: int)
    requires Good(s, delay, maxConcurrent)
    ensures s.runningCount > 0 ==> Good(Clear(s), delay, maxConcurrent)
    ensures s.runningCount == 0 ==> Good(Finish(Clear(s)), delay, maxConcurrent)
    ensures !s.counting ==> s.waiters == []
  {
    hide Spaced, Accounted;
    ClearAccounted(s);
    FinishAccounted(Clear(s));
  }

  // ---------- the queue

  class Queue {
    const rateLimitDelay: int
    const maxConcurrent: int
    var queue: seq<nat>
    var head: nat
    var runningCount: int
    var isProcessing: bool
    /** `startTime !== null`. */
    var counting: bool
    var settledCount: nat
    var failedCount: nat
    var failedItems: seq<nat>
    var waitPromises: seq<nat>
    /** The number of tickets issued; it only names the tasks. */
    var issued: nat
    /** The waiters that were given their statistics, in order. */
    var resolved: seq<Resolution>
    /** The history of the run. */
    ghost var log: Log

    ghost function Now(): State
      reads this`queue, this`head, this`runningCount, this`isProcessing, this`counting, this`waitPromises, this`issued, this`log
    {
      State(queue, head, runningCount, isProcessing, counting, waitPromises, issued, log.starts, log.times, log.running, log.settled, log.cleared,
            log.now)
    }

    ghost predicate Valid()
      reads this`queue, this`head, this`runningCount, this`isProcessing, this`counting, this`waitPromises, this`issued, this`log
    {
      Good(Now(), rateLimitDelay, maxConcurrent)
    }

    /** The tickets that wait for their start: what the queue is, apart from how it is stored. */
    ghost function Pending(): seq<nat>
      requires head <= |queue|
      reads this`queue, this`head
    {
      queue[head..]
    }

    constructor (rateLimitDelay: int, maxConcurrent: int)
      requires rateLimitDelay >= 0
      ensures Valid() && Counted() && issued == 0 && waitPromises == [] && resolved == [] && Pending() == []
      ensures log == Log([], [], {}, {}, {}, 0, {}, {}) && settledCount == failedCount == 0
      ensures this.rateLimitDelay == rateLimitDelay && this.maxConcurrent == maxConcurrent
    {
      this.rateLimitDelay, this.maxConcurrent := rateLimitDelay, maxConcurrent;
      queue, head, runningCount, isProcessing, counting := [], 0, 0, false, false;
      settledCount, failedCount, failedItems, waitPromises, resolved := 0, 0, [], [], [];
      issued, log := 0, Log([], [], {}, {}, {}, 0, {}, {});
    }

    /** The processing loop, from where it is awake to where it sleeps or ends. */
    method Continue()
      requires Awake(Now(), rateLimitDelay, maxConcurrent)
      modifies this`queue, this`head, this`runningCount, this`isProcessing, this`log
      ensures Valid() && log.starts + Pending() == old(log.starts + Pending()) && Grown(old(log), log)
    {
      hide Accounted, Spaced, Tickets, Below, StrictlyAscending, Most, Good;
      while head < |queue|
        invariant Awake(Now(), rateLimitDelay, maxConcurrent) && log.starts + Pending() == old(log.starts + Pending())
        invariant Grown(old(log), log)
        decreases |queue| - head
      {
        ghost var s := Now();
        if runningCount >= maxConcurrent {
          LoopEnds(s, rateLimitDelay, maxConcurrent);
          isProcessing := false;
          return;
        }
        StartKeeps(s, rateLimitDelay, maxConcurrent);
        CompactionKeepsPending(Start(s));
        var item := queue[head];
        head := head + 1;
        runningCount := runningCount + 1;
        log := log.(starts := log.starts + [item], times := log.times + [log.now], running := log.running + {item});
        if rateLimitDelay > 0 { return; }
        if head > COMPACTION {
          queue := queue[head..];
          head := 0;
        }
      }
      LoopEnds(Now(), rateLimitDelay, maxConcurrent);
      isProcessing := false;
    }

    /** `process`, called after a push or after a task has settled. */
    method Process()
      requires head <= |queue|
      requires isProcessing || Pending() == [] ==> Valid()
      requires !isProcessing && Pending() != [] ==> Awake(Now().(isProcessing := true), rateLimitDelay, maxConcurrent)
      modifies this`queue, this`head, this`runningCount, this`isProcessing, this`log
      ensures Valid() && log.starts + Pending() == old(log.starts + Pending()) && Grown(old(log), log)
    {
      hide Accounted, Spaced;
      PendingEmpty(Now());
      if isProcessing || head >= |queue| { return; }
      isProcessing := true;
      Continue();
    }

    /** The statistics count the tasks settled since they were reset. */
    ghost predicate Counted()
      reads this`settledCount, this`failedCount, this`failedItems, this`log
    {
      StatsOk(settledCount, failedCount, |failedItems|, log.settled, log.cycle, log.cycleFailures)
    }

    /** The first half of `enqueue`: a queue that has finished counts anew. */
    method StartCounting()
      requires Counted()
      modifies this`counting, this`settledCount, this`failedCount, this`failedItems, this`log
      ensures Counted() && counting
      ensures log == Restarted(old(log), old(counting))
    {
      log := Restarted(log, counting);
      if !counting {
        counting := true;
        settledCount, failedCount, failedItems := 0, 0, [];
      }
    }

    /** `enqueue`: the task goes to the end of the queue. */
    method Enqueue(ghost at: int) returns (ticket: nat)
      requires Valid() && Counted() && at >= log.now
      modifies this`queue, this`head, this`runningCount, this`isProcessing, this`counting, this`settledCount, this`failedCount,
               this`failedItems, this`issued, this`log
      ensures Valid() && Counted() && ticket == old(issued) && issued == old(issued) + 1
      ensures log.starts + Pending() == old(log.starts + Pending()) + [ticket]
      ensures Grown(Restarted(old(log), old(counting)).(now := at), log)
    {
      hide Good, Awake, Tickets, StatsOk;
      PushKeeps(Now().(now := at), rateLimitDelay, maxConcurrent) by { LaterIsGood(Now(), at, rateLimitDelay, maxConcurrent); }
      PushedOnto(log.starts, queue, head, issued, Now(), rateLimitDelay, maxConcurrent);
      log := log.(now := at);
      StartCounting();
      ticket := issued;
      queue := queue + [ticket];
      issued := issued + 1;
      Process();
    }

    /** The timer of the processing loop fires, never before its time. */
    method TimerFires(ghost at: int)
      requires Valid() && isProcessing && at >= log.now && log.times[|log.times| - 1] + rateLimitDelay <= at
      modifies this`queue, this`head, this`runningCount, this`isProcessing, this`log
      ensures Valid() && log.starts + Pending() == old(log.starts + Pending()) && Grown(old(log).(now := at), log)
    {
      hide Accounted, Spaced, Tickets;
      WakeKeeps(Now(), at, rateLimitDelay, maxConcurrent);
      CompactionKeepsPending(Now().(now := at));
      log := log.(now := at);
      if head > COMPACTION {
        queue := queue[head..];
        head := 0;
      }
      Continue();
    }

    /** `triggerFinish`: the waiters get the statistics in the order in which they came. */
    method TriggerFinish()
      requires !counting ==> waitPromises == []
      modifies this`counting, this`waitPromises, this`resolved
      ensures !counting && waitPromises == []
      ensures resolved == old(resolved) + Resolutions(old(waitPromises), Stats(settledCount, failedCount))
    {
      if !counting {
        assert Resolutions([], Stats(settledCount, failedCount)) == [];
        return;
      }
      var stats := Stats(settledCount, failedCount);
      counting := false;
      while waitPromises != []
        invariant !counting && resolved + Resolutions(waitPromises, stats) == old(resolved) + Resolutions(old(waitPromises), stats)
        decreases |waitPromises|
      {
        ResolutionsHead(waitPromises, stats);
        resolved := resolved + [Resolution(waitPromises[0], stats)];
        waitPromises := waitPromises[1..];
      }
      assert Resolutions([], stats) == [];
    }

    /** A task settles: the `finally` of `executeTask`. */
    method TaskSettles(ticket: nat, failed: bool, ghost at: int)
      requires Valid() && Counted() && ticket in log.running && at >= log.now
      modifies this`queue, this`head, this`runningCount, this`isProcessing, this`counting, this`settledCount, this`failedCount,
               this`failedItems, this`waitPromises, this`resolved, this`log
      ensures Valid() && Counted() && ticket !in old(log.settled)
      ensures log.starts + Pending() == old(log.starts + Pending()) && Grown(Settled(old(log), ticket, failed).(now := at), log)
      ensures if old(Pending()) == [] && old(runningCount) == 1
              then resolved == old(resolved) + Resolutions(old(waitPromises), Stats(settledCount, failedCount)) && waitPromises == []
                   && Pending() == [] && runningCount == 0
              else resolved == old(resolved) && waitPromises == old(waitPromises)
    {
      hide Good, Awake, Tickets, Resolutions, StatsOk;
      ghost var s := Now().(now := at);
      SettleKeeps(s, ticket, rateLimitDelay, maxConcurrent) by { LaterIsGood(Now(), at, rateLimitDelay, maxConcurrent); }
      NotSettledYet(Now(), ticket, rateLimitDelay, maxConcurrent);
      log := log.(now := at);
      UpdateMetrics(ticket, failed);
      runningCount := runningCount - 1;
      log := log.(running := log.running - {ticket});
      FinishOrProcess();
    }

    /** The last lines of `executeTask`. */
    method FinishOrProcess()
      requires head <= |queue| && counting
      requires Pending() == [] && runningCount == 0 ==> Good(Finish(Now()), rateLimitDelay, maxConcurrent)
      requires !(Pending() == [] && runningCount == 0) && (isProcessing || Pending() == []) ==> Valid()
      requires !isProcessing && Pending() != [] ==> Awake(Now().(isProcessing := true), rateLimitDelay, maxConcurrent)
      modifies this`queue, this`head, this`runningCount, this`isProcessing, this`counting, this`waitPromises, this`resolved,
               this`log
      ensures Valid() && log.starts + Pending() == old(log.starts + Pending()) && Grown(old(log), log)
      ensures if old(Pending()) == [] && old(runningCount) == 0
              then resolved == old(resolved) + Resolutions(old(waitPromises), Stats(settledCount, failedCount)) && waitPromises == []
                   && Pending() == [] && runningCount == 0
              else resolved == old(resolved) && waitPromises == old(waitPromises)
    {
      hide Good, Awake, Tickets, Resolutions;
      PendingEmpty(Now());
      if head >= |queue| && runningCount == 0 {
        TriggerFinish();
      } else {
        Process();
      }
    }

    /** The statistics of a settled task. */
    method UpdateMetrics(ticket: nat, failed: bool)
      requires Counted() && ticket !in log.settled
      modifies this`settledCount, this`failedCount, this`failedItems, this`log
      ensures Counted() && log == Settled(old(log), ticket, failed)
    {
      if failed {
        failedCount := failedCount + 1;
        if |failedItems| < 500 { failedItems := failedItems + [ticket]; }
      }
      settledCount := settledCount + 1;
      log := Settled(log, ticket, failed);
    }

    /** `waitUntilFinished`: statistics at once when the queue is idle, otherwise later. */
    method WaitUntilFinished(waiter: nat, ghost at: int) returns (stats: Option<Stats>)
      requires Valid() && at >= log.now
      modifies this`waitPromises, this`log
      ensures Valid() && log == old(log).(now := at)
      ensures stats == if Pending() == [] && runningCount == 0 then Some(Stats(settledCount, failedCount)) else None
      ensures waitPromises == old(waitPromises) + if stats.None? then [waiter] else []
    {
      hide Accounted, Spaced;
      LaterIsGood(Now(), at, rateLimitDelay, maxConcurrent);
      log := log.(now := at);
      PendingEmpty(Now());
      if head >= |queue| && runningCount == 0 { return Some(Stats(settledCount, failedCount)); }
      WaitersKeep(Now(), waiter, rateLimitDelay, maxConcurrent);
      waitPromises := waitPromises + [waiter];
      stats := None;
    }

    /** `clear`: what is pending is forgotten; what runs goes on. */
    method ClearQueue(ghost at: int)
      requires Valid() && at >= log.now
      modifies this`queue, this`head, this`counting, this`waitPromises, this`resolved, this`log
      ensures Valid() && Pending() == [] && log == old(log).(now := at, cleared := old(log.cleared) + Tickets(old(Pending())))
      ensures if runningCount == 0
              then resolved == old(resolved) + Resolutions(old(waitPromises), Stats(settledCount, failedCount)) && waitPromises == []
              else resolved == old(resolved) && waitPromises == old(waitPromises)
    {
      hide Accounted, Spaced, Tickets;
      LaterIsGood(Now(), at, rateLimitDelay, maxConcurrent);
      log := log.(now := at);
      ClearKeeps(Now(), rateLimitDelay, maxConcurrent);
      log := log.(cleared := log.cleared + Tickets(Pending()));
      queue := [];
      head := 0;
      if runningCount == 0 { TriggerFinish(); }
    }
  }

  lemma PushedOnto(starts: seq<nat>, queue: seq<nat>, head: nat, ticket: nat, s: State, delay: int, maxConcurrent: int)
    requires Good(s, delay, maxConcurrent) && s.head == head && s.queue == queue
    ensures head <= |queue| && starts + (queue + [ticket])[head..] == (starts + queue[head..]) + [ticket]
  {
    hide Accounted, Timed;
    assert (queue + [ticket])[head..] == queue[head..] + [ticket];
  }

  ghost predicate StatsOk(settledCount: nat, failedCount: nat, listed: nat, settled: set<nat>, cycle: set<nat>, cycleFailures: set<nat>) {
    && settledCount == |cycle| && failedCount == |cycleFailures| && cycleFailures <= cycle <= settled
    && listed == Least(failedCount, 500)
  }

  function Least(a: nat, b: nat): nat { if a < b then a else b }

  function Resolutions(waiters: seq<nat>, stats: Stats): seq<Resolution> {
    seq(|waiters|, i requires 0 <= i < |waiters| => Resolution(waiters[i], stats))
  }

  lemma ResolutionsHead(waiters: seq<nat>, stats: Stats)
    requires waiters != []
    ensures Resolutions(waiters, stats) == [Resolution(waiters[0], stats)] + Resolutions(waiters[1..], stats)
  {
  }

  lemma NotSettledYet(s: State, t: nat, delay: int, maxConcurrent: int)
    requires Good(s, delay, maxConcurrent) && t in s.running
    ensures t !in s.settled && s.head <= |s.queue| && s.counting && s.runningCount > 0
  {
    hide Timed, Tickets, Below, StrictlyAscending;
    SomeRunning(s, t);
  }

  lemma WaitersKeep(s: State, waiter: nat, delay: int, maxConcurrent: int)
    requires Good(s, delay, maxConcurrent) && (s.Pending() != [] || s.runningCount > 0)
    ensures Good(s.(waiters := s.waiters + [waiter]), delay, maxConcurrent)
  {
    hide StrictlyAscending, Below, Tickets, Spaced;
    assert s.(waiters := s.waiters + [waiter]).Pending() == s.Pending();
  }
}
