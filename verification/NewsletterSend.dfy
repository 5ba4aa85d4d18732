/** Resumable sending of a newsletter batch through the task queue. A task of one recipient is
    checked, sent and recorded; between these steps other tasks run. */
module NewsletterSend {
  import opened Utf16
  import opened Options
  import TaskQueue

  /** What outlives an attempt: the recipients with a stored message row, and how often each was
      sent to, stored, and lost to a failed write after a send. */
  datatype World = World(stored: set<Text>, sends: multiset<Text>, writes: multiset<Text>, failedWrites: multiset<Text>)

  datatype Phase = Checking | Sending | Recording | Succeeded | Broken

  /** Between attempts every send is accounted for, and a recipient is stored at most once. */
  ghost predicate Quiet(w: World) {
    && (forall r :: w.sends[r] == w.writes[r] + w.failedWrites[r])
    && (forall r :: w.writes[r] <= if r in w.stored then 1 else 0)
  }

  /** How many tasks for `r` have sent and not recorded yet. */
  function InFlight(recipients: seq<Text>, phases: seq<Phase>, r: Text): nat
    requires |phases| == |recipients|
  {
    if recipients == [] then 0
    else
      var n := |recipients| - 1;
      InFlight(recipients[..n], phases[..n], r) + if recipients[n] == r && phases[n].Recording? then 1 else 0
  }

  ghost predicate Distinct(s: seq<Text>) { forall i, j :: 0 <= i < j < |s| ==> s[i] != s[j] }

  /** During an attempt. */
  ghost predicate Sound(w: World, recipients: seq<Text>, phases: seq<Phase>) {
    && |phases| == |recipients|
    && (forall r :: w.sends[r] == w.writes[r] + w.failedWrites[r] + InFlight(recipients, phases, r))
    && (forall r :: w.writes[r] <= if r in w.stored then 1 else 0)
    && (forall i :: 0 <= i < |recipients| && phases[i] in {Sending, Recording} ==> recipients[i] !in w.stored)
  }

  /** Whoever was dealt with without an error has a stored message row. */
  ghost predicate Delivered(w: World, recipients: seq<Text>, phases: seq<Phase>) {
    |phases| == |recipients| && forall i :: 0 <= i < |recipients| && phases[i].Succeeded? ==> recipients[i] in w.stored
  }

  lemma {:induction false} InFlightUpdate(recipients: seq<Text>, phases: seq<Phase>, i: nat, p: Phase, r: Text)
    requires |phases| == |recipients| && i < |recipients|
    ensures InFlight(recipients, phases[i := p], r) ==
            InFlight(recipients, phases, r)
            + (if recipients[i] == r && p.Recording? then 1 else 0) - (if recipients[i] == r && phases[i].Recording? then 1 else 0)
  {
    var n := |recipients| - 1;
    if i == n {
      assert phases[i := p][..n] == phases[..n];
    } else {
      InFlightUpdate(recipients[..n], phases[..n], i, p, r);
      assert phases[i := p][..n] == phases[..n][i := p];
    }
  }

  lemma {:induction false} NoneInFlight(recipients: seq<Text>, phases: seq<Phase>, r: Text)
    requires |phases| == |recipients| && forall i :: 0 <= i < |phases| ==> !phases[i].Recording?
    ensures InFlight(recipients, phases, r) == 0
  {
    if recipients != [] { NoneInFlight(recipients[..|recipients| - 1], phases[..|phases| - 1], r); }
  }

  lemma {:induction false} OneInFlight(recipients: seq<Text>, phases: seq<Phase>, r: Text)
    requires |phases| == |recipients| && Distinct(recipients)
    ensures InFlight(recipients, phases, r) <= 1
    ensures InFlight(recipients, phases, r) == 1 ==> exists i :: 0 <= i < |recipients| && recipients[i] == r && phases[i].Recording?
  {
    if recipients != [] {
      var n := |recipients| - 1;
      OneInFlight(recipients[..n], phases[..n], r);
      if InFlight(recipients[..n], phases[..n], r) == 1 {
        var i :| 0 <= i < n && recipients[..n][i] == r && phases[..n][i].Recording?;
        assert recipients[i] == r && phases[i].Recording?;
      }
    }
  }

  /** In every state, a recipient was sent to at most once, plus once for each failed write. */
  lemma SentAtMostOnce(w: World, recipients: seq<Text>, phases: seq<Phase>, r: Text)
    requires Sound(w, recipients, phases) && Distinct(recipients)
    ensures w.sends[r] <= 1 + w.failedWrites[r]
  {
    OneInFlight(recipients, phases, r);
  }

  // ---------- the steps of one task

  /** The answer of the idempotency check: the recipient is skipped, or sent to. */
  lemma CheckKeeps(w: World, recipients: seq<Text>, phases: seq<Phase>, i: nat, p: Phase)
    requires Sound(w, recipients, phases) && i < |recipients| && phases[i].Checking?
    requires p == Broken || p == if recipients[i] in w.stored then Succeeded else Sending
    ensures Sound(w, recipients, phases[i := p])
  {
    forall r
      ensures InFlight(recipients, phases[i := p], r) == InFlight(recipients, phases, r)
    {
      InFlightUpdate(recipients, phases, i, p, r);
    }
  }

  lemma SendKeeps(w: World, recipients: seq<Text>, phases: seq<Phase>, i: nat, ok: bool)
    requires Sound(w, recipients, phases) && i < |recipients| && phases[i].Sending?
    ensures Sound(if ok then w.(sends := w.sends + multiset{recipients[i]}) else w, recipients, phases[i := if ok then Recording else Broken])
  {
    var p := if ok then Recording else Broken;
    forall r
      ensures InFlight(recipients, phases[i := p], r) == InFlight(recipients, phases, r) + if ok && recipients[i] == r then 1 else 0
    {
      InFlightUpdate(recipients, phases, i, p, r);
    }
  }

  function Recorded(w: World, r: Text, ok: bool): World {
    if ok then w.(stored := w.stored + {r}, writes := w.writes + multiset{r}) else w.(failedWrites := w.failedWrites + multiset{r})
  }

  lemma RecordKeeps(w: World, recipients: seq<Text>, phases: seq<Phase>, i: nat, ok: bool)
    requires Sound(w, recipients, phases) && Distinct(recipients) && i < |recipients| && phases[i].Recording?
    ensures Sound(Recorded(w, recipients[i], ok), recipients, phases[i := if ok then Succeeded else Broken])
  {
    var p := if ok then Succeeded else Broken;
    forall r
      ensures InFlight(recipients, phases[i := p], r) == InFlight(recipients, phases, r) - if recipients[i] == r then 1 else 0
    {
      InFlightUpdate(recipients, phases, i, p, r);
    }
  }

  lemma AttemptStarts(w: World, recipients: seq<Text>, phases: seq<Phase>)
    requires Quiet(w) && |phases| == |recipients| && forall i :: 0 <= i < |phases| ==> phases[i].Checking?
    ensures Sound(w, recipients, phases)
  {
    forall r
      ensures InFlight(recipients, phases, r) == 0
    {
      NoneInFlight(recipients, phases, r);
    }
  }

  lemma AttemptEnds(w: World, recipients: seq<Text>, phases: seq<Phase>)
    requires Sound(w, recipients, phases) && forall i :: 0 <= i < |phases| ==> phases[i] in {Succeeded, Broken}
    ensures Quiet(w)
  {
    forall r
      ensures InFlight(recipients, phases, r) == 0
    {
      NoneInFlight(recipients, phases, r);
    }
  }

  // ---------- steps, attempts and series of attempts

  datatype TaskStep = Check(i: nat, throws: bool) | Send(i: nat, ok: bool) | Record(i: nat, ok: bool)

  datatype Progress = Progress(world: World, phases: seq<Phase>)

  predicate CanHappen(recipients: seq<Text>, p: Progress, step: TaskStep) {
    && step.i < |recipients| == |p.phases|
    && p.phases[step.i] == match step case Check(_, _) => Checking case Send(_, _) => Sending case Record(_, _) => Recording
  }

  /** What a step does: the idempotency check, which an empty address skips; the send; the write of
      the message row. A step that cannot happen does nothing. */
  function Next(recipients: seq<Text>, p: Progress, step: TaskStep): (after: Progress)
    ensures |after.phases| == |p.phases|
  {
    if !CanHappen(recipients, p, step) then p
    else
      var r := recipients[step.i];
      match step
      case Check(i, throws) =>
        p.(phases := p.phases[i := if r == [] then Sending else if throws then Broken else if r in p.world.stored then Succeeded else Sending])
      case Send(i, ok) =>
        Progress(if ok then p.world.(sends := p.world.sends + multiset{r}) else p.world, p.phases[i := if ok then Recording else Broken])
      case Record(i, ok) =>
        Progress(Recorded(p.world, r, ok), p.phases[i := if ok then Succeeded else Broken])
  }

  lemma NextKeeps(recipients: seq<Text>, p: Progress, step: TaskStep)
    requires Sound(p.world, recipients, p.phases) && Distinct(recipients) && [] !in recipients
    ensures var after := Next(recipients, p, step); Sound(after.world, recipients, after.phases)
  {
    hide Sound, Distinct, Recorded;
    if CanHappen(recipients, p, step) {
      match step
      case Check(i, throws) =>
        CheckKeeps(p.world, recipients, p.phases, i, if throws then Broken else if recipients[i] in p.world.stored then Succeeded else Sending);
      case Send(i, ok) => SendKeeps(p.world, recipients, p.phases, i, ok);
      case Record(i, ok) => RecordKeeps(p.world, recipients, p.phases, i, ok);
    }
  }

  function Fresh(recipients: seq<Text>): seq<Phase> { seq(|recipients|, _ => Checking) }

  function Played(recipients: seq<Text>, world: World, steps: seq<TaskStep>): (p: Progress)
    ensures |p.phases| == |recipients|
  {
    if steps == [] then Progress(world, Fresh(recipients))
    else Next(recipients, Played(recipients, world, steps[..|steps| - 1]), steps[|steps| - 1])
  }

  lemma {:induction false} PlayedIsSound(recipients: seq<Text>, world: World, steps: seq<TaskStep>)
    requires Quiet(world) && Distinct(recipients) && [] !in recipients
    ensures var p := Played(recipients, world, steps); Sound(p.world, recipients, p.phases)
  {
    hide Quiet, Sound, Distinct, Next;
    if steps == [] {
      AttemptStarts(world, recipients, Fresh(recipients));
    } else {
      PlayedIsSound(recipients, world, steps[..|steps| - 1]);
      NextKeeps(recipients, Played(recipients, world, steps[..|steps| - 1]), steps[|steps| - 1]);
    }
  }

  /** Recipients that have a row already are skipped: without errors in the checks nothing is sent and
      nothing is written, and no task breaks. */
  lemma {:induction false} StoredAreSkipped(recipients: seq<Text>, world: World, steps: seq<TaskStep>)
    requires forall i :: 0 <= i < |recipients| ==> recipients[i] != [] && recipients[i] in world.stored
    requires forall step <- steps :: step.Check? ==> !step.throws
    ensures var p := Played(recipients, world, steps); p.world == world && forall i :: 0 <= i < |recipients| ==> p.phases[i] in {Checking, Succeeded}
  {
    if steps != [] {
      var n := |steps| - 1;
      assert forall step <- steps[..n] :: step in steps;
      assert steps[n] in steps;
      StoredAreSkipped(recipients, world, steps[..n]);
    }
  }

  /** What becomes of a recipient without a row: sent to and recorded; or its task breaks, at the
      check or the send without a trace, at the record after it was sent to. */
  lemma DeliverySteps(recipients: seq<Text>, p: Progress, i: nat)
    requires i < |recipients| == |p.phases| && p.phases[i].Checking? && recipients[i] != [] && recipients[i] !in p.world.stored
    ensures var checked := Next(recipients, p, Check(i, false));
            var sent := Next(recipients, checked, Send(i, true));
            var done, lost := Next(recipients, sent, Record(i, true)), Next(recipients, sent, Record(i, false));
            && Next(recipients, p, Check(i, true)) == Progress(p.world, p.phases[i := Broken])
            && Next(recipients, checked, Send(i, false)) == Progress(p.world, p.phases[i := Broken])
            && done.phases == p.phases[i := Succeeded] && done.world.stored == p.world.stored + {recipients[i]}
            && done.world.sends[recipients[i]] == p.world.sends[recipients[i]] + 1
            && lost.phases == p.phases[i := Broken] && lost.world.stored == p.world.stored
            && lost.world.sends[recipients[i]] == p.world.sends[recipients[i]] + 1
            && forall r :: r != recipients[i] ==> done.world.sends[r] == lost.world.sends[r] == p.world.sends[r]
  {
  }

  /** One attempt to send a batch: its recipients, and the steps of its tasks in any order. */
  datatype Round = Round(recipients: seq<Text>, steps: seq<TaskStep>)

  /** The world after these attempts, one after the other. */
  function Series(world: World, rounds: seq<Round>): World {
    if rounds == [] then world
    else
      var round := rounds[|rounds| - 1];
      Played(round.recipients, Series(world, rounds[..|rounds| - 1]), round.steps).world
  }

  ghost predicate Ended(phases: seq<Phase>) { forall i :: 0 <= i < |phases| ==> phases[i] in {Succeeded, Broken} }

  /** Attempts do not overlap: each ends before the next begins; the last may still be on its way.
      Recipients are distinct and not empty. */
  ghost predicate OneByOne(world: World, rounds: seq<Round>) {
    && (forall k :: 0 <= k < |rounds| ==> Distinct(rounds[k].recipients) && [] !in rounds[k].recipients)
    && (forall k :: 0 <= k < |rounds| - 1 ==> Ended(Played(rounds[k].recipients, Series(world, rounds[..k]), rounds[k].steps).phases))
  }

  lemma {:induction false} SeriesIsQuiet(world: World, rounds: seq<Round>)
    requires Quiet(world) && OneByOne(world, rounds)
    requires rounds != [] ==>
               var k := |rounds| - 1; Ended(Played(rounds[k].recipients, Series(world, rounds[..k]), rounds[k].steps).phases)
    ensures Quiet(Series(world, rounds))
  {
    hide Quiet, Distinct, Sound;
    if rounds != [] {
      var n := |rounds| - 1;
      Earlier(world, rounds);
      SeriesIsQuiet(world, rounds[..n]);
      PlayedIsSound(rounds[n].recipients, Series(world, rounds[..n]), rounds[n].steps);
      var p := Played(rounds[n].recipients, Series(world, rounds[..n]), rounds[n].steps);
      AttemptEnds(p.world, rounds[n].recipients, p.phases);
    }
  }

  lemma {:induction false} Earlier(world: World, rounds: seq<Round>)
    requires rounds != [] && OneByOne(world, rounds)
    ensures var before := rounds[..|rounds| - 1];
            && OneByOne(world, before)
            && (before != [] ==> var k := |before| - 1; Ended(Played(before[k].recipients, Series(world, before[..k]), before[k].steps).phases))
  {
    hide Distinct, Ended, Played;
    var before := rounds[..|rounds| - 1];
    assert forall k :: 0 <= k < |before| ==> before[k] == rounds[k] && before[..k] == rounds[..k];
  }

  /** Over any series of attempts, at any moment of the last one: each recipient was sent to at most
      once, plus once for each record write that failed after a send. */
  lemma {:induction false} SeriesAtMostOnce(world: World, rounds: seq<Round>, r: Text)
    requires Quiet(world) && OneByOne(world, rounds)
    ensures Series(world, rounds).sends[r] <= 1 + Series(world, rounds).failedWrites[r]
  {
    hide Distinct, Sound, Ended;
    if rounds != [] {
      var n := |rounds| - 1;
      Earlier(world, rounds);
      SeriesIsQuiet(world, rounds[..n]);
      PlayedIsSound(rounds[n].recipients, Series(world, rounds[..n]), rounds[n].steps);
      var p := Played(rounds[n].recipients, Series(world, rounds[..n]), rounds[n].steps);
      SentAtMostOnce(p.world, rounds[n].recipients, p.phases, r);
    }
  }

  /** The bound is met: after a failed write the recipient is sent to again. */
  lemma SecondSend(r: Text) returns (rounds: seq<Round>)
    requires r != []
    ensures var start := World({}, multiset{}, multiset{}, multiset{});
            && Quiet(start) && OneByOne(start, rounds) && |rounds| == 2
            && Series(start, rounds).sends[r] == 2 && Series(start, rounds).failedWrites[r] == 1 && r in Series(start, rounds).stored
  {
    var start := World({}, multiset{}, multiset{}, multiset{});
    var first := Round([r], [Check(0, false), Send(0, true), Record(0, false)]);
    var second := Round([r], [Check(0, false), Send(0, true), Record(0, true)]);
    rounds := [first, second];
    ThreeSteps(r, start, false);
    assert [first][..0] == [] && Series(start, [first]) == Played([r], start, first.steps).world;
    ThreeSteps(r, Series(start, [first]), true);
    assert rounds[..1] == [first] && rounds[..0] == [] && [first][..0] == [];
  }

  lemma {:induction false} ThreeSteps(r: Text, w: World, ok: bool)
    requires r != [] && r !in w.stored
    ensures var p := Played([r], w, [Check(0, false), Send(0, true), Record(0, ok)]);
            p.phases == [if ok then Succeeded else Broken] && p.world == Recorded(w.(sends := w.sends + multiset{r}), r, ok)
  {
    var steps := [Check(0, false), Send(0, true), Record(0, ok)];
    assert steps[..2] == [Check(0, false), Send(0, true)] && steps[..2][..1] == [Check(0, false)] && steps[..2][..1][..0] == [];
    assert Played([r], w, []) == Progress(w, Fresh([r])) && Fresh([r]) == [Checking];
    var one := Played([r], w, [Check(0, false)]);
    assert [Check(0, false)][..0] == [];
    assert one == Next([r], Played([r], w, []), Check(0, false)) == Progress(w, [Sending]);
    var two := Played([r], w, steps[..2]);
    assert two == Progress(w.(sends := w.sends + multiset{r}), [Recording]);
  }

  // ---------- one attempt

  /** Where the tasks stand, by ticket. */
  ghost predicate InStep(log: TaskQueue.Log, phases: seq<Phase>) {
    && log.cycle == log.settled && log.cleared == {} && (forall t <- log.settled :: t < |phases|) && (forall t <- log.running :: t < |phases|)
    && forall t: nat :: t < |phases| ==>
         && (phases[t] in {Succeeded, Broken} <==> t in log.settled)
         && (t in log.cycleFailures <==> t in log.settled && phases[t].Broken?)
         && (t !in log.settled && t !in log.running ==> phases[t].Checking?)
  }

  /** The statistics that end the attempt say how many tasks broke. */
  ghost predicate Reported(resolved: seq<TaskQueue.Resolution>, phases: seq<Phase>) {
    resolved != [] ==>
      && (forall t :: 0 <= t < |phases| ==> phases[t] in {Succeeded, Broken})
      && (resolved[0].stats.failedCount == 0 <==> forall t :: 0 <= t < |phases| ==> phases[t].Succeeded?)
  }

  lemma TicketsIssued(s: TaskQueue.State, delay: int, maxConcurrent: int)
    requires TaskQueue.Good(s, delay, maxConcurrent)
    ensures forall t :: t in s.running || t in s.settled ==> t < s.issued
    ensures s.running !! s.settled
    ensures s.Pending() == [] && s.runningCount == 0 && s.cleared == {} ==> s.settled == TaskQueue.Below(s.issued)
    ensures s.issued > 0 && s.settled == {} && s.cleared == {} ==> s.Pending() != [] || s.runningCount > 0
    ensures s.issued == 0 ==> s.Pending() == [] && s.runningCount == 0
  {
    hide TaskQueue.Timed, TaskQueue.StrictlyAscending;
    assert TaskQueue.Tickets([]) == {};
    TaskQueue.Conservation(s, delay, maxConcurrent);
  }

  lemma RunningGrows(a: TaskQueue.State, b: TaskQueue.State, delay: int, maxConcurrent: int)
    requires TaskQueue.Good(a, delay, maxConcurrent) && TaskQueue.Good(b, delay, maxConcurrent)
    requires a.starts <= b.starts
    ensures forall t <- a.running :: t in b.running || t in b.settled
  {
    hide TaskQueue.StrictlyAscending, TaskQueue.Below, TaskQueue.Timed;
    assert forall t :: t in a.starts ==> t in b.starts;
    assert TaskQueue.Tickets(a.starts) <= TaskQueue.Tickets(b.starts);
  }

  /** Starting further tasks changes nothing about the tasks that were at work. */
  lemma InStepGrows(a: TaskQueue.Log, b: TaskQueue.Log, phases: seq<Phase>)
    requires InStep(a, phases) && a.running <= b.running && b == a.(starts := b.starts, times := b.times, running := b.running, now := b.now)
    requires forall t <- b.running :: t < |phases|
    ensures InStep(b, phases)
  {
  }

  /** A running task that goes on without settling. */
  lemma InStepMoves(log: TaskQueue.Log, phases: seq<Phase>, t: nat, p: Phase)
    requires InStep(log, phases) && t in log.running && t !in log.settled && p in {Checking, Sending, Recording}
    ensures InStep(log, phases[t := p])
  {
  }

  lemma InStepSettles(log: TaskQueue.Log, phases: seq<Phase>, t: nat, failed: bool)
    requires InStep(log, phases) && t in log.running && t !in log.settled
    ensures InStep(TaskQueue.Settled(log, t, failed).(running := log.running - {t}), phases[t := if failed then Broken else Succeeded])
  {
  }

  /** The statistics of the last settled task count the broken ones. */
  lemma {:induction false} LastReport(log: TaskQueue.Log, phases: seq<Phase>, stats: TaskQueue.Stats)
    requires InStep(log, phases) && log.settled == TaskQueue.Below(|phases|) && log.cycleFailures <= log.cycle
    requires stats.failedCount == |log.cycleFailures|
    ensures Reported([TaskQueue.Resolution(0, stats)], phases)
  {
    if stats.failedCount == 0 {
      assert log.cycleFailures == {};
    }
  }

  /** What holds between the steps of an attempt, beside the queue's own invariant. */
  ghost predicate AttemptOk(log: TaskQueue.Log, issued: nat, resolved: seq<TaskQueue.Resolution>, waiters: seq<nat>, idle: Option<TaskQueue.Stats>,
                            recipients: seq<Text>, phases: seq<Phase>, w: World, tracked: bool)
  {
    && issued == |recipients| == |phases|
    && Delivered(w, recipients, phases)
    && (tracked ==> Distinct(recipients) && [] !in recipients && Sound(w, recipients, phases))
    && InStep(log, phases) && Reported(resolved, phases)
    && (if recipients == [] then idle == Some(TaskQueue.Stats(0, 0)) else idle == None && (resolved == [] ==> waiters == [0]))
  }

  lemma AttemptOkAtStart(log: TaskQueue.Log, recipients: seq<Text>, phases: seq<Phase>, w: World, tracked: bool, idle: Option<TaskQueue.Stats>)
    requires |phases| == |recipients| && forall i :: 0 <= i < |phases| ==> phases[i].Checking?
    requires tracked ==> Distinct(recipients) && [] !in recipients && Quiet(w)
    requires log.settled == log.cycle == log.cycleFailures == log.cleared == {} && forall t <- log.running :: t < |phases|
    requires idle == if recipients == [] then Some(TaskQueue.Stats(0, 0)) else None
    ensures AttemptOk(log, |recipients|, [], if idle.None? then [0] else [], idle, recipients, phases, w, tracked)
  {
    hide Distinct, Quiet, Sound;
    if tracked { AttemptStarts(w, recipients, phases); }
  }

  /** The tickets 0, 1, 2, ... */
  function UpTo(n: nat): seq<nat> { seq(n, i => i) }

  /** `processBatch` from the first enqueue on; its world is the database and the mail service. */
  class Attempt {
    const recipients: seq<Text>
    const queue: TaskQueue.Queue
    var phases: seq<Phase>
    var world: World
    /** The statistics of a queue that was idle when it was waited for. */
    var idle: Option<TaskQueue.Stats>
    /** Recipients are distinct and not empty, and no other attempt was on its way at the start. */
    ghost const tracked: bool

    ghost predicate Valid()
      reads this, queue
    {
      && queue.Valid() && queue.Counted()
      && AttemptOk(queue.log, queue.issued, queue.resolved, queue.waitPromises, idle, recipients, phases, world, tracked)
    }

    constructor (recipients: seq<Text>, world: World, rateLimitDelay: int, maxConcurrent: int)
      requires rateLimitDelay >= 0
      ensures fresh(queue) && this.world == world && this.recipients == recipients && |phases| == |recipients|
      ensures forall i :: 0 <= i < |phases| ==> phases[i].Checking?
      ensures tracked <==> Distinct(recipients) && [] !in recipients && Quiet(world)
      ensures queue.Valid() && queue.Counted() && queue.log == TaskQueue.Log([], [], {}, {}, {}, 0, {}, {}) && queue.issued == 0
      ensures queue.resolved == [] && queue.waitPromises == [] && queue.settledCount == queue.failedCount == 0
    {
      this.recipients, this.world, idle := recipients, world, None;
      phases := seq(|recipients|, i => Checking);
      tracked := Distinct(recipients) && [] !in recipients && Quiet(world);
      queue := new TaskQueue.Queue(rateLimitDelay, maxConcurrent);
    }

    /** Enqueues a task per recipient and waits for the queue. */
    method ProcessBatch(ghost at: int)
      requires |phases| == |recipients| && forall i :: 0 <= i < |phases| ==> phases[i].Checking?
      requires tracked ==> Distinct(recipients) && [] !in recipients && Quiet(world)
      requires queue.Valid() && queue.Counted() && queue.log == TaskQueue.Log([], [], {}, {}, {}, 0, {}, {}) && queue.issued == 0
      requires queue.resolved == [] && queue.waitPromises == [] && queue.settledCount == queue.failedCount == 0 && at >= 0
      modifies queue, this`idle
      ensures Valid()
      ensures queue.log.starts + queue.Pending() == UpTo(|recipients|) && queue.log.settled == {}
      ensures idle.Some? <==> recipients == []
    {
      hide TaskQueue.Good, TaskQueue.StatsOk, Distinct, Quiet, AttemptOk;
      TicketsIssued(queue.Now(), queue.rateLimitDelay, queue.maxConcurrent);
      EnqueueAll(at);
      TicketsIssued(queue.Now(), queue.rateLimitDelay, queue.maxConcurrent);
      idle := queue.WaitUntilFinished(0, at);
      assert queue.waitPromises == if idle.None? then [0] else [];
      AttemptOkAtStart(queue.log, recipients, phases, world, tracked, idle);
    }

    method EnqueueAll(ghost at: int)
      requires queue.Valid() && queue.Counted() && queue.issued == 0 && queue.log.now <= at
      requires queue.log.settled == queue.log.cycle == queue.log.cycleFailures == queue.log.cleared == {}
      requires queue.resolved == [] && queue.waitPromises == [] && queue.settledCount == queue.failedCount == 0
      requires queue.log.starts + queue.Pending() == []
      modifies queue
      ensures queue.Valid() && queue.Counted() && queue.issued == |recipients| && queue.log.now <= at
      ensures queue.log.settled == queue.log.cycle == queue.log.cycleFailures == queue.log.cleared == {}
      ensures queue.log.starts + queue.Pending() == UpTo(|recipients|)
      ensures queue.resolved == [] && queue.waitPromises == [] && (recipients == [] ==> queue.settledCount == queue.failedCount == 0)
    {
      hide TaskQueue.Accounted, TaskQueue.Timed, TaskQueue.StatsOk;
      var i := 0;
      while i < |recipients|
        invariant 0 <= i <= |recipients| && queue.Valid() && queue.Counted() && queue.issued == i && queue.log.now <= at
        invariant queue.log.settled == queue.log.cycle == queue.log.cycleFailures == queue.log.cleared == {}
        invariant queue.log.starts + queue.Pending() == UpTo(i)
        invariant queue.resolved == [] && queue.waitPromises == [] && (i == 0 ==> queue.settledCount == queue.failedCount == 0)
      {
        var _ := queue.Enqueue(at);
        i := i + 1;
      }
    }

    /** A task settles; the queue goes on, or ends the attempt. */
    method Settle(t: nat, failed: bool, later: World, ghost at: int)
      requires Valid() && t in queue.log.running && at >= queue.log.now
      requires world.stored <= later.stored && (!failed ==> t < |recipients| && recipients[t] in later.stored)
      requires tracked && t < |phases| ==> |phases| == |recipients| && Sound(later, recipients, phases[t := if failed then Broken else Succeeded])
      modifies queue, this`phases, this`world
      ensures Valid() && world == later && t < |old(phases)| && phases == old(phases)[t := if failed then Broken else Succeeded]
      ensures t in queue.log.settled && old(queue.log.settled) <= queue.log.settled
    {
      hide TaskQueue.Good, AttemptOk, TaskQueue.Grown, TaskQueue.Below, TaskQueue.Resolutions, TaskQueue.Settled, Sound;
      ghost var a := queue.Now();
      ghost var before, resolved, waiters := queue.log, queue.resolved, queue.waitPromises;
      TicketsIssued(a, queue.rateLimitDelay, queue.maxConcurrent);
      PhaseCount(before, queue.issued, resolved, waiters, idle, recipients, phases, world, tracked);
      queue.TaskSettles(t, failed, at);
      TicketsIssued(queue.Now(), queue.rateLimitDelay, queue.maxConcurrent);
      SettledLog(before, queue.log, a, queue.Now(), t, failed, at, queue.rateLimitDelay, queue.maxConcurrent);
      AttemptSettles(before, queue.log, queue.issued, resolved, queue.resolved, waiters, queue.waitPromises, idle,
                     recipients, phases, world, later, tracked, t, failed, TaskQueue.Stats(queue.settledCount, queue.failedCount));
      phases := phases[t := if failed then Broken else Succeeded];
      world := later;
    }

    /** The queue's timer starts the next tasks. */
    method TimerFires(ghost at: int)
      requires Valid() && queue.isProcessing && at >= queue.log.now && queue.log.times[|queue.log.times| - 1] + queue.rateLimitDelay <= at
      modifies queue
      ensures Valid()
    {
      hide TaskQueue.Good, AttemptOk, TaskQueue.StatsOk;
      ghost var a := queue.Now();
      ghost var before := queue.log;
      PhaseCount(before, queue.issued, queue.resolved, queue.waitPromises, idle, recipients, phases, world, tracked);
      queue.TimerFires(at);
      TicketsIssued(queue.Now(), queue.rateLimitDelay, queue.maxConcurrent);
      AttemptGrows(before, queue.log, a, queue.Now(), at, queue.rateLimitDelay, queue.maxConcurrent, queue.resolved, queue.waitPromises, idle,
                   recipients, phases, world, tracked);
    }

    /** The answer to the idempotency check of a running task, or its error. An empty recipient is
        not checked. */
    method CheckStep(t: nat, throws: bool, ghost at: int)
      requires Valid() && t in queue.log.running && at >= queue.log.now && t < |phases| && phases[t].Checking?
      modifies queue, this`phases, this`world
      ensures Valid() && Progress(world, phases) == Next(recipients, old(Progress(world, phases)), Check(t, throws))
    {
      hide TaskQueue.Good, TaskQueue.StatsOk, AttemptOk;
      AttemptParts(queue.log, queue.issued, queue.resolved, queue.waitPromises, idle, recipients, phases, world, tracked);
      NotSettled(t);
      if recipients[t] != [] && throws {
        if tracked { CheckKeeps(world, recipients, phases, t, Broken); }
        Settle(t, true, world, at);
      } else if recipients[t] != [] && recipients[t] in world.stored {
        if tracked { CheckKeeps(world, recipients, phases, t, Succeeded); }
        Settle(t, false, world, at);
      } else {
        if tracked { CheckKeeps(world, recipients, phases, t, Sending); }
        AttemptMoves(queue.log, queue.issued, queue.resolved, queue.waitPromises, idle, recipients, phases, world, world, tracked, t, Sending);
        phases := phases[t := Sending];
      }
    }

    /** The answer of the mail service. */
    method SendStep(t: nat, ok: bool, ghost at: int)
      requires Valid() && t in queue.log.running && at >= queue.log.now && t < |phases| && phases[t].Sending?
      modifies queue, this`phases, this`world
      ensures Valid() && Progress(world, phases) == Next(recipients, old(Progress(world, phases)), Send(t, ok))
    {
      hide TaskQueue.Good, TaskQueue.StatsOk, AttemptOk;
      AttemptParts(queue.log, queue.issued, queue.resolved, queue.waitPromises, idle, recipients, phases, world, tracked);
      NotSettled(t);
      if tracked { SendKeeps(world, recipients, phases, t, ok); }
      if ok {
        var later := world.(sends := world.sends + multiset{recipients[t]});
        AttemptMoves(queue.log, queue.issued, queue.resolved, queue.waitPromises, idle, recipients, phases, world, later, tracked, t, Recording);
        world := later;
        phases := phases[t := Recording];
      } else {
        Settle(t, true, world, at);
      }
    }

    /** The outcome of the write of the message row. */
    method RecordStep(t: nat, ok: bool, ghost at: int)
      requires Valid() && t in queue.log.running && at >= queue.log.now && t < |phases| && phases[t].Recording?
      modifies queue, this`phases, this`world
      ensures Valid() && Progress(world, phases) == Next(recipients, old(Progress(world, phases)), Record(t, ok))
    {
      hide TaskQueue.Good, TaskQueue.StatsOk, AttemptOk;
      AttemptParts(queue.log, queue.issued, queue.resolved, queue.waitPromises, idle, recipients, phases, world, tracked);
      if tracked { RecordKeeps(world, recipients, phases, t, ok); }
      Settle(t, !ok, Recorded(world, recipients[t], ok), at);
    }

    lemma NotSettled(t: nat)
      requires queue.Valid() && t in queue.log.running
      ensures t !in queue.log.settled
    {
      TicketsIssued(queue.Now(), queue.rateLimitDelay, queue.maxConcurrent);
    }

    /** Whether `validateAndSend` has resolved (true) or rejected (false). When it resolves, every
        recipient has a stored message row. */
    method Result() returns (r: Option<bool>)
      requires Valid()
      ensures r == Some(true) ==> forall i :: 0 <= i < |recipients| ==> recipients[i] in world.stored
      ensures r == Some(false) ==> exists i :: 0 <= i < |phases| && phases[i].Broken?
      ensures r.Some? && tracked ==> Quiet(world)
      ensures r.None? <==> recipients != [] && queue.resolved == []
    {
      hide TaskQueue.Good, TaskQueue.StatsOk, Sound, Quiet, Distinct;
      if tracked && (idle.Some? || queue.resolved != []) { AttemptEnds(world, recipients, phases); }
      if idle.Some? { return Some(idle.value.failedCount == 0); }
      if queue.resolved == [] { return None; }
      r := Some(queue.resolved[0].stats.failedCount == 0);
    }

    /** In every state of every attempt, a recipient was sent to at most once over all attempts so
        far, plus once for each write that failed after a send. */
    lemma AtMostOnce(r: Text)
      requires Valid() && tracked
      ensures world.sends[r] <= 1 + world.failedWrites[r]
    {
      hide TaskQueue.Good, TaskQueue.StatsOk, Sound, InStep, Reported;
      SentAtMostOnce(world, recipients, phases, r);
    }
  }

  lemma AttemptParts(log: TaskQueue.Log, issued: nat, resolved: seq<TaskQueue.Resolution>, waiters: seq<nat>, idle: Option<TaskQueue.Stats>,
                     recipients: seq<Text>, phases: seq<Phase>, w: World, tracked: bool)
    requires AttemptOk(log, issued, resolved, waiters, idle, recipients, phases, w, tracked)
    ensures |recipients| == |phases| && (tracked ==> Distinct(recipients) && [] !in recipients && Sound(w, recipients, phases))
  {
  }

  lemma AttemptMoves(log: TaskQueue.Log, issued: nat, resolved: seq<TaskQueue.Resolution>, waiters: seq<nat>, idle: Option<TaskQueue.Stats>,
                     recipients: seq<Text>, phases: seq<Phase>, w: World, later: World, tracked: bool, t: nat, p: Phase)
    requires AttemptOk(log, issued, resolved, waiters, idle, recipients, phases, w, tracked)
    requires t in log.running && t !in log.settled && t < |phases| && p in {Checking, Sending, Recording} && w.stored <= later.stored
    requires tracked ==> Sound(later, recipients, phases[t := p])
    ensures AttemptOk(log, issued, resolved, waiters, idle, recipients, phases[t := p], later, tracked)
  {
    hide Sound, Distinct;
    NotYetReported(log, resolved, phases, t);
    InStepMoves(log, phases, t, p);
  }

  lemma AttemptGrows(before: TaskQueue.Log, after: TaskQueue.Log, a: TaskQueue.State, b: TaskQueue.State, at: int, delay: int, maxConcurrent: int,
                     resolved: seq<TaskQueue.Resolution>, waiters: seq<nat>, idle: Option<TaskQueue.Stats>,
                     recipients: seq<Text>, phases: seq<Phase>, w: World, tracked: bool)
    requires AttemptOk(before, |phases|, resolved, waiters, idle, recipients, phases, w, tracked)
    requires TaskQueue.Good(a, delay, maxConcurrent) && TaskQueue.Good(b, delay, maxConcurrent)
    requires a.starts == before.starts && a.running == before.running && a.settled == before.settled
    requires b.starts == after.starts && b.running == after.running && b.settled == after.settled
    requires TaskQueue.Grown(before.(now := at), after) && forall t <- after.running :: t < |phases|
    ensures AttemptOk(after, |phases|, resolved, waiters, idle, recipients, phases, w, tracked)
  {
    hide TaskQueue.Good, Sound, Distinct;
    RunningGrows(a, b, delay, maxConcurrent);
    TicketsIssued(a, delay, maxConcurrent);
    InStepGrows(before, after, phases);
  }

  lemma PhaseCount(log: TaskQueue.Log, issued: nat, resolved: seq<TaskQueue.Resolution>, waiters: seq<nat>, idle: Option<TaskQueue.Stats>,
                   recipients: seq<Text>, phases: seq<Phase>, w: World, tracked: bool)
    requires AttemptOk(log, issued, resolved, waiters, idle, recipients, phases, w, tracked)
    ensures issued == |recipients| == |phases| && log.cleared == {}
  {
  }

  /** What is left running after a task settled was running before or has just started. */
  lemma SettledLog(before: TaskQueue.Log, after: TaskQueue.Log, a: TaskQueue.State, b: TaskQueue.State, t: nat, failed: bool, at: int,
                   delay: int, maxConcurrent: int)
    requires TaskQueue.Good(a, delay, maxConcurrent) && TaskQueue.Good(b, delay, maxConcurrent)
    requires a.starts == before.starts && a.running == before.running && a.settled == before.settled
    requires b.starts == after.starts && b.running == after.running && b.settled == after.settled
    requires TaskQueue.Grown(TaskQueue.Settled(before, t, failed).(now := at), after)
    ensures before.running - {t} <= after.running && after.settled == before.settled + {t} && after.cleared == before.cleared
    ensures after == TaskQueue.Settled(before, t, failed).(starts := after.starts, times := after.times, running := after.running, now := at)
  {
    hide TaskQueue.Good;
    RunningGrows(a, b, delay, maxConcurrent);
    TicketsIssued(a, delay, maxConcurrent);
  }

  lemma {:induction false} AttemptSettles(before: TaskQueue.Log, after: TaskQueue.Log, issued: nat, resolved: seq<TaskQueue.Resolution>, resolved': seq<TaskQueue.Resolution>,
                       waiters: seq<nat>, waiters': seq<nat>, idle: Option<TaskQueue.Stats>,
                       recipients: seq<Text>, phases: seq<Phase>, w: World, later: World, tracked: bool, t: nat, failed: bool, stats: TaskQueue.Stats)
    requires AttemptOk(before, issued, resolved, waiters, idle, recipients, phases, w, tracked)
    requires t in before.running && t !in before.settled && t < |phases|
    requires w.stored <= later.stored && (!failed ==> recipients[t] in later.stored)
    requires tracked ==> Sound(later, recipients, phases[t := if failed then Broken else Succeeded])
    requires before.running - {t} <= after.running && forall x <- after.running :: x < |phases|
    requires after == TaskQueue.Settled(before, t, failed).(starts := after.starts, times := after.times, running := after.running, now := after.now)
    requires stats.failedCount == |after.cycleFailures| && after.cycleFailures <= after.cycle
    requires || (resolved' == resolved && waiters' == waiters)
             || (resolved' == resolved + TaskQueue.Resolutions(waiters, stats) && after.settled == TaskQueue.Below(|phases|))
    ensures AttemptOk(after, issued, resolved', waiters', idle, recipients, phases[t := if failed then Broken else Succeeded], later, tracked)
  {
    hide Sound, Distinct;
    var p := if failed then Broken else Succeeded;
    NotYetReported(before, resolved, phases, t);
    InStepSettles(before, phases, t, failed);
    InStepGrows(TaskQueue.Settled(before, t, failed).(running := before.running - {t}), after, phases[t := p]);
    if resolved' != resolved {
      LastReport(after, phases[t := p], stats);
      assert resolved' == [TaskQueue.Resolution(0, stats)];
    }
  }

  /** While a task runs, the attempt is not over. */
  lemma NotYetReported(log: TaskQueue.Log, resolved: seq<TaskQueue.Resolution>, phases: seq<Phase>, t: nat)
    requires InStep(log, phases) && Reported(resolved, phases) && t < |phases| && t !in log.settled
    ensures resolved == []
  {
  }
}
