/** The thread pool of network/src/nw_job.c as interleaved steps: every region under the lock
    is one step, and so is every read of the wake-up pipe. */
module Jobs {
  /** Where a worker thread stands: about to test the queue under the lock, blocked on the
      condition variable, in on_job, or gone. Jobs are numbered in the order they were added. */
  datatype Worker = Checking | Waiting | Running(job: nat) | Exited

  /** Where the event loop stands: outside on_can_read, at its first read, reading on, popping
      replies, in the callbacks of one reply, or joining the threads. */
  datatype Main = Idle | Woken | Reading | Popping | Cleaning(job: nat) | Joining

  datatype Pool = Pool(
    workers: seq<Worker>,
    requests: seq<nat>,
    replies: seq<nat>,
    pipe: nat,
    capacity: nat,
    main: Main,
    shutdown: bool,
    next: nat,
    done: seq<nat>)

  datatype Step =
    | Add(woken: seq<Worker>)
    | Check(w: nat)
    | Reply(w: nat)
    | Spurious(w: nat)
    | Wake
    | Read
    | Pop
    | Callback
    | Release

  /** `after` is `before` with some waiting workers woken. */
  predicate Wakes(before: seq<Worker>, after: seq<Worker>) {
    && |before| == |after|
    && (before == [] ||
        ((after[0] == before[0] || (before[0].Waiting? && after[0].Checking?)) && Wakes(before[1..], after[1..])))
  }

  function Started(n: nat): seq<Worker> {
    seq(n, _ => Checking)
  }

  function Create(threads: nat, capacity: nat): Pool {
    Pool(Started(threads), [], [], 0, capacity, Idle, false, 0, [])
  }

  predicate Enabled(s: Pool, e: Step) {
    match e
    // nw_job_add does not look at shutdown; pthread_cond_signal unblocks at least one waiting thread
    case Add(woken) => Wakes(s.workers, woken) && (Waiting in s.workers ==> woken != s.workers)
    case Check(w) => w < |s.workers| && s.workers[w].Checking?
    case Reply(w) => w < |s.workers| && s.workers[w].Running?
    case Spurious(w) => w < |s.workers| && s.workers[w].Waiting?
    case Wake => s.main.Idle? && s.pipe > 0
    case Read => s.main.Woken? || s.main.Reading?
    case Pop => s.main.Popping?
    case Callback => s.main.Cleaning?
    case Release => s.main.Idle? && !s.shutdown
  }

  function WakeAll(ws: seq<Worker>): seq<Worker> {
    if ws == [] then [] else [if ws[0].Waiting? then Checking else ws[0]] + WakeAll(ws[1..])
  }

  /** The top of thread_routine: leave at shutdown, wait on an empty queue, else take the head. */
  function DoCheck(s: Pool, w: nat): Pool
    requires w < |s.workers|
  {
    if s.shutdown then s.(workers := s.workers[w := Exited])
    else if s.requests == [] then s.(workers := s.workers[w := Waiting])
    else s.(workers := s.workers[w := Running(s.requests[0])], requests := s.requests[1..])
  }

  /** The bottom of thread_routine; the pipe's write end does not block. */
  function DoReply(s: Pool, w: nat): Pool
    requires w < |s.workers| && s.workers[w].Running?
  {
    s.(workers := s.workers[w := Checking],
       replies := s.replies + [s.workers[w].job],
       pipe := if s.pipe < s.capacity then s.pipe + 1 else s.pipe)
  }

  function Apply(s: Pool, e: Step): Pool
    requires Enabled(s, e)
  {
    match e
    case Add(woken) => s.(workers := woken, requests := s.requests + [s.next], next := s.next + 1)
    case Check(w) => DoCheck(s, w)
    case Reply(w) => DoReply(s, w)
    case Spurious(w) => s.(workers := s.workers[w := Checking])
    case Wake => s.(main := Woken)
    case Read => if s.pipe == 0 then s.(main := Popping) else s.(main := Reading, pipe := s.pipe - 1)
    case Pop => if s.replies == [] then s.(main := Idle)
                else s.(main := Cleaning(s.replies[0]), replies := s.replies[1..])
    case Callback => s.(main := Popping, done := s.done + [s.main.job])
    case Release => s.(main := Joining, shutdown := true, workers := WakeAll(s.workers))
  }

  // ----- counting

  function Total(ws: seq<Worker>, f: Worker -> nat): nat {
    if ws == [] then 0 else f(ws[0]) + Total(ws[1..], f)
  }

  lemma {:induction false} TotalUpdate(ws: seq<Worker>, w: nat, x: Worker, f: Worker -> nat)
    requires w < |ws|
    ensures Total(ws[w := x], f) + f(ws[w]) == Total(ws, f) + f(x)
    decreases |ws|
  {
    if w == 0 {
      assert ws[0 := x][1..] == ws[1..];
    } else {
      assert ws[w := x][1..] == ws[1..][w - 1 := x];
      TotalUpdate(ws[1..], w - 1, x, f);
    }
  }

  function Runs(job: nat): Worker -> nat {
    w => if w == Running(job) then 1 else 0
  }

  function AtCheck(w: Worker): nat {
    if w.Checking? then 1 else 0
  }

  function Checkers(ws: seq<Worker>): nat {
    Total(ws, AtCheck)
  }

  function Times(q: seq<nat>, job: nat): nat {
    if q == [] then 0 else (if q[0] == job then 1 else 0) + Times(q[1..], job)
  }

  lemma {:induction false} TimesAppend(q: seq<nat>, x: nat, job: nat)
    ensures Times(q + [x], job) == Times(q, job) + if x == job then 1 else 0
    decreases |q|
  {
    if q == [] {
      assert (q + [x])[1..] == [];
    } else {
      assert (q + [x])[1..] == q[1..] + [x];
      TimesAppend(q[1..], x, job);
    }
  }

  /** How many places hold a job: the queue, the workers, the replies, the event loop's
      callbacks, and the finished jobs. */
  function Places(s: Pool, job: nat): nat {
    Times(s.requests, job) + Total(s.workers, Runs(job)) + Times(s.replies, job)
    + (if s.main == Cleaning(job) then 1 else 0) + Times(s.done, job)
  }

  // ----- the invariant

  ghost predicate Conserved(s: Pool) {
    forall job: nat :: Places(s, job) == if job < s.next then 1 else 0
  }

  /** The queue holds the jobs added last, in order. */
  ghost predicate QueueIsTail(s: Pool) {
    |s.requests| <= s.next && forall i :: 0 <= i < |s.requests| ==> s.requests[i] == s.next - |s.requests| + i
  }

  /** A worker sleeps only while enough others are on their way to the queue; none sleeps
      after shutdown, and none leaves before. */
  ghost predicate NoLostSignal(s: Pool) {
    && (Waiting in s.workers ==> !s.shutdown && Checkers(s.workers) >= |s.requests|)
    && (Exited in s.workers ==> s.shutdown)
  }

  /** A reply is announced by a byte in the pipe or is about to be popped. */
  ghost predicate NoLostReply(s: Pool) {
    && s.capacity > 0
    && (s.shutdown <==> s.main.Joining?)
    && (s.replies != [] && s.main.Idle? ==> s.pipe > 0)
    && (s.main.Woken? ==> s.pipe > 0)
  }

  ghost predicate Good(s: Pool) {
    Conserved(s) && QueueIsTail(s) && NoLostSignal(s) && NoLostReply(s)
  }

  lemma {:induction false} WakesKeep(before: seq<Worker>, after: seq<Worker>, job: nat)
    requires Wakes(before, after)
    ensures Total(after, Runs(job)) == Total(before, Runs(job))
    ensures Checkers(after) >= Checkers(before) + if after == before then 0 else 1
    ensures forall w :: w in after ==> w in before || w.Checking?
    decreases |before|
  {
    if before != [] {
      WakesKeep(before[1..], after[1..], job);
      assert before == [before[0]] + before[1..] && after == [after[0]] + after[1..];
    }
  }

  lemma {:induction false} WakeAllWakes(ws: seq<Worker>)
    ensures Wakes(ws, WakeAll(ws)) && Waiting !in WakeAll(ws)
    decreases |ws|
  {
    if ws != [] { WakeAllWakes(ws[1..]); }
  }

  /** No step creates, loses or doubles a job. */
  lemma StepKeepsPlaces(s: Pool, e: Step, job: nat)
    requires Enabled(s, e)
    ensures Places(Apply(s, e), job) == Places(s, job) + if e.Add? && job == s.next then 1 else 0
  {
    match e
    case Add(woken) =>
      WakesKeep(s.workers, woken, job);
      TimesAppend(s.requests, s.next, job);
    case Check(w) => TotalUpdate(s.workers, w, DoCheck(s, w).workers[w], Runs(job));
    case Reply(w) =>
      TotalUpdate(s.workers, w, Checking, Runs(job));
      TimesAppend(s.replies, s.workers[w].job, job);
    case Spurious(w) => TotalUpdate(s.workers, w, Checking, Runs(job));
    case Callback => TimesAppend(s.done, s.main.job, job);
    case Release =>
      WakeAllWakes(s.workers);
      WakesKeep(s.workers, WakeAll(s.workers), job);
    case _ =>
  }

  lemma StepKeepsConserved(s: Pool, e: Step)
    requires Conserved(s) && Enabled(s, e)
    ensures Conserved(Apply(s, e))
  {
    hide Places, Enabled;
    forall job: nat ensures Places(Apply(s, e), job) == if job < Apply(s, e).next then 1 else 0 {
      StepKeepsPlaces(s, e, job);
    }
  }

  lemma StepKeepsSignals(s: Pool, e: Step)
    requires NoLostSignal(s) && Enabled(s, e)
    ensures NoLostSignal(Apply(s, e))
  {
    match e
    case Add(woken) => WakesKeep(s.workers, woken, 0);
    case Check(w) => TotalUpdate(s.workers, w, DoCheck(s, w).workers[w], AtCheck);
    case Reply(w) => TotalUpdate(s.workers, w, Checking, AtCheck);
    case Spurious(w) => TotalUpdate(s.workers, w, Checking, AtCheck);
    case Release =>
      WakeAllWakes(s.workers);
      WakesKeep(s.workers, WakeAll(s.workers), 0);
    case _ =>
  }

  lemma StepKeepsReplies(s: Pool, e: Step)
    requires NoLostReply(s) && Enabled(s, e)
    ensures NoLostReply(Apply(s, e))
  {
  }

  lemma StepKeepsTail(s: Pool, e: Step)
    requires QueueIsTail(s) && Enabled(s, e)
    ensures QueueIsTail(Apply(s, e))
  {
  }

  lemma StepKeepsGood(s: Pool, e: Step)
    requires Good(s) && Enabled(s, e)
    ensures Good(Apply(s, e))
  {
    hide Conserved, QueueIsTail, NoLostSignal, NoLostReply, Apply, Enabled;
    StepKeepsConserved(s, e);
    StepKeepsSignals(s, e);
    StepKeepsReplies(s, e);
    StepKeepsTail(s, e);
  }

  // ----- runs

  ghost predicate Possible(s: Pool, steps: seq<Step>)
    decreases |steps|
  {
    steps == [] || (Enabled(s, steps[0]) && Possible(Apply(s, steps[0]), steps[1..]))
  }

  function After(s: Pool, steps: seq<Step>): Pool
    requires Possible(s, steps)
    decreases |steps|
  {
    if steps == [] then s else After(Apply(s, steps[0]), steps[1..])
  }

  lemma CreateIsGood(threads: nat, capacity: nat)
    requires capacity > 0
    ensures Good(Create(threads, capacity))
  {
    forall job: nat ensures Places(Create(threads, capacity), job) == 0 { NothingRuns(threads, job); }
  }

  lemma {:induction false} NothingRuns(threads: nat, job: nat)
    ensures Total(Started(threads), Runs(job)) == 0
  {
    if threads > 0 {
      assert Started(threads)[1..] == Started(threads - 1);
      NothingRuns(threads - 1, job);
    }
  }

  lemma {:induction false} RunIsGood(s: Pool, steps: seq<Step>)
    requires Good(s) && Possible(s, steps)
    ensures Good(After(s, steps))
    decreases |steps|
  {
    hide Good, Enabled, Apply;
    if steps != [] {
      StepKeepsGood(s, steps[0]);
      RunIsGood(Apply(s, steps[0]), steps[1..]);
    }
  }

  /** In every interleaving each added job is in exactly one place, so it is finished at most
      once, and nothing that was not added is anywhere. */
  lemma EachJobIsOnce(threads: nat, capacity: nat, steps: seq<Step>, job: nat)
    requires capacity > 0 && Possible(Create(threads, capacity), steps)
    ensures var s := After(Create(threads, capacity), steps);
            && Places(s, job) == (if job < s.next then 1 else 0)
            && Times(s.done, job) <= 1
  {
    CreateIsGood(threads, capacity);
    RunIsGood(Create(threads, capacity), steps);
  }

  /** Workers start jobs in the order they were added. */
  lemma StartsInOrder(threads: nat, capacity: nat, steps: seq<Step>, w: nat)
    requires capacity > 0 && Possible(Create(threads, capacity), steps)
    requires var s := After(Create(threads, capacity), steps);
             Enabled(s, Check(w)) && Apply(s, Check(w)).workers[w].Running?
    ensures var s := After(Create(threads, capacity), steps);
            var job := Apply(s, Check(w)).workers[w].job;
            && job == s.next - |s.requests|
            && forall later :: later in Apply(s, Check(w)).requests ==> job < later
  {
    CreateIsGood(threads, capacity);
    RunIsGood(Create(threads, capacity), steps);
  }

  /** Before shutdown, a queued job means a worker that is not asleep, and a queued reply means
      a byte in the pipe or an event loop that has yet to pop it. */
  lemma NoWakeupIsLost(threads: nat, capacity: nat, steps: seq<Step>)
    requires threads > 0 && capacity > 0 && Possible(Create(threads, capacity), steps)
    ensures var s := After(Create(threads, capacity), steps);
            !s.shutdown ==>
              && (s.requests != [] ==> exists w :: w in s.workers && (w.Checking? || w.Running?))
              && (s.replies != [] ==> s.pipe > 0 || s.main.Reading? || s.main.Popping? || s.main.Cleaning?)
  {
    hide Enabled, Apply;
    CreateIsGood(threads, capacity);
    RunIsGood(Create(threads, capacity), steps);
    RunKeepsThreads(Create(threads, capacity), steps);
    var s := After(Create(threads, capacity), steps);
    if !s.shutdown && s.requests != [] {
      if Waiting in s.workers {
        SomeChecker(s.workers);
      } else {
        assert s.workers[0] in s.workers;
      }
    }
  }

  lemma {:induction false} SomeChecker(ws: seq<Worker>)
    requires Checkers(ws) > 0
    ensures Checking in ws
    decreases |ws|
  {
    if !ws[0].Checking? { SomeChecker(ws[1..]); }
  }

  lemma {:induction false} RunKeepsThreads(s: Pool, steps: seq<Step>)
    requires Possible(s, steps)
    ensures |After(s, steps).workers| == |s.workers|
    decreases |steps|
  {
    if steps != [] {
      if steps[0].Release? {
        WakeAllWakes(s.workers);
      }
      RunKeepsThreads(Apply(s, steps[0]), steps[1..]);
    }
  }

  // ----- one worker: first in, first out

  function Pipeline(s: Pool): seq<nat>
    requires |s.workers| == 1
  {
    s.done
    + (if s.main.Cleaning? then [s.main.job] else [])
    + s.replies
    + (if s.workers[0].Running? then [s.workers[0].job] else [])
    + s.requests
  }

  function Ascending(n: nat): seq<nat> {
    seq(n, i => i)
  }

  lemma WorkerKeepsOrder(s: Pool, e: Step)
    requires |s.workers| == 1 && Enabled(s, e) && (e.Check? || e.Reply? || e.Spurious?)
    ensures |Apply(s, e).workers| == 1 && Pipeline(Apply(s, e)) == Pipeline(s)
  {
    if e.Check? {
      if !s.shutdown && s.requests != [] {
        assert s.requests == [s.requests[0]] + s.requests[1..];
      }
    }
  }

  lemma MainKeepsOrder(s: Pool, e: Step)
    requires |s.workers| == 1 && Enabled(s, e) && (e.Wake? || e.Read? || e.Pop? || e.Callback?)
    ensures Pipeline(Apply(s, e)) == Pipeline(s)
  {
    if e.Pop? {
      if s.replies != [] {
        assert s.replies == [s.replies[0]] + s.replies[1..];
      }
    }
  }

  lemma AddKeepsOrder(s: Pool, woken: seq<Worker>)
    requires |s.workers| == 1 && Enabled(s, Add(woken))
    ensures |woken| == 1 && Pipeline(Apply(s, Add(woken))) == Pipeline(s) + [s.next]
  {
  }

  lemma ReleaseKeepsOrder(s: Pool)
    requires |s.workers| == 1 && Enabled(s, Release)
    ensures |WakeAll(s.workers)| == 1 && Pipeline(Apply(s, Release)) == Pipeline(s)
  {
    WakeAllWakes(s.workers);
  }

  lemma StepKeepsOrder(s: Pool, e: Step)
    requires |s.workers| == 1 && Enabled(s, e)
    ensures var t := Apply(s, e);
            && |t.workers| == 1
            && Pipeline(t) == Pipeline(s) + if e.Add? then [s.next] else []
  {
    hide Pipeline, Enabled;
    assert Pipeline(s) + [] == Pipeline(s);
    match e
    case Add(woken) => AddKeepsOrder(s, woken);
    case Release => ReleaseKeepsOrder(s);
    case Wake => MainKeepsOrder(s, e);
    case Read => MainKeepsOrder(s, e);
    case Pop => MainKeepsOrder(s, e);
    case Callback => MainKeepsOrder(s, e);
    case _ => WorkerKeepsOrder(s, e);
  }

  lemma {:induction false} RunKeepsOrder(s: Pool, steps: seq<Step>)
    requires |s.workers| == 1 && Possible(s, steps) && Pipeline(s) == Ascending(s.next)
    ensures var t := After(s, steps); |t.workers| == 1 && Pipeline(t) == Ascending(t.next)
    decreases |steps|
  {
    hide Enabled, Apply, Pipeline;
    if steps != [] {
      StepKeepsOrder(s, steps[0]);
      StepCounts(s, steps[0]);
      RunKeepsOrder(Apply(s, steps[0]), steps[1..]);
    }
  }

  lemma StepCounts(s: Pool, e: Step)
    requires Enabled(s, e)
    ensures Apply(s, e).next == s.next + if e.Add? then 1 else 0
  {
  }

  /** With one thread the jobs finish in the order they were added. */
  lemma OneWorkerIsFifo(capacity: nat, steps: seq<Step>)
    requires Possible(Create(1, capacity), steps)
    ensures var s := After(Create(1, capacity), steps);
            |s.done| <= s.next && forall i :: 0 <= i < |s.done| ==> s.done[i] == i
  {
    RunKeepsOrder(Create(1, capacity), steps);
    var s := After(Create(1, capacity), steps);
    forall i | 0 <= i < |s.done| ensures s.done[i] == i {
      assert Pipeline(s)[i] == s.done[i];
      assert Ascending(s.next)[i] == i;
    }
    assert |Pipeline(s)| == s.next;
  }

  // ----- every added job gets done

  /** The steps the pool takes by itself. */
  predicate Internal(e: Step) {
    !e.Add? && !e.Spurious? && !e.Release?
  }

  function Weight(w: Worker): nat {
    match w
    case Running(_) => 9
    case Checking => 1
    case _ => 0
  }

  function Rank(m: Main): nat {
    match m
    case Idle => 10
    case Woken => 9
    case Reading => 12
    case Popping => 11
    case Cleaning(_) => 12
    case Joining => 0
  }

  /** How many steps the pool can still take by itself, at most. */
  function Work(s: Pool): nat {
    9 * |s.requests| + Total(s.workers, Weight) + 2 * |s.replies| + 5 * s.pipe + Rank(s.main)
  }

  lemma StepWorks(s: Pool, e: Step)
    requires Good(s) && Enabled(s, e) && Internal(e)
    ensures Work(Apply(s, e)) < Work(s)
  {
    hide Conserved, QueueIsTail, NoLostSignal;
    if e.Check? || e.Reply? {
      TotalUpdate(s.workers, e.w, Apply(s, e).workers[e.w], Weight);
    }
  }

  ghost predicate AllInternal(steps: seq<Step>) {
    forall e :: e in steps ==> Internal(e)
  }

  lemma {:induction false} WorkBounds(s: Pool, steps: seq<Step>)
    requires Good(s) && Possible(s, steps) && AllInternal(steps)
    ensures |steps| + Work(After(s, steps)) <= Work(s)
    decreases |steps|
  {
    hide Good, Enabled, Apply, Work;
    if steps != [] {
      assert Internal(steps[0]);
      StepKeepsGood(s, steps[0]);
      StepWorks(s, steps[0]);
      WorkBounds(Apply(s, steps[0]), steps[1..]);
    }
  }

  lemma {:induction false} NoneRuns(ws: seq<Worker>, job: nat)
    requires forall w :: w in ws ==> w.Waiting?
    ensures Total(ws, Runs(job)) == 0 && Checkers(ws) == 0
    decreases |ws|
  {
    if ws != [] {
      assert ws[0] in ws;
      NoneRuns(ws[1..], job);
    }
  }

  /** Only a finished pool cannot move by itself. */
  lemma StuckMeansDone(s: Pool, job: nat)
    requires Good(s) && !s.shutdown && s.workers != []
    requires forall e :: Internal(e) ==> !Enabled(s, e)
    ensures Times(s.done, job) == if job < s.next then 1 else 0
  {
    assert !Enabled(s, Wake) && !Enabled(s, Read) && !Enabled(s, Pop) && !Enabled(s, Callback);
    forall w | w in s.workers
      ensures w.Waiting?
    {
      var i :| 0 <= i < |s.workers| && s.workers[i] == w;
      assert !Enabled(s, Check(i)) && !Enabled(s, Reply(i));
    }
    NoneRuns(s.workers, job);
    assert s.workers[0] in s.workers;
    assert s.requests == [] && s.replies == [];
    assert Places(s, job) == if job < s.next then 1 else 0;
  }

  /** Left to itself from any reachable state before shutdown, the pool takes a bounded number
      of steps whatever the order, and if it has not shut down it stops only when every added
      job has been finished exactly once. */
  lemma EveryJobGetsDone(threads: nat, capacity: nat, steps: seq<Step>, own: seq<Step>, job: nat)
    requires threads > 0 && capacity > 0 && Possible(Create(threads, capacity), steps)
    requires var s := After(Create(threads, capacity), steps);
             !s.shutdown && Possible(s, own) && AllInternal(own)
    ensures var s := After(Create(threads, capacity), steps);
            var t := After(s, own);
            && |own| <= Work(s)
            && ((forall e :: Internal(e) ==> !Enabled(t, e)) ==> Times(t.done, job) == if job < t.next then 1 else 0)
  {
    hide Enabled, Apply, Work;
    var c := Create(threads, capacity);
    CreateIsGood(threads, capacity);
    RunIsGood(c, steps);
    RunKeepsThreads(c, steps);
    var s := After(c, steps);
    WorkBounds(s, own);
    RunIsGood(s, own);
    RunKeepsThreads(s, own);
    OwnStepsKeepRunning(s, own);
    var t := After(s, own);
    if forall e :: Internal(e) ==> !Enabled(t, e) { StuckMeansDone(t, job); }
  }

  lemma {:induction false} OwnStepsKeepRunning(s: Pool, own: seq<Step>)
    requires Possible(s, own) && AllInternal(own)
    ensures After(s, own).shutdown == s.shutdown
    decreases |own|
  {
    if own != [] {
      assert Internal(own[0]);
      OwnStepsKeepRunning(Apply(s, own[0]), own[1..]);
    }
  }

  /** After shutdown no job starts, and the threads that joining waits for all leave. */
  lemma ShutdownDrains(s: Pool, w: nat)
    requires Good(s) && s.shutdown && w < |s.workers|
    ensures !s.workers[w].Waiting?
    ensures Enabled(s, Check(w)) ==> Apply(s, Check(w)).workers[w].Exited?
                                     && Apply(s, Check(w)).requests == s.requests
    ensures !s.workers[w].Exited? ==> Enabled(s, Check(w)) || Enabled(s, Reply(w))
  {
    assert s.workers[w] in s.workers;
  }

  /** Shutdown is final: from then on no callback runs and nothing leaves the queue. */
  lemma {:induction false} ShutdownIsFinal(s: Pool, steps: seq<Step>)
    requires Good(s) && s.shutdown && Possible(s, steps)
    ensures var t := After(s, steps); t.shutdown && t.done == s.done && s.requests <= t.requests
    decreases |steps|
  {
    if steps != [] {
      hide Conserved, QueueIsTail, NoLostSignal, Wakes;
      StepKeepsGood(s, steps[0]);
      ShutdownIsFinal(Apply(s, steps[0]), steps[1..]);
    }
  }

  /** Whatever happens after nw_job_release, a job gets its callbacks exactly when it had them
      before: what is queued, running or waiting as a reply at that moment never does. */
  lemma ReleaseDecides(threads: nat, capacity: nat, before: seq<Step>, after: seq<Step>, job: nat)
    requires capacity > 0 && Possible(Create(threads, capacity), before)
    requires var s := After(Create(threads, capacity), before);
             Enabled(s, Release) && Possible(Apply(s, Release), after)
    ensures var s := After(Create(threads, capacity), before);
            var t := After(Apply(s, Release), after);
            && Times(t.done, job) == Times(s.done, job)
            && s.requests <= t.requests
  {
    hide Possible, After, Good;
    var s := After(Create(threads, capacity), before);
    CreateIsGood(threads, capacity);
    RunIsGood(Create(threads, capacity), before);
    StepKeepsGood(s, Release);
    ShutdownIsFinal(Apply(s, Release), after);
  }

  /** Joining ends: the threads take a bounded number of steps, and once none can take another
      one they have all left. */
  lemma JoiningEnds(s: Pool, own: seq<Step>, w: nat)
    requires Good(s) && s.shutdown && Possible(s, own) && AllInternal(own) && w < |s.workers|
    ensures |own| <= Work(s)
    ensures var t := After(s, own);
            |t.workers| == |s.workers| && ((forall e :: Internal(e) ==> !Enabled(t, e)) ==> t.workers[w].Exited?)
  {
    hide Good, Enabled, Apply, Work;
    WorkBounds(s, own);
    RunIsGood(s, own);
    RunKeepsThreads(s, own);
    ShutdownIsFinal(s, own);
    var t := After(s, own);
    ShutdownDrains(t, w);
    assert Internal(Check(w)) && Internal(Reply(w));
  }

  lemma PossibleFrom(s: Pool, e: Step, steps: seq<Step>)
    requires Enabled(s, e) && Possible(Apply(s, e), steps)
    ensures Possible(s, [e] + steps) && After(s, [e] + steps) == After(Apply(s, e), steps)
  {
    assert ([e] + steps)[1..] == steps;
  }

  /** One thread; a job is added, done by the thread and announced, and the pool is released: the
      job never gets its callbacks, whatever follows.  A second job is still queued for ever. */
  lemma ReleaseLosesJobs(after: seq<Step>)
    requires var added := Pool([Checking], [1], [0], 1, 1, Idle, false, 2, []);
             Possible(Apply(added, Release), after)
    ensures var steps := [Add([Checking]), Check(0), Reply(0), Add([Checking])];
            && Possible(Create(1, 1), steps)
            && After(Create(1, 1), steps) == Pool([Checking], [1], [0], 1, 1, Idle, false, 2, [])
            && var t := After(Apply(After(Create(1, 1), steps), Release), after);
               t.done == [] && t.requests != [] && t.requests[0] == 1
  {
    hide Good;
    var s0 := Create(1, 1);
    var s1 := Apply(s0, Add([Checking]));
    var s2 := Apply(s1, Check(0));
    var s3 := Apply(s2, Reply(0));
    var s4 := Apply(s3, Add([Checking]));
    assert s0.workers == [Checking] && Wakes([Checking], [Checking]);
    assert s1.requests == [0] && s2.workers == [Running(0)] && s3.workers == [Checking];
    assert s4 == Pool([Checking], [1], [0], 1, 1, Idle, false, 2, []);
    var e1, e2, e3, e4 := Add([Checking]), Check(0), Reply(0), Add([Checking]);
    PossibleFrom(s3, e4, []);
    PossibleFrom(s2, e3, [e4]);
    PossibleFrom(s1, e2, [e3, e4]);
    PossibleFrom(s0, e1, [e2, e3, e4]);
    assert [e1, e2, e3, e4] == [e1] + [e2, e3, e4] && [e2, e3, e4] == [e2] + [e3, e4];
    assert [e3, e4] == [e3] + [e4] && [e4] == [e4] + [];
    CreateIsGood(1, 1);
    RunIsGood(s0, [e1, e2, e3, e4]);
    StepKeepsGood(s4, Release);
    ShutdownIsFinal(Apply(s4, Release), after);
  }
}
