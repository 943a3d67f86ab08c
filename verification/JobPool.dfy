/** The regions of network/src/nw_job.c that change the shared record, each as one method; the
    caller of a method plays the scheduler. */
module JobPool {
  import opened Jobs

  class Shared {
    var workers: seq<Worker>
    var requests: seq<nat>
    var requestCount: int
    var replies: seq<nat>
    var replyCount: int
    var pipe: nat
    const capacity: nat
    var main: Main
    var shutdown: bool
    var next: nat
    var done: seq<nat>

    /** The two counters agree with the linked lists. */
    ghost predicate Valid()
      reads this
    {
      requestCount == |requests| && replyCount == |replies|
    }

    ghost function View(): Pool
      reads this
    {
      Pool(workers, requests, replies, pipe, capacity, main, shutdown, next, done)
    }

    /** nw_job_create, once its threads have started. */
    constructor (threads: nat, capacity: nat)
      ensures Valid() && View() == Create(threads, capacity)
    {
      workers, requests, requestCount, replies, replyCount := Started(threads), [], 0, [], 0;
      pipe, this.capacity, main, shutdown, next, done := 0, capacity, Idle, false, 0, [];
    }

    /** nw_job_add; `woken` is the scheduler's answer to pthread_cond_signal. */
    method NwJobAdd(woken: seq<Worker>) returns (job: nat)
      requires Valid() && Enabled(View(), Add(woken))
      modifies this
      ensures Valid() && job == old(next) && View() == Apply(old(View()), Add(woken))
    {
      job := next;
      next := next + 1;
      requests := requests + [job];
      requestCount := requestCount + 1;
      workers := woken;
    }

    /** The top of thread_routine, with the lock held. */
    method TakeRequest(w: nat)
      requires Valid() && Enabled(View(), Check(w))
      modifies this
      ensures Valid() && View() == Apply(old(View()), Check(w))
    {
      if requestCount == 0 && !shutdown {
        workers := workers[w := Waiting];
        return;
      }
      if shutdown {
        workers := workers[w := Exited];
        return;
      }
      var entry := requests[0];
      requests := requests[1..];
      requestCount := requestCount - 1;
      workers := workers[w := Running(entry)];
    }

    /** The bottom of thread_routine, with the lock held again. */
    method PushReply(w: nat)
      requires Valid() && Enabled(View(), Reply(w))
      modifies this
      ensures Valid() && View() == Apply(old(View()), Reply(w))
    {
      replies := replies + [workers[w].job];
      replyCount := replyCount + 1;
      if pipe < capacity {
        pipe := pipe + 1;
      }
      workers := workers[w := Checking];
    }

    /** The first loop of on_can_read, from the wake-up on; nothing else runs meanwhile. */
    method DrainPipe()
      requires Valid() && Enabled(View(), Wake)
      modifies this
      ensures Valid()
      ensures View() == old(View()).(main := Popping, pipe := 0)
      ensures exists steps :: |steps| == old(pipe) + 2 && Possible(old(View()), steps)
                              && After(old(View()), steps) == View()
    {
      ghost var start := View();
      main := Woken;
      ghost var steps := [Wake];
      PossibleMore(start, [], Wake);
      var more := true;
      while more
        invariant Valid() && Possible(start, steps) && After(start, steps) == View()
        invariant View() == start.(main := main, pipe := pipe)
        invariant if more then main.Woken? || main.Reading? else main.Popping? && pipe == 0
        invariant |steps| + pipe + (if more then 1 else 0) == start.pipe + 2
        decreases more, pipe
      {
        PossibleMore(start, steps, Read);
        steps := steps + [Read];
        if pipe == 0 {
          main := Popping;
          more := false;
        } else {
          main := Reading;
          pipe := pipe - 1;
        }
      }
    }

    /** One round of the second loop of on_can_read, with the lock held. */
    method PopReply() returns (more: bool)
      requires Valid() && Enabled(View(), Pop)
      modifies this
      ensures Valid() && View() == Apply(old(View()), Pop) && more == (old(replies) != [])
    {
      if replyCount == 0 {
        main := Idle;
        return false;
      }
      main := Cleaning(replies[0]);
      replies := replies[1..];
      replyCount := replyCount - 1;
      return true;
    }

    /** on_finish and on_cleanup of the popped reply. */
    method RunCallbacks()
      requires Valid() && Enabled(View(), Callback)
      modifies this
      ensures Valid() && View() == Apply(old(View()), Callback)
    {
      done := done + [main.job];
      main := Popping;
    }

    /** nw_job_release up to the first pthread_join. */
    method NwJobRelease()
      requires Valid() && main.Idle?
      modifies this
      ensures Valid()
      ensures View() == if old(shutdown) then old(View()) else Apply(old(View()), Release)
    {
      if shutdown {
        return;
      }
      shutdown := true;
      workers := WakeAll(workers);
      main := Joining;
    }
  }

  lemma {:induction false} PossibleMore(s: Pool, steps: seq<Step>, e: Step)
    requires Possible(s, steps) && Enabled(After(s, steps), e)
    ensures Possible(s, steps + [e]) && After(s, steps + [e]) == Apply(After(s, steps), e)
    decreases |steps|
  {
    if steps == [] {
      assert (steps + [e])[1..] == [];
    } else {
      assert (steps + [e])[1..] == steps[1..] + [e];
      PossibleMore(Apply(s, steps[0]), steps[1..], e);
    }
  }
}
