/** What a turn of the event loop and an addition do, step by step: one byte read at a time, all
    replies delivered, and room for every job. */
module JobRounds {
  import opened Jobs

  // ----- adding

  /** A job can be added in every state, even after shutdown: it goes last, and but for sleeping
      workers that wake up, at least one if any sleeps, nothing else changes. */
  lemma CanAlwaysAdd(s: Pool)
    ensures exists woken :: Enabled(s, Add(woken))
    ensures forall woken: seq<Worker> :: Enabled(s, Add(woken)) ==>
              var t := Apply(s, Add(woken));
              && t == s.(workers := woken, requests := s.requests + [s.next], next := s.next + 1)
              && |woken| == |s.workers|
              && (forall w :: 0 <= w < |woken| ==>
                    woken[w] == s.workers[w] || (s.workers[w].Waiting? && woken[w].Checking?))
              && (Waiting in s.workers ==> exists w :: 0 <= w < |woken| && s.workers[w].Waiting? && woken[w].Checking?)
  {
    WakeAllWakes(s.workers);
    assert Enabled(s, Add(WakeAll(s.workers)));
    forall woken: seq<Worker> | Enabled(s, Add(woken))
      ensures |woken| == |s.workers|
      ensures forall w :: 0 <= w < |woken| ==> woken[w] == s.workers[w] || (s.workers[w].Waiting? && woken[w].Checking?)
      ensures Waiting in s.workers ==> exists w :: 0 <= w < |woken| && s.workers[w].Waiting? && woken[w].Checking? {
      WakesOneByOne(s.workers, woken);
      if Waiting in s.workers {
        var w :| 0 <= w < |woken| && woken[w] != s.workers[w];
      }
    }
  }

  lemma {:induction false} WakesOneByOne(before: seq<Worker>, after: seq<Worker>)
    requires Wakes(before, after)
    ensures |before| == |after|
    ensures forall w :: 0 <= w < |before| ==> after[w] == before[w] || (before[w].Waiting? && after[w].Checking?)
    decreases |before|
  {
    if before != [] {
      WakesOneByOne(before[1..], after[1..]);
      forall w | 0 < w < |before|
        ensures after[w] == before[w] || (before[w].Waiting? && after[w].Checking?) {
        assert after[w] == after[1..][w - 1] && before[w] == before[1..][w - 1];
      }
    }
  }

  // ----- the pipe

  lemma {:induction false} PipeStays(s: Pool, steps: seq<Step>)
    requires s.pipe <= s.capacity && Possible(s, steps)
    ensures After(s, steps).pipe <= After(s, steps).capacity == s.capacity
    decreases |steps|
  {
    if steps != [] { PipeStays(Apply(s, steps[0]), steps[1..]); }
  }

  /** The pipe never holds more bytes than it has room for: a worker whose write would block goes on
      without. */
  lemma PipeIsBounded(threads: nat, capacity: nat, steps: seq<Step>)
    requires Possible(Create(threads, capacity), steps)
    ensures After(Create(threads, capacity), steps).pipe <= capacity
  {
    PipeStays(Create(threads, capacity), steps);
  }

  // ----- a turn of the event loop

  /** Reading until the pipe is empty, one byte at a time, and then popping until no reply is left,
      with the callbacks after each. */
  function Pops(replies: nat): seq<Step> {
    if replies == 0 then [Pop] else [Pop, Callback] + Pops(replies - 1)
  }

  function Turn(pipe: nat, replies: nat): seq<Step> {
    [Read] + if pipe == 0 then Pops(replies) else Turn(pipe - 1, replies)
  }

  lemma {:induction false} PopsDeliver(s: Pool)
    requires s.main.Popping?
    ensures var steps := Pops(|s.replies|);
            Possible(s, steps) && After(s, steps) == s.(main := Idle, replies := [], done := s.done + s.replies)
    decreases |s.replies|
  {
    if s.replies == [] {
      assert [Pop][1..] == [] && s.done + [] == s.done;
    } else {
      var rest := Pops(|s.replies| - 1);
      var steps := [Pop, Callback] + rest;
      var t := Apply(s, Pop);
      var u := Apply(t, Callback);
      assert steps[1..] == [Callback] + rest && ([Callback] + rest)[1..] == rest;
      PopsDeliver(u);
      assert (s.done + [s.replies[0]]) + s.replies[1..] == s.done + s.replies;
    }
  }

  /** A turn that nobody disturbs empties the pipe, delivers all replies in order and ends idle. */
  lemma {:induction false} TurnDelivers(s: Pool)
    requires s.main.Woken? || s.main.Reading?
    ensures var steps := Turn(s.pipe, |s.replies|);
            && Possible(s, steps)
            && After(s, steps) == s.(main := Idle, pipe := 0, replies := [], done := s.done + s.replies)
    decreases s.pipe
  {
    var t := Apply(s, Read);
    var rest := if s.pipe == 0 then Pops(|s.replies|) else Turn(s.pipe - 1, |s.replies|);
    assert ([Read] + rest)[1..] == rest;
    if s.pipe == 0 { PopsDeliver(t); } else { TurnDelivers(t); }
  }

  /** The event loop has one way to go at most, and none only while it is idle on an empty pipe or
      joins the threads. */
  lemma LoopIsDetermined(s: Pool)
    ensures var can := (if Enabled(s, Wake) then 1 else 0) + (if Enabled(s, Read) then 1 else 0)
                       + (if Enabled(s, Pop) then 1 else 0) + (if Enabled(s, Callback) then 1 else 0);
            can == if s.main.Joining? || (s.main.Idle? && s.pipe == 0) then 0 else 1
    ensures Enabled(s, Wake) ==> Apply(s, Wake) == s.(main := Woken)
  {
  }
}
