/** Exactly-once callbacks: over every run, and whatever the callbacks themselves do, each
    accepted command's callback is consumed once, in issue order, with its own reply or with
    NULL when the context is freed. */
module AsyncOnce {
  import opened Common
  import opened Async

  // ----- numbering

  /** The queue holds the commands accepted last, in order. */
  ghost predicate QueueIsTail(replies: seq<Callback>, issued: nat) {
    |replies| <= issued && forall i :: 0 <= i < |replies| ==> replies[i].n == issued - |replies| + i
  }

  /** The log holds the commands accepted first, in order. */
  ghost predicate LogIsHead(log: seq<Consumed>) {
    forall k :: 0 <= k < |log| ==> log[k].n == k
  }

  ghost predicate Numbered(c: Context) {
    QueueIsTail(c.replies, c.issued) && LogIsHead(c.log) && c.issued == |c.log| + |c.replies|
  }

  lemma ActInsideKeepsQueue(c: Context, a: Action)
    requires QueueIsTail(c.replies, c.issued)
    ensures var t := ActInside(c, a);
            && QueueIsTail(t.replies, t.issued)
            && |t.replies| >= |c.replies| && t.issued - |t.replies| == c.issued - |c.replies|
  {
    hide QueueIsTail;
    if a.IssueCommand? { TailGrows(c.replies, c.issued, a.fn); }
  }

  lemma TailGrows(replies: seq<Callback>, issued: nat, fn: bool)
    requires QueueIsTail(replies, issued)
    ensures QueueIsTail(replies + [Callback(issued, fn)], issued + 1)
  {
  }

  lemma {:induction false} ActKeepsQueue(c: Context, actions: seq<Action>)
    requires QueueIsTail(c.replies, c.issued)
    ensures var t := ActAll(c, actions);
            && QueueIsTail(t.replies, t.issued)
            && |t.replies| >= |c.replies| && t.issued - |t.replies| == c.issued - |c.replies|
    decreases |actions|
  {
    hide ActInside, QueueIsTail;
    if actions != [] {
      ActInsideKeepsQueue(c, actions[0]);
      ActKeepsQueue(ActInside(c, actions[0]), actions[1..]);
    }
  }

  lemma ConsumeKeepsNumbers(c: Context, script: Script, reply: Option<Reply>)
    requires c.replies != [] && Numbered(c)
    ensures var t := Consume(c, script, reply);
            && Numbered(t) && |t.replies| >= |c.replies| - 1
            && t.log == c.log + [Consumed(|c.log|, reply)]
            && (Closing(c) ==> t.issued == c.issued && t.replies == c.replies[1..])
  {
    ConsumeFrame(c, script, reply);
    var t := Shifted(c, reply);
    ActKeepsQueue(t, script(c.replies[0].n));
    if Closing(c) { ClosingRejects(t, script(c.replies[0].n)); }
  }

  // ----- freeing

  /** `t` is `c` freed: everything pending was consumed with NULL, in order. */
  ghost predicate Drained(c: Context, t: Context) {
    && t.freed && t.replies == [] && LogIsHead(t.log)
    && t.issued == c.issued == |t.log|
    && |c.log| <= |t.log| && t.log[..|c.log|] == c.log
    && (forall k :: |c.log| <= k < |t.log| ==> t.log[k].reply.None?)
    && t.stream == c.stream && t.fault == c.fault && t.err == c.err && (c.freeing ==> t.freeing)
    && (c.replies == [] ==> t.log == c.log && t.freeing == c.freeing)
  }

  lemma {:induction false} FreeDrains(c: Context, script: Script)
    requires Closing(c) && Numbered(c)
    ensures Drained(c, FreeNow(c, script))
    decreases |c.replies|
  {
    hide QueueIsTail, LogIsHead, Consume;
    if c.replies == [] {
      assert c.log[..|c.log|] == c.log;
    } else {
      var d := Consume(c, script, None);
      assert Closing(d) && d.stream == c.stream && d.fault == c.fault && d.err == c.err && (c.freeing ==> d.freeing) by {
        ClosingConsumes(c, script);
      }
      ConsumeKeepsNumbers(c, script, None);
      FreeDrains(d, script);
      var t := FreeNow(d, script);
      assert t.log[..|c.log|] == t.log[..|d.log|][..|c.log|];
      assert t.log[|c.log|] == t.log[..|d.log|][|c.log|];
    }
  }

  lemma ClosingConsumes(c: Context, script: Script)
    requires Closing(c) && c.replies != []
    ensures var d := Consume(c, script, None);
            && Closing(d) && d.stream == c.stream && d.fault == c.fault && d.err == c.err
            && (c.freeing ==> d.freeing)
  {
    var t := Shifted(c, None);
    ClosingRejects(t, script(c.replies[0].n));
    KeepsFreeing(t, script(c.replies[0].n));
  }

  lemma {:induction false} KeepsFreeing(c: Context, actions: seq<Action>)
    ensures c.freeing ==> ActAll(c, actions).freeing
    decreases |actions|
  {
    if actions != [] { KeepsFreeing(ActInside(c, actions[0]), actions[1..]); }
  }

  // ----- the invariant

  /** The first `m` log entries carry the first `m` replies of the stream; the rest carry NULL. */
  ghost predicate OwnReplies(log: seq<Consumed>, stream: seq<Reply>, m: nat) {
    && m <= |log| && m <= |stream|
    && (forall k :: 0 <= k < m ==> log[k].reply == Some(stream[k]))
    && (forall k :: m <= k < |log| ==> log[k].reply.None?)
  }

  /** An open context, between events or at the head of the reply loop. */
  ghost predicate Open(c: Context) {
    && !c.freed && !c.fault && !c.err && !c.freeing && !c.inCallback
    && Numbered(c)
    && |c.log| + |c.inbox| == |c.stream| && c.stream[|c.log|..] == c.inbox
    && OwnReplies(c.log, c.stream, |c.log|)
    && NoSurplus(c.replies, c.inbox)
  }

  /** A freed context: every accepted command was consumed, once and in order, with its own
      reply or with NULL; without an error or a call of redisAsyncFree, all with a reply. */
  ghost predicate Closed(c: Context) {
    && c.freed && !c.fault && c.replies == []
    && LogIsHead(c.log) && |c.log| == c.issued
    && (exists m: nat :: OwnReplies(c.log, c.stream, m))
    && (!c.err && !c.freeing ==> OwnReplies(c.log, c.stream, |c.log|))
  }

  /** Between events the reader has been drained. */
  ghost predicate Sane(c: Context) {
    Closed(c) || (Open(c) && c.inbox == [] && !c.garbled)
  }

  /** What an open context needs for its freeing to be in order. */
  ghost predicate Ready(c: Context) {
    && !c.fault && Numbered(c) && OwnReplies(c.log, c.stream, |c.log|)
    && Closing(c) && (c.replies != [] ==> c.err || c.freeing)
  }

  lemma FailingIsReady(c: Context, d: Context)
    requires Open(c) && d.err && d.disconnecting && !d.fault
    requires d.issued == c.issued && d.replies == c.replies && d.log == c.log && d.stream == c.stream
    ensures Ready(d)
  {
  }

  lemma FreeCloses(c: Context, script: Script)
    requires Ready(c)
    ensures Closed(FreeNow(c, script))
  {
    hide FreeNow, Closing;
    FreeDrains(c, script);
    var t := FreeNow(c, script);
    forall k | 0 <= k < |c.log| ensures t.log[k] == c.log[k] {
      assert t.log[..|c.log|][k] == t.log[k];
    }
    assert OwnReplies(t.log, t.stream, |c.log|);
  }

  // ----- the reply loop

  lemma ConsumeKeepsOpen(c: Context, script: Script)
    requires Open(c) && c.inbox != [] && c.replies != []
    ensures var t := Consume(c.(inbox := c.inbox[1..]), script, Some(c.inbox[0]));
            && (t.freeing ==> Ready(t))
            && (!t.freeing ==> Open(t))
            && t.inbox == c.inbox[1..] && t.garbled == c.garbled
            && (!c.replies[0].fn ==> !t.freeing)
  {
    var c' := c.(inbox := c.inbox[1..]);
    var t := Consume(c', script, Some(c.inbox[0]));
    hide QueueIsTail, LogIsHead;
    assert Numbered(c');
    ConsumeFrame(c', script, Some(c.inbox[0]));
    ConsumeKeepsNumbers(c', script, Some(c.inbox[0]));
    hide Consume, Numbered;
    assert c.stream[|c.log|..][0] == c.stream[|c.log|];
    assert c.stream[|c.log|..][1..] == c.stream[|c.log| + 1..];
    assert OwnReplies(t.log, t.stream, |t.log|);
    assert NoSurplus(t.replies, t.inbox) by {
      forall i | 0 <= i < |t.inbox| ensures i < |t.replies| || t.inbox[i].error {
        assert t.inbox[i] == c.inbox[i + 1];
      }
    }
  }

  lemma {:induction false} ProcessIsSane(c: Context, script: Script)
    requires Open(c)
    ensures Sane(Process(c, script))
    ensures Process(c, script).freed || Process(c, script).unsent > 0 || Process(c, script).replies != []
            || !Process(c, script).disconnecting
    decreases |c.inbox|
  {
    hide FreeNow, Consume, Numbered, OwnReplies;
    if c.inbox == [] {
      if c.garbled {
        FailingIsReady(c, c.(err := true, disconnecting := true));
        FreeCloses(c.(err := true, disconnecting := true), script);
      } else if c.disconnecting && c.unsent == 0 && c.replies == [] {
        FreeCloses(c, script);
      }
    } else if c.replies == [] {
      assert c.inbox[0].error;
      FailingIsReady(c, c.(inbox := c.inbox[1..], err := true, disconnecting := true));
      FreeCloses(c.(inbox := c.inbox[1..], err := true, disconnecting := true), script);
    } else {
      ConsumeKeepsOpen(c, script);
      var u := Consume(c.(inbox := c.inbox[1..]), script, Some(c.inbox[0]));
      if u.freeing {
        FreeCloses(u, script);
      } else {
        ProcessIsSane(u, script);
      }
    }
  }

  lemma StepIsSane(c: Context, e: Event, script: Script)
    requires Sane(c) && CanHappen(c, e) && Honest(c, e)
    ensures Sane(Step(c, e, script))
  {
    hide FreeNow, Process, OwnReplies, LogIsHead;
    match e
    case Issue(fn) =>
    case Disconnect =>
      if c.replies == [] { FreeCloses(c.(disconnecting := true), script); }
    case Free => FreeCloses(c.(freeing := true), script);
    case Readable(batch, garbled) =>
      var d := c.(inbox := c.inbox + batch, stream := c.stream + batch, garbled := garbled);
      StreamGrows(c.log, c.stream, batch);
      assert d.inbox == batch && d.stream[|d.log|..] == batch;
      ProcessIsSane(d, script);
    case Writable(count) =>
    case IoError => FreeCloses(c.(err := true, disconnecting := true), script);
  }

  lemma StreamGrows(log: seq<Consumed>, stream: seq<Reply>, more: seq<Reply>)
    requires OwnReplies(log, stream, |log|)
    ensures OwnReplies(log, stream + more, |log|)
  {
  }

  // ----- runs

  ghost predicate Possible(c: Context, events: seq<Event>, script: Script)
    decreases |events|
  {
    events == [] ||
    (CanHappen(c, events[0]) && Honest(c, events[0]) && Possible(Step(c, events[0], script), events[1..], script))
  }

  function Run(c: Context, events: seq<Event>, script: Script): Context
    decreases |events|
  {
    if events == [] then c else Run(Step(c, events[0], script), events[1..], script)
  }

  lemma {:induction false} RunIsSane(c: Context, events: seq<Event>, script: Script)
    requires Sane(c) && Possible(c, events, script)
    ensures Sane(Run(c, events, script))
    decreases |events|
  {
    hide Sane, CanHappen, Honest, Step;
    if events != [] {
      StepIsSane(c, events[0], script);
      RunIsSane(Step(c, events[0], script), events[1..], script);
    }
  }

  /** For every run and every behaviour of the callbacks: no assertion fails; callbacks are
      consumed in issue order, at most once; with NULL only once the context is freed, and then
      every accepted command has been consumed. */
  lemma EachCallbackOnce(events: seq<Event>, script: Script)
    requires Possible(FRESH, events, script)
    ensures var c := Run(FRESH, events, script);
            && !c.fault
            && (forall k :: 0 <= k < |c.log| ==> c.log[k].n == k)
            && |c.log| + |c.replies| == c.issued
            && (exists m: nat :: OwnReplies(c.log, c.stream, m) && (!c.freed ==> m == |c.log|))
            && (c.freed ==> |c.log| == c.issued)
  {
    hide Run;
    RunIsSane(FRESH, events, script);
    var c := Run(FRESH, events, script);
    if Open(c) { assert OwnReplies(c.log, c.stream, |c.log|); }
  }

  /** A disconnect that meets no error and no redisAsyncFree answers every accepted command. */
  lemma CleanCloseAnswersAll(events: seq<Event>, script: Script, n: nat)
    requires Possible(FRESH, events, script)
    requires var c := Run(FRESH, events, script); c.freed && !c.err && !c.freeing && n < c.issued
    ensures var c := Run(FRESH, events, script);
            && n < |c.log| && n < |c.stream| && c.log[n] == Consumed(n, Some(c.stream[n]))
  {
    hide Run;
    RunIsSane(FRESH, events, script);
  }
}
