/** What every event does to an open context, in the terms of a program that uses it: which commands
    are accepted, when a disconnect waits, who hears what when the context is freed, and how far a
    batch of replies gets. */
module AsyncEvents {
  import opened Common
  import opened Async
  import opened AsyncOnce

  /** An open context between two events. */
  ghost predicate Idle(c: Context) {
    Open(c) && c.inbox == [] && !c.garbled
  }

  /** Between two events of any run a context is freed or idle. */
  lemma OpenIsIdle(events: seq<Event>, script: Script)
    requires Possible(FRESH, events, script)
    ensures var c := Run(FRESH, events, script); c.freed || Idle(c)
  {
    hide Run, Possible;
    RunIsSane(FRESH, events, script);
  }

  /** A command is queued last, and its bytes wait to be sent, unless a disconnect has been asked for;
      then it is refused and nothing changes. */
  lemma CommandMeans(c: Context, fn: bool, script: Script)
    requires Idle(c)
    ensures var t := Step(c, Issue(fn), script);
            if c.disconnecting then t == c
            else t == c.(replies := c.replies + [Callback(|c.log| + |c.replies|, fn)],
                         issued := c.issued + 1, unsent := c.unsent + 1)
  {
    hide QueueIsTail, LogIsHead, OwnReplies;
  }

  /** A disconnect closes the context at once if nothing is pending, and otherwise only stops it from
      accepting commands. */
  lemma DisconnectMeans(c: Context, script: Script)
    requires Idle(c)
    ensures var t := Step(c, Disconnect, script);
            if c.replies == [] then t == c.(disconnecting := true, freed := true) else t == c.(disconnecting := true)
  {
  }

  /** From within a callback a disconnect or a free is only noted, and a command goes where it would
      go outside. */
  lemma InsideMeans(c: Context, a: Action, script: Script)
    requires c.inCallback
    ensures var t := ActInside(c, a);
            match a
            case AskDisconnect => t == AsyncDisconnect(c, script) == c.(disconnecting := true)
            case AskFree => t == AsyncFree(c, script) == c.(freeing := true)
            case IssueCommand(fn) =>
              if c.disconnecting || c.freeing then t == c
              else t == c.(replies := c.replies + [Callback(c.issued, fn)], issued := c.issued + 1, unsent := c.unsent + 1)
  {
  }

  /** All that is pending is called with NULL, in order, and nothing else is. */
  ghost predicate CalledWithNull(c: Context, t: Context) {
    && t.freed && t.replies == [] && |c.log| <= |t.log| == c.issued == t.issued
    && t.log[..|c.log|] == c.log
    && forall k :: |c.log| <= k < |t.log| ==> t.log[k] == Consumed(k, None)
  }

  lemma DrainedIsNull(c: Context, t: Context)
    requires Drained(c, t)
    ensures CalledWithNull(c, t)
  {
  }

  /** Freeing the context from outside a callback, or an error on the connection, calls all that is
      pending with NULL; the error is remembered, and so is that it was freed. */
  lemma FreeMeans(c: Context, script: Script)
    requires Idle(c)
    ensures var t := Step(c, Free, script); CalledWithNull(c, t) && t.freeing && !t.err
    ensures var t := Step(c, IoError, script);
            CalledWithNull(c, t) && t.err && (c.replies == [] ==> !t.freeing)
  {
    hide QueueIsTail, LogIsHead, OwnReplies, FreeNow, Drained;
    var f, e := c.(freeing := true), c.(err := true, disconnecting := true);
    FreeDrains(f, script);
    FreeDrains(e, script);
    DrainedIsNull(f, FreeNow(f, script));
    DrainedIsNull(e, FreeNow(e, script));
    DrainedKeeps(f, FreeNow(f, script));
    DrainedKeeps(e, FreeNow(e, script));
  }

  lemma DrainedKeeps(c: Context, t: Context)
    requires Drained(c, t)
    ensures t.err == c.err && (c.freeing ==> t.freeing) && (c.replies == [] ==> t.freeing == c.freeing)
  {
  }

  /** Sent bytes leave the output buffer, and nothing else happens. */
  lemma WritableMeans(c: Context, count: nat, script: Script)
    requires Idle(c) && CanHappen(c, Writable(count))
    ensures Step(c, Writable(count), script) == c.(unsent := c.unsent - count)
  {
  }

  // ----- what a callback leaves behind

  /** The commands that a list of actions issues before it asks to close. */
  function Fns(actions: seq<Action>): seq<bool> {
    if actions == [] || !actions[0].IssueCommand? then [] else [actions[0].fn] + Fns(actions[1..])
  }

  ghost predicate Queues(c: Context, t: Context, fns: seq<bool>) {
    && t.replies == c.replies + seq(|fns|, i requires 0 <= i < |fns| => Callback(c.issued + i, fns[i]))
    && t.issued == c.issued + |fns| && t.unsent == c.unsent + |fns|
  }

  /** After a callback the context is to be freed, or disconnected, exactly if that had been asked for
      before or the callback asked; the commands that it issued until then are queued in order, and
      those behind are refused. */
  lemma {:induction false} CallbackMeans(c: Context, actions: seq<Action>)
    ensures var t := ActAll(c, actions);
            && (t.freeing <==> c.freeing || AskFree in actions)
            && (t.disconnecting <==> c.disconnecting || AskDisconnect in actions)
            && Queues(c, t, if Closing(c) then [] else Fns(actions))
    decreases |actions|
  {
    if actions == [] {
      assert ActAll(c, actions) == c;
    } else {
      var a, u, rest := actions[0], ActInside(c, actions[0]), actions[1..];
      hide Queues;
      CallbackMeans(u, rest);
      assert actions == [a] + rest;
      InsideStep(c, a, u, ActAll(u, rest), if Closing(u) then [] else Fns(rest));
      InsideFlags(c, a);
      hide ActInside;
    }
  }

  lemma InsideFlags(c: Context, a: Action)
    ensures var u := ActInside(c, a);
            && (u.freeing <==> c.freeing || a == AskFree)
            && (u.disconnecting <==> c.disconnecting || a == AskDisconnect)
            && (a.IssueCommand? ==> Closing(u) == Closing(c))
  {
  }

  lemma InsideStep(c: Context, a: Action, u: Context, t: Context, fns: seq<bool>)
    requires u == ActInside(c, a) && Queues(u, t, fns)
    ensures Queues(c, t, if a.IssueCommand? && !Closing(c) then [a.fn] + fns else fns)
  {
    if a.IssueCommand? && !Closing(c) {
      var all := [a.fn] + fns;
      assert t.replies == c.replies + seq(|all|, i requires 0 <= i < |all| => Callback(c.issued + i, all[i]));
    }
  }

  /** A command that is consumed leaves the queue and enters the log with its reply or with NULL; if it
      has a function, that runs, and nothing else does. */
  lemma ConsumeMeans(c: Context, script: Script, reply: Option<Reply>)
    requires c.replies != []
    ensures var t := Consume(c, script, reply); var cb := c.replies[0];
            var actions := if cb.fn then script(cb.n) else [];
            && t.log == c.log + [Consumed(cb.n, reply)]
            && (t.freeing <==> c.freeing || AskFree in actions)
            && (t.disconnecting <==> c.disconnecting || AskDisconnect in actions)
            && Queues(c.(replies := c.replies[1..]), t, if Closing(c) then [] else Fns(actions))
            && (cb.fn ==> !t.inCallback)
  {
    hide ActAll, Consume, Queues, Shifted;
    ConsumeFrame(c, script, reply);
    ConsumeRuns(c, script, reply);
    var cb, d := c.replies[0], Shifted(c, reply);
    ShiftedMeans(c, reply);
    if cb.fn {
      CallbackMeans(d, script(cb.n));
      SameQueues(d, c.(replies := c.replies[1..]), ActAll(d, script(cb.n)), Consume(c, script, reply),
                 if Closing(c) then [] else Fns(script(cb.n)));
    } else {
      NothingQueued(c.(replies := c.replies[1..]), d);
    }
  }

  lemma ConsumeRuns(c: Context, script: Script, reply: Option<Reply>)
    requires c.replies != []
    ensures var d, cb := Shifted(c, reply), c.replies[0];
            Consume(c, script, reply) == if cb.fn then ActAll(d, script(cb.n)).(inCallback := false) else d
  {
    hide ActAll;
  }

  lemma ShiftedMeans(c: Context, reply: Option<Reply>)
    requires c.replies != []
    ensures var d := Shifted(c, reply);
            d == c.(replies := c.replies[1..], log := c.log + [Consumed(c.replies[0].n, reply)],
                    inCallback := c.replies[0].fn || c.inCallback)
  {
  }

  lemma SameQueues(c: Context, d: Context, t: Context, u: Context, fns: seq<bool>)
    requires Queues(c, t, fns) && c.replies == d.replies && c.issued == d.issued && c.unsent == d.unsent
    requires t.replies == u.replies && t.issued == u.issued && t.unsent == u.unsent
    ensures Queues(d, u, fns)
  {
  }

  lemma NothingQueued(c: Context, d: Context)
    requires c.replies == d.replies && c.issued == d.issued && c.unsent == d.unsent
    ensures Queues(c, d, [])
  {
    assert c.replies + [] == d.replies;
  }

  // ----- a batch of replies

  /** How a batch ends: a callback asked to free the context, a reply came that nobody waited for,
      the bytes behind the batch made no reply, or all of it was delivered. */
  datatype End = Freed | Unawaited | Garbled | AllTold

  /** The next `m` commands get the first `m` replies of the batch, each its own; behind them everybody
      who is still called is called with NULL, and the context is freed.  If all of the batch is
      delivered it is freed if and only if a disconnect has been asked for, all is sent and nobody
      waits. */
  ghost predicate Delivers(c: Context, batch: seq<Reply>, script: Script, t: Context, m: nat, end: End) {
    && m <= |batch| && |c.log| + m <= |t.log|
    && t.log[..|c.log|] == c.log
    && (forall i :: 0 <= i < m ==> t.log[|c.log| + i] == Consumed(|c.log| + i, Some(batch[i])))
    && (forall k :: |c.log| + m <= k < |t.log| ==> t.log[k] == Consumed(k, None))
    && (end.AllTold? <==> !t.err && !t.freeing)
    && (!end.AllTold? ==> t.freed && t.replies == [] && |t.log| == t.issued)
    && match end
       case Freed => m > 0 && t.freeing && !t.err && AskFree in script(|c.log| + m - 1)
       case Unawaited => m < |batch| && batch[m].error && t.err
       case Garbled => m == |batch| && t.err
       case AllTold =>
         && m == |batch| && |t.log| == |c.log| + m
         && (t.freed <==> t.disconnecting && t.unsent == 0 && t.replies == [])
  }

  lemma EmptyEnds(c: Context, script: Script)
    requires Open(c) && c.inbox == []
    ensures Delivers(c, [], script, Process(c, script), 0, if c.garbled then Garbled else AllTold)
  {
    hide QueueIsTail, OwnReplies, NoSurplus;
    if c.garbled {
      var e := c.(err := true, disconnecting := true);
      FreeDrains(e, script);
      hide FreeNow, LogIsHead;
      DrainedIsNull(e, FreeNow(e, script));
    } else {
      assert c.log[..|c.log|] == c.log;
    }
  }

  lemma UnawaitedEnds(c: Context, script: Script)
    requires Open(c) && c.inbox != [] && c.replies == []
    ensures Delivers(c, c.inbox, script, Process(c, script), 0, Unawaited)
  {
    hide QueueIsTail, OwnReplies;
    assert c.inbox[0].error;
    var e := c.(inbox := c.inbox[1..], err := true, disconnecting := true);
    FreeDrains(e, script);
    DrainedIsNull(e, FreeNow(e, script));
    hide FreeNow, LogIsHead;
  }

  /** One command is told its reply. */
  lemma OneTold(c: Context, script: Script)
    requires Open(c) && c.inbox != [] && c.replies != []
    ensures var u := Consume(c.(inbox := c.inbox[1..]), script, Some(c.inbox[0]));
            && u.log == c.log + [Consumed(|c.log|, Some(c.inbox[0]))] && u.err == c.err
            && (u.freeing ==> AskFree in script(|c.log|))
            && Process(c, script) == if u.freeing then FreeNow(u, script) else Process(u, script)
  {
    var c1 := c.(inbox := c.inbox[1..]);
    ConsumeKeepsOpen(c, script);
    ConsumeFrame(c1, script, Some(c.inbox[0]));
    ConsumeKeepsNumbers(c1, script, Some(c.inbox[0]));
    var cb := c1.replies[0];
    if cb.fn { CallbackMeans(Shifted(c1, Some(c.inbox[0])), script(cb.n)); }
    hide FreeNow, OwnReplies, NoSurplus, LogIsHead;
  }

  lemma FreedEnds(c: Context, u: Context, script: Script)
    requires Ready(u) && u.freeing && !u.err && c.inbox != [] && AskFree in script(|c.log|)
    requires u.log == c.log + [Consumed(|c.log|, Some(c.inbox[0]))]
    ensures Delivers(c, c.inbox, script, FreeNow(u, script), 1, Freed)
  {
    hide OwnReplies;
    FreeDrains(u, script);
    var t := FreeNow(u, script);
    DrainedIsNull(u, t);
    DrainedKeeps(u, t);
    assert t.log[..|c.log|] == t.log[..|u.log|][..|c.log|] == c.log;
    assert t.log[|c.log|] == t.log[..|u.log|][|c.log|];
    hide FreeNow;
  }

  lemma OneMoreTold(c: Context, u: Context, script: Script, t: Context, m: nat, end: End)
    requires Delivers(u, u.inbox, script, t, m, end) && c.inbox != [] && u.inbox == c.inbox[1..]
    requires u.log == c.log + [Consumed(|c.log|, Some(c.inbox[0]))]
    ensures Delivers(c, c.inbox, script, t, m + 1, end)
  {
    assert t.log[..|c.log|] == t.log[..|u.log|][..|c.log|] == c.log;
    assert t.log[|c.log|] == t.log[..|u.log|][|c.log|];
    forall i | 0 <= i < m + 1 ensures t.log[|c.log| + i] == Consumed(|c.log| + i, Some(c.inbox[i])) {
      if i > 0 { assert t.log[|u.log| + (i - 1)] == Consumed(|u.log| + (i - 1), Some(u.inbox[i - 1])); }
    }
  }

  lemma {:induction false} ProcessDelivers(c: Context, script: Script) returns (m: nat, end: End)
    requires Open(c)
    ensures Delivers(c, c.inbox, script, Process(c, script), m, end)
    ensures end.Garbled? ==> c.garbled
    ensures end.AllTold? ==> !c.garbled
    decreases |c.inbox|
  {
    hide FreeNow, Consume, Numbered, OwnReplies, Open, NoSurplus, Delivers, Process;
    if c.inbox == [] {
      m, end := 0, if c.garbled then Garbled else AllTold;
      EmptyEnds(c, script);
    } else if c.replies == [] {
      m, end := 0, Unawaited;
      UnawaitedEnds(c, script);
    } else {
      ConsumeKeepsOpen(c, script);
      var u := Consume(c.(inbox := c.inbox[1..]), script, Some(c.inbox[0]));
      OneTold(c, script);
      OpenHasNoError(c);
      if u.freeing {
        m, end := 1, Freed;
        FreedEnds(c, u, script);
      } else {
        m, end := ProcessDelivers(u, script);
        OneMoreTold(c, u, script, Process(u, script), m, end);
        m := m + 1;
      }
    }
  }

  lemma OpenHasNoError(c: Context)
    requires Open(c)
    ensures !c.err
  {
  }

  /** A batch of replies is delivered in order, one to each command that waits, until it ends in one of
      four ways; it ends as garbled only if the bytes behind it made no reply, and is delivered in full
      only if they did not. */
  lemma ReadMeans(c: Context, batch: seq<Reply>, garbled: bool, script: Script)
    requires Idle(c) && Honest(c, Readable(batch, garbled))
    ensures var t := Step(c, Readable(batch, garbled), script);
            exists m: nat, end: End :: Delivers(c, batch, script, t, m, end)
                                       && (end.Garbled? ==> garbled) && (end.AllTold? ==> !garbled)
  {
    hide Process, Open, Honest, Delivers;
    var d := c.(inbox := c.inbox + batch, stream := c.stream + batch, garbled := garbled);
    BatchIsOpen(c, batch, garbled);
    var m, end := ProcessDelivers(d, script);
    LogIsAll(c, d, batch, script, Process(d, script), m, end);
    assert Step(c, Readable(batch, garbled), script) == Process(d, script);
  }

  lemma BatchIsOpen(c: Context, batch: seq<Reply>, garbled: bool)
    requires Idle(c) && Honest(c, Readable(batch, garbled))
    ensures var d := c.(inbox := c.inbox + batch, stream := c.stream + batch, garbled := garbled);
            Open(d) && d.inbox == batch
  {
    hide QueueIsTail, LogIsHead, OwnReplies;
    var d := c.(inbox := c.inbox + batch, stream := c.stream + batch, garbled := garbled);
    StreamGrows(c.log, c.stream, batch);
    assert d.inbox == batch && d.stream[|d.log|..] == batch;
  }

  lemma LogIsAll(c: Context, d: Context, batch: seq<Reply>, script: Script, t: Context, m: nat, end: End)
    requires Delivers(d, batch, script, t, m, end) && d.log == c.log
    ensures Delivers(c, batch, script, t, m, end)
  {
  }
}
