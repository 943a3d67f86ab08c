/** The asynchronous context of async.c as it runs: its fields change in place, and callbacks
    call back into it. */
module AsyncEngine {
  import opened Common
  import opened Async

  class AsyncContext {
    var disconnecting: bool
    var freeing: bool
    var inCallback: bool
    var err: bool
    var replies: seq<Callback>
    var unsent: nat
    var inbox: seq<Reply>
    var garbled: bool
    var issued: nat
    var stream: seq<Reply>
    var log: seq<Consumed>
    var freed: bool
    var fault: bool
    const script: Script

    ghost function View(): Context
      reads this
    {
      Context(disconnecting, freeing, inCallback, err, replies, unsent, inbox, garbled, issued, stream, log, freed, fault)
    }

    constructor (script: Script)
      ensures View() == FRESH && this.script == script
    {
      disconnecting, freeing, inCallback, err, replies, unsent := false, false, false, false, [], 0;
      inbox, garbled, issued, stream, log, freed, fault := [], false, 0, [], [], false, false;
      this.script := script;
    }

    /** __redisShiftCallback */
    method ShiftCallback() returns (cb: Option<Callback>)
      modifies `replies
      ensures old(replies) == [] ==> cb.None? && replies == []
      ensures old(replies) != [] ==> cb == Some(old(replies)[0]) && replies == old(replies)[1..]
    {
      if replies == [] {
        return None;
      }
      cb := Some(replies[0]);
      replies := replies[1..];
    }

    /** __redisAsyncCommand */
    method AsyncCommand(fn: bool) returns (ok: bool)
      modifies this
      ensures ok == !Closing(old(View())) && View() == Command(old(View()), fn)
    {
      if disconnecting || freeing {
        return false;
      }
      replies := replies + [Callback(issued, fn)];
      issued := issued + 1;
      unsent := unsent + 1;
      return true;
    }

    method RequestFree()
      requires inCallback || !freed
      modifies this
      ensures View() == AsyncFree(old(View()), script)
      decreases if inCallback then 0 else 3
    {
      freeing := true;
      if !inCallback {
        FreeContext();
      }
    }

    method RequestDisconnect()
      modifies this
      ensures View() == AsyncDisconnect(old(View()), script)
      decreases if inCallback then 0 else 4
    {
      disconnecting := true;
      if !inCallback && replies == [] {
        DisconnectContext();
      }
    }

    /** The callback function of command `n`, given the context and a reply. */
    method CallFunction(n: nat)
      requires inCallback
      modifies this
      ensures View() == ActAll(old(View()), script(n))
      decreases 1
    {
      hide FreeNow, DisconnectNow;
      var actions := script(n);
      var i := 0;
      assert actions[0..] == actions;
      while i < |actions|
        invariant 0 <= i <= |actions| && inCallback
        invariant ActAll(View(), actions[i..]) == ActAll(old(View()), actions)
        decreases |actions| - i
      {
        ghost var before := View();
        match actions[i] {
          case IssueCommand(fn) => var _ := AsyncCommand(fn);
          case AskDisconnect => RequestDisconnect();
          case AskFree => RequestFree();
        }
        assert View() == ActInside(before, actions[i]);
        ActInsideFrame(before, actions[i]);
        assert actions[i..][1..] == actions[i + 1..];
        i := i + 1;
      }
    }

    /** __redisRunCallback */
    method Run(cb: Callback, reply: Option<Reply>)
      requires !inCallback
      modifies this
      ensures View() == RunCallback(old(View()), cb, script, reply)
      decreases 2, 0
    {
      hide ActAll, ActInside;
      ghost var t := Logged(View(), cb, reply);
      log := log + [Consumed(cb.n, reply)];
      if cb.fn {
        inCallback := true;
        assert View() == t;
        hide Logged;
        CallFunction(cb.n);
        ghost var u := ActAll(t, script(cb.n));
        assert View() == u;
        inCallback := false;
        assert View() == u.(inCallback := false);
      } else {
        assert View() == t;
      }
    }

    /** __redisAsyncFree */
    method FreeContext()
      requires !inCallback && Closing(View())
      modifies this
      ensures View() == FreeNow(old(View()), script)
      decreases 2, 1
    {
      hide RunCallback;
      var cb := Some(Callback(0, false));
      while cb.Some?
        invariant !inCallback && Closing(View())
        invariant FreeNow(View(), script) == FreeNow(old(View()), script)
        invariant cb.None? ==> replies == []
        decreases |replies|, cb.Some?
      {
        ghost var before := View();
        cb := ShiftCallback();
        if cb.Some? {
          Run(cb.value, None);
          FreeingStep(before, script);
        }
      }
      freed := true;
    }

    /** __redisAsyncDisconnect */
    method DisconnectContext()
      requires !inCallback && (err || Closing(View()))
      modifies this
      ensures View() == DisconnectNow(old(View()), script)
      decreases 2, 2
    {
      hide FreeNow;
      if !err {
        if replies != [] {
          fault := true;
          return;
        }
      } else {
        disconnecting := true;
      }
      FreeContext();
    }

    method RefuseReply(reply: Reply)
      requires !inCallback
      modifies this
      ensures View() == Refuse(old(View()), reply, script)
    {
      hide DisconnectNow;
      if reply.error {
        err := true;
        DisconnectContext();
      } else {
        fault := true;
      }
    }

    /** The callback just shifted gets its reply; `before` still had it queued. */
    method AnswerReply(cb: Callback, reply: Reply, ghost before: Context) returns (going: bool)
      requires !inCallback && before.replies != [] && cb == before.replies[0]
      requires View() == before.(replies := before.replies[1..])
      modifies this
      ensures (View(), going) == Answer(before, reply, script)
      ensures going ==> !inCallback && inbox == old(inbox)
    {
      ConsumeFrame(before, script, Some(reply));
      hide RunCallback, FreeNow;
      Run(cb, Some(reply));
      if cb.fn && freeing {
        FreeContext();
        return false;
      }
      return true;
    }

    /** redisProcessCallbacks */
    method ProcessCallbacks()
      requires !inCallback
      modifies this
      ensures View() == Process(old(View()), script)
    {
      hide FreeNow, Consume, DisconnectNow, Refuse, Answer;
      while inbox != []
        invariant !inCallback
        invariant Process(View(), script) == Process(old(View()), script)
        decreases |inbox|
      {
        ghost var before := View();
        var reply := inbox[0];
        inbox := inbox[1..];
        assert View() == before.(inbox := before.inbox[1..]);
        if replies == [] {
          RefuseReply(reply);
          return;
        }
        ghost var read := View();
        var cb := ShiftCallback();
        assert View() == read.(replies := read.replies[1..]);
        var going := AnswerReply(cb.value, reply, read);
        if !going {
          return;
        }
      }
      if garbled {
        err := true;
        DisconnectContext();
      } else if disconnecting && unsent == 0 && replies == [] {
        DisconnectContext();
      }
    }

    /** redisAsyncHandleRead on a connected context; `failed` is the outcome of the read. */
    method HandleRead(batch: seq<Reply>, bad: bool, failed: bool)
      requires !inCallback
      modifies this
      ensures View() == Step(old(View()), if failed then IoError else Readable(batch, bad), script)
    {
      hide Process, DisconnectNow;
      if failed {
        err := true;
        DisconnectContext();
      } else {
        inbox, stream, garbled := inbox + batch, stream + batch, bad;
        ProcessCallbacks();
      }
    }
  }

  /** One round of draining leaves the rest of the drain the same. */
  lemma FreeingStep(c: Context, script: Script)
    requires Closing(c) && c.replies != []
    ensures var d := Consume(c, script, None);
            && Closing(d) && d.inCallback == (if c.replies[0].fn then false else c.inCallback)
            && |d.replies| < |c.replies|
            && FreeNow(d, script) == FreeNow(c, script)
  {
    ClosingRejects(Shifted(c, None), script(c.replies[0].n));
    ConsumeFrame(c, script, None);
  }
}
