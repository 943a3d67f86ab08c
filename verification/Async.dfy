/** The asynchronous context of depends/hiredis/async.c on values: its callback queue, the
    flags that defer closing while a callback runs, and the replies waiting in the reader.
    Commands are numbered in the order they are accepted. */
module Async {
  import opened Common

  datatype Reply = Reply(error: bool, body: string)

  /** A queued callback; `fn` says whether there is a function to call. */
  datatype Callback = Callback(n: nat, fn: bool)

  /** What a callback may do with the context it is given. */
  datatype Action = IssueCommand(fn: bool) | AskDisconnect | AskFree

  /** What the callback function of each command does when it runs. */
  type Script = nat -> seq<Action>

  /** A callback that left the queue: with its reply, or with NULL. */
  datatype Consumed = Consumed(n: nat, reply: Option<Reply>)

  datatype Context = Context(
    disconnecting: bool,
    freeing: bool,
    inCallback: bool,
    err: bool,
    replies: seq<Callback>,
    unsent: nat,
    inbox: seq<Reply>,
    garbled: bool,
    issued: nat,
    stream: seq<Reply>,
    log: seq<Consumed>,
    freed: bool,
    fault: bool)

  const FRESH: Context :=
    Context(false, false, false, false, [], 0, [], false, 0, [], [], false, false)

  // ----- commands and callbacks

  predicate Closing(c: Context) {
    c.disconnecting || c.freeing
  }

  /** __redisAsyncCommand for an ordinary command. */
  function Command(c: Context, fn: bool): Context {
    if Closing(c) then c
    else c.(replies := c.replies + [Callback(c.issued, fn)], issued := c.issued + 1, unsent := c.unsent + 1)
  }

  /** An action taken while IN_CALLBACK is set: closing is only noted. */
  function ActInside(c: Context, a: Action): Context {
    match a
    case IssueCommand(fn) => Command(c, fn)
    case AskDisconnect => c.(disconnecting := true)
    case AskFree => c.(freeing := true)
  }

  function ActAll(c: Context, actions: seq<Action>): Context
    decreases |actions|
  {
    if actions == [] then c else ActAll(ActInside(c, actions[0]), actions[1..])
  }

  /** The context as callback `cb` starts. */
  function Logged(c: Context, cb: Callback, reply: Option<Reply>): Context {
    c.(log := c.log + [Consumed(cb.n, reply)], inCallback := cb.fn || c.inCallback)
  }

  /** __redisRunCallback */
  function RunCallback(c: Context, cb: Callback, script: Script, reply: Option<Reply>): Context {
    var t := Logged(c, cb, reply);
    if cb.fn then ActAll(t, script(cb.n)).(inCallback := false) else t
  }

  /** Shift the head of the queue (__redisShiftCallback) and run it. */
  function Consume(c: Context, script: Script, reply: Option<Reply>): Context
    requires c.replies != []
  {
    RunCallback(c.(replies := c.replies[1..]), c.replies[0], script, reply)
  }

  /** The context in which the head of the queue is called. */
  function Shifted(c: Context, reply: Option<Reply>): Context
    requires c.replies != []
  {
    Logged(c.(replies := c.replies[1..]), c.replies[0], reply)
  }

  lemma ClosingRejectsOne(c: Context, a: Action)
    requires Closing(c)
    ensures var t := ActInside(c, a);
            Closing(t) && t == c.(disconnecting := t.disconnecting, freeing := t.freeing)
  {
    if a.IssueCommand? { assert ActInside(c, a) == c; }
  }

  /** While the context is closing, a callback cannot queue another. */
  lemma {:induction false} ClosingRejects(c: Context, actions: seq<Action>)
    requires Closing(c)
    ensures var t := ActAll(c, actions);
            Closing(t) && t == c.(disconnecting := t.disconnecting, freeing := t.freeing)
    decreases |actions|
  {
    hide ActInside, Closing;
    if actions != [] {
      ClosingRejectsOne(c, actions[0]);
      ClosingRejects(ActInside(c, actions[0]), actions[1..]);
    }
  }

  // ----- closing

  /** __redisAsyncFree: the pending callbacks run with NULL. The drain ends because the flags
      refuse new commands. */
  function FreeNow(c: Context, script: Script): Context
    requires Closing(c)
    decreases |c.replies|
  {
    if c.replies == [] then c.(freed := true)
    else
      ClosingRejects(Shifted(c, None), script(c.replies[0].n));
      FreeNow(Consume(c, script, None), script)
  }

  /** __redisAsyncDisconnect: a clean one asserts that nothing is pending. */
  function DisconnectNow(c: Context, script: Script): Context
    requires c.err || Closing(c)
  {
    if !c.err then
      if c.replies != [] then c.(fault := true) else FreeNow(c, script)
    else FreeNow(c.(disconnecting := true), script)
  }

  function AsyncFree(c: Context, script: Script): Context {
    var t := c.(freeing := true);
    if c.inCallback then t else FreeNow(t, script)
  }

  function AsyncDisconnect(c: Context, script: Script): Context {
    var t := c.(disconnecting := true);
    if !c.inCallback && c.replies == [] then DisconnectNow(t, script) else t
  }

  // ----- replies

  /** What a callback cannot touch. */
  lemma ActInsideFrame(c: Context, a: Action)
    ensures var t := ActInside(c, a);
            t == c.(disconnecting := t.disconnecting, freeing := t.freeing, replies := t.replies,
                    unsent := t.unsent, issued := t.issued)
  {
    if a.IssueCommand? { CommandFrame(c, a.fn); }
  }

  lemma CommandFrame(c: Context, fn: bool)
    ensures var t := Command(c, fn); t == c.(replies := t.replies, unsent := t.unsent, issued := t.issued)
  {
  }

  lemma {:induction false} ActFrame(c: Context, actions: seq<Action>)
    ensures var t := ActAll(c, actions);
            t == c.(disconnecting := t.disconnecting, freeing := t.freeing, replies := t.replies,
                    unsent := t.unsent, issued := t.issued)
    decreases |actions|
  {
    hide ActInside;
    if actions != [] {
      ActInsideFrame(c, actions[0]);
      ActFrame(ActInside(c, actions[0]), actions[1..]);
    }
  }

  lemma ConsumeFrame(c: Context, script: Script, reply: Option<Reply>)
    requires c.replies != []
    ensures var t := Consume(c, script, reply);
            t == c.(disconnecting := t.disconnecting, freeing := t.freeing, replies := t.replies,
                    unsent := t.unsent, issued := t.issued, log := c.log + [Consumed(c.replies[0].n, reply)],
                    inCallback := if c.replies[0].fn then false else c.inCallback)
  {
    ActFrame(Shifted(c, reply), script(c.replies[0].n));
  }

  /** A reply nobody waits for: an error closes the context; anything else fails an assertion,
      in a context that never subscribed or monitored. */
  function Refuse(c: Context, reply: Reply, script: Script): Context {
    if reply.error then DisconnectNow(c.(err := true), script) else c.(fault := true)
  }

  /** The head of the queue gets its reply; a redisAsyncFree it asked for happens now. The flag
      says whether the reply loop goes on. */
  function Answer(c: Context, reply: Reply, script: Script): (Context, bool)
    requires c.replies != []
  {
    var t := Consume(c, script, Some(reply));
    if c.replies[0].fn && t.freeing then (FreeNow(t, script), false) else (t, true)
  }

  /** redisProcessCallbacks for a context that never subscribed or monitored. */
  function Process(c: Context, script: Script): Context
    decreases |c.inbox|
  {
    if c.inbox == [] then
      if c.garbled then DisconnectNow(c.(err := true), script)
      else if c.disconnecting && c.unsent == 0 && c.replies == [] then DisconnectNow(c, script)
      else c
    else
      var t := c.(inbox := c.inbox[1..]);
      if c.replies == [] then Refuse(t, c.inbox[0], script)
      else
        ConsumeFrame(t, script, Some(c.inbox[0]));
        var (u, going) := Answer(t, c.inbox[0], script);
        if going then Process(u, script) else u
  }

  // ----- events of the loop and of the program, none of them inside a callback

  datatype Event =
    | Issue(fn: bool)
    | Disconnect
    | Free
    | Readable(batch: seq<Reply>, garbled: bool)
    | Writable(count: nat)
    | IoError

  predicate CanHappen(c: Context, e: Event) {
    && !c.freed
    && (e.Writable? ==> e.count <= c.unsent)
  }

  function Step(c: Context, e: Event, script: Script): Context {
    match e
    case Issue(fn) => Command(c, fn)
    case Disconnect => AsyncDisconnect(c, script)
    case Free => AsyncFree(c, script)
    case Readable(batch, garbled) =>
      Process(c.(inbox := c.inbox + batch, stream := c.stream + batch, garbled := garbled), script)
    case Writable(count) => c.(unsent := if count <= c.unsent then c.unsent - count else 0)
    case IoError => DisconnectNow(c.(err := true), script)
  }

  /** The server sends no more replies than there are commands; what it says beyond them is an
      error. */
  predicate Honest(c: Context, e: Event) {
    e.Readable? ==> NoSurplus(c.replies, e.batch)
  }

  predicate NoSurplus(replies: seq<Callback>, batch: seq<Reply>) {
    forall i :: 0 <= i < |batch| ==> i < |replies| || batch[i].error
  }
}
