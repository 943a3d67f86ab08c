/** The reader of depends/hiredis/read.c as it runs: a growing buffer, a position in it,
    and a task stack that survives between feeds. */
module RespReader {
  import opened Common
  import opened Resp
  import opened RespChunks
  import Sds

  class Reader {
    var err: Option<Fault>
    var buf: Bytes
    var pos: nat
    var stack: seq<Task>
    var reply: Option<Reply>

    ghost predicate Valid()
      reads this
    {
      pos <= |buf| && (err.Some? ==> buf == [] && stack == [])
    }

    ghost function View(): Machine
      requires Valid()
      reads this
    {
      Machine(stack, buf[pos..])
    }

    constructor ()
      ensures Valid() && err.None? && View() == Machine([], []) && buf == []
    {
      err, buf, pos, stack, reply := None, [], 0, [], None;
    }

    // ----- lexical helpers

    method SeekNewline() returns (r: Option<nat>)
      requires Valid()
      ensures r == Newline(buf[pos..])
    {
      var s := buf[pos..];
      var p, last := 0, |s| - 1;
      while p < last
        invariant 0 <= p && (p <= last || |s| == 0)
        invariant forall i :: 0 <= i < p && i + 1 < |s| ==> !(s[i] == CR && s[i + 1] == LF)
      {
        if s[p] == CR && s[p + 1] == LF {
          NewlineIs(s, p);
          return Some(p);
        }
        p := p + 1;
      }
      return None;
    }

    static lemma NewlineIs(s: Bytes, p: nat)
      requires p + 1 < |s| && s[p] == CR && s[p + 1] == LF
      requires forall i :: 0 <= i < p ==> !(s[i] == CR && s[i + 1] == LF)
      ensures Newline(s) == Some(p)
    {
      var r := Newline(s);
      assert r.Some?;
    }

    static method ReadLongLong(line: Bytes) returns (n: int)
      ensures n == Number(line)
    {
      var i, negative := 0, false;
      if line != [] && (line[0] == MINUS || line[0] == PLUS) {
        negative := line[0] == MINUS;
        i := 1;
      }
      ghost var digits := line[i..];
      var v := 0;
      while i < |line| && line[i] != CR
        invariant 0 <= i <= |line|
        invariant Digits(digits, 0) == Digits(line[i..], v)
      {
        if !IsDigit(line[i]) {
          return -1;
        }
        v := v * 10 + (line[i] - ZERO);
        i := i + 1;
      }
      return if negative then -v else v;
    }

    /** readLine: the line at the position, which moves past its end. */
    method ReadLine() returns (line: Option<Bytes>)
      requires Valid() && err.None?
      modifies this
      ensures Valid() && err.None? && stack == old(stack) && reply == old(reply) && buf == old(buf)
      ensures var nl := Newline(old(View()).rest);
              if nl.None? then line.None? && View() == old(View())
              else line == Some(old(View()).rest[..nl.value]) && View().rest == old(View()).rest[nl.value + 2..]
    {
      var p := SeekNewline();
      if p.None? {
        return None;
      }
      line := Some(buf[pos..][..p.value]);
      assert buf[pos..][p.value + 2..] == buf[pos + (p.value + 2)..];
      pos := pos + (p.value + 2);
    }

    // ----- moveToNextTask

    method MoveToNextTask(v: Reply)
      requires Valid() && err.None?
      modifies this
      ensures Valid() && err.None? && buf == old(buf) && pos == old(pos)
      ensures stack == Complete(old(stack), v).0
      ensures stack == [] ==> reply == Complete(old(stack), v).1
      ensures stack != [] ==> reply == old(reply)
    {
      var done := v;
      while |stack| > 1
        invariant Valid() && err.None? && buf == old(buf) && pos == old(pos) && reply == old(reply)
        invariant Complete(stack, done) == Complete(old(stack), v)
        decreases |stack|
      {
        var top, parent := stack[|stack| - 1], stack[|stack| - 2];
        parent := parent.(items := parent.items + [done]);
        stack := stack[..|stack| - 2] + [parent];
        if top.idx == parent.elements - 1 {
          done := Array(parent.elements, parent.items);
        } else {
          stack := stack + [Task(None, -1, top.idx + 1, [])];
          return;
        }
      }
      stack, reply := [], Some(done);
    }

    // ----- the item handlers; the result says REDIS_OK

    /** What a handler leaves behind, as an outcome of the value machine. */
    ghost predicate Left(o: Outcome, ok: bool)
      reads this
    {
      && Valid()
      && match o
         case Done(m, root) => ok && err.None? && View() == m && (m.stack == [] ==> reply == root)
         case Wait(m) => !ok && err.None? && View() == m
         case Broken(f) => !ok && err == Some(f)
    }

    method ProcessLineItem(kind: Type) returns (ok: bool)
      requires Valid() && err.None? && stack != []
      modifies this
      ensures Left(ProcessLine(old(View()), kind), ok)
    {
      hide Complete, Number;
      var line := ReadLine();
      if line.None? {
        return false;
      }
      var obj;
      if kind.TInteger? {
        var n := ReadLongLong(line.value);
        obj := Integer(n);
      } else {
        obj := if kind.TStatus? then Status(line.value) else Error(line.value);
      }
      MoveToNextTask(obj);
      return true;
    }

    method ProcessBulkItem() returns (ok: bool)
      requires Valid() && err.None? && stack != []
      modifies this
      ensures Left(ProcessBulk(old(View())), ok)
    {
      hide Complete, Number;
      var p := SeekNewline();
      if p.None? {
        return false;
      }
      var s := buf[pos..];
      var bytelen := p.value + 2;
      var len := ReadLongLong(s[..p.value]);
      var obj := Nil;
      if len >= 0 {
        if pos + (bytelen + (len + 2)) > |buf| {
          return false;
        }
        obj := Bulk(s[bytelen..bytelen + len]);
        bytelen := bytelen + (len + 2);
      }
      assert s[bytelen..] == buf[pos + bytelen..];
      pos := pos + bytelen;
      MoveToNextTask(obj);
      return true;
    }

    method ProcessMultiBulkItem() returns (ok: bool)
      requires Valid() && err.None? && stack != []
      modifies this
      ensures Left(ProcessMultiBulk(old(View())), ok)
    {
      hide Complete, Number;
      if |stack| == 9 {
        SetError(TooDeep);
        return false;
      }
      var line := ReadLine();
      if line.None? {
        return false;
      }
      var elements := ReadLongLong(line.value);
      if elements == -1 {
        MoveToNextTask(Nil);
      } else if elements > 0 {
        var top := |stack| - 1;
        stack := stack[top := stack[top].(elements := elements)];
        stack := stack + [Task(None, -1, 0, [])];
        assert stack == Descend(old(stack), elements);
      } else {
        MoveToNextTask(Array(elements, []));
      }
      return true;
    }

    /** __redisReaderSetError: the buffer and the stack are dropped. */
    method SetError(f: Fault)
      modifies this
      ensures Valid() && err == Some(f)
    {
      reply, buf, pos, stack, err := None, [], 0, [], Some(f);
    }

    method ProcessOneItem() returns (ok: bool)
      requires Valid() && err.None? && stack != []
      modifies this
      ensures Left(ProcessItem(old(View())), ok)
    {
      hide ProcessLine, ProcessBulk, ProcessMultiBulk;
      var top := |stack| - 1;
      if stack[top].kind.None? {
        if pos >= |buf| {
          return false;
        }
        var kind := TypeOf(buf[pos]);
        if kind.None? {
          SetError(BadType(buf[pos]));
          return false;
        }
        assert buf[pos..][1..] == buf[pos + 1..];
        pos := pos + 1;
        stack := stack[top := stack[top].(kind := kind)];
        assert View() == WithKind(old(View()).(rest := old(View()).rest[1..]), kind.value);
      }
      match stack[top].kind.value
      case TString => ok := ProcessBulkItem();
      case TArray => ok := ProcessMultiBulkItem();
      case kind => ok := ProcessLineItem(kind);
    }

    // ----- redisReaderFeed, redisReaderGetReply

    method Feed(chunk: Bytes) returns (ok: bool)
      requires Valid()
      modifies this
      ensures Valid() && ok == old(err).None? && err == old(err)
      ensures ok ==> View() == Fed(old(View()), chunk) && buf == old(buf) + chunk
    {
      if err.Some? {
        return false;
      }
      if |chunk| >= 1 {
        assert (buf + chunk)[pos..] == buf[pos..] + chunk;
        buf := buf + chunk;
      } else {
        assert buf + chunk == buf && buf[pos..] + chunk == buf[pos..];
      }
      return true;
    }

    method GetReply() returns (ok: bool, r: Option<Reply>)
      requires Valid()
      modifies this
      ensures Valid()
      ensures old(err).Some? ==> !ok && r.None? && err == old(err)
      ensures old(err).None? && old(buf) == [] ==> ok && r.None? && err.None? && View() == old(View()) && buf == old(buf)
      ensures old(err).None? && old(buf) != [] ==>
                match Resp.GetReply(Prime(old(View())))
                case Done(m, root) => ok && err.None? && r == root && View() == m
                case Wait(m) => ok && err.None? && r.None? && View() == m
                case Broken(f) => !ok && r.None? && err == Some(f)
    {
      hide ProcessItem;
      r := None;
      if err.Some? {
        return false, None;
      }
      if |buf| == 0 {
        return true, None;
      }
      if stack == [] {
        stack := [FRESH];
      }
      ghost var start := View();
      var going := true;
      while going && stack != []
        invariant Valid()
        invariant err.None? && stack != [] && going ==> Resp.GetReply(View()) == Resp.GetReply(start)
        invariant err.None? && stack != [] && !going ==> Resp.GetReply(start) == Wait(View())
        invariant err.None? && stack == [] ==> reply.Some? && Resp.GetReply(start) == Done(View(), reply)
        invariant err.Some? ==> !going && Resp.GetReply(start) == Broken(err.value)
        decreases going, |buf| - pos
      {
        ghost var m := View();
        ProgressConsumes(m);
        going := ProcessOneItem();
        assert Left(ProcessItem(m), going);
      }
      if err.Some? {
        return false, None;
      }
      if pos >= 1024 {
        Sds.RangeDrops(buf, pos);
        buf := Sds.Range(buf, pos, -1);
        pos := 0;
        assert buf[0..] == buf;
      }
      if stack == [] {
        r := reply;
        reply := None;
      }
      return true, r;
    }

    static lemma EmptyIsCalm(m: Machine)
      requires m.stack == []
      ensures Calm(m)
    {
    }

    /** A client's loop: take replies until there is none. */
    method TakeAll() returns (replies: seq<Reply>)
      requires Valid() && err.None? && Calm(View())
      modifies this
      ensures Valid()
      ensures var d := Drain(old(View()));
              && replies == d.replies
              && match d.last
                 case Wait(m) => err.None? && Prime(View()) == m && Calm(View())
                 case Broken(f) => err == Some(f)
                 case Done(_, _) => false
    {
      hide Resp.GetReply, Calm;
      replies := [];
      var ok, r := true, None;
      var more := true;
      while more
        invariant Valid() && (ok ==> err.None? && Calm(View()))
        invariant more ==> ok
        invariant ok ==> var d, e := Drain(old(View())), Drain(View());
                         d.replies == replies + e.replies && d.last == e.last
        invariant ok && !more ==> Drain(View()) == Drained([], Wait(Prime(View())))
        invariant !ok ==> err.Some? && Drain(old(View())) == Drained(replies, Broken(err.value))
        decreases more, |View().rest|
      {
        ghost var m := View();
        if buf == [] { EmptyRestWaits(m); }
        WaitsCalmly(Prime(m));
        ok, r := GetReply();
        more := ok && r.Some?;
        if more {
          EmptyIsCalm(View());
          assert replies + ([r.value] + Drain(View()).replies) == (replies + [r.value]) + Drain(View()).replies;
          replies := replies + [r.value];
        } else if ok {
          DrainAgain(m);
        }
        assert replies + [] == replies;
      }
    }

    /** A whole client: every chunk is fed and then drained, until the stream ends or fails. The
        replies and the final error are those of the stream read in one piece. */
    method ReadStream(chunks: seq<Bytes>) returns (replies: seq<Reply>)
      requires Valid() && err.None? && View() == Machine([], [])
      modifies this
      ensures Valid()
      ensures var d := Drain(Machine([], Concat(chunks)));
              && replies == d.replies
              && match d.last
                 case Wait(m) => err.None? && Prime(View()) == m
                 case Broken(f) => err == Some(f)
                 case Done(_, _) => false
    {
      hide Drain, Resp.GetReply, Concat, Prime;
      ghost var start := View();
      replies := [];
      var i := 0;
      NothingDrains();
      assert chunks[..0] == [];
      while i < |chunks| && err.None?
        invariant 0 <= i <= |chunks| && Valid() && (err.None? ==> Calm(View()))
        invariant Drain(Machine([], Concat(chunks[..i])))
                  == Drained(replies, if err.None? then Wait(Prime(View())) else Broken(err.value))
      {
        ghost var before := View();
        var fed := Feed(chunks[i]);
        var more := TakeAll();
        NextChunk(chunks, i, before);
        replies := replies + more;
        i := i + 1;
      }
      if i < |chunks| {
        DrainSplits(Machine([], Concat(chunks[..i])), Concat(chunks[i..]));
        ConcatSplits(chunks, i);
      } else {
        assert chunks[..i] == chunks;
      }
    }

    static lemma NothingDrains()
      ensures Drain(Machine([], Concat([]))) == Drained([], Wait(Prime(Machine([], []))))
    {
      EmptyRestWaits(Machine([], []));
    }

    static lemma {:induction false} ConcatSplits(chunks: seq<Bytes>, i: nat)
      requires i <= |chunks|
      ensures Concat(chunks) == Concat(chunks[..i]) + Concat(chunks[i..])
    {
      if i == 0 {
        assert chunks[..0] == [] && chunks[0..] == chunks;
      } else {
        assert chunks[..i][1..] == chunks[1..][..i - 1] && chunks[i..] == chunks[1..][i - 1..];
        ConcatSplits(chunks[1..], i - 1);
      }
    }

    /** Feeding one more chunk to a drained reader. */
    static lemma NextChunk(chunks: seq<Bytes>, i: nat, m: Machine)
      requires i < |chunks| && Drain(Machine([], Concat(chunks[..i]))).last == Wait(Prime(m))
      ensures var d, e := Drain(Machine([], Concat(chunks[..i]))), Drain(Fed(m, chunks[i]));
              Drain(Machine([], Concat(chunks[..i + 1]))) == Drained(d.replies + e.replies, e.last)
    {
      hide Resp.GetReply;
      var before := chunks[..i + 1];
      ConcatSplits(before, i);
      assert before[..i] == chunks[..i] && before[i..] == [chunks[i]];
      assert Concat([chunks[i]]) == chunks[i] + [] == chunks[i];
      DrainSplits(Machine([], Concat(chunks[..i])), chunks[i]);
      assert Prime(Fed(Prime(m), chunks[i])) == Prime(Fed(m, chunks[i]));
    }

    /** No array is about to be opened beyond the stack's depth. */
    static predicate Calm(m: Machine) {
      |m.stack| == 9 ==> m.stack[8].kind != Some(TArray)
    }

    static lemma EmptyRestWaits(m: Machine)
      requires m.rest == [] && Calm(m)
      ensures Resp.GetReply(Prime(m)) == Wait(Prime(m))
    {
      var p := Prime(m);
      assert Newline([]).None?;
      assert ProcessItem(p) == Wait(p);
    }

    static lemma {:induction false} WaitsCalmly(m: Machine)
      requires m.stack != []
      ensures Resp.GetReply(m).Wait? ==> Calm(Resp.GetReply(m).m)
      decreases |m.rest|
    {
      hide Complete, Newline, Number;
      ProgressConsumes(m);
      var o := ProcessItem(m);
      if o.Done? && o.root.None? { WaitsCalmly(o.m); }
    }
  }
}
