/** Reading a stream in pieces: however the bytes are cut, the reader yields the same
    replies and ends the same way. */
module RespChunks {
  import opened Common
  import opened Resp

  function Fed(m: Machine, more: Bytes): Machine {
    m.(rest := m.rest + more)
  }

  lemma {:induction false} NewlineStays(s: Bytes, more: Bytes)
    requires Newline(s).Some?
    ensures Newline(s + more) == Newline(s)
  {
    if !(s[0] == CR && s[1] == LF) {
      assert (s + more)[1..] == s[1..] + more;
      NewlineStays(s[1..], more);
    }
  }

  lemma SlicesStay(s: Bytes, more: Bytes, i: nat, j: nat)
    requires i <= j <= |s|
    ensures (s + more)[i..j] == s[i..j] && (s + more)[j..] == s[j..] + more
  {
  }

  /** `o2` is what `o` becomes when more bytes follow. */
  ghost predicate Same(m: Machine, o: Outcome, o2: Outcome, more: Bytes) {
    match o
    case Done(n, root) => o2 == Done(Fed(n, more), root)
    case Broken(f) => o2 == o
    case Wait(n) => n == m
  }

  lemma FinishFed(stack: seq<Task>, v: Reply, rest: Bytes, more: Bytes)
    ensures Finish(stack, v, rest).Done?
    ensures Finish(stack, v, rest + more)
            == Done(Fed(Finish(stack, v, rest).m, more), Finish(stack, v, rest).root)
  {
  }

  lemma LineStays(m: Machine, kind: Type, more: Bytes)
    ensures Same(m, ProcessLine(m, kind), ProcessLine(Fed(m, more), kind), more)
  {
    hide Finish, Newline, LineReply;
    var s := m.rest;
    if Newline(s).Some? {
      var p := Newline(s).value;
      NewlineStays(s, more);
      SlicesStay(s, more, 0, p);
      SlicesStay(s, more, 0, p + 2);
      FinishFed(m.stack, LineReply(kind, s[..p]), s[p + 2..], more);
    }
  }

  lemma BulkStays(m: Machine, more: Bytes)
    ensures Same(m, ProcessBulk(m), ProcessBulk(Fed(m, more)), more)
  {
    hide Finish, Newline, Number;
    var s := m.rest;
    if Newline(s).Some? {
      var p := Newline(s).value;
      var len := Number(s[..p]);
      NewlineStays(s, more);
      SlicesStay(s, more, 0, p);
      SlicesStay(s, more, 0, p + 2);
      FinishFed(m.stack, Nil, s[p + 2..], more);
      if 0 <= len && p + 2 + len + 2 <= |s| {
        SlicesStay(s, more, p + 2, p + 2 + len);
        SlicesStay(s, more, 0, p + 2 + len + 2);
        FinishFed(m.stack, Bulk(s[p + 2..p + 2 + len]), s[p + 2 + len + 2..], more);
      }
    }
  }

  lemma MultiBulkStays(m: Machine, more: Bytes)
    requires m.stack != []
    ensures Same(m, ProcessMultiBulk(m), ProcessMultiBulk(Fed(m, more)), more)
  {
    hide Finish, Newline, Number;
    var s := m.rest;
    if Newline(s).Some? {
      var p := Newline(s).value;
      NewlineStays(s, more);
      SlicesStay(s, more, 0, p);
      SlicesStay(s, more, 0, p + 2);
      FinishFed(m.stack, Nil, s[p + 2..], more);
      FinishFed(m.stack, Array(Number(s[..p]), []), s[p + 2..], more);
    }
  }

  /** A step that does not wait does not look beyond the bytes it has. */
  lemma TypedStays(m: Machine, more: Bytes)
    requires m.stack != [] && m.stack[|m.stack| - 1].kind.Some?
    ensures Same(m, ProcessTyped(m), ProcessTyped(Fed(m, more)), more)
  {
    hide ProcessLine, ProcessBulk, ProcessMultiBulk;
    LineStays(m, m.stack[|m.stack| - 1].kind.value, more);
    BulkStays(m, more);
    MultiBulkStays(m, more);
  }

  /** A waiting step may have taken the type byte; going on from there is the same as
      having had all the bytes at once. */
  lemma StepStays(m: Machine, more: Bytes)
    requires m.stack != []
    ensures var o, o2 := ProcessItem(m), ProcessItem(Fed(m, more));
            match o
            case Done(n, root) => o2 == Done(Fed(n, more), root)
            case Broken(f) => o2 == o
            case Wait(n) => n.stack != [] && o2 == ProcessItem(Fed(n, more)) && |n.rest| <= |m.rest|
  {
    hide ProcessTyped;
    if m.stack[|m.stack| - 1].kind.Some? {
      TypedStays(m, more);
    } else if m.rest != [] && TypeOf(m.rest[0]).Some? {
      assert (m.rest + more)[1..] == m.rest[1..] + more;
      var n := WithKind(m.(rest := m.rest[1..]), TypeOf(m.rest[0]).value);
      TypedStays(n, more);
    }
  }

  lemma {:induction false} GetReplyStays(m: Machine, more: Bytes)
    requires m.stack != []
    ensures var o, o2 := GetReply(m), GetReply(Fed(m, more));
            match o
            case Done(n, root) => o2 == Done(Fed(n, more), root)
            case Broken(f) => o2 == o
            case Wait(n) => n.stack != [] && o2 == GetReply(Fed(n, more))
    decreases |m.rest|
  {
    hide ProcessItem;
    StepStays(m, more);
    ProgressConsumes(m);
    var o := ProcessItem(m);
    if o.Done? && o.root.None? { GetReplyStays(o.m, more); }
  }

  /** Draining what is there, feeding more and draining again is draining everything. */
  lemma {:induction false} DrainSplits(m: Machine, more: Bytes)
    ensures var d := Drain(m);
            Drain(Fed(m, more)) == match d.last
              case Wait(n) => var e := Drain(Fed(n, more)); Drained(d.replies + e.replies, e.last)
              case _ => d
    decreases |m.rest|
  {
    hide GetReply;
    GetReplyStays(Prime(m), more);
    assert Fed(Prime(m), more) == Prime(Fed(m, more));
    var o := GetReply(Prime(m));
    if o.Done? {
      DrainSplits(o.m, more);
      var d := Drain(o.m);
      if d.last.Wait? {
        var e := Drain(Fed(d.last.m, more));
        assert [o.root.value] + (d.replies + e.replies) == ([o.root.value] + d.replies) + e.replies;
      }
    } else if o.Wait? {
      assert Prime(Fed(o.m, more)) == Fed(o.m, more);
      var e := Drain(Fed(o.m, more));
      assert [] + e.replies == e.replies;
    }
  }

  /** A sequence of feeds, each followed by draining; a failed reader stays failed. */
  function FeedAll(m: Machine, chunks: seq<Bytes>): Drained
    decreases |chunks|
  {
    if chunks == [] then Drained([], Wait(m))
    else
      var d := Drain(Fed(m, chunks[0]));
      if d.last.Wait? then
        var e := FeedAll(d.last.m, chunks[1..]);
        Drained(d.replies + e.replies, e.last)
      else d
  }

  function Concat(chunks: seq<Bytes>): Bytes {
    if chunks == [] then [] else chunks[0] + Concat(chunks[1..])
  }

  /** Chunk independence: for every stream and every way of cutting it into feeds, the replies
      and the final error are those of feeding it whole; a last empty feed only primes the
      stack. */
  lemma {:induction false} ChunkIndependence(m: Machine, chunks: seq<Bytes>)
    requires chunks != []
    ensures FeedAll(m, chunks) == Drain(Fed(m, Concat(chunks)))
    decreases |chunks|
  {
    var first, rest := chunks[0], chunks[1..];
    var d := Drain(Fed(m, first));
    assert Fed(Fed(m, first), Concat(rest)) == Fed(m, Concat(chunks)) by {
      assert (m.rest + first) + Concat(rest) == m.rest + (first + Concat(rest));
    }
    DrainSplits(Fed(m, first), Concat(rest));
    if d.last.Wait? {
      if rest == [] {
        DrainAgain(Fed(m, first));
        assert Fed(d.last.m, []) == d.last.m by { assert d.last.m.rest + [] == d.last.m.rest; }
        assert d.replies + [] == d.replies;
      } else {
        ChunkIndependence(d.last.m, rest);
      }
    }
  }

  /** Draining a waiting machine again yields nothing and changes nothing. */
  lemma {:induction false} DrainAgain(m: Machine)
    ensures Drain(m).last.Wait? ==> Drain(Drain(m).last.m) == Drained([], Drain(m).last)
    decreases |m.rest|
  {
    var o := GetReply(Prime(m));
    if o.Done? {
      DrainAgain(o.m);
    } else if o.Wait? {
      GetReplyStays(Prime(m), []);
      assert Fed(o.m, []) == o.m by { assert o.m.rest + [] == o.m.rest; }
      assert Fed(Prime(m), []) == Prime(m) by { assert Prime(m).rest + [] == Prime(m).rest; }
      assert Prime(o.m) == o.m;
    }
  }
}
