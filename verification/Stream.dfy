/** Buffers, the buffer pool and the stream writer of a session: network/src/nw_buf.c and
    nw_ses.c for SOCK_STREAM. */
module Stream {
  import opened Common

  const POOL_INIT_SIZE := 64
  const POOL_MAX_SIZE := 65535

  /** nw_buf: what was written, of which `rpos` bytes have been read. */
  class NwBuf {
    var size: nat
    var rpos: nat
    var written: Bytes

    ghost predicate Valid()
      reads this
    {
      rpos <= |written| <= size
    }

    ghost function Unread(): Bytes
      reads this
      requires Valid()
    {
      written[rpos..]
    }

    constructor (size: nat)
      ensures Valid() && this.size == size && rpos == 0 && written == []
    {
      this.size, rpos, written := size, 0, [];
    }

    /** nw_buf_write */
    method Write(data: Bytes) returns (wlen: nat)
      requires Valid()
      modifies this
      ensures Valid() && size == old(size) && rpos == old(rpos)
      ensures wlen == if |data| > old(size - |written|) then old(size - |written|) else |data|
      ensures written == old(written) + data[..wlen]
    {
      var available := size - |written|;
      wlen := if |data| > available then available else |data|;
      written := written + data[..wlen];
    }

    /** nw_buf_shift: the unread bytes move to the front. */
    method Shift()
      requires Valid()
      modifies this
      ensures Valid() && size == old(size) && rpos == 0 && Unread() == old(Unread())
      ensures size - |written| == old(size - |written|) + old(rpos)
    {
      if rpos == |written| {
        rpos, written := 0, [];
      } else if rpos != 0 {
        written := written[rpos..];
        rpos := 0;
      }
    }
  }

  ghost predicate Distinct(s: seq<NwBuf>) {
    forall i, j :: 0 <= i < j < |s| ==> s[i] != s[j]
  }

  /** The free array and its size after one more buffer is given back. */
  function FreeOne(free: seq<NwBuf>, total: nat, b: NwBuf): (seq<NwBuf>, nat) {
    if |free| < total then (free + [b], total)
    else if total < POOL_MAX_SIZE then (free + [b], total * 2)
    else (free, total)
  }

  function FreeAll(free: seq<NwBuf>, total: nat, l: seq<NwBuf>): (seq<NwBuf>, nat)
    decreases |l|
  {
    if l == [] then (free, total)
    else
      var r := FreeOne(free, total, l[0]);
      FreeAll(r.0, r.1, l[1..])
  }

  lemma {:induction false} FreeAllSplits(free: seq<NwBuf>, total: nat, l: seq<NwBuf>, m: seq<NwBuf>)
    ensures var r := FreeAll(free, total, l); FreeAll(free, total, l + m) == FreeAll(r.0, r.1, m)
    decreases |l|
  {
    if l == [] {
      assert l + m == m;
    } else {
      assert (l + m)[1..] == l[1..] + m;
      var r := FreeOne(free, total, l[0]);
      FreeAllSplits(r.0, r.1, l[1..], m);
    }
  }

  /** nw_buf_pool */
  class NwBufPool {
    const size: nat
    var free: seq<NwBuf>
    var freeTotal: nat

    /** The array of free buffers holds each once and doubles up to a bound. */
    ghost predicate Valid()
      reads this
    {
      && size > 0 && |free| <= freeTotal && Distinct(free)
      && freeTotal in {64, 128, 256, 512, 1024, 2048, 4096, 8192, 16384, 32768, 65536}
    }

    constructor (size: nat)
      requires size > 0
      ensures Valid() && free == [] && this.size == size
    {
      this.size, free, freeTotal := size, [], POOL_INIT_SIZE;
    }

    /** nw_buf_alloc: the buffer freed last, or a new one; memory does not run out here. */
    method Alloc() returns (buf: NwBuf)
      requires Valid()
      modifies this, set b | b in free
      ensures Valid() && freeTotal == old(freeTotal)
      ensures buf.Valid() && buf.size == size && buf.rpos == 0 && buf.written == []
      ensures if old(free) == [] then fresh(buf) && free == []
              else buf == old(free)[|old(free)| - 1] && free == old(free)[..|old(free)| - 1]
      ensures buf !in free && forall b :: b in free ==> unchanged(b)
    {
      if |free| > 0 {
        buf := free[|free| - 1];
        free := free[..|free| - 1];
        buf.size, buf.rpos, buf.written := size, 0, [];
      } else {
        buf := new NwBuf(size);
      }
    }

    /** nw_buf_free: kept for reuse, in an array that doubles, unless 65536 buffers are free. */
    method Free(buf: NwBuf)
      requires Valid() && buf !in free
      modifies this
      ensures Valid()
      ensures (free, freeTotal) == FreeOne(old(free), old(freeTotal), buf)
      ensures free == if |old(free)| < 65536 then old(free) + [buf] else old(free)
    {
      if |free| < freeTotal {
        free := free + [buf];
      } else if freeTotal < POOL_MAX_SIZE {
        freeTotal := freeTotal * 2;
        free := free + [buf];
      }
    }
  }

  ghost predicate AllValid(l: seq<NwBuf>)
    reads l
  {
    forall b :: b in l ==> b.Valid()
  }

  /** The unread bytes of a list of buffers, in order. */
  ghost function Unread(l: seq<NwBuf>): Bytes
    requires AllValid(l)
    reads l
  {
    if l == [] then [] else l[0].Unread() + Unread(l[1..])
  }

  lemma {:induction false} UnreadSplits(l: seq<NwBuf>, m: seq<NwBuf>)
    requires AllValid(l) && AllValid(m)
    ensures AllValid(l + m) && Unread(l + m) == Unread(l) + Unread(m)
    decreases |l|
  {
    if l == [] {
      assert l + m == m;
    } else {
      assert (l + m)[1..] == l[1..] + m;
      UnreadSplits(l[1..], m);
      assert l[0].Unread() + (Unread(l[1..]) + Unread(m)) == (l[0].Unread() + Unread(l[1..])) + Unread(m);
    }
  }

  type Positive = n: int | n > 0 witness 1

  /** What one call of write(2) on a non-blocking stream socket may do: take that many bytes, or all
      if it is offered fewer, or none. */
  datatype Kernel = Took(n: Positive) | Interrupted | WouldBlock | Failed

  /** How many of `size` bytes the kernel takes, and whether it stops by blocking. */
  function Taken(size: nat, calls: seq<Kernel>): (r: (nat, bool))
    ensures r.0 <= size
    decreases |calls|
  {
    if size == 0 || calls == [] then (0, true)
    else
      match calls[0]
      case Took(n) =>
        var k := Min(n, size);
        var rest := Taken(size - k, calls[1..]);
        (k + rest.0, rest.1)
      case Interrupted => Taken(size, calls[1..])
      case WouldBlock => (0, true)
      case Failed => (0, false)
  }

  /** The first answer that ends a write. */
  function StopOf(calls: seq<Kernel>): (m: nat)
    ensures m <= |calls|
    ensures forall i :: 0 <= i < m ==> calls[i].Took? || calls[i].Interrupted?
    ensures m < |calls| ==> calls[m].WouldBlock? || calls[m].Failed?
  {
    if calls == [] || calls[0].WouldBlock? || calls[0].Failed? then 0 else 1 + StopOf(calls[1..])
  }

  /** The bytes of all answers that take any. */
  function Total(calls: seq<Kernel>): nat {
    if calls == [] then 0 else (if calls[0].Took? then calls[0].n else 0) + Total(calls[1..])
  }

  /** All that the kernel takes before the first answer that blocks or fails. */
  function Accepted(calls: seq<Kernel>): nat {
    Total(calls[..StopOf(calls)])
  }

  /** A failure is met with bytes still to write. */
  predicate Breaks(size: nat, calls: seq<Kernel>) {
    var m := StopOf(calls);
    Accepted(calls) < size && m < |calls| && calls[m].Failed?
  }

  /** What the kernel takes is what its answers add up to before the first that blocks or fails, as
      far as there are bytes; an interruption changes nothing; only a failure that is met with bytes
      still to write is one. */
  lemma {:induction false} TakenMeans(size: nat, calls: seq<Kernel>)
    ensures var m := StopOf(calls); var k := Min(size, Total(calls[..m]));
            Taken(size, calls) == (k, !(k < size && m < |calls| && calls[m].Failed?))
    decreases |calls|
  {
    var m := StopOf(calls);
    if m > 0 {
      var rest := calls[1..];
      assert calls[..m][1..] == rest[..m - 1];
      TakenMeans(if calls[0].Took? then size - Min(calls[0].n, size) else size, rest);
      if size > 0 && calls[0].Took? && size <= calls[0].n { assert Taken(0, rest) == (0, true); }
    } else {
      assert calls[..0] == [];
    }
  }

  function Tail(calls: seq<seq<Kernel>>): seq<seq<Kernel>> {
    if calls == [] then [] else calls[1..]
  }

  function Head(calls: seq<seq<Kernel>>): seq<Kernel> {
    if calls == [] then [] else calls[0]
  }

  /** How many bytes of a queue leave, how many whole buffers, and whether the session survives. */
  datatype Flushed = Flushed(bytes: nat, buffers: nat, open: bool)

  function Flush(chunks: seq<Bytes>, calls: seq<seq<Kernel>>): Flushed
    decreases |chunks|
  {
    if chunks == [] then Flushed(0, 0, true)
    else
      var (k, blocked) := Taken(|chunks[0]|, Head(calls));
      if k < |chunks[0]| then Flushed(k, 0, blocked)
      else
        var rest := Flush(chunks[1..], Tail(calls));
        Flushed(k + rest.bytes, 1 + rest.buffers, rest.open)
  }

  function Lengths(chunks: seq<Bytes>): nat {
    if chunks == [] then 0 else |chunks[0]| + Lengths(chunks[1..])
  }

  function Answers(calls: seq<seq<Kernel>>, i: nat): seq<Kernel> {
    if i < |calls| then calls[i] else []
  }

  /** The queue goes out chunk by chunk, up to the first that the kernel does not take whole; of that
      one goes what the kernel takes, and the session survives unless the kernel failed there. */
  ghost predicate FlushedBy(chunks: seq<Bytes>, calls: seq<seq<Kernel>>, f: Flushed) {
    && f.buffers <= |chunks|
    && (forall i :: 0 <= i < f.buffers ==> Accepted(Answers(calls, i)) >= |chunks[i]|)
    && if f.buffers == |chunks| then f.open && f.bytes == Lengths(chunks)
       else
         var last := Answers(calls, f.buffers);
         && Accepted(last) < |chunks[f.buffers]|
         && f.bytes == Lengths(chunks[..f.buffers]) + Accepted(last)
         && (f.open <==> !(StopOf(last) < |last| && last[StopOf(last)].Failed?))
  }

  lemma FlushedMore(chunks: seq<Bytes>, calls: seq<seq<Kernel>>, g: Flushed)
    requires chunks != [] && FlushedBy(chunks[1..], Tail(calls), g) && Accepted(Answers(calls, 0)) >= |chunks[0]|
    ensures FlushedBy(chunks, calls, Flushed(|chunks[0]| + g.bytes, 1 + g.buffers, g.open))
  {
    hide Accepted, StopOf;
    var rest, d := chunks[1..], g.buffers;
    assert forall i: nat :: Answers(Tail(calls), i) == Answers(calls, i + 1);
    forall i | 0 <= i < d + 1 ensures Accepted(Answers(calls, i)) >= |chunks[i]| {
      if i > 0 { assert Accepted(Answers(Tail(calls), i - 1)) >= |rest[i - 1]|; }
    }
    assert chunks[..d + 1][1..] == rest[..d];
    assert Answers(Tail(calls), d) == Answers(calls, d + 1);
  }

  lemma {:induction false} FlushMeans(chunks: seq<Bytes>, calls: seq<seq<Kernel>>)
    ensures FlushedBy(chunks, calls, Flush(chunks, calls))
    decreases |chunks|
  {
    if chunks != [] {
      hide Taken, StopOf, Total, FlushedBy;
      TakenMeans(|chunks[0]|, Head(calls));
      assert Head(calls) == Answers(calls, 0);
      if Accepted(Answers(calls, 0)) >= |chunks[0]| {
        FlushMeans(chunks[1..], Tail(calls));
        FlushedMore(chunks, calls, Flush(chunks[1..], Tail(calls)));
      } else {
        FlushedNone(chunks, calls, Flush(chunks, calls));
      }
    } else {
      assert Lengths(chunks) == 0;
    }
  }

  lemma FlushedNone(chunks: seq<Bytes>, calls: seq<seq<Kernel>>, f: Flushed)
    requires chunks != [] && Accepted(Answers(calls, 0)) < |chunks[0]|
    requires f.buffers == 0 && f.bytes == Accepted(Answers(calls, 0))
    requires f.open == !Breaks(|chunks[0]|, Answers(calls, 0))
    ensures FlushedBy(chunks, calls, f)
  {
    assert chunks[..0] == [];
  }

  /** The unread bytes of each buffer of a list. */
  ghost function Chunks(l: seq<NwBuf>): seq<Bytes>
    requires AllValid(l)
    reads l
  {
    if l == [] then [] else [l[0].Unread()] + Chunks(l[1..])
  }

  /** The queue of a session and its surroundings at one moment. */
  datatype Snap = Snap(wire: Bytes, queue: Bytes, chunks: seq<Bytes>, list: seq<NwBuf>, free: seq<NwBuf>, total: nat)

  /** `b` is `a` after its first `d` buffers, holding `moved`, went out whole; `left` are the
      kernel's further answers. */
  ghost predicate Moved(a: Snap, b: Snap, moved: Bytes, d: nat, calls: seq<seq<Kernel>>, left: seq<seq<Kernel>>) {
    && d <= |a.list| && b.list == a.list[d..]
    && b.wire == a.wire + moved && a.queue == moved + b.queue
    && Flush(a.chunks, calls) == After(|moved|, d, Flush(b.chunks, left))
    && (b.free, b.total) == FreeAll(a.free, a.total, a.list[..d])
  }

  /** `b` is `a` after on_can_write: the kernel's answers say what left. */
  ghost predicate Flushes(a: Snap, b: Snap, open: bool, calls: seq<seq<Kernel>>) {
    var f := Flush(a.chunks, calls);
    && FlushedBy(a.chunks, calls, f)
    && f.bytes <= |a.queue| && b.wire == a.wire + a.queue[..f.bytes]
    && f.buffers <= |a.list| && open == f.open
    && (open ==> b.list == a.list[f.buffers..])
    && (b.free, b.total) == FreeAll(a.free, a.total, if open then a.list[..f.buffers] else a.list)
  }

  lemma MovesNothing(a: Snap, calls: seq<seq<Kernel>>)
    ensures Moved(a, a, [], 0, calls, calls)
  {
    assert a.list[..0] == [] && [] + a.queue == a.queue && a.wire + [] == a.wire;
  }

  lemma FlushStep(head: Bytes, rest: seq<Bytes>, left: seq<seq<Kernel>>)
    requires Taken(|head|, Head(left)).0 == |head|
    ensures Flush([head] + rest, left) == After(|head|, 1, Flush(rest, Tail(left)))
  {
    hide Taken;
    assert ([head] + rest)[1..] == rest;
  }

  lemma FreeStep(a: Snap, b: Snap, d: nat)
    requires d < |a.list| && (b.free, b.total) == FreeAll(a.free, a.total, a.list[..d])
    ensures FreeOne(b.free, b.total, a.list[d]) == FreeAll(a.free, a.total, a.list[..d + 1])
  {
    FreeAllSplits(a.free, a.total, a.list[..d], [a.list[d]]);
    FreeJustOne(b.free, b.total, a.list[d]);
    assert a.list[..d] + [a.list[d]] == a.list[..d + 1];
  }

  lemma MovesOneMore(a: Snap, b: Snap, c: Snap, moved: Bytes, d: nat,
                     calls: seq<seq<Kernel>>, left: seq<seq<Kernel>>, head: Bytes)
    requires Moved(a, b, moved, d, calls, left) && b.list != []
    requires b.chunks == [head] + c.chunks && b.queue == head + c.queue && c.wire == b.wire + head
    requires c.list == b.list[1..] && (c.free, c.total) == FreeOne(b.free, b.total, b.list[0])
    requires Taken(|head|, Head(left)).0 == |head|
    ensures Moved(a, c, moved + head, d + 1, calls, Tail(left))
  {
    hide FreeOne, FreeAll, Taken, Flush, Head, Tail;
    FlushStep(head, c.chunks, left);
    FreeStep(a, b, d);
    assert a.list[d..][1..] == a.list[d + 1..];
    assert a.queue == (moved + head) + c.queue by { Regroup(moved, head, c.queue); }
    assert c.wire == a.wire + (moved + head) by { Regroup(a.wire, moved, head); }
    AfterAfter(|moved|, d, |head|, Flush(c.chunks, Tail(left)));
    assert |moved + head| == |moved| + |head|;
  }

  lemma AfterAfter(bytes: nat, buffers: nat, more: nat, f: Flushed)
    ensures After(bytes, buffers, After(more, 1, f)) == After(bytes + more, buffers + 1, f)
  {
  }

  lemma MovesAll(a: Snap, b: Snap, moved: Bytes, d: nat, calls: seq<seq<Kernel>>, left: seq<seq<Kernel>>)
    requires Moved(a, b, moved, d, calls, left) && b.chunks == [] && b.queue == [] && b.list == []
    ensures Flushes(a, b, true, calls)
  {
    hide FreeAll, FlushedBy;
    FlushMeans(a.chunks, calls);
    assert a.queue[..|moved|] == moved;
  }

  lemma FirstPart(moved: Bytes, queue: Bytes, head: Bytes, k: nat)
    requires head <= queue && k <= |head|
    ensures (moved + queue)[..|moved| + k] == moved + head[..k]
  {
  }

  lemma MovesPart(a: Snap, b: Snap, c: Snap, moved: Bytes, d: nat,
                  calls: seq<seq<Kernel>>, left: seq<seq<Kernel>>, head: Bytes, open: bool)
    requires Moved(a, b, moved, d, calls, left) && b.list != []
    requires b.chunks != [] && b.chunks[0] == head && head <= b.queue
    requires var k := Taken(|head|, Head(left)).0;
             k < |head| && open == Taken(|head|, Head(left)).1 && c.wire == b.wire + head[..k]
    requires if open then c.list == b.list && c.free == b.free && c.total == b.total
             else (c.free, c.total) == FreeAll(b.free, b.total, b.list)
    ensures Flushes(a, c, open, calls)
  {
    hide FreeAll, Taken, FlushedBy;
    FlushMeans(a.chunks, calls);
    var k := Taken(|head|, Head(left)).0;
    FirstPart(moved, b.queue, head, k);
    Regroup(a.wire, moved, head[..k]);
    FreeAllSplits(a.free, a.total, a.list[..d], a.list[d..]);
    assert a.list[..d] + a.list[d..] == a.list;
  }

  /** The last buffer of a queue has no room. */
  predicate TailFull(l: seq<NwBuf>)
    reads l
  {
    l != [] && |l[|l| - 1].written| == l[|l| - 1].size
  }

  /** A session and its write queue. */
  class NwSes {
    const pool: NwBufPool
    const limit: nat
    var list: seq<NwBuf>
    var open: bool

    /** The bytes the kernel has taken, and those of all sends, the failed one included. */
    ghost var wire: Bytes
    ghost var offered: Bytes

    /** Every buffer is in one place only: once in the queue or once among the free. */
    ghost predicate Owned()
      reads this, pool, list
    {
      && pool.Valid() && Distinct(list) && AllValid(list)
      && (forall b :: b in list ==> b !in pool.free)
    }

    ghost predicate Valid()
      reads this, pool, list
    {
      && Owned()
      && (if open then wire + Unread(list) == offered else wire <= offered && list == [])
    }

    constructor (pool: NwBufPool, limit: nat)
      requires pool.Valid()
      ensures Valid() && open && offered == [] && list == [] && this.pool == pool && this.limit == limit
    {
      this.pool, this.limit, list, open, wire, offered := pool, limit, [], true, [], [];
    }

    /** nw_write_stream: write until all is taken or the kernel takes no more; `calls` is what
        the kernel does, and an exhausted list blocks. */
    method WriteStream(data: Bytes, calls: seq<Kernel>) returns (spos: nat, blocked: bool)
      modifies `wire
      ensures (spos, blocked) == Taken(|data|, calls) && wire == old(wire) + data[..spos]
      ensures spos == Min(|data|, Accepted(calls))
      ensures var m := StopOf(calls); blocked <==> !(spos < |data| && m < |calls| && calls[m].Failed?)
    {
      TakenMeans(|data|, calls);
      spos, blocked := 0, true;
      var i := 0;
      while spos < |data| && i < |calls|
        invariant 0 <= i <= |calls| && spos <= |data| && wire == old(wire) + data[..spos] && blocked
        invariant Taken(|data|, calls).0 == spos + Taken(|data| - spos, calls[i..]).0
        invariant Taken(|data|, calls).1 == Taken(|data| - spos, calls[i..]).1
        decreases |calls| - i
      {
        assert calls[i..][1..] == calls[i + 1..];
        match calls[i] {
          case Took(n) =>
            var ret := if n < |data| - spos then n else |data| - spos;
            assert data[..spos + ret] == data[..spos] + data[spos..spos + ret];
            wire := wire + data[spos..spos + ret];
            spos := spos + ret;
          case Interrupted =>
          case WouldBlock => return;
          case Failed =>
            blocked := false;
            return;
        }
        i := i + 1;
      }
    }

    /** No buffer comes from anywhere but this queue, the pool's free array and the allocator. */
    twostate predicate Recycled(l: seq<NwBuf>, f: seq<NwBuf>)
      reads this, pool
    {
      && (forall b :: b in list ==> b in l || b in f || fresh(b))
      && (forall b :: b in pool.free ==> b in l || b in f || fresh(b))
    }

    /** A buffer from the pool with the first bytes of `data` in it. */
    method Filled(data: Bytes) returns (buf: NwBuf, n: nat)
      requires Owned() && data != []
      modifies pool, set b | b in pool.free
      ensures pool.Valid() && buf !in list && buf !in pool.free && buf.Valid()
      ensures 0 < n <= |data| && buf.Unread() == data[..n]
      ensures n < |data| ==> |buf.written| == buf.size
      ensures forall b :: b in list ==> unchanged(b)
      ensures buf in old(pool.free) || fresh(buf)
      ensures forall b :: b in pool.free ==> b in old(pool.free)
    {
      buf := pool.Alloc();
      n := buf.Write(data);
    }

    /** The loop body of nw_buf_list_write: one more buffer at the tail. */
    method Grow(data: Bytes) returns (n: nat)
      requires Owned() && data != []
      modifies `list, pool, set b | b in pool.free
      ensures Owned() && |list| == |old(list)| + 1
      ensures forall b :: b in pool.free ==> b in old(pool.free)
      ensures 0 < n <= |data| && Unread(list) == old(Unread(list)) + data[..n]
      ensures n < |data| ==> TailFull(list)
      ensures Recycled(old(list), old(pool.free))
    {
      ghost var before, queue := list, Unread(list);
      var buf;
      buf, n := Filled(data);
      assert AllValid(before) && Unread(before) == queue;
      list := list + [buf];
      UnreadSplits(before, [buf]);
      assert Unread([buf]) == buf.Unread() + Unread([]) == data[..n];
    }

    /** The loop of nw_buf_list_write. */
    method GrowAll(data: Bytes) returns (n: nat)
      requires Owned() && (data != [] && list != [] ==> TailFull(list))
      modifies `list, pool, set b | b in pool.free
      ensures Owned() && n <= |data| && Unread(list) == old(Unread(list)) + data[..n]
      ensures n < |data| ==> limit > 0 && |list| >= limit && TailFull(list)
      ensures Recycled(old(list), old(pool.free))
    {
      hide Distinct, Unread;
      n := 0;
      assert data[..0] == [];
      while n < |data|
        invariant Owned() && n <= |data| && Unread(list) == old(Unread(list)) + data[..n]
        invariant n < |data| && list != [] ==> TailFull(list)
        invariant Recycled(old(list), old(pool.free))
        invariant forall b :: b in pool.free ==> b in old(pool.free)
        decreases |data| - n
      {
        if limit > 0 && |list| >= limit {
          return;
        }
        var k := Grow(data[n..]);
        assert data[..n] + data[n..][..k] == data[..n + k];
        n := n + k;
      }
    }

    /** nw_buf_list_write: all of the data, or as much as the limit on buffers lets in. */
    method ListWrite(data: Bytes) returns (n: nat)
      requires Owned()
      modifies `list, pool, set b | b in list, set b | b in pool.free
      ensures Owned() && n <= |data| && Unread(list) == old(Unread(list)) + data[..n]
      ensures n < |data| ==> limit > 0 && |list| >= limit && TailFull(list)
      ensures Recycled(old(list), old(pool.free))
    {
      hide Distinct, Unread;
      n := 0;
      assert data[..0] == [];
      if list != [] && list[|list| - 1].size > |list[|list| - 1].written| {
        n := WriteTail(data);
      } else if list != [] {
        assert list[|list| - 1].Valid() by { assert list[|list| - 1] in list; }
      }
      var k := GrowAll(data[n..]);
      assert data[..n] + data[n..][..k] == data[..n + k];
      n := n + k;
    }

    method WriteTail(data: Bytes) returns (n: nat)
      requires Owned() && list != []
      modifies list[|list| - 1]
      ensures Owned() && n <= |data| && Unread(list) == old(Unread(list)) + data[..n]
      ensures n < |data| ==> TailFull(list)
    {
      var tail := list[|list| - 1];
      ghost var front := list[..|list| - 1];
      assert list == front + [tail];
      assert tail !in front;
      hide Distinct, Unread;
      UnreadSplits(front, [tail]);
      UnreadOfOne(tail);
      ghost var was, before := tail.Unread(), Unread(front);
      n := tail.Write(data);
      assert tail.Unread() == was + data[..n];
      UnreadSplits(front, [tail]);
      UnreadOfOne(tail);
      assert Unread(front) == before;
      Regroup(before, was, data[..n]);
    }

    static lemma UnreadOfOne(b: NwBuf)
      requires b.Valid()
      ensures AllValid([b]) && Unread([b]) == b.Unread()
    {
    }

    /** nw_buf_list_shift */
    method ListShift()
      requires Owned() && list != []
      modifies this, pool
      ensures Owned() && list == old(list)[1..]
      ensures (pool.free, pool.freeTotal) == FreeOne(old(pool.free), old(pool.freeTotal), old(list)[0])
      ensures open == old(open) && wire == old(wire) && offered == old(offered)
      ensures Recycled(old(list), old(pool.free))
    {
      var tmp := list[0];
      list := list[1..];
      pool.Free(tmp);
    }

    /** on_error of a connection: the session is closed and its queue given back. */
    method OnError()
      requires Owned() && wire <= offered
      modifies this, pool
      ensures Valid() && !open && wire == old(wire) && offered == old(offered)
      ensures (pool.free, pool.freeTotal) == FreeAll(old(pool.free), old(pool.freeTotal), old(list))
      ensures Recycled(old(list), old(pool.free))
    {
      open := false;
      while list != []
        invariant Owned() && !open && wire == old(wire) && offered == old(offered)
        invariant FreeAll(pool.free, pool.freeTotal, list) == FreeAll(old(pool.free), old(pool.freeTotal), old(list))
        invariant Recycled(old(list), old(pool.free))
        decreases |list|
      {
        ListShift();
      }
    }

    /** nw_ses_send behind earlier bytes: everything goes to the queue. */
    method SendQueued(data: Bytes) returns (ok: bool)
      requires Owned() && open && wire + Unread(list) + data == offered
      modifies this, pool, set b | b in list, set b | b in pool.free
      ensures Valid() && ok == open && offered == old(offered) && wire == old(wire) && (limit == 0 ==> ok)
      ensures Recycled(old(list), old(pool.free))
    {
      hide Distinct, Unread;
      ghost var queue := Unread(list);
      var nwrite := ListWrite(data);
      if nwrite != |data| {
        Prefixed(wire, queue, data);
        OnError();
        return false;
      }
      assert data[..nwrite] == data;
      assert wire + (queue + data) == (wire + queue) + data;
      return true;
    }

    /** nw_ses_send on an empty queue: the kernel first, then the queue. */
    method SendDirect(data: Bytes, calls: seq<Kernel>) returns (ok: bool)
      requires Owned() && open && list == [] && wire + data == offered
      modifies this, pool, set b | b in pool.free
      ensures Valid() && ok == open && offered == old(offered)
      ensures var m := StopOf(calls); var k := Min(|data|, Total(calls[..m]));
              var failed := k < |data| && m < |calls| && calls[m].Failed?;
              && wire == old(wire) + data[..k]
              && (k == |data| ==> ok && list == []) && (failed ==> !ok) && (limit == 0 && !failed ==> ok)
      ensures Recycled(old(list), old(pool.free))
    {
      hide Distinct;
      var nwrite, blocked := WriteStream(data, calls);
      assert data[..nwrite] + data[nwrite..] == data;
      assert wire + data[nwrite..] == offered;
      assert wire + Unread(list) + data[nwrite..] == wire + data[nwrite..];
      if nwrite < |data| {
        if !blocked {
          OnError();
          return false;
        }
        ok := SendQueued(data[nwrite..]);
        return ok;
      }
      assert data[nwrite..] == [];
      return true;
    }

    /** nw_ses_send.  Behind a queue everything is queued and the kernel is not asked.  On an empty queue
        the kernel gets what its answers add up to before the first that blocks or fails; the rest is
        queued, unless it was a failure, which closes the session.  Without a limit on buffers nothing
        else closes it. */
    method Send(data: Bytes, calls: seq<Kernel>) returns (ok: bool)
      requires Valid()
      modifies this, pool, set b | b in list, set b | b in pool.free
      ensures Valid()
      ensures !old(open) ==> !ok && !open && wire == old(wire) && offered == old(offered)
      ensures old(open) ==> ok == open && offered == old(offered) + data
      ensures old(open) && old(list) != [] ==> wire == old(wire) && (limit == 0 ==> ok)
      ensures old(open) && old(list) != [] && ok ==> Unread(list) == old(Unread(list)) + data
      ensures old(open) && old(list) == [] ==>
                var m := StopOf(calls); var k := Min(|data|, Total(calls[..m]));
                var failed := k < |data| && m < |calls| && calls[m].Failed?;
                && wire == old(wire) + data[..k]
                && (k == |data| ==> ok && list == [])
                && (failed ==> !ok) && (limit == 0 ==> (ok <==> !failed))
                && (ok ==> Unread(list) == data[k..])
      ensures Recycled(old(list), old(pool.free))
    {
      hide Distinct, StopOf, Total;
      if !open {
        return false;
      }
      ghost var before, queue := wire, Unread(list);
      offered := offered + data;
      if |list| > 0 {
        ok := SendQueued(data);
        if ok { Rest(before, queue + data, Unread(list)); }
      } else {
        assert Unread(list) == [];
        ok := SendDirect(data, calls);
        ghost var k := Min(|data|, Total(calls[..StopOf(calls)]));
        assert data[..k] + data[k..] == data;
        if ok { Rest(before + data[..k], data[k..], Unread(list)); }
      }
    }

    static lemma Rest(wire: Bytes, a: Bytes, b: Bytes)
      requires wire + a == wire + b
      ensures a == b
    {
      assert (wire + a)[|wire|..] == a && (wire + b)[|wire|..] == b;
    }

    static lemma Prefixed(wire: Bytes, queue: Bytes, data: Bytes)
      ensures wire <= (wire + queue) + data
    {
      assert (wire + queue) + data == wire + (queue + data);
    }

    /** The kernel took `n` bytes of the head and then blocked. */
    method AdvanceHead(n: nat)
      requires Owned() && list != [] && list[0].Valid() && n <= |list[0].Unread()|
      modifies list[0]
      ensures Owned() && old(list[0].Unread())[..n] + Unread(list) == old(Unread(list))
    {
      var buf := list[0];
      ghost var rest, was := list[1..], buf.Unread();
      assert buf !in rest;
      assert buf in list;
      buf.rpos := buf.rpos + n;
      assert buf.Unread() == was[n..];
      assert Unread(rest) == old(Unread(list[1..]));
      assert was[..n] + (was[n..] + Unread(rest)) == was + Unread(rest);
    }

    /** The kernel took only `n` bytes of the head and blocks: the rest waits. */
    method StopBlocked(n: nat, ghost before: Bytes)
      requires Owned() && open && list != [] && list[0].Valid() && n <= |list[0].Unread()|
      requires before + Unread(list) == offered && wire == before + list[0].Unread()[..n]
      modifies list[0]
      ensures Valid()
    {
      ghost var head := list[0].Unread();
      AdvanceHead(n);
      hide Unread, Distinct;
      Regroup(before, head[..n], Unread(list));
    }

    /** The kernel took only `n` bytes of the head and fails. */
    method StopFailed(n: nat, ghost before: Bytes)
      requires Owned() && open && list != [] && list[0].Valid() && n <= |list[0].Unread()|
      requires before + Unread(list) == offered && wire == before + list[0].Unread()[..n]
      modifies this, pool
      ensures Valid() && !open && offered == old(offered) && wire == old(wire)
      ensures (pool.free, pool.freeTotal) == FreeAll(old(pool.free), old(pool.freeTotal), old(list))
      ensures Recycled(old(list), old(pool.free))
    {
      assert list[0].Unread() <= Unread(list);
      TakenIsPrefix(before, Unread(list), list[0].Unread(), n);
      OnError();
    }

    /** One buffer of on_can_write. */
    method WriteHead(calls: seq<Kernel>) returns (more: bool)
      requires Valid() && open && list != [] && list[0].Valid()
      modifies this, pool, set b | b in list
      ensures Valid() && offered == old(offered)
      ensures var (k, blocked) := Taken(|old(list[0].Unread())|, calls);
              && wire == old(wire) + old(list[0].Unread())[..k]
              && more == (k == |old(list[0].Unread())|)
              && open == (more || blocked)
      ensures more ==> list == old(list)[1..]
                       && Unread(list) == old(Unread(list[1..])) && Chunks(list) == old(Chunks(list[1..]))
                       && (pool.free, pool.freeTotal) == FreeOne(old(pool.free), old(pool.freeTotal), old(list)[0])
      ensures !more && open ==> list == old(list) && pool.free == old(pool.free) && pool.freeTotal == old(pool.freeTotal)
      ensures !open ==> (pool.free, pool.freeTotal) == FreeAll(old(pool.free), old(pool.freeTotal), old(list))
      ensures Recycled(old(list), old(pool.free))
    {
      hide FreeOne, FreeAll, Taken, StopOf, Accepted;
      var buf := list[0];
      assert buf in list;
      var unread := buf.written[buf.rpos..];
      ghost var before, rest := wire, Unread(list[1..]);
      var nwrite, blocked := WriteStream(unread, calls);
      if nwrite < |unread| {
        if blocked {
          StopBlocked(nwrite, before);
        } else {
          StopFailed(nwrite, before);
        }
        return false;
      }
      assert unread[..nwrite] == unread;
      assert (before + unread) + rest == before + (unread + rest);
      ListShift();
      return true;
    }

    static lemma TakenIsPrefix(wire: Bytes, queue: Bytes, head: Bytes, n: nat)
      requires head <= queue && n <= |head|
      ensures wire + head[..n] <= wire + queue
    {
      assert head[..n] == queue[..n];
      assert wire + queue == (wire + head[..n]) + queue[n..];
    }

    ghost function Now(): Snap
      requires AllValid(list)
      reads this, pool, list
    {
      Snap(wire, Unread(list), Chunks(list), list, pool.free, pool.freeTotal)
    }

    /** on_can_write: as much of the queue as the kernel takes moves to the wire, in order, and
        the emptied buffers go to the pool; what is left stays queued, unless the kernel failed. */
    method OnCanWrite(calls: seq<seq<Kernel>>)
      requires Valid()
      modifies this, pool, set b | b in list
      ensures Valid() && offered == old(offered)
      ensures if old(open) then Flushes(old(Now()), Now(), open, calls) else !open && Now() == old(Now())
      ensures open ==> wire + Unread(list) == old(wire + Unread(list))
      ensures Recycled(old(list), old(pool.free))
    {
      hide Flushes, Moved, Taken, FreeOne, FreeAll, Distinct;
      if !open {
        return;
      }
      var left := calls;
      ghost var start, d, moved := Now(), 0, [];
      MovesNothing(start, calls);
      while |list| > 0
        invariant Valid() && open && offered == old(offered)
        invariant Moved(start, Now(), moved, d, calls, left)
        invariant Recycled(old(list), old(pool.free))
        invariant forall b :: b in list ==> b in old(list)
        decreases |list|
      {
        assert list[0] in list;
        ghost var before, head := Now(), list[0].Unread();
        var more := WriteHead(Head(left));
        if !more {
          MovesPart(start, before, Now(), moved, d, calls, left, head, open);
          return;
        }
        assert head[..|head|] == head;
        MovesOneMore(start, before, Now(), moved, d, calls, left, head);
        moved := moved + head;
        d := d + 1;
        left := Tail(left);
      }
      MovesAll(start, Now(), moved, d, calls, left);
    }
  }

  /** A flush that began with `bytes` bytes and `buffers` buffers gone. */
  function After(bytes: nat, buffers: nat, f: Flushed): Flushed {
    Flushed(bytes + f.bytes, buffers + f.buffers, f.open)
  }

  lemma FreeJustOne(free: seq<NwBuf>, total: nat, b: NwBuf)
    ensures FreeAll(free, total, [b]) == FreeOne(free, total, b)
  {
    assert [b][1..] == [];
  }

  // ----- sessions that share a pool

  /** Two sessions on one pool: no buffer waits in both queues. (That none is in a queue and among
      the free is part of each session's own validity.) */
  ghost predicate Beside(s1: NwSes, s2: NwSes)
    reads s1, s1.pool, s1.list, s2, s2.pool, s2.list
  {
    && s1 != s2 && s1.pool == s2.pool && s1.Valid() && s2.Valid()
    && (forall b :: b in s1.list ==> b !in s2.list)
  }

  /** nw_ses_send on one session leaves the queue and the bytes of every other as they are, however
      buffers travel through the pool. */
  method SendBeside(ses: NwSes, data: Bytes, calls: seq<Kernel>, ghost other: NwSes) returns (ok: bool)
    requires Beside(ses, other)
    modifies ses, ses.pool, set b | b in ses.list, set b | b in ses.pool.free
    ensures Beside(ses, other)
    ensures unchanged(other) && Unread(other.list) == old(Unread(other.list))
  {
    hide Distinct;
    ok := ses.Send(data, calls);
  }

  /** on_can_write, likewise. */
  method OnCanWriteBeside(ses: NwSes, calls: seq<seq<Kernel>>, ghost other: NwSes)
    requires Beside(ses, other)
    modifies ses, ses.pool, set b | b in ses.list
    ensures Beside(ses, other)
    ensures unchanged(other) && Unread(other.list) == old(Unread(other.list))
  {
    hide Distinct, Flushes;
    ses.OnCanWrite(calls);
  }
}
