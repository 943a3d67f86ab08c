/** Two string routines of depends/hiredis/sds.c that the reader and the printers lean on:
    cutting a string down to a range in place, and printing an unsigned number. */
module Sds {
  import opened Common
  import opened Resp
  import opened RespFormat

  // ----- sdsrange

  function Clamped(i: int, len: nat): int {
    if i >= 0 then i else if len + i < 0 then 0 else len + i
  }

  /** What sdsrange leaves, index arithmetic and all. */
  function Range(s: Bytes, start: int, end: int): Bytes {
    var len := |s|;
    if len == 0 then s
    else
      var from, to := Clamped(start, len), Clamped(end, len);
      if from > to || from >= len then []
      else s[from..(if to >= len then len else to + 1)]
  }

  /** Negative indexes count from the end, -1 being the last byte. */
  function Index(i: int, len: nat): int {
    if i < 0 then len + i else i
  }

  /** The bytes at the indexes from `start` to `end`, both included. */
  function Slice(s: Bytes, start: int, end: int): Bytes {
    var from, to := Index(start, |s|), Index(end, |s|);
    var lo, hi := (if from < 0 then 0 else from), (if to >= |s| then |s| - 1 else to);
    if lo > hi then [] else s[lo..hi + 1]
  }

  /** sdsrange keeps exactly the bytes of the range, unless the range ends before the string
      begins and does not start after it: then the first byte survives. */
  lemma RangeIsSlice(s: Bytes, start: int, end: int)
    ensures Range(s, start, end) == Slice(s, start, end)
            <==> s == [] || end + |s| >= 0 || !(start == 0 || start + |s| <= 0)
  {
    if s != [] && end + |s| < 0 {
      assert Slice(s, start, end) == [];
    }
  }

  /** How the reader and the writer use it: drop what has been consumed. */
  lemma RangeDrops(s: Bytes, pos: nat)
    requires pos <= |s|
    ensures Range(s, pos, -1) == s[pos..]
  {
  }

  /** memmove to the front of the same buffer. */
  method MoveDown(buf: array<Byte>, from: nat, count: nat)
    requires from + count <= buf.Length
    modifies buf
    ensures buf[..count] == old(buf[from..from + count])
  {
    var i := 0;
    while i < count
      invariant 0 <= i <= count
      invariant forall k :: 0 <= k < i ==> buf[k] == old(buf[from + k])
      invariant forall k :: from + i <= k < buf.Length ==> buf[k] == old(buf[k])
    {
      buf[i] := buf[from + i];
      i := i + 1;
    }
  }

  /** sdsrange on a buffer of `len` bytes and a terminator; the result is the new length. */
  method RangeInPlace(buf: array<Byte>, len: nat, start: int, end: int) returns (newlen: nat)
    requires len < buf.Length
    modifies buf
    ensures newlen <= len && buf[..newlen] == Range(old(buf[..len]), start, end)
    ensures len > 0 ==> buf[newlen] == 0
  {
    if len == 0 {
      return 0;
    }
    var from, to := start, end;
    if from < 0 {
      from := len + from;
      if from < 0 {
        from := 0;
      }
    }
    if to < 0 {
      to := len + to;
      if to < 0 {
        to := 0;
      }
    }
    var kept: int := if from > to then 0 else to - from + 1;
    if kept != 0 {
      if from >= len {
        kept := 0;
      } else if to >= len {
        to := len - 1;
        kept := if from > to then 0 else to - from + 1;
      }
    } else {
      from := 0;
    }
    newlen := kept;
    if from != 0 && newlen != 0 {
      MoveDown(buf, from, newlen);
    }
    assert buf[..newlen] == Range(old(buf[..len]), start, end);
    buf[newlen] := 0;
  }

  // ----- sdsull2str

  const SDS_LLSTR_SIZE := 21

  /** The digits of `v`, last one first. */
  function Backwards(v: nat): Bytes {
    if v < 10 then [ZERO + v] else [ZERO + v % 10] + Backwards(v / 10)
  }

  function Reversed(s: Bytes): Bytes {
    if s == [] then [] else Reversed(s[1..]) + [s[0]]
  }

  lemma {:induction false} ReversedAt(s: Bytes, k: nat)
    requires k < |s|
    ensures |Reversed(s)| == |s| && Reversed(s)[k] == s[|s| - 1 - k]
    decreases |s|
  {
    if |s| > 1 { ReversedAt(s[1..], if k < |s| - 1 then k else 0); }
  }

  lemma {:induction false} BackwardsIsDecimal(v: nat)
    ensures |Backwards(v)| == NumDigits(v) && Reversed(Backwards(v)) == Decimal(v)
  {
    if v >= 10 {
      BackwardsIsDecimal(v / 10);
      assert Backwards(v)[1..] == Backwards(v / 10);
    }
  }

  function Power10(k: nat): nat {
    if k == 0 then 1 else 10 * Power10(k - 1)
  }

  lemma {:induction false} DigitsFit(v: nat, k: nat)
    requires k > 0 && v < Power10(k)
    ensures NumDigits(v) <= k
  {
    if v >= 10 {
      assert k > 1;
      DigitsFit(v / 10, k - 1);
    }
  }

  lemma SixtyFourBitsFit(v: nat)
    requires v < 0x1_0000_0000_0000_0000
    ensures NumDigits(v) <= 20
  {
    assert Power10(5) == 100000;
    assert Power10(10) == 10000000000;
    assert Power10(15) == 1000000000000000;
    assert Power10(20) == 100000000000000000000;
    DigitsFit(v, 20);
  }

  function Rest(v: nat): Bytes {
    if v == 0 then [] else Backwards(v)
  }

  lemma RestSteps(v: nat)
    ensures Backwards(v) == [ZERO + v % 10] + Rest(v / 10)
    ensures v != 0 ==> Rest(v) == [ZERO + v % 10] + Rest(v / 10)
  {
    if v < 10 { assert [ZERO + v] + [] == [ZERO + v]; }
  }

  /** The first loop: digits from the last to the first. */
  method WriteBackwards(s: array<Byte>, value: nat) returns (l: nat)
    requires |Backwards(value)| < s.Length
    modifies s
    ensures 0 < l < s.Length && s[..l] == Backwards(value)
  {
    hide Backwards, Rest;
    var v := value;
    RestSteps(v);
    s[0] := ZERO + v % 10;
    l := 1;
    v := v / 10;
    assert s[..1] == [s[0]];
    while v != 0
      invariant 0 < l && l + |Rest(v)| == |Backwards(value)|
      invariant s[..l] + Rest(v) == Backwards(value)
    {
      ghost var before := s[..l];
      RestSteps(v);
      s[l] := ZERO + v % 10;
      assert s[..l + 1] == before + [s[l]];
      Appended(before, s[l], Rest(v / 10));
      l := l + 1;
      v := v / 10;
    }
    assert Rest(0) == [] by { NoRest(); }
    assert s[..l] + [] == s[..l];
  }

  lemma Appended(a: Bytes, b: Byte, c: Bytes)
    ensures (a + [b]) + c == a + ([b] + c)
  {
  }

  lemma NoRest()
    ensures Rest(0) == []
  {
  }

  /** The second loop: two pointers meet in the middle. */
  method ReverseInPlace(s: array<Byte>, l: nat)
    requires 0 < l <= s.Length
    modifies s
    ensures s[..l] == Reversed(old(s[..l]))
    ensures s[l..] == old(s[l..])
  {
    var i, p := 0, l - 1;
    while i < p
      invariant 0 <= i <= l && i + p == l - 1
      invariant i <= p + 1
      invariant forall k :: 0 <= k < i ==> s[k] == old(s[l - 1 - k]) && s[l - 1 - k] == old(s[k])
      invariant forall k :: i <= k <= p ==> s[k] == old(s[k])
      invariant forall k :: l <= k < s.Length ==> s[k] == old(s[k])
    {
      s[i], s[p] := s[p], s[i];
      i, p := i + 1, p - 1;
    }
    ghost var was := old(s[..l]);
    forall k | 0 <= k < l ensures |Reversed(was)| == l && s[..l][k] == Reversed(was)[k] {
      ReversedAt(was, k);
    }
    ReversedAt(was, 0);
  }

  /** sdsull2str: any 64-bit number is printed in decimal within the promised room. */
  method Ull2Str(s: array<Byte>, value: nat) returns (l: nat)
    requires value < 0x1_0000_0000_0000_0000 && s.Length >= SDS_LLSTR_SIZE
    modifies s
    ensures l == |Decimal(value)| && l < s.Length && s[..l] == Decimal(value) && s[l] == 0
  {
    SixtyFourBitsFit(value);
    BackwardsIsDecimal(value);
    l := WriteBackwards(s, value);
    s[l] := 0;
    ghost var digits := s[..l];
    assert digits == Backwards(value);
    ReverseInPlace(s, l);
    assert s[l] == s[l..][0];
    ReversedAt(digits, 0);
  }
}
