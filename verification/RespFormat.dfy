/** The command printers of depends/hiredis/hiredis.c, and the round trip through the reader. */
module RespFormat {
  import opened Common
  import opened Resp
  import opened RespGrammar

  // ----- decimal numbers

  /** What sprintf prints for %d and %zu. */
  function Decimal(n: nat): (r: Bytes)
    ensures r != []
  {
    if n < 10 then [ZERO + n] else Decimal(n / 10) + [ZERO + n % 10]
  }

  function NumDigits(n: nat): nat {
    if n < 10 then 1 else 1 + NumDigits(n / 10)
  }

  predicate AllDigits(s: Bytes) {
    forall i :: 0 <= i < |s| ==> IsDigit(s[i])
  }

  function Fold(s: Bytes, v: int): int {
    if s == [] then v else Fold(s[..|s| - 1], v) * 10 + (s[|s| - 1] - ZERO)
  }

  lemma {:induction false} FoldFromFront(s: Bytes, v: int)
    requires s != []
    ensures Fold(s, v) == Fold(s[1..], v * 10 + (s[0] - ZERO))
  {
    var n := |s| - 1;
    if n == 0 {
      assert s[..0] == [] && s[1..] == [];
    } else {
      FoldFromFront(s[..n], v);
      assert s[..n][1..] == s[1..][..n - 1] && s[1..][n - 1] == s[n];
    }
  }

  lemma {:induction false} DigitsFold(s: Bytes, v: int)
    requires AllDigits(s)
    ensures Digits(s, v) == Some(Fold(s, v))
  {
    if s != [] {
      FoldFromFront(s, v);
      DigitsFold(s[1..], v * 10 + (s[0] - ZERO));
    }
  }

  lemma {:induction false} DecimalMeans(n: nat)
    ensures AllDigits(Decimal(n)) && Fold(Decimal(n), 0) == n && |Decimal(n)| == NumDigits(n)
  {
    if n >= 10 {
      DecimalMeans(n / 10);
      var s := Decimal(n);
      assert s[..|s| - 1] == Decimal(n / 10) && s[|s| - 1] == ZERO + n % 10;
    } else {
      var s := Decimal(n);
      assert s[..0] == [];
    }
  }

  /** readLongLong undoes the printing of a length or a count. */
  lemma NumberOfDecimal(n: nat)
    ensures Number(Decimal(n)) == n
  {
    DecimalMeans(n);
    DigitsFold(Decimal(n), 0);
    assert IsDigit(Decimal(n)[0]);
  }

  // ----- lines

  lemma {:induction false} NewlineAfter(s: Bytes, tail: Bytes)
    requires forall i :: 0 <= i < |s| ==> s[i] != CR
    ensures Newline(s + CRLF + tail) == Some(|s|)
  {
    var t := s + CRLF + tail;
    if s == [] {
      assert t[0] == CR && t[1] == LF;
    } else {
      assert t[1..] == s[1..] + CRLF + tail;
      NewlineAfter(s[1..], tail);
    }
  }

  lemma LineOfNumber(n: nat, tail: Bytes)
    ensures var t := Decimal(n) + CRLF + tail; var p := |Decimal(n)|;
            && Newline(t) == Some(p) && t[..p] == Decimal(n) && t[p + 2..] == tail
  {
    DecimalMeans(n);
    NewlineAfter(Decimal(n), tail);
  }

  // ----- commands

  function FormatArg(arg: Bytes): Bytes {
    [DOLLAR] + Decimal(|arg|) + CRLF + arg + CRLF
  }

  function FormatArgs(args: seq<Bytes>): Bytes {
    if args == [] then [] else FormatArg(args[0]) + FormatArgs(args[1..])
  }

  /** A command: an array of bulk strings. */
  function Format(args: seq<Bytes>): Bytes {
    [STAR] + Decimal(|args|) + CRLF + FormatArgs(args)
  }

  function BulkLen(len: nat): nat {
    1 + NumDigits(len) + 2 + len + 2
  }

  function ArgsLen(args: seq<Bytes>): nat {
    if args == [] then 0 else BulkLen(|args[0]|) + ArgsLen(args[1..])
  }

  lemma {:induction false} FormatLength(args: seq<Bytes>)
    ensures |FormatArgs(args)| == ArgsLen(args)
  {
    if args != [] {
      DecimalMeans(|args[0]|);
      FormatLength(args[1..]);
    }
  }

  function Bulks(args: seq<Bytes>): seq<Reply> {
    if args == [] then [] else [Bulk(args[0])] + Bulks(args[1..])
  }

  lemma ParsesArg(arg: Bytes, tail: Bytes, depth: nat)
    ensures Parse(FormatArg(arg) + tail, depth) == Got(Bulk(arg), tail)
  {
    var s := FormatArg(arg) + tail;
    var t := Decimal(|arg|) + CRLF + (arg + CRLF + tail);
    assert s[1..] == t;
    LineOfNumber(|arg|, arg + CRLF + tail);
    NumberOfDecimal(|arg|);
    var rest := arg + CRLF + tail;
    assert rest[..|arg|] == arg && rest[|arg| + 2..] == tail;
  }

  lemma {:induction false} ParsesArgs(args: seq<Bytes>, tail: Bytes, depth: nat)
    ensures ParseItems(|args|, FormatArgs(args) + tail, depth) == GotItems(Bulks(args), tail)
  {
    hide Parse;
    if args == [] {
      assert [] + tail == tail;
    } else {
      var rest := FormatArgs(args[1..]) + tail;
      assert FormatArgs(args) + tail == FormatArg(args[0]) + rest;
      ParsesArg(args[0], rest, depth);
      ParsesArgs(args[1..], tail, depth);
      ItemsStep(|args|, FormatArgs(args) + tail, depth, Bulk(args[0]), rest);
    }
  }

  /** Parsing a printed command gives the array of its arguments and leaves what follows. */
  lemma ParseUndoesFormat(args: seq<Bytes>, tail: Bytes)
    ensures Parse(Format(args) + tail, 0) == Got(Array(|args|, Bulks(args)), tail)
  {
    hide ParseItems;
    var s := Format(args) + tail;
    var rest := FormatArgs(args) + tail;
    assert s[1..] == Decimal(|args|) + CRLF + rest;
    LineOfNumber(|args|, rest);
    NumberOfDecimal(|args|);
    ParsesArgs(args, tail, 1);
  }

  function Commands(cmds: seq<seq<Bytes>>): Bytes {
    if cmds == [] then [] else Format(cmds[0]) + Commands(cmds[1..])
  }

  function AsReplies(cmds: seq<seq<Bytes>>): seq<Reply> {
    if cmds == [] then [] else [Array(|cmds[0]|, Bulks(cmds[0]))] + AsReplies(cmds[1..])
  }

  /** The round trip: whatever commands are printed one after the other, the reader delivers
      exactly them, one array of bulk strings each, and has no bytes left over. */
  lemma {:induction false} ReaderUndoesFormat(cmds: seq<seq<Bytes>>)
    ensures Drain(Machine([], Commands(cmds))).replies == AsReplies(cmds)
    ensures Drain(Machine([], Commands(cmds))).last == Wait(Machine([FRESH], []))
  {
    hide GetReply, Parse;
    var s := Commands(cmds);
    if cmds == [] {
      EmptyWaits();
    } else {
      ParseUndoesFormat(cmds[0], Commands(cmds[1..]));
      ReadsItem([], -1, s);
      assert [] + [Item(-1)] == [FRESH];
      RootFinishes(Array(|cmds[0]|, Bulks(cmds[0])), Commands(cmds[1..]));
      ReaderUndoesFormat(cmds[1..]);
    }
  }

  lemma EmptyWaits()
    ensures GetReply(Machine([FRESH], [])) == Wait(Machine([FRESH], []))
  {
  }

  // ----- the printers

  /** countDigits: four digits a round. */
  method CountDigits(n: nat) returns (result: nat)
    ensures result == NumDigits(n)
  {
    result := 1;
    var v := n;
    while true
      invariant result - 1 + NumDigits(v) == NumDigits(n)
      decreases v
    {
      FewDigits(v);
      if v < 10 { return; }
      if v < 100 { return result + 1; }
      if v < 1000 { return result + 2; }
      if v < 10000 { return result + 3; }
      FourDigits(v);
      v := v / 10000;
      result := result + 4;
    }
  }

  lemma FewDigits(v: nat)
    ensures v < 10 ==> NumDigits(v) == 1
    ensures 10 <= v < 100 ==> NumDigits(v) == 2
    ensures 100 <= v < 1000 ==> NumDigits(v) == 3
    ensures 1000 <= v < 10000 ==> NumDigits(v) == 4
  {
    var a := v / 10;
    var b := a / 10;
    assert v >= 10 ==> NumDigits(v) == 1 + NumDigits(a);
    assert v >= 100 ==> NumDigits(a) == 1 + NumDigits(b);
    assert v >= 1000 ==> NumDigits(b) == 1 + NumDigits(b / 10);
  }

  lemma FourDigits(v: nat)
    requires v >= 10000
    ensures NumDigits(v) == 4 + NumDigits(v / 10000)
  {
    var a := v / 10;
    var b := a / 10;
    var c := b / 10;
    assert NumDigits(v) == 1 + NumDigits(a);
    assert NumDigits(a) == 1 + NumDigits(b);
    assert NumDigits(b) == 1 + NumDigits(c);
    assert NumDigits(c) == 1 + NumDigits(c / 10);
    assert c / 10 == v / 10000;
  }

  /** Write `s` into the buffer at `pos` (sprintf, memcpy and the two byte stores). */
  method Append(cmd: array<Byte>, pos: nat, s: Bytes) returns (end: nat)
    requires pos + |s| <= cmd.Length
    modifies cmd
    ensures end == pos + |s|
    ensures cmd[..end] == old(cmd[..pos]) + s
  {
    var i := 0;
    while i < |s|
      invariant 0 <= i <= |s|
      invariant cmd[..pos + i] == old(cmd[..pos]) + s[..i]
    {
      cmd[pos + i] := s[i];
      assert cmd[..pos + i + 1] == cmd[..pos + i] + [s[i]];
      assert s[..i + 1] == s[..i] + [s[i]];
      i := i + 1;
    }
    assert s[..i] == s;
    end := pos + i;
  }

  /** The first pass of both printers: how long the command will be. */
  method TotalLength(args: seq<Bytes>) returns (totlen: nat)
    ensures totlen == |Format(args)|
  {
    var digits := CountDigits(|args|);
    totlen := 1 + digits + 2;
    var j := 0;
    while j < |args|
      invariant 0 <= j <= |args|
      invariant totlen + ArgsLen(args[j..]) == 1 + NumDigits(|args|) + 2 + ArgsLen(args)
    {
      digits := CountDigits(|args[j]|);
      totlen := totlen + (1 + digits + 2 + |args[j]| + 2);
      assert args[j..][1..] == args[j + 1..];
      j := j + 1;
    }
    FormatLength(args);
    DecimalMeans(|args|);
  }

  lemma NextArg(args: seq<Bytes>, j: nat)
    requires j < |args|
    ensures FormatArgs(args[j..]) == FormatArg(args[j]) + FormatArgs(args[j + 1..])
  {
    assert args[j..][1..] == args[j + 1..];
  }

  /** One argument, written at the moving position. */
  method AppendArg(cmd: array<Byte>, start: nat, arg: Bytes) returns (pos: nat)
    requires start + |FormatArg(arg)| <= cmd.Length
    modifies cmd
    ensures pos == start + |FormatArg(arg)| && cmd[..pos] == old(cmd[..start]) + FormatArg(arg)
  {
    pos := Append(cmd, start, [DOLLAR] + Decimal(|arg|) + CRLF);
    pos := Append(cmd, pos, arg);
    pos := Append(cmd, pos, [CR]);
    pos := Append(cmd, pos, [LF]);
  }

  /** redisFormatCommandArgv: the buffer is sized first and then filled, and the position
      meets the computed length. */
  method FormatCommandArgv(args: seq<Bytes>) returns (cmd: array<Byte>, totlen: nat)
    ensures cmd.Length == totlen + 1 && cmd[..totlen] == Format(args) && cmd[totlen] == 0
    ensures fresh(cmd)
  {
    hide FormatArg, Decimal;
    totlen := TotalLength(args);
    cmd := new Byte[totlen + 1];
    var pos := Append(cmd, 0, [STAR] + Decimal(|args|) + CRLF);
    var j := 0;
    assert args[0..] == args && cmd[..0] == [];
    while j < |args|
      invariant 0 <= j <= |args|
      invariant 0 <= pos <= totlen && pos + |FormatArgs(args[j..])| == totlen
      invariant cmd[..pos] + FormatArgs(args[j..]) == Format(args)
    {
      ghost var before := cmd[..pos];
      NextArg(args, j);
      pos := AppendArg(cmd, pos, args[j]);
      Regroup(before, FormatArg(args[j]), FormatArgs(args[j + 1..]));
      j := j + 1;
    }
    assert args[j..] == [];
    assert pos == totlen;
    cmd[pos] := 0;
    assert cmd[..pos] == Format(args);
  }

  /** redisFormatSdsCommandArgv: the same bytes, appended to a growing string. */
  method FormatSdsCommandArgv(args: seq<Bytes>) returns (cmd: Bytes, totlen: nat)
    ensures cmd == Format(args) && totlen == |cmd|
  {
    totlen := TotalLength(args);
    cmd := [STAR] + Decimal(|args|) + CRLF;
    var j := 0;
    assert args[0..] == args;
    while j < |args|
      invariant 0 <= j <= |args|
      invariant cmd + FormatArgs(args[j..]) == Format(args)
    {
      ghost var before := cmd;
      NextArg(args, j);
      cmd := cmd + ([DOLLAR] + Decimal(|args[j]|) + CRLF);
      cmd := cmd + args[j];
      cmd := cmd + CRLF;
      assert cmd == before + FormatArg(args[j]);
      assert before + (FormatArg(args[j]) + FormatArgs(args[j + 1..])) == cmd + FormatArgs(args[j + 1..]);
      j := j + 1;
    }
    assert args[j..] == [];
    assert cmd + [] == cmd;
    assert |cmd| == totlen;
  }
}
