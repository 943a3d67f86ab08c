/** The reader against a printer of whole reply trees that writes every byte out: what is printed is
    read back, what is cut off is waited for, and what is no reply is an error. */
module RespTrees {
  import opened Common
  import opened Resp
  import opened RespChunks
  import opened RespGrammar
  import opened RespFormat

  // ----- the bytes of RESP2

  function Written(n: nat): Bytes {
    if n < 10 then [48 + n] else Written(n / 10) + [48 + n % 10]
  }

  function Signed(n: int): Bytes {
    if n < 0 then [45] + Written(-n) else Written(n)
  }

  /** '+' status, '-' error, ':' integer, '$' bulk string, "$-1" nil, '*' array. */
  function Print(v: Reply): Bytes {
    match v
    case Status(s) => [43] + s + [13, 10]
    case Error(s) => [45] + s + [13, 10]
    case Integer(n) => [58] + Signed(n) + [13, 10]
    case Bulk(s) => [36] + Written(|s|) + [13, 10] + s + [13, 10]
    case Nil => [36, 45, 49, 13, 10]
    case Array(_, items) => [42] + Written(|items|) + [13, 10] + PrintAll(items)
  }

  function PrintAll(vs: seq<Reply>): Bytes {
    if vs == [] then [] else Print(vs[0]) + PrintAll(vs[1..])
  }

  predicate OneLine(s: Bytes) {
    forall i :: 0 <= i < |s| - 1 ==> !(s[i] == 13 && s[i + 1] == 10)
  }

  /** A reply that a server can send at this depth of nesting: at most eight arrays inside one another,
      and no line end within a line. */
  predicate Sendable(v: Reply, depth: nat) {
    match v
    case Status(s) => OneLine(s)
    case Error(s) => OneLine(s)
    case Array(count, items) =>
      count == |items| && depth < 8 && forall i :: 0 <= i < |items| ==> Sendable(items[i], depth + 1)
    case _ => true
  }

  // ----- lines

  lemma {:induction false} WrittenIsDecimal(n: nat)
    ensures Written(n) == Decimal(n)
  {
    if n >= 10 { WrittenIsDecimal(n / 10); }
  }

  lemma {:induction false} LineEnds(s: Bytes, tail: Bytes)
    requires OneLine(s)
    ensures var t := s + [13, 10] + tail;
            Newline(t) == Some(|s|) && t[..|s|] == s && t[|s| + 2..] == tail
  {
    var t := s + [13, 10] + tail;
    if s != [] {
      var s1 := s[1..];
      assert forall i :: 0 <= i < |s1| ==> s1[i] == s[i + 1];
      LineEnds(s1, tail);
      assert t[1..] == s1 + [13, 10] + tail;
      assert t[1] == if |s| > 1 then s[1] else 13;
    }
  }

  lemma DigitsAreOneLine(s: Bytes)
    requires AllDigits(s)
    ensures OneLine(s) && OneLine([45] + s)
  {
  }

  lemma SignedReads(n: int)
    ensures OneLine(Signed(n)) && Number(Signed(n)) == n
  {
    var a := if n < 0 then -n else n;
    WrittenIsDecimal(a);
    DecimalMeans(a);
    DigitsAreOneLine(Decimal(a));
    NumberOfDecimal(a);
    if n < 0 {
      assert Signed(n)[1..] == Decimal(a);
      DigitsFold(Decimal(a), 0);
    }
  }

  lemma PlusReads(n: nat)
    ensures Number([43] + Written(n)) == n
  {
    WrittenIsDecimal(n);
    DecimalMeans(n);
    DigitsFold(Decimal(n), 0);
    assert ([43] + Written(n))[1..] == Decimal(n);
  }

  lemma {:induction false} StrayByteReads(s: Bytes, i: nat, v: int)
    requires i < |s| && !(48 <= s[i] <= 57) && forall j :: 0 <= j <= i ==> s[j] != 13
    ensures Digits(s, v) == None
  {
    if i > 0 && IsDigit(s[0]) { StrayByteReads(s[1..], i - 1, v * 10 + (s[0] - 48)); }
  }

  /** A number may begin with a plus or a minus; with any other byte in it that is no digit it reads
      as -1. */
  lemma StrayNumberIsMinusOne(line: Bytes, i: nat)
    requires i < |line| && !(48 <= line[i] <= 57) && (i == 0 ==> line[0] != 43 && line[0] != 45)
    requires forall j :: 0 <= j < |line| ==> line[j] != 13
    ensures Number(line) == -1
  {
    if line[0] == 43 || line[0] == 45 { StrayByteReads(line[1..], i - 1, 0); } else { StrayByteReads(line, i, 0); }
  }

  // ----- one reply

  lemma ParsesLine(b: Byte, kind: Type, s: Bytes, tail: Bytes, depth: nat)
    requires OneLine(s) && TypeOf(b) == Some(kind) && !kind.TString? && !kind.TArray?
    ensures Parse([b] + s + [13, 10] + tail, depth) == Got(LineReply(kind, s), tail)
  {
    var t := [b] + s + [13, 10] + tail;
    assert t[1..] == s + [13, 10] + tail;
    LineEnds(s, tail);
  }

  lemma ParsesBulk(s: Bytes, tail: Bytes, depth: nat)
    ensures Parse(Print(Bulk(s)) + tail, depth) == Got(Bulk(s), tail)
  {
    var t := Print(Bulk(s)) + tail;
    var rest := s + [13, 10] + tail;
    SignedReads(|s|);
    LineEnds(Written(|s|), rest);
    assert t[1..] == Written(|s|) + [13, 10] + rest;
    assert rest[..|s|] == s && rest[|s| + 2..] == tail;
  }

  lemma ParsesNil(tail: Bytes, depth: nat)
    ensures Parse([36, 45, 49, 13, 10] + tail, depth) == Got(Nil, tail)
    ensures depth < 8 ==> Parse([42, 45, 49, 13, 10] + tail, depth) == Got(Nil, tail)
  {
    SignedReads(-1);
    LineEnds([45, 49], tail);
    assert Signed(-1) == [45, 49];
    assert ([36, 45, 49, 13, 10] + tail)[1..] == [45, 49] + [13, 10] + tail;
    assert ([42, 45, 49, 13, 10] + tail)[1..] == [45, 49] + [13, 10] + tail;
  }

  lemma {:induction false} ParseUndoesPrint(v: Reply, tail: Bytes, depth: nat)
    requires Sendable(v, depth)
    ensures Parse(Print(v) + tail, depth) == Got(v, tail)
    decreases v, 0
  {
    hide Parse;
    match v {
      case Status(s) =>
        ParsesLine(43, TStatus, s, tail, depth);
      case Error(s) =>
        ParsesLine(45, TError, s, tail, depth);
      case Integer(n) =>
        SignedReads(n);
        ParsesLine(58, TInteger, Signed(n), tail, depth);
      case Bulk(s) =>
        ParsesBulk(s, tail, depth);
      case Nil =>
        ParsesNil(tail, depth);
      case Array(count, items) =>
        ItemsUndoPrint(items, tail, depth + 1);
        ParsesArray(items, tail, depth);
    }
  }

  lemma {:induction false} ItemsUndoPrint(vs: seq<Reply>, tail: Bytes, depth: nat)
    requires forall i :: 0 <= i < |vs| ==> Sendable(vs[i], depth)
    ensures ParseItems(|vs|, PrintAll(vs) + tail, depth) == GotItems(vs, tail)
    decreases vs, 1
  {
    hide Parse, Print;
    if vs == [] {
      assert [] + tail == tail;
    } else {
      var rest := PrintAll(vs[1..]) + tail;
      assert PrintAll(vs) + tail == Print(vs[0]) + rest;
      ParseUndoesPrint(vs[0], rest, depth);
      ItemsUndoPrint(vs[1..], tail, depth);
      ItemsStep(|vs|, PrintAll(vs) + tail, depth, vs[0], rest);
      assert [vs[0]] + vs[1..] == vs;
    }
  }

  lemma ParsesArray(items: seq<Reply>, tail: Bytes, depth: nat)
    requires depth < 8 && ParseItems(|items|, PrintAll(items) + tail, depth + 1) == GotItems(items, tail)
    ensures Parse([42] + Written(|items|) + [13, 10] + PrintAll(items) + tail, depth) == Got(Array(|items|, items), tail)
  {
    hide ParseItems, PrintAll;
    var rest := PrintAll(items) + tail;
    var t := [42] + Written(|items|) + [13, 10] + PrintAll(items) + tail;
    assert t[1..] == Written(|items|) + [13, 10] + rest;
    SignedReads(|items|);
    LineEnds(Written(|items|), rest);
  }

  // ----- a stream

  ghost predicate AllSendable(vs: seq<Reply>) {
    forall i :: 0 <= i < |vs| ==> Sendable(vs[i], 0)
  }

  lemma ReadsPrinted(v: Reply, tail: Bytes)
    requires Sendable(v, 0)
    ensures GetReply(Machine([FRESH], Print(v) + tail)) == Done(Machine([], tail), Some(v))
  {
    hide GetReply, Parse, Print;
    ParseUndoesPrint(v, tail, 0);
    ReadsItem([], -1, Print(v) + tail);
    assert [] + [Item(-1)] == [FRESH];
    RootFinishes(v, tail);
  }

  /** Printed replies are delivered, each as it was printed, and reading goes on behind them. */
  lemma {:induction false} PrintedThen(vs: seq<Reply>, tail: Bytes)
    requires AllSendable(vs)
    ensures var d := Drain(Machine([], tail));
            Drain(Machine([], PrintAll(vs) + tail)) == Drained(vs + d.replies, d.last)
    decreases |vs|
  {
    hide GetReply, Print;
    var d := Drain(Machine([], tail));
    if vs == [] {
      assert [] + tail == tail && [] + d.replies == d.replies;
    } else {
      var rest := PrintAll(vs[1..]) + tail;
      assert PrintAll(vs) + tail == Print(vs[0]) + rest;
      assert Sendable(vs[0], 0);
      assert forall i :: 0 <= i < |vs[1..]| ==> vs[1..][i] == vs[i + 1];
      ReadsPrinted(vs[0], rest);
      PrintedThen(vs[1..], tail);
      assert [vs[0]] + (vs[1..] + d.replies) == vs + d.replies;
    }
  }

  /** The round trip: the reader delivers exactly the replies that were printed, of whatever kind and
      nesting, and waits for more with nothing left over. */
  lemma ReaderUndoesPrint(vs: seq<Reply>)
    requires AllSendable(vs)
    ensures Drain(Machine([], PrintAll(vs))) == Drained(vs, Wait(Machine([FRESH], [])))
  {
    hide GetReply, Print;
    PrintedThen(vs, []);
    EmptyWaits();
    assert PrintAll(vs) + [] == PrintAll(vs) && vs + [] == vs;
  }

  /** A reply that is cut off anywhere is waited for: neither it nor an error is delivered. */
  lemma CutIsWaitedFor(vs: seq<Reply>, v: Reply, cut: nat)
    requires AllSendable(vs) && Sendable(v, 0) && cut < |Print(v)|
    ensures var d := Drain(Machine([], PrintAll(vs) + Print(v)[..cut])); d.replies == vs && d.last.Wait?
  {
    hide GetReply, Print;
    var head, more := Print(v)[..cut], Print(v)[cut..];
    assert head + more == Print(v) + [];
    PrintedThen(vs, head);
    ReadsPrinted(v, []);
    GetReplyStays(Machine([FRESH], head), more);
    assert Fed(Machine([FRESH], head), more) == Machine([FRESH], Print(v) + []);
    assert vs + [] == vs;
  }

  /** A reply that begins with any other byte is an error that names the byte. */
  lemma OtherByteFails(vs: seq<Reply>, b: Byte, tail: Bytes)
    requires AllSendable(vs) && b !in [36, 42, 43, 45, 58]
    ensures Drain(Machine([], PrintAll(vs) + ([b] + tail))) == Drained(vs, Broken(BadType(b)))
  {
    hide Print, GetReply, PrintAll;
    PrintedThen(vs, [b] + tail);
    OtherByteBreaks(b, tail);
    assert vs + [] == vs;
  }

  lemma OtherByteBreaks(b: Byte, tail: Bytes)
    requires b !in [36, 42, 43, 45, 58]
    ensures GetReply(Machine([FRESH], [b] + tail)) == Broken(BadType(b))
  {
    hide ProcessTyped, GetReply;
    GetReplyResumes(Machine([FRESH], [b] + tail));
  }

  /** That many arrays inside one another. */
  function Nested(n: nat): Bytes {
    if n == 0 then [] else [42, 49, 13, 10] + Nested(n - 1)
  }

  lemma {:induction false} NestedIsTooDeep(n: nat, tail: Bytes)
    requires n <= 8
    ensures Parse(Nested(n) + ([42] + tail), 8 - n) == Bad(TooDeep)
  {
    var s := Nested(n) + ([42] + tail);
    if n > 0 {
      var rest := Nested(n - 1) + ([42] + tail);
      NestedIsTooDeep(n - 1, tail);
      assert s[1..] == Written(1) + [13, 10] + rest;
      SignedReads(1);
      LineEnds(Written(1), rest);
      hide Parse;
      ItemFails(rest, 9 - n);
      BadArray(s, 8 - n, rest);
    }
  }

  lemma ItemFails(s: Bytes, depth: nat)
    requires Parse(s, depth) == Bad(TooDeep)
    ensures ParseItems(1, s, depth) == BadItems(TooDeep)
  {
    hide Parse;
  }

  lemma BadArray(s: Bytes, depth: nat, rest: Bytes)
    requires depth < 8 && s != [] && s[0] == 42 && Newline(s[1..]) == Some(1) && s[1..][3..] == rest
    requires Number(s[1..][..1]) == 1 && ParseItems(1, rest, depth + 1) == BadItems(TooDeep)
    ensures Parse(s, depth) == Bad(TooDeep)
  {
    hide ParseItems, Newline, Number;
  }

  /** A ninth array inside eight others is an error. */
  lemma NinthArrayFails(vs: seq<Reply>, tail: Bytes)
    requires AllSendable(vs)
    ensures Drain(Machine([], PrintAll(vs) + (Nested(8) + ([42] + tail)))) == Drained(vs, Broken(TooDeep))
  {
    hide Print, GetReply, Nested, Parse;
    var s := Nested(8) + ([42] + tail);
    PrintedThen(vs, s);
    NestedIsTooDeep(8, tail);
    ReadsItem([], -1, s);
    assert [] + [Item(-1)] == [FRESH];
    assert vs + [] == vs;
  }
}
