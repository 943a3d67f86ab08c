/** Argument lines in all their forms, byte by byte: bare words, arguments in single and in double
    quotes are read back, and a badly quoted line is refused. */
module QuotingForms {
  import opened Common
  import opened Quoting

  const HEX: Bytes := [48, 49, 50, 51, 52, 53, 54, 55, 56, 57, 97, 98, 99, 100, 101, 102]

  /** A byte in double quotes: quote and backslash behind a backslash, five controls as letters,
      printable bytes as they are, and all others as two hexadecimal digits. */
  function Shown(b: Byte): Bytes {
    if b == 34 || b == 92 then [92, b]
    else if b == 10 then [92, 110]
    else if b == 13 then [92, 114]
    else if b == 9 then [92, 116]
    else if b == 7 then [92, 97]
    else if b == 8 then [92, 98]
    else if 32 <= b <= 126 then [b]
    else [92, 120, HEX[b / 16], HEX[b % 16]]
  }

  function ShownAll(s: Bytes): Bytes {
    if s == [] then [] else Shown(s[0]) + ShownAll(s[1..])
  }

  /** In single quotes only a single quote is escaped. */
  function Ticked(s: Bytes): Bytes {
    if s == [] then [] else (if s[0] == 39 then [92, 39] else [s[0]]) + Ticked(s[1..])
  }

  datatype Form = Word | Tick | Double

  /** A piece of a line: blanks, and an argument behind them in one of the three forms. */
  datatype Part = Part(gap: Bytes, form: Form, arg: Bytes)

  function Text(p: Part): Bytes {
    match p.form
    case Word => p.arg
    case Tick => [39] + Ticked(p.arg) + [39]
    case Double => [34] + ShownAll(p.arg) + [34]
  }

  /** A bare word has no blank, quote or zero in it; single quotes cannot hold a zero, nor a backslash
      at the end. */
  predicate Writable(p: Part) {
    && (forall b :: b in p.gap ==> b in [9, 10, 13, 32])
    && match p.form
       case Word => p.arg != [] && p.arg[0] !in [11, 12] && forall b :: b in p.arg ==> b !in [0, 9, 10, 13, 32, 34, 39]
       case Tick => (p.arg != [] ==> p.arg[|p.arg| - 1] != 92) && 0 !in p.arg
       case Double => true
  }

  /** sdscatrepr prints the third form. */
  lemma {:induction false} ReprIsDouble(s: Bytes)
    ensures Body(s) == ShownAll(s) && Repr(s) == [34] + ShownAll(s) + [34]
  {
    if s != [] {
      assert Shown(s[0]) == Escape(s[0]);
      ReprIsDouble(s[1..]);
    }
  }

  lemma {:induction false} WordScans(s: Bytes, rest: Bytes, cur: Bytes)
    requires forall b :: b in s ==> b !in [0, 9, 10, 13, 32, 34, 39]
    requires rest == [] || rest[0] in [9, 10, 13, 32]
    ensures Scan(s + rest, Plain, cur) == Token(cur + s, if rest == [] then [] else rest[1..])
    decreases |s|
  {
    if s == [] {
      assert s + rest == rest && cur + s == cur;
    } else {
      assert s[0] in s && (s + rest)[1..] == s[1..] + rest && (cur + [s[0]]) + s[1..] == cur + s;
      WordScans(s[1..], rest, cur + [s[0]]);
    }
  }

  /** One byte in single quotes; a backslash reads as itself unless a quote follows. */
  lemma TickStep(b: Byte, t: Bytes, cur: Bytes)
    requires b != 0 && (b == 92 ==> t != [] && t[0] != 39)
    ensures var s := (if b == 39 then [92, 39] else [b]) + t; Scan(s, Single, cur) == Scan(t, Single, cur + [b])
  {
    var a := if b == 39 then [92, 39] else [b];
    assert (a + t)[|a|..] == t;
  }

  lemma BehindBackslash(s: Bytes, rest: Bytes)
    requires s != [] && s[0] == 92 && s[|s| - 1] != 92
    ensures var t := Ticked(s[1..]) + rest; t != [] && t[0] != 39
  {
    assert |s| > 1 && s[1..][0] == s[1];
  }

  lemma {:induction false} TickScans(s: Bytes, rest: Bytes, cur: Bytes)
    requires 0 !in s && (s != [] ==> s[|s| - 1] != 92)
    ensures Scan(Ticked(s) + rest, Single, cur) == Scan(rest, Single, cur + s)
    decreases |s|
  {
    hide Scan;
    if s == [] {
      assert [] + rest == rest && cur + s == cur;
    } else {
      var t := Ticked(s[1..]) + rest;
      assert Ticked(s) + rest == (if s[0] == 39 then [92, 39] else [s[0]]) + t && (cur + [s[0]]) + s[1..] == cur + s;
      if s[0] == 92 { BehindBackslash(s, rest); }
      TickStep(s[0], t, cur);
      TickScans(s[1..], rest, cur + [s[0]]);
    }
  }

  /** An opening quote, and what a closing one does. */
  lemma QuoteStarts(s: Bytes, u: Bytes, arg: Bytes)
    requires s != [] && s[0] in [34, 39] && u != [] && u[0] == s[0]
    ensures var mode := if s[0] == 39 then Single else Mode.Double;
            Scan(s, Plain, []) == Scan(s[1..], mode, []) && Scan(u, mode, arg) == Close(u, arg)
  {
    hide Close;
  }

  lemma TickCloses(arg: Bytes, rest: Bytes)
    requires 0 !in arg && (arg != [] ==> arg[|arg| - 1] != 92)
    ensures Scan([39] + Ticked(arg) + [39] + rest, Plain, []) == Close([39] + rest, arg)
  {
    hide Close, Scan, Ticked;
    var s, u := [39] + Ticked(arg) + [39] + rest, [39] + rest;
    assert s[1..] == Ticked(arg) + u;
    QuoteStarts(s, u, arg);
    TickScans(arg, u, []);
    assert [] + arg == arg;
  }

  lemma DoubleCloses(arg: Bytes, rest: Bytes)
    ensures Scan([34] + ShownAll(arg) + [34] + rest, Plain, []) == Close([34] + rest, arg)
  {
    hide Close, Scan, ShownAll;
    var s, u := [34] + ShownAll(arg) + [34] + rest, [34] + rest;
    ReprIsDouble(arg);
    assert s[1..] == Body(arg) + u;
    QuoteStarts(s, u, arg);
    BodyScans(arg, u, []);
    assert [] + arg == arg;
  }

  /** A quoted argument, in either kind of quotes, is read up to its closing quote. */
  lemma QuotedCloses(p: Part, rest: Bytes)
    requires Writable(p) && !p.form.Word?
    ensures var q := if p.form.Tick? then 39 else 34;
            Scan(Text(p) + rest, Plain, []) == Close([q] + rest, p.arg)
  {
    hide Close, Scan, Ticked, ShownAll;
    if p.form.Tick? { TickCloses(p.arg, rest); } else { DoubleCloses(p.arg, rest); }
  }

  /** What is left of a line behind a token: the blank that ends a word goes with it. */
  ghost predicate Leaves(text: Bytes, arg: Bytes, rest: Bytes) {
    exists more :: Scan(text + rest, Plain, []) == Token(arg, more)
                   && (more == rest || (rest != [] && more == rest[1..] && IsSpace(rest[0])))
  }

  lemma PartScans(p: Part, rest: Bytes)
    requires Writable(p) && (rest == [] || rest[0] in [9, 10, 13, 32])
    ensures Leaves(Text(p), p.arg, rest)
  {
    if p.form.Word? {
      WordScans(p.arg, rest, []);
      assert [] + p.arg == p.arg;
    } else {
      QuotedCloses(p, rest);
      assert ([39] + rest)[1..] == rest && ([34] + rest)[1..] == rest;
      hide Scan;
    }
  }

  // ----- a line

  function Whole(parts: seq<Part>): Bytes {
    if parts == [] then [] else parts[0].gap + (Text(parts[0]) + Whole(parts[1..]))
  }

  function Arguments(parts: seq<Part>): seq<Bytes> {
    if parts == [] then [] else [parts[0].arg] + Arguments(parts[1..])
  }

  /** Blanks stand between any two arguments. */
  ghost predicate Apart(parts: seq<Part>) {
    && (forall i :: 0 <= i < |parts| ==> Writable(parts[i]))
    && (forall i :: 1 <= i < |parts| ==> parts[i].gap != [])
  }

  function Prepended(args: seq<Bytes>, more: Option<seq<Bytes>>): Option<seq<Bytes>> {
    match more
    case None => None
    case Some(v) => Some(args + v)
  }

  lemma {:induction false} GapIsBlank(gap: Bytes)
    requires forall b :: b in gap ==> b in [9, 10, 13, 32]
    ensures Blank(gap)
  {
    if gap != [] {
      assert gap[0] in gap;
      GapIsBlank(gap[1..]);
    }
  }

  lemma PartStarts(p: Part, rest: Bytes)
    requires Writable(p)
    ensures Text(p) != [] && At(Text(p) + rest, 0) != 0 && SkipBlanks(Text(p) + rest) == Text(p) + rest
  {
    if p.form.Word? { assert p.arg[0] in p.arg; }
  }

  lemma SplitOfSkipped(s: Bytes, t: Bytes)
    requires SkipBlanks(s) == SkipBlanks(t)
    ensures Split(s) == Split(t)
  {
    hide Scan, SkipBlanks;
  }

  lemma SplitsPart(p: Part, rest: Bytes)
    requires Writable(p) && (rest == [] || rest[0] in [9, 10, 13, 32])
    ensures Split(p.gap + (Text(p) + rest)) == Prepended([p.arg], Split(rest))
  {
    hide Scan, Text;
    GapIsBlank(p.gap);
    BlanksAreSkipped(p.gap, Text(p) + rest);
    PartStarts(p, rest);
    PartScans(p, rest);
    var more :| Scan(Text(p) + rest, Plain, []) == Token(p.arg, more)
                && (more == rest || (rest != [] && more == rest[1..] && IsSpace(rest[0])));
    if more != rest { SplitOfSkipped(more, rest); }
  }

  /** Splitting reads the arguments one after the other and goes on behind them. */
  lemma {:induction false} WholeThen(parts: seq<Part>, tail: Bytes)
    requires Apart(parts) && (tail == [] || tail[0] in [9, 10, 13, 32])
    ensures Split(Whole(parts) + tail) == Prepended(Arguments(parts), Split(tail))
    decreases |parts|
  {
    hide Split, Text, Writable;
    if parts == [] {
      assert [] + tail == tail;
      if Split(tail).Some? { assert [] + Split(tail).value == Split(tail).value; }
    } else {
      var p, rest := parts[0], Whole(parts[1..]) + tail;
      assert Whole(parts) + tail == p.gap + (Text(p) + rest);
      assert forall i :: 0 <= i < |parts[1..]| ==> parts[1..][i] == parts[i + 1];
      WholeThen(parts[1..], tail);
      if |parts| > 1 {
        GapStarts(parts[1], Whole(parts[1..][1..]), tail);
        assert Whole(parts[1..]) == parts[1].gap + (Text(parts[1]) + Whole(parts[1..][1..]));
      } else {
        assert Whole(parts[1..]) == [] && [] + tail == tail;
      }
      SplitsPart(p, rest);
      var more := Split(tail);
      if more.Some? { assert [p.arg] + (Arguments(parts[1..]) + more.value) == Arguments(parts) + more.value; }
    }
  }

  lemma GapStarts(p: Part, rest: Bytes, tail: Bytes)
    requires Writable(p) && p.gap != []
    ensures var s := p.gap + (Text(p) + rest) + tail; s != [] && s[0] in [9, 10, 13, 32]
  {
    assert p.gap[0] in p.gap;
  }

  /** Whatever arguments are written in whatever forms, splitting the line gives them back. */
  lemma SplitReadsForms(parts: seq<Part>)
    requires Apart(parts)
    ensures Split(Whole(parts)) == Some(Arguments(parts))
  {
    hide Whole, Text;
    WholeThen(parts, []);
    assert Whole(parts) + [] == Whole(parts) && Arguments(parts) + [] == Arguments(parts);
  }

  // ----- badly quoted lines

  /** A line whose last quote is not closed is refused. */
  lemma OpenQuoteFails(parts: seq<Part>, p: Part)
    requires Apart(parts) && Writable(p) && p.gap != [] && !p.form.Word?
    ensures var open := Text(p)[..|Text(p)| - 1]; Split(Whole(parts) + (p.gap + open)) == None
  {
    hide Whole, Split;
    var open := Text(p)[..|Text(p)| - 1];
    assert p.gap[0] in p.gap;
    WholeThen(parts, p.gap + open);
    OpenIsBad(p);
    SplitsBad(p.gap, open);
  }

  lemma OpenIsBad(p: Part)
    requires Writable(p) && !p.form.Word?
    ensures var open := Text(p)[..|Text(p)| - 1];
            Scan(open, Plain, []) == Bad && At(open, 0) in [34, 39]
  {
    var open := Text(p)[..|Text(p)| - 1];
    if p.form.Tick? {
      assert open == [39] + Ticked(p.arg) && open[1..] == Ticked(p.arg) + [];
      TickScans(p.arg, [], []);
    } else {
      ReprIsDouble(p.arg);
      assert open == [34] + Body(p.arg) && open[1..] == Body(p.arg) + [];
      BodyScans(p.arg, [], []);
    }
  }

  lemma SplitsBad(gap: Bytes, s: Bytes)
    requires (forall b :: b in gap ==> b in [9, 10, 13, 32]) && Scan(s, Plain, []) == Bad && At(s, 0) in [34, 39]
    ensures Split(gap + s) == None
  {
    hide Scan;
    GapIsBlank(gap);
    BlanksAreSkipped(gap, s);
    assert SkipBlanks(s) == s;
  }

  /** So is one in which anything but a blank or the end follows a closing quote. */
  lemma ClosedTooEarlyFails(parts: seq<Part>, p: Part, b: Byte, rest: Bytes)
    requires Apart(parts) && Writable(p) && p.gap != [] && !p.form.Word?
    requires b != 0 && b != 32 && !(9 <= b <= 13)
    ensures Split(Whole(parts) + (p.gap + (Text(p) + ([b] + rest)))) == None
  {
    hide Whole, Split;
    var s := Text(p) + ([b] + rest);
    assert p.gap[0] in p.gap;
    WholeThen(parts, p.gap + s);
    EarlyIsBad(p, b, rest);
    SplitsBad(p.gap, s);
  }

  lemma EarlyIsBad(p: Part, b: Byte, rest: Bytes)
    requires Writable(p) && !p.form.Word? && b != 0 && b != 32 && !(9 <= b <= 13)
    ensures var s := Text(p) + ([b] + rest); Scan(s, Plain, []) == Bad && At(s, 0) in [34, 39]
  {
    QuotedCloses(p, [b] + rest);
    hide Scan;
  }
}
