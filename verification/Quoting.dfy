/** Quoted argument lines of depends/hiredis/sds.c: the printer sdscatrepr, the splitter
    sdssplitargs, and the proof that the second undoes the first. */
module Quoting {
  import opened Common

  const SPACE: Byte := 32
  const QUOTE: Byte := 34
  const TICK: Byte := 39
  const BACKSLASH: Byte := 92
  const LOWER_X: Byte := 120

  /** A C string reads as zero past its end. */
  function At(s: Bytes, i: nat): Byte {
    if i < |s| then s[i] else 0
  }

  function From(s: Bytes, i: nat): Bytes {
    if i < |s| then s[i..] else []
  }

  /** isspace and isprint in the C locale. */
  predicate IsSpace(c: Byte) {
    c == SPACE || 9 <= c <= 13
  }

  predicate IsPrint(c: Byte) {
    32 <= c < 127
  }

  // ----- printing

  function HexDigit(n: nat): Byte
    requires n < 16
  {
    if n < 10 then 48 + n else 97 + (n - 10)
  }

  function Escape(b: Byte): Bytes {
    if b == BACKSLASH || b == QUOTE then [BACKSLASH, b]
    else if b == 10 then [BACKSLASH, 110]
    else if b == 13 then [BACKSLASH, 114]
    else if b == 9 then [BACKSLASH, 116]
    else if b == 7 then [BACKSLASH, 97]
    else if b == 8 then [BACKSLASH, 98]
    else if IsPrint(b) then [b]
    else [BACKSLASH, LOWER_X, HexDigit(b / 16), HexDigit(b % 16)]
  }

  function Body(p: Bytes): Bytes {
    if p == [] then [] else Escape(p[0]) + Body(p[1..])
  }

  function Repr(p: Bytes): Bytes {
    [QUOTE] + Body(p) + [QUOTE]
  }

  /** The switch of sdscatrepr. */
  method CatEscaped(s: Bytes, c: Byte) returns (r: Bytes)
    ensures r == s + Escape(c)
  {
    if c == BACKSLASH || c == QUOTE {
      r := s + [BACKSLASH, c];
    } else if c == 10 {
      r := s + [BACKSLASH, 110];
    } else if c == 13 {
      r := s + [BACKSLASH, 114];
    } else if c == 9 {
      r := s + [BACKSLASH, 116];
    } else if c == 7 {
      r := s + [BACKSLASH, 97];
    } else if c == 8 {
      r := s + [BACKSLASH, 98];
    } else if IsPrint(c) {
      r := s + [c];
    } else {
      r := s + [BACKSLASH, LOWER_X, HexDigit(c / 16), HexDigit(c % 16)];
    }
  }

  /** sdscatrepr */
  method CatRepr(s: Bytes, p: Bytes) returns (r: Bytes)
    ensures r == s + Repr(p)
  {
    hide Escape;
    r := s + [QUOTE];
    var i := 0;
    while i < |p|
      invariant 0 <= i <= |p|
      invariant r + Body(p[i..]) == s + [QUOTE] + Body(p)
    {
      ghost var before := r;
      assert p[i..][1..] == p[i + 1..];
      r := CatEscaped(r, p[i]);
      assert before + (Escape(p[i]) + Body(p[i + 1..])) == r + Body(p[i + 1..]);
      i := i + 1;
    }
    assert p[i..] == [] && r + [] == r;
    r := r + [QUOTE];
  }

  // ----- splitting

  predicate IsHexDigit(c: Byte) {
    48 <= c <= 57 || 97 <= c <= 102 || 65 <= c <= 70
  }

  function HexDigitToInt(c: Byte): (n: nat)
    ensures n < 16
    ensures IsHexDigit(c) ==> HexDigit(n) == if 65 <= c <= 70 then c + 32 else c
  {
    if 48 <= c <= 57 then c - 48
    else if 97 <= c <= 102 then c - 87
    else if 65 <= c <= 70 then c - 55
    else 0
  }

  function Unescape(c: Byte): Byte {
    if c == 110 then 10
    else if c == 114 then 13
    else if c == 116 then 9
    else if c == 98 then 8
    else if c == 97 then 7
    else c
  }

  datatype Mode = Plain | Double | Single

  /** A finished token and the text after it, or an unbalanced or badly closed quote. */
  datatype Scanned = Bad | Token(token: Bytes, rest: Bytes)

  predicate IsHexEscape(s: Bytes) {
    At(s, 0) == BACKSLASH && At(s, 1) == LOWER_X && IsHexDigit(At(s, 2)) && IsHexDigit(At(s, 3))
  }

  /** A closing quote must be followed by a blank or by nothing. */
  function Close(s: Bytes, cur: Bytes): Scanned {
    if At(s, 1) != 0 && !IsSpace(At(s, 1)) then Bad else Token(cur, From(s, 1))
  }

  predicate EndsToken(c: Byte) {
    c == SPACE || c == 10 || c == 13 || c == 9 || c == 0
  }

  /** One token, read on from `s` with `cur` collected so far. */
  function Scan(s: Bytes, mode: Mode, cur: Bytes): (r: Scanned)
    ensures r.Token? ==> |r.rest| <= |s| && (At(s, 0) != 0 ==> |r.rest| < |s|)
    decreases |s|
  {
    var c := At(s, 0);
    match mode
    case Double =>
      if IsHexEscape(s) then
        Scan(s[4..], Double, cur + [HexDigitToInt(s[2]) * 16 + HexDigitToInt(s[3])])
      else if c == BACKSLASH && At(s, 1) != 0 then Scan(s[2..], Double, cur + [Unescape(s[1])])
      else if c == QUOTE then Close(s, cur)
      else if c == 0 then Bad
      else Scan(s[1..], Double, cur + [c])
    case Single =>
      if c == BACKSLASH && At(s, 1) == TICK then Scan(s[2..], Single, cur + [TICK])
      else if c == TICK then Close(s, cur)
      else if c == 0 then Bad
      else Scan(s[1..], Single, cur + [c])
    case Plain =>
      if EndsToken(c) then Token(cur, if c == 0 then s else s[1..])
      else if c == QUOTE then Scan(s[1..], Double, cur)
      else if c == TICK then Scan(s[1..], Single, cur)
      else Scan(s[1..], Plain, cur + [c])
  }

  function SkipBlanks(s: Bytes): (r: Bytes)
    ensures |r| <= |s| && !IsSpace(At(r, 0))
  {
    if IsSpace(At(s, 0)) then SkipBlanks(s[1..]) else s
  }

  /** sdssplitargs as a function; None is the NULL of a badly quoted line. */
  function Split(s: Bytes): Option<seq<Bytes>>
    decreases |s|
  {
    var t := SkipBlanks(s);
    if At(t, 0) == 0 then Some([])
    else
      match Scan(t, Plain, [])
      case Bad => None
      case Token(token, rest) =>
        match Split(rest)
        case None => None
        case Some(more) => Some([token] + more)
  }

  lemma Shifted(line: Bytes, p: nat, k: nat)
    requires p <= |line|
    ensures At(line[p..], k) == At(line, p + k)
    ensures p + k <= |line| ==> line[p..][k..] == line[p + k..]
  {
  }

  // The scanner at a position of the line, in the terms of the loop.

  predicate HexEscapeAt(line: Bytes, p: nat) {
    && At(line, p) == BACKSLASH && At(line, p + 1) == LOWER_X
    && IsHexDigit(At(line, p + 2)) && IsHexDigit(At(line, p + 3))
  }

  predicate BadlyClosed(line: Bytes, p: nat) {
    At(line, p + 1) != 0 && !IsSpace(At(line, p + 1))
  }

  lemma DoubleAt(line: Bytes, p: nat, cur: Bytes)
    requires p <= |line|
    ensures HexEscapeAt(line, p) ==> p + 4 <= |line| && line[p + 3] != 0
    ensures var c := At(line, p);
            Scan(line[p..], Double, cur)
            == if HexEscapeAt(line, p) then
                 Scan(line[p + 4..], Double, cur + [HexDigitToInt(line[p + 2]) * 16 + HexDigitToInt(line[p + 3])])
               else if c == BACKSLASH && At(line, p + 1) != 0 then
                 Scan(line[p + 2..], Double, cur + [Unescape(line[p + 1])])
               else if c == QUOTE then if BadlyClosed(line, p) then Bad else Token(cur, line[p + 1..])
               else if c == 0 then Bad
               else Scan(line[p + 1..], Double, cur + [c])
  {
    hide HexDigitToInt, Unescape, IsSpace;
    var s := line[p..];
    Shifted(line, p, 0); Shifted(line, p, 1); Shifted(line, p, 2); Shifted(line, p, 3); Shifted(line, p, 4);
    assert IsHexEscape(s) == HexEscapeAt(line, p);
  }

  lemma SingleAt(line: Bytes, p: nat, cur: Bytes)
    requires p <= |line|
    ensures var c := At(line, p);
            Scan(line[p..], Single, cur)
            == if c == BACKSLASH && At(line, p + 1) == TICK then Scan(line[p + 2..], Single, cur + [TICK])
               else if c == TICK then if BadlyClosed(line, p) then Bad else Token(cur, line[p + 1..])
               else if c == 0 then Bad
               else Scan(line[p + 1..], Single, cur + [c])
  {
    hide IsSpace;
    Shifted(line, p, 0); Shifted(line, p, 1); Shifted(line, p, 2);
  }

  lemma PlainAt(line: Bytes, p: nat, cur: Bytes)
    requires p <= |line|
    ensures var c := At(line, p);
            Scan(line[p..], Plain, cur)
            == if EndsToken(c) then Token(cur, line[if c == 0 then p else p + 1..])
               else if c == QUOTE then Scan(line[p + 1..], Double, cur)
               else if c == TICK then Scan(line[p + 1..], Single, cur)
               else Scan(line[p + 1..], Plain, cur + [c])
  {
    Shifted(line, p, 0); Shifted(line, p, 1);
  }

  /** The token loop of sdssplitargs, with its quote flags. */
  method GetToken(line: Bytes, start: nat) returns (ok: bool, current: Bytes, p: nat)
    requires start <= |line|
    ensures p <= |line|
    ensures Scan(line[start..], Plain, []) == if ok then Token(current, line[p..]) else Bad
  {
    hide Scan, HexEscapeAt, BadlyClosed, HexDigitToInt, Unescape;
    var inq, insq, done := false, false, false;
    p, current := start, [];
    while !done
      invariant p <= |line| && !(inq && insq)
      invariant Scan(line[start..], Plain, [])
                == if done then Token(current, line[p..])
                   else Scan(line[p..], if inq then Double else if insq then Single else Plain, current)
      decreases !done, |line| - p
    {
      var c := At(line, p);
      if inq {
        DoubleAt(line, p, current);
        if HexEscapeAt(line, p) {
          current := current + [HexDigitToInt(line[p + 2]) * 16 + HexDigitToInt(line[p + 3])];
          p := p + 3;
        } else if c == BACKSLASH && At(line, p + 1) != 0 {
          p := p + 1;
          current := current + [Unescape(line[p])];
        } else if c == QUOTE {
          if BadlyClosed(line, p) {
            return false, current, p;
          }
          done := true;
        } else if c == 0 {
          return false, current, p;
        } else {
          current := current + [c];
        }
      } else if insq {
        SingleAt(line, p, current);
        if c == BACKSLASH && At(line, p + 1) == TICK {
          p := p + 1;
          current := current + [TICK];
        } else if c == TICK {
          if BadlyClosed(line, p) {
            return false, current, p;
          }
          done := true;
        } else if c == 0 {
          return false, current, p;
        } else {
          current := current + [c];
        }
      } else {
        PlainAt(line, p, current);
        if EndsToken(c) {
          done := true;
        } else if c == QUOTE {
          inq := true;
        } else if c == TICK {
          insq := true;
        } else {
          current := current + [c];
        }
      }
      if At(line, p) != 0 {
        p := p + 1;
      }
    }
    ok := true;
  }

  /** sdssplitargs */
  method SplitArgs(line: Bytes) returns (r: Option<seq<Bytes>>)
    ensures r == Split(line)
  {
    hide Scan, IsSpace;
    var p, vector := 0, [];
    assert line[0..] == line;
    assert forall v: seq<Bytes> :: [] + v == v;
    while true
      invariant 0 <= p <= |line|
      invariant Split(line) == match Split(line[p..]) case None => None case Some(v) => Some(vector + v)
      decreases |line| - p
    {
      ghost var rest := line[p..];
      while p < |line| && line[p] != 0 && IsSpace(line[p])
        invariant 0 <= p <= |line| && |line[p..]| <= |rest|
        invariant SkipBlanks(line[p..]) == SkipBlanks(rest)
      {
        Shifted(line, p, 1);
        p := p + 1;
      }
      BlankIsNotZero();
      assert SkipBlanks(rest) == line[p..];
      if At(line[p..], 0) == 0 {
        assert vector + [] == vector;
        return Some(vector);
      }
      ghost var start := p;
      var ok, current;
      ok, current, p := GetToken(line, p);
      if !ok {
        return None;
      }
      assert |line[p..]| < |line[start..]|;
      assert forall v :: vector + ([current] + v) == (vector + [current]) + v;
      vector := vector + [current];
    }
  }

  lemma BlankIsNotZero()
    ensures !IsSpace(0)
  {
  }

  // ----- the round trip

  /** An escaped byte is scanned back to itself, whatever follows. */
  lemma EscapeScans(b: Byte, rest: Bytes, cur: Bytes)
    ensures Scan(Escape(b) + rest, Double, cur) == Scan(rest, Double, cur + [b])
  {
    var s := Escape(b) + rest;
    assert s[|Escape(b)|..] == rest;
    if |Escape(b)| == 4 {
      assert HexDigitToInt(HexDigit(b / 16)) == b / 16;
      assert HexDigitToInt(HexDigit(b % 16)) == b % 16;
      assert IsHexEscape(s);
    }
  }

  lemma {:induction false} BodyScans(p: Bytes, rest: Bytes, cur: Bytes)
    ensures Scan(Body(p) + rest, Double, cur) == Scan(rest, Double, cur + p)
    decreases |p|
  {
    hide Scan, Escape;
    if p == [] {
      assert [] + rest == rest && cur + p == cur;
    } else {
      assert Body(p) + rest == Escape(p[0]) + (Body(p[1..]) + rest);
      EscapeScans(p[0], Body(p[1..]) + rest, cur);
      BodyScans(p[1..], rest, cur + [p[0]]);
      assert (cur + [p[0]]) + p[1..] == cur + p;
    }
  }

  /** A quoted argument before a blank or the end of the line is one token. */
  lemma ReprScans(p: Bytes, rest: Bytes)
    requires At(rest, 0) == 0 || IsSpace(At(rest, 0))
    ensures Scan(Repr(p) + rest, Plain, []) == Token(p, rest)
  {
    var s := Repr(p) + rest;
    assert s[1..] == Body(p) + ([QUOTE] + rest);
    BodyScans(p, [QUOTE] + rest, []);
    assert [] + p == p;
    assert ([QUOTE] + rest)[1..] == rest;
    assert Scan([QUOTE] + rest, Double, p) == Close([QUOTE] + rest, p);
  }

  predicate Blank(gap: Bytes) {
    gap == [] || (IsSpace(gap[0]) && Blank(gap[1..]))
  }

  lemma {:induction false} BlanksAreSkipped(gap: Bytes, s: Bytes)
    requires Blank(gap)
    ensures SkipBlanks(gap + s) == SkipBlanks(s)
    decreases |gap|
  {
    if gap == [] {
      assert gap + s == s;
    } else {
      assert (gap + s)[1..] == gap[1..] + s;
      BlanksAreSkipped(gap[1..], s);
    }
  }

  lemma ReprStarts(p: Bytes, rest: Bytes)
    ensures At(Repr(p) + rest, 0) == QUOTE && SkipBlanks(Repr(p) + rest) == Repr(p) + rest
  {
  }

  /** An argument and the blanks before it. */
  datatype Piece = Piece(gap: Bytes, arg: Bytes)

  function Line(pieces: seq<Piece>): Bytes {
    if pieces == [] then [] else pieces[0].gap + (Repr(pieces[0].arg) + Line(pieces[1..]))
  }

  function Args(pieces: seq<Piece>): seq<Bytes> {
    if pieces == [] then [] else [pieces[0].arg] + Args(pieces[1..])
  }

  /** All gaps are blank, and none is empty but perhaps the first of the line. */
  predicate Separated(pieces: seq<Piece>, inner: bool)
    decreases |pieces|
  {
    pieces == [] || (Blank(pieces[0].gap) && (inner ==> pieces[0].gap != []) && Separated(pieces[1..], true))
  }

  /** For all lists of byte strings, zero bytes included, and all blank separators, splitting
      the printed line gives the list back. */
  lemma {:induction false} SplitUndoesRepr(pieces: seq<Piece>, inner: bool)
    requires Separated(pieces, inner)
    ensures Split(Line(pieces)) == Some(Args(pieces))
    decreases |pieces|
  {
    hide Scan, Repr;
    if pieces != [] {
      var p, rest := pieces[0], Line(pieces[1..]);
      BlanksAreSkipped(p.gap, Repr(p.arg) + rest);
      ReprStarts(p.arg, rest);
      if |pieces| > 1 { assert rest[0] == pieces[1].gap[0]; }
      ReprScans(p.arg, rest);
      SplitUndoesRepr(pieces[1..], true);
    }
  }

  function Joined(args: seq<Bytes>): Bytes {
    if args == [] then []
    else if |args| == 1 then Repr(args[0])
    else Repr(args[0]) + ([SPACE] + Joined(args[1..]))
  }

  function Pieces(args: seq<Bytes>, gap: Bytes): seq<Piece>
    decreases |args|
  {
    if args == [] then [] else [Piece(gap, args[0])] + Pieces(args[1..], [SPACE])
  }

  lemma {:induction false} JoinedIsLine(args: seq<Bytes>, gap: Bytes)
    requires Blank(gap)
    ensures args != [] ==> Line(Pieces(args, gap)) == gap + Joined(args)
    ensures Args(Pieces(args, gap)) == args && Separated(Pieces(args, gap), gap != [])
    decreases |args|
  {
    hide Repr;
    if args != [] {
      var rest := Pieces(args[1..], [SPACE]);
      assert Blank([SPACE]);
      JoinedIsLine(args[1..], [SPACE]);
      assert Pieces(args, gap)[1..] == rest;
      assert |args| == 1 ==> Repr(args[0]) + [] == Repr(args[0]);
    }
  }

  /** The usual case: the arguments joined by single spaces. */
  lemma SplitUndoesJoin(args: seq<Bytes>)
    ensures Split(Joined(args)) == Some(args)
  {
    hide Split;
    JoinedIsLine(args, []);
    SplitUndoesRepr(Pieces(args, []), false);
    assert [] + Joined(args) == Joined(args);
  }
}
