/** The task stack computes a recursive grammar: an iterative reader that can stop at
    any byte agrees with plain recursive descent over the reply format. */
module RespGrammar {
  import opened Common
  import opened Resp

  /** A parsed reply and what follows it, too few bytes, or a protocol error. */
  datatype Parsed = Got(v: Reply, rest: Bytes) | More | Bad(fault: Fault)
  datatype ParsedItems = GotItems(vs: seq<Reply>, rest: Bytes) | MoreItems | BadItems(fault: Fault)

  /** One reply at the given nesting depth. */
  function Parse(s: Bytes, depth: nat): (r: Parsed)
    ensures r.Got? ==> |r.rest| < |s|
    decreases |s|, 0
  {
    if s == [] then More
    else if TypeOf(s[0]).None? then Bad(BadType(s[0]))
    else
      var t := s[1..];
      var kind := TypeOf(s[0]).value;
      if kind.TArray? && depth == 8 then Bad(TooDeep)
      else match Newline(t)
        case None => More
        case Some(p) =>
          var rest := t[p + 2..];
          var n := Number(t[..p]);
          match kind
          case TString =>
            if n < 0 then Got(Nil, rest)
            else if n + 2 <= |rest| then Got(Bulk(rest[..n]), rest[n + 2..])
            else More
          case TArray =>
            if n == -1 then Got(Nil, rest)
            else (match ParseItems(n, rest, depth + 1)
                  case GotItems(vs, r) => Got(Array(n, vs), r)
                  case MoreItems => More
                  case BadItems(f) => Bad(f))
          case _ => Got(LineReply(kind, t[..p]), rest)
  }

  function ParseItems(n: int, s: Bytes, depth: nat): (r: ParsedItems)
    ensures r.GotItems? ==> |r.rest| <= |s|
    decreases |s|, 1, n
  {
    if n <= 0 then GotItems([], s)
    else match Parse(s, depth)
      case Got(v, rest) =>
        (match ParseItems(n - 1, rest, depth)
         case GotItems(vs, r) => GotItems([v] + vs, r)
         case MoreItems => MoreItems
         case BadItems(f) => BadItems(f))
      case More => MoreItems
      case Bad(f) => BadItems(f)
  }

  // ----- the machine goes on where an object was finished

  /** Reading on from a finished object: the next task, or the root's delivery. */
  function Resume(o: Outcome): Outcome
    requires o.Done? ==> (o.root.None? <==> o.m.stack != [])
  {
    if o.Done? && o.root.None? then GetReply(o.m) else o
  }

  lemma GetReplyResumes(m: Machine)
    requires m.stack != []
    ensures ProcessItem(m).Done? ==> (ProcessItem(m).root.None? <==> ProcessItem(m).m.stack != [])
    ensures GetReply(m) == Resume(ProcessItem(m))
  {
    ProgressConsumes(m);
  }

  function Item(idx: int): Task {
    Task(None, -1, idx, [])
  }

  lemma FinishResumes(stack: seq<Task>, v: Reply, rest: Bytes)
    ensures var o := Finish(stack, v, rest); o.Done? && (o.root.None? <==> o.m.stack != [])
  {
  }

  /** What a step does with a task whose type byte is still to come. */
  lemma StepOnTyped(below: seq<Task>, idx: int, s: Bytes, kind: Type)
    requires s != [] && TypeOf(s[0]) == Some(kind)
    ensures ProcessItem(Machine(below + [Item(idx)], s))
            == ProcessTyped(Machine(below + [Task(Some(kind), -1, idx, [])], s[1..]))
  {
    var m := Machine(below + [Item(idx)], s);
    assert m.stack[..|m.stack| - 1] == below;
    assert WithKind(m.(rest := s[1..]), kind).stack == below + [Task(Some(kind), -1, idx, [])];
  }

  /** Finishing does not look at the finished task beyond its index. */
  lemma CompleteForgets(below: seq<Task>, a: Task, b: Task, v: Reply)
    requires a.idx == b.idx
    ensures Complete(below + [a], v) == Complete(below + [b], v)
  {
    var x, y := below + [a], below + [b];
    if below != [] {
      assert x[|x| - 2] == y[|y| - 2] && x[..|x| - 2] == y[..|y| - 2];
    }
  }

  lemma FinishForgets(below: seq<Task>, a: Task, b: Task, v: Reply, rest: Bytes)
    requires a.idx == b.idx
    ensures Finish(below + [a], v, rest) == Finish(below + [b], v, rest)
  {
    CompleteForgets(below, a, b, v);
  }

  /** Finishing the k-th of n elements: on to the next one, or the array itself is finished. */
  lemma ElementFinished(below: seq<Task>, parent: Task, k: int, v: Reply, rest: Bytes)
    ensures var p := parent.(items := parent.items + [v]);
            Finish(below + [parent, Item(k)], v, rest)
            == if k == parent.elements - 1 then Finish(below + [p], Array(parent.elements, p.items), rest)
               else Done(Machine(below + [p, Item(k + 1)], rest), None)
  {
    var stack := below + [parent, Item(k)];
    assert stack[..|stack| - 2] == below && stack[|stack| - 1] == Item(k) && stack[|stack| - 2] == parent;
  }

  /** `GetReply` on a task that is still to be read does what the grammar says. */
  ghost predicate Reads(below: seq<Task>, idx: int, s: Bytes) {
    var o := GetReply(Machine(below + [Item(idx)], s));
    match Parse(s, |below|)
    case Got(v, rest) => o == Resume(Finish(below + [Item(idx)], v, rest))
    case More => o.Wait?
    case Bad(f) => o == Broken(f)
  }

  lemma {:induction false} ReadsItem(below: seq<Task>, idx: int, s: Bytes)
    requires |below| <= 8
    ensures Reads(below, idx, s)
    decreases |s|, 0
  {
    if s != [] && TypeOf(s[0]) == Some(TArray) {
      ReadsArray(below, idx, s);
    } else {
      ReadsPlain(below, idx, s);
    }
  }

  /** An object that is no array takes one step. */
  lemma ReadsPlain(below: seq<Task>, idx: int, s: Bytes)
    requires |below| <= 8 && (s == [] || TypeOf(s[0]) != Some(TArray))
    ensures Reads(below, idx, s)
  {
    hide Newline, Number, Finish, LineReply, GetReply, ProcessTyped;
    var m := Machine(below + [Item(idx)], s);
    GetReplyResumes(m);
    if s != [] && TypeOf(s[0]).Some? {
      var kind := TypeOf(s[0]).value;
      StepOnTyped(below, idx, s, kind);
      TypedSteps(below, idx, s[1..], kind);
      if Newline(s[1..]).Some? { PlainParses(s, |below|, kind); }
    }
  }

  /** What such a step makes of the bytes behind the type byte. */
  lemma TypedSteps(below: seq<Task>, idx: int, t: Bytes, kind: Type)
    requires !kind.TArray?
    ensures var o := ProcessTyped(Machine(below + [Task(Some(kind), -1, idx, [])], t));
            match PlainReply(t, kind)
            case None => o.Wait?
            case Some(vr) => o == Finish(below + [Item(idx)], vr.0, vr.1)
  {
    hide Newline, Number, Finish, LineReply;
    var top := Task(Some(kind), -1, idx, []);
    var vr := PlainReply(t, kind);
    if vr.Some? { FinishForgets(below, top, Item(idx), vr.value.0, vr.value.1); }
    if kind.TString? && Newline(t).Some? {
      var p, n := Newline(t).value, Number(t[..Newline(t).value]);
      var rest := t[p + 2..];
      if 0 <= n && n + 2 <= |rest| {
        assert t[p + 2..p + 2 + n] == rest[..n] && t[p + 2 + n + 2..] == rest[n + 2..];
      }
    }
  }

  /** The object and what follows it, if it is all there. */
  function PlainReply(t: Bytes, kind: Type): Option<(Reply, Bytes)> {
    var nl := Newline(t);
    if nl.None? then None
    else
      var rest, n := t[nl.value + 2..], Number(t[..nl.value]);
      if !kind.TString? then Some((LineReply(kind, t[..nl.value]), rest))
      else if n < 0 then Some((Nil, rest))
      else if n + 2 <= |rest| then Some((Bulk(rest[..n]), rest[n + 2..]))
      else None
  }

  lemma PlainParses(s: Bytes, depth: nat, kind: Type)
    requires s != [] && TypeOf(s[0]) == Some(kind) && !kind.TArray?
    ensures Parse(s, depth) == match PlainReply(s[1..], kind) case None => More case Some(vr) => Got(vr.0, vr.1)
  {
    hide Newline, Number, LineReply, ParseItems;
  }

  lemma {:induction false} ReadsArray(below: seq<Task>, idx: int, s: Bytes)
    requires |below| <= 8 && s != [] && TypeOf(s[0]) == Some(TArray)
    ensures Reads(below, idx, s)
    decreases |s|, 0, 0
  {
    hide Newline, Number, Finish, GetReply, ProcessTyped;
    var m := Machine(below + [Item(idx)], s);
    var top := Task(Some(TArray), -1, idx, []);
    GetReplyResumes(m);
    StepOnTyped(below, idx, s, TArray);
    var t := s[1..];
    if |below| < 8 && Newline(t).Some? {
      var p := Newline(t).value;
      var rest, n := t[p + 2..], Number(t[..p]);
      ArraySteps(below, idx, t);
      if n > 0 {
        var parent := top.(elements := n);
        ReadsItems(below, parent, 0, rest);
        ArrayFinishes(below, parent, idx, n, rest);
      } else {
        assert ParseItems(n, rest, |below| + 1) == GotItems([], rest);
      }
    } else {
      ArrayStops(below, idx, t);
    }
  }

  lemma ArrayStops(below: seq<Task>, idx: int, t: Bytes)
    requires |below| == 8 || Newline(t).None?
    ensures var o := ProcessTyped(Machine(below + [Task(Some(TArray), -1, idx, [])], t));
            if |below| == 8 then o == Broken(TooDeep) else o.Wait?
  {
    hide Newline, Number, Finish;
  }

  /** Nil and the empty array are finished at once; the first element of any other is next. */
  lemma ArraySteps(below: seq<Task>, idx: int, t: Bytes)
    requires |below| < 8 && Newline(t).Some?
    ensures var o := ProcessTyped(Machine(below + [Task(Some(TArray), -1, idx, [])], t));
            var rest, n := t[Newline(t).value + 2..], Number(t[..Newline(t).value]);
            if n == -1 then o == Finish(below + [Item(idx)], Nil, rest)
            else if n <= 0 then o == Finish(below + [Item(idx)], Array(n, []), rest)
            else o == Done(Machine(below + [Task(Some(TArray), n, idx, []), Item(0)], rest), None)
  {
    hide Newline, Number, Finish;
    var top := Task(Some(TArray), -1, idx, []);
    var rest, n := t[Newline(t).value + 2..], Number(t[..Newline(t).value]);
    FinishForgets(below, top, Item(idx), Nil, rest);
    FinishForgets(below, top, Item(idx), Array(n, []), rest);
    assert (below + [top])[..|below|] == below;
    assert below + [Task(Some(TArray), n, idx, []), Item(0)] == below + [Task(Some(TArray), n, idx, [])] + [Item(0)];
  }

  lemma ArrayFinishes(below: seq<Task>, parent: Task, idx: int, n: int, rest: Bytes)
    requires parent == Task(Some(TArray), n, idx, [])
    ensures var q := ParseItems(n, rest, |below| + 1);
            q.GotItems? ==> Finish(below + [parent.(items := [] + q.vs)], Array(n, [] + q.vs), q.rest)
                            == Finish(below + [Item(idx)], Array(n, q.vs), q.rest)
  {
    hide Finish, ParseItems;
    var q := ParseItems(n, rest, |below| + 1);
    if q.GotItems? {
      assert [] + q.vs == q.vs;
      FinishForgets(below, parent.(items := q.vs), Item(idx), Array(n, q.vs), q.rest);
    }
  }

  /** Reading the elements from the k-th on. */
  lemma {:induction false} ReadsItems(below: seq<Task>, parent: Task, k: int, s: Bytes)
    requires |below| < 8 && 0 <= k < parent.elements && parent.kind == Some(TArray)
    ensures var o := GetReply(Machine(below + [parent, Item(k)], s));
            match ParseItems(parent.elements - k, s, |below| + 1)
            case GotItems(vs, rest) =>
              var p := parent.(items := parent.items + vs);
              var f := Finish(below + [p], Array(parent.elements, p.items), rest);
              f.Done? && (f.root.None? <==> f.m.stack != []) && o == Resume(f)
            case MoreItems => o.Wait?
            case BadItems(f) => o == Broken(f)
    decreases |s|, 1, parent.elements - k
  {
    hide Newline, Number, Finish, Complete, GetReply, Parse;
    var deeper := below + [parent];
    assert deeper + [Item(k)] == below + [parent, Item(k)];
    ReadsItem(deeper, k, s);
    var q := Parse(s, |deeper|);
    if q.Got? {
      var p := parent.(items := parent.items + [q.v]);
      ElementFinished(below, parent, k, q.v, q.rest);
      FinishResumes(deeper + [Item(k)], q.v, q.rest);
      ItemsStep(parent.elements - k, s, |deeper|, q.v, q.rest);
      var more := ParseItems(parent.elements - k - 1, q.rest, |deeper|);
      if k == parent.elements - 1 {
        FinishResumes(below + [p], Array(parent.elements, p.items), q.rest);
        assert more == GotItems([], q.rest) && [q.v] + [] == [q.v];
      } else {
        ReadsItems(below, p, k + 1, q.rest);
        if more.GotItems? {
          assert (parent.items + [q.v]) + more.vs == parent.items + ([q.v] + more.vs);
        }
      }
    }
  }

  lemma ItemsStep(n: int, s: Bytes, depth: nat, v: Reply, rest: Bytes)
    requires n > 0 && Parse(s, depth) == Got(v, rest)
    ensures ParseItems(n, s, depth) == match ParseItems(n - 1, rest, depth)
              case GotItems(vs, r) => GotItems([v] + vs, r)
              case MoreItems => MoreItems
              case BadItems(f) => BadItems(f)
  {
    hide Parse;
  }

  // ----- all replies of a stream

  datatype ParsedAll = ParsedAll(replies: seq<Reply>, fault: Option<Fault>)

  /** The replies of a whole stream, by the grammar. */
  function ParseAll(s: Bytes): ParsedAll
    decreases |s|
  {
    match Parse(s, 0)
    case Got(v, rest) => var a := ParseAll(rest); ParsedAll([v] + a.replies, a.fault)
    case More => ParsedAll([], None)
    case Bad(f) => ParsedAll([], Some(f))
  }

  /** Draining the reader gives exactly the replies and the error of the grammar. */
  lemma {:induction false} DrainParses(s: Bytes)
    ensures var d := Drain(Machine([], s));
            && d.replies == ParseAll(s).replies
            && (d.last.Broken? <==> ParseAll(s).fault.Some?)
            && (d.last.Broken? ==> d.last.fault == ParseAll(s).fault.value)
    decreases |s|
  {
    hide GetReply, Parse;
    ReadsItem([], -1, s);
    assert [] + [Item(-1)] == [FRESH];
    var q := Parse(s, 0);
    if q.Got? {
      RootFinishes(q.v, q.rest);
      DrainParses(q.rest);
    }
  }

  lemma RootFinishes(v: Reply, rest: Bytes)
    ensures Finish([FRESH], v, rest) == Done(Machine([], rest), Some(v))
    ensures Resume(Finish([FRESH], v, rest)) == Done(Machine([], rest), Some(v))
  {
  }
}
