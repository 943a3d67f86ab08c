/** The Redis protocol reader of depends/hiredis/read.c on values: one step of its task
    stack (`ProcessItem`), and beside it the recursive grammar of RESP2 replies. */
module Resp {
  import opened Common

  const CR: Byte := 13
  const LF: Byte := 10
  const MINUS: Byte := 45
  const PLUS: Byte := 43
  const COLON: Byte := 58
  const DOLLAR: Byte := 36
  const STAR: Byte := 42
  const ZERO: Byte := 48
  const CRLF: Bytes := [CR, LF]

  datatype Reply =
    | Status(s: Bytes)
    | Error(s: Bytes)
    | Integer(n: int)
    | Bulk(s: Bytes)
    | Nil
    | Array(count: int, items: seq<Reply>)

  datatype Fault = BadType(b: Byte) | TooDeep

  // ----- lexical helpers

  /** Where the first "\r\n" starts (seekNewline). */
  function Newline(s: Bytes): (r: Option<nat>)
    ensures r.Some? ==> r.value + 2 <= |s| && s[r.value] == CR && s[r.value + 1] == LF
    ensures r.Some? ==> forall i :: 0 <= i < r.value ==> !(s[i] == CR && s[i + 1] == LF)
    ensures r.None? ==> forall i :: 0 <= i < |s| - 1 ==> !(s[i] == CR && s[i + 1] == LF)
  {
    if |s| < 2 then None
    else if s[0] == CR && s[1] == LF then Some(0)
    else match Newline(s[1..]) case None => None case Some(p) => Some(p + 1)
  }

  predicate IsDigit(b: Byte) {
    0 <= b - ZERO < 10
  }

  /** The digits up to the first carriage return, on top of `v`; -1 for anything else. */
  function Digits(s: Bytes, v: int): Option<int> {
    if s == [] || s[0] == CR then Some(v)
    else if IsDigit(s[0]) then Digits(s[1..], v * 10 + (s[0] - ZERO))
    else None
  }

  /** readLongLong on a line. */
  function Number(line: Bytes): int {
    var signed := line != [] && (line[0] == MINUS || line[0] == PLUS);
    match Digits(if signed then line[1..] else line, 0)
    case None => -1
    case Some(v) => if signed && line[0] == MINUS then -v else v
  }

  // ----- the task stack

  datatype Type = TStatus | TError | TInteger | TString | TArray

  function TypeOf(b: Byte): Option<Type> {
    if b == MINUS then Some(TError)
    else if b == PLUS then Some(TStatus)
    else if b == COLON then Some(TInteger)
    else if b == DOLLAR then Some(TString)
    else if b == STAR then Some(TArray)
    else None
  }

  /** One entry of rstack; `items` are the finished elements of an array. */
  datatype Task = Task(kind: Option<Type>, elements: int, idx: int, items: seq<Reply>)

  const FRESH: Task := Task(None, -1, -1, [])

  /** The reader's stack and the bytes it has not consumed yet. */
  datatype Machine = Machine(stack: seq<Task>, rest: Bytes)

  /** What processItem does: finish an object (perhaps the root), wait for more bytes, or fail. */
  datatype Outcome =
    | Done(m: Machine, root: Option<Reply>)
    | Wait(m: Machine)
    | Broken(fault: Fault)

  /** moveToNextTask after object `v` is finished at the top of the stack. */
  function Complete(stack: seq<Task>, v: Reply): (r: (seq<Task>, Option<Reply>))
    ensures |r.0| <= |stack|
    ensures r.1.Some? <==> r.0 == []
    decreases |stack|
  {
    if |stack| <= 1 then ([], Some(v))
    else
      var top, parent := stack[|stack| - 1], stack[|stack| - 2];
      var below := stack[..|stack| - 2];
      var parent' := parent.(items := parent.items + [v]);
      if top.idx == parent.elements - 1 then Complete(below + [parent'], Array(parent.elements, parent'.items))
      else (below + [parent', Task(None, -1, top.idx + 1, [])], None)
  }

  function Finish(stack: seq<Task>, v: Reply, rest: Bytes): Outcome {
    var c := Complete(stack, v);
    Done(Machine(c.0, rest), c.1)
  }

  function LineReply(kind: Type, line: Bytes): Reply {
    match kind
    case TInteger => Integer(Number(line))
    case TStatus => Status(line)
    case _ => Error(line)
  }

  function ProcessLine(m: Machine, kind: Type): Outcome {
    var nl := Newline(m.rest);
    if nl.None? then Wait(m)
    else Finish(m.stack, LineReply(kind, m.rest[..nl.value]), m.rest[nl.value + 2..])
  }

  function ProcessBulk(m: Machine): Outcome {
    var nl := Newline(m.rest);
    if nl.None? then Wait(m)
    else
      var body := nl.value + 2;
      var len := Number(m.rest[..nl.value]);
      if len < 0 then Finish(m.stack, Nil, m.rest[body..])
      else if body + len + 2 <= |m.rest| then
        Finish(m.stack, Bulk(m.rest[body..body + len]), m.rest[body + len + 2..])
      else Wait(m)
  }

  /** The elements of an array are read on a deeper level of the stack. */
  function Descend(stack: seq<Task>, n: int): seq<Task>
    requires stack != []
  {
    stack[..|stack| - 1] + [stack[|stack| - 1].(elements := n), Task(None, -1, 0, [])]
  }

  function ProcessMultiBulk(m: Machine): Outcome
    requires m.stack != []
  {
    var nl := Newline(m.rest);
    if |m.stack| == 9 then Broken(TooDeep)
    else if nl.None? then Wait(m)
    else
      var n := Number(m.rest[..nl.value]);
      var rest := m.rest[nl.value + 2..];
      if n == -1 then Finish(m.stack, Nil, rest)
      else if n <= 0 then Finish(m.stack, Array(n, []), rest)
      else Done(Machine(Descend(m.stack, n), rest), None)
  }

  function ProcessTyped(m: Machine): Outcome
    requires m.stack != [] && m.stack[|m.stack| - 1].kind.Some?
  {
    match m.stack[|m.stack| - 1].kind.value
    case TString => ProcessBulk(m)
    case TArray => ProcessMultiBulk(m)
    case kind => ProcessLine(m, kind)
  }

  function WithKind(m: Machine, kind: Type): Machine
    requires m.stack != []
  {
    var n := |m.stack| - 1;
    m.(stack := m.stack[..n] + [m.stack[n].(kind := Some(kind))])
  }

  function ProcessItem(m: Machine): Outcome
    requires m.stack != []
  {
    if m.stack[|m.stack| - 1].kind.Some? then ProcessTyped(m)
    else if m.rest == [] then Wait(m)
    else
      var kind := TypeOf(m.rest[0]);
      if kind.None? then Broken(BadType(m.rest[0]))
      else ProcessTyped(WithKind(m.(rest := m.rest[1..]), kind.value))
  }

  lemma ProgressConsumes(m: Machine)
    requires m.stack != []
    ensures ProcessItem(m).Done? ==> |ProcessItem(m).m.rest| < |m.rest|
    ensures ProcessItem(m).Done? ==> (ProcessItem(m).root.Some? <==> ProcessItem(m).m.stack == [])
    ensures ProcessItem(m).Wait? ==> ProcessItem(m).m.stack != []
  {
    hide Complete, Number, Newline;
  }

  // ----- one reply, and all replies

  /** redisReaderGetReply pushes a root task on an empty stack. */
  function Prime(m: Machine): Machine {
    if m.stack == [] then m.(stack := [FRESH]) else m
  }

  /** The processing loop of redisReaderGetReply, up to the next root object. */
  function GetReply(m: Machine): (r: Outcome)
    requires m.stack != []
    ensures r.Done? ==> r.root.Some? && r.m.stack == [] && |r.m.rest| < |m.rest|
    ensures r.Wait? ==> r.m.stack != []
    decreases |m.rest|
  {
    ProgressConsumes(m);
    var o := ProcessItem(m);
    if o.Done? && o.root.None? then GetReply(o.m) else o
  }

  /** The replies drained from a machine, and how draining ended (never `Done`). */
  datatype Drained = Drained(replies: seq<Reply>, last: Outcome)

  function Drain(m: Machine): (r: Drained)
    ensures !r.last.Done?
    decreases |m.rest|
  {
    var o := GetReply(Prime(m));
    if o.Done? then
      var d := Drain(o.m);
      Drained([o.root.value] + d.replies, d.last)
    else Drained([], o)
  }
}
