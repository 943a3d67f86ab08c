/** The spot order book in prices and numbers, over every run: how it is sorted, and whom every
    round of the matching loop trades with, for how much, and what that moves in the ledger. */
module SpotBook {
  import opened Ledger
  import opened Spot
  import opened SpotLedger
  import opened SpotTheorems

  // ----- the order of the book

  /** Cheaper first, and the earlier number among equal prices. */
  ghost predicate AsksSorted(book: Book) {
    forall i, j :: 0 <= i < j < |book| ==>
      book[i].price < book[j].price || (book[i].price == book[j].price && book[i].id < book[j].id)
  }

  /** Dearer first, and the earlier number among equal prices. */
  ghost predicate BidsSorted(book: Book) {
    forall i, j :: 0 <= i < j < |book| ==>
      book[i].price > book[j].price || (book[i].price == book[j].price && book[i].id < book[j].id)
  }

  /** No number twice, and none above the last one given. */
  ghost predicate Numbered(book: Book, last: int) {
    && (forall i, j :: 0 <= i < j < |book| ==> book[i].id != book[j].id)
    && (forall o :: o in book ==> o.id <= last)
  }

  ghost predicate Uncrossed(s: Spot) {
    forall a, b :: a in s.asks && b in s.bids ==> b.price < a.price && b.id != a.id
  }

  ghost predicate Ahead(a: Order, b: Order) {
    && a.id != b.id
    && ((if a.ask then a.price < b.price else a.price > b.price) || (a.price == b.price && a.id < b.id))
  }

  /** A side whose orders each stand ahead of all that follow. */
  ghost predicate Ranked(book: Book, last: int) {
    book == []
    || (book[0].id <= last && Ranked(book[1..], last) && forall o :: o in book[1..] ==> Ahead(book[0], o))
  }

  lemma {:induction false} RankedIsSorted(book: Book, asks: bool, last: int)
    requires Ranked(book, last) && forall o :: o in book ==> o.ask == asks
    ensures (if asks then AsksSorted(book) else BidsSorted(book)) && Numbered(book, last)
    decreases |book|
  {
    if book != [] {
      var rest := book[1..];
      assert book[0] in book;
      RankedIsSorted(rest, asks, last);
      forall i, j | 0 <= i < j < |book| ensures Ahead(book[i], book[j]) && book[i].ask == asks {
        assert book[j] == rest[j - 1] && book[j] in rest;
        if i > 0 { assert book[i] == rest[i - 1] && book[i] in rest; }
      }
      assert forall o :: o in book ==> o == book[0] || o in rest;
    }
  }

  lemma {:induction false} MoreNumbers(book: Book, last: int, more: int)
    requires Ranked(book, last) && last <= more
    ensures Ranked(book, more)
  {
    if book != [] { MoreNumbers(book[1..], last, more); }
  }

  lemma {:induction false} NumbersAreBelow(book: Book, last: int)
    requires Ranked(book, last)
    ensures forall o :: o in book ==> o.id <= last
  {
    if book != [] { NumbersAreBelow(book[1..], last); }
  }

  ghost predicate Ordered(s: Spot, last: int) {
    Sided(s) && Ranked(s.asks, last) && Ranked(s.bids, last) && Uncrossed(s)
  }

  lemma {:induction false} InsertRanks(book: Book, o: Order)
    requires Ranked(book, o.id - 1) && forall x :: x in book ==> x.ask == o.ask
    ensures Ranked(Insert(book, o), o.id)
  {
    NumbersAreBelow(book, o.id - 1);
    if book == [] || Before(o, book[0]) {
      MoreNumbers(book, o.id - 1, o.id);
      assert ([o] + book)[1..] == book;
      forall x | x in book ensures Ahead(o, x) {
        if x != book[0] { assert x in book[1..] && Ahead(book[0], x); }
      }
    } else {
      var rest := book[1..];
      InsertRanks(rest, o);
      assert ([book[0]] + Insert(rest, o))[1..] == Insert(rest, o);
      assert Ahead(book[0], o);
    }
  }

  /** Putting back what is left of the best order keeps a side in order. */
  lemma HeadKeepsRank(book: Book, k: Order, last: int)
    requires Ranked(book, last) && book != []
    requires k.price == book[0].price && k.id == book[0].id && k.ask == book[0].ask
    ensures Ranked([k] + book[1..], last)
  {
    assert ([k] + book[1..])[1..] == book[1..];
  }

  /** What a round leaves of the book: the best maker is gone, or less of it is left. */
  lemma StepBooks(s: Spot, t: Order)
    requires !Stops(s, t)
    ensures var r := Step(s, t); var k, rest := Opposite(s, t)[0], Opposite(s, t)[1..];
            var lots := LotsWith(t, k);
            && r.0.orderId == s.orderId && r.0.m == s.m
            && (if t.ask then r.0.asks == s.asks else r.0.bids == s.bids)
            && Opposite(r.0, r.1)
               == if Sweeps(t, k) || k.left == lots then rest
                  else [FillMaker(k, lots, k.price * lots, PaymentOf(s.m, k, true, lots, k.price * lots).fee)] + rest
  {
    hide Pay, PaymentOf, LotsWith;
  }

  /** The best order is gone, or less of it is left; the other side is as it was. */
  lemma LessKeepsOrder(s: Spot, r: Spot, t: Order, k: Order, last: int)
    requires Ordered(s, last) && Opposite(s, t) != []
    requires var best := Opposite(s, t)[0]; k.price == best.price && k.id == best.id && k.ask == best.ask
    requires if t.ask then r.asks == s.asks else r.bids == s.bids
    requires Opposite(r, t) == Opposite(s, t)[1..] || Opposite(r, t) == [k] + Opposite(s, t)[1..]
    ensures Ordered(r, last)
  {
    hide Ranked;
    var book := Opposite(s, t);
    HeadKeepsRank(book, k, last);
    RestIsRanked(book, last);
    assert book[0] in book;
    assert forall o :: o in [k] + book[1..] ==> o == k || o in book;
  }

  lemma StepKeepsOrder(s: Spot, t: Order, last: int)
    requires Ordered(s, last) && !Stops(s, t)
    ensures Ordered(Step(s, t).0, last)
  {
    hide Step, LotsWith, PaymentOf, Ordered, Crosses, Sweeps;
    StepBooks(s, t);
    StepShrinks(s, t);
    var k, lots := Opposite(s, t)[0], LotsWith(t, Opposite(s, t)[0]);
    var k1 := FillMaker(k, lots, k.price * lots, PaymentOf(s.m, k, true, lots, k.price * lots).fee);
    LessKeepsOrder(s, Step(s, t).0, t, k1, last);
  }

  lemma RestIsRanked(book: Book, last: int)
    requires Ranked(book, last) && book != []
    ensures Ranked(book[1..], last)
  {
  }

  lemma {:induction false} MatchKeepsOrder(s: Spot, t: Order, last: int)
    requires Ordered(s, last)
    ensures var r := Match(s, t);
            && Ordered(r.0, last) && Stops(r.0, r.1) && r.0.orderId == s.orderId && r.0.m == s.m
            && r.1.id == t.id && r.1.ask == t.ask && r.1.kind == t.kind && r.1.price == t.price
            && r.1.user == t.user && r.1.mm == t.mm
    decreases |Opposite(s, t)|, if Stops(s, t) then 0 else 1
  {
    hide Step, Ordered, Crosses, LotsWith;
    if !Stops(s, t) {
      StepKeepsOrder(s, t, last);
      StepBooks(s, t);
      StepShrinks(s, t);
      MatchKeepsOrder(Step(s, t).0, Step(s, t).1, last);
    }
  }

  lemma {:induction false} BestIsAhead(book: Book, last: int)
    requires Ranked(book, last) && book != []
    ensures forall o :: o in book && o.id != book[0].id ==> Ahead(book[0], o)
    ensures forall o :: o in book ==> o == book[0] || Ahead(book[0], o)
  {
  }

  /** Where matching stops with a rest, nothing on the other side is within the limit. */
  lemma StoppedIsOutside(s: Spot, t: Order, last: int)
    requires Ordered(s, last) && Stops(s, t) && t.kind.Limit? && t.left != 0
    ensures t.ask ==> forall b :: b in s.bids ==> b.price < t.price
    ensures !t.ask ==> forall a :: a in s.asks ==> t.price < a.price
  {
    if s.bids != [] { BestIsAhead(s.bids, last); assert s.bids[0] in s.bids; }
    if s.asks != [] { BestIsAhead(s.asks, last); assert s.asks[0] in s.asks; }
  }

  lemma PutKeepsOrder(s: Spot, o: Order)
    requires Ordered(s, o.id - 1) && Stops(s, o) && o.kind.Limit? && o.left != 0
    ensures Ordered(Put(s, o), o.id)
  {
    hide Stops, Ranked, Insert, DoFreeze, Pledge;
    StoppedIsOutside(s, o, o.id - 1);
    NumbersAreBelow(s.asks, o.id - 1);
    NumbersAreBelow(s.bids, o.id - 1);
    InsertRanks(if o.ask then s.asks else s.bids, Holding(o));
    MoreNumbers(if o.ask then s.bids else s.asks, o.id - 1, o.id);
  }

  lemma DoKeepsOrder(s: Spot, op: Op)
    requires Ordered(s, s.orderId)
    ensures Ordered(Do(s, op), Do(s, op).orderId)
  {
    hide Match, FinishAsks, FinishBids, Has, Ordered, Stops;
    match op {
      case LimitOrder(a) =>
        var s1, t := s.(orderId := s.orderId + 1), NewOrder(s.orderId + 1, a, Limit);
        CountKeepsOrder(s);
        MatchKeepsOrder(s1, t, s.orderId);
        var r := Match(s1, t);
        if r.1.left != 0 { PutKeepsOrder(r.0, r.1); }
        OrderOfMore(r.0, s.orderId);
      case MarketOp(a) =>
        var s1, t := s.(orderId := s.orderId + 1), NewOrder(s.orderId + 1, a, MarketOrder);
        CountKeepsOrder(s);
        MatchKeepsOrder(s1, t, s.orderId);
        OrderOfMore(Match(s1, t).0, s.orderId);
      case CancelEverything =>
        FinishesEmpty(s);
        FinishesBidsEmpty(FinishAsks(s));
        EmptyIsOrdered(CancelAll(s));
    }
  }

  lemma EmptyIsOrdered(s: Spot)
    requires s.asks == [] && s.bids == []
    ensures Ordered(s, s.orderId)
  {
  }

  lemma CountKeepsOrder(s: Spot)
    requires Ordered(s, s.orderId)
    ensures Ordered(s.(orderId := s.orderId + 1), s.orderId)
  {
  }

  lemma OrderOfMore(s: Spot, last: int)
    requires Ordered(s, last)
    ensures Ordered(s, last + 1)
  {
    MoreNumbers(s.asks, last, last + 1);
    MoreNumbers(s.bids, last, last + 1);
  }

  lemma {:induction false} RunKeepsOrder(s: Spot, ops: seq<Op>)
    requires Ordered(s, s.orderId)
    ensures Ordered(Run(s, ops), Run(s, ops).orderId)
    decreases |ops|
  {
    hide Do, Ordered;
    if ops != [] {
      DoKeepsOrder(s, ops[0]);
      RunKeepsOrder(Do(s, ops[0]), ops[1..]);
    }
  }

  /** In every reachable state asks ascend and bids descend in price, equal prices stand in the order
      of their numbers, every bid is below every ask, and no number is given twice. */
  lemma BookIsSorted(s0: Spot, ops: seq<Op>)
    requires Untouched(s0)
    ensures var s := Run(s0, ops);
            && AsksSorted(s.asks) && BidsSorted(s.bids) && Uncrossed(s)
            && Numbered(s.asks, s.orderId) && Numbered(s.bids, s.orderId)
            && (forall o :: o in s.asks ==> o.ask) && (forall o :: o in s.bids ==> !o.ask)
  {
    hide Run, Ranked;
    EmptyIsOrdered(s0);
    RunKeepsOrder(s0, ops);
    var s := Run(s0, ops);
    RankedIsSorted(s.asks, true, s.orderId);
    RankedIsSorted(s.bids, false, s.orderId);
  }

  // ----- the comparator that the book is kept with

  /** order_match_compare, which serves futures orders too: -1 where the first order goes first.  It
      reads the kind of operation, 1 to open and 2 to close, of the first order. */
  function MatchCompare(a: Order, oper: int, b: Order): int {
    if a.id == b.id then 0
    else if a.kind != b.kind then 1
    else
      var up := (a.ask && oper == 1) || (!a.ask && oper == 2);
      if a.price != b.price then (if (a.price < b.price) == up then -1 else 1)
      else if a.id > b.id then 1 else -1
  }

  ghost predicate BestFirst(ask: bool, oper: int) {
    forall a: Order, b: Order {:trigger MatchCompare(a, oper, b)} ::
      a.ask == ask && b.ask == ask && a.kind.Limit? && b.kind.Limit? && a.id != b.id ==>
        (MatchCompare(a, oper, b) == -1
         <==> (if ask then a.price < b.price else a.price > b.price) || (a.price == b.price && a.id < b.id))
  }

  /** The comparator puts the best price first, and then the earlier number, if and only if the kind of
      operation is that of an opening order for an ask, and not that of a closing order for a bid.  The
      spot functions do not set it. */
  lemma BestComesFirstIff(ask: bool, oper: int)
    ensures BestFirst(ask, oper) <==> if ask then oper == 1 else oper != 2
  {
    var a := Looking(ask).(id := 1, price := 1);
    var b := Looking(ask).(id := 2, price := 2);
    if BestFirst(ask, oper) {
      assert MatchCompare(a, oper, b) == -1 <==> ask;
    }
  }
}
