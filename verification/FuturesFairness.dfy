/** Price-time priority in prices and numbers: how the book is sorted, and whom every round of the
    matching loop trades with. */
module FuturesFairness {
  import opened Common
  import opened Futures
  import opened FuturesIndex
  import opened FuturesBacking
  import opened FuturesMatching
  import opened FuturesRun
  import opened FuturesOps
  import opened FuturesTheorems

  /** Cheaper first, and the earlier number among equal prices. */
  ghost predicate AsksSorted(book: Book) {
    forall i, j :: 0 <= i < j < |book| ==>
      book[i].price < book[j].price || (book[i].price == book[j].price && book[i].id < book[j].id)
  }

  /** Dearer first, and the earlier number among equal prices. */
  ghost predicate BidsSorted(book: Book) {
    forall i, j :: 0 <= i < j < |book| ==>
      book[i].price > book[j].price || (book[i].price == book[j].price && book[i].id < book[j].id)
  }

  lemma {:induction false} TidyIsSorted(book: Book, sells: bool)
    requires Tidy(book) && forall o :: o in book ==> Sells(o) == sells
    ensures if sells then AsksSorted(book) else BidsSorted(book)
    decreases |book|
  {
    if book != [] {
      var rest := book[1..];
      TidyIsSorted(rest, sells);
      forall i, j | 0 <= i < j < |book| ensures Before(book[i], book[j]) && Sells(book[i]) == sells {
        assert book[j] == rest[j - 1] && book[j] in rest;
        if i > 0 { assert book[i] == rest[i - 1] && book[i] in rest; }
      }
    }
  }

  /** In every reachable state asks ascend and bids descend in price, equal prices stand in the order
      of their numbers, and the best bid is below the best ask. */
  lemma BookIsSorted(s0: State, ops: seq<Op>)
    requires Untouched(s0)
    ensures var s := Run(s0, ops);
            && AsksSorted(s.asks) && BidsSorted(s.bids)
            && (s.asks != [] && s.bids != [] ==> s.bids[0].price < s.asks[0].price)
            && (forall o :: o in s.asks ==> (o.side.Bear? && o.oper.Open?) || (o.side.Bull? && o.oper.Close?))
            && (forall o :: o in s.bids ==> (o.side.Bull? && o.oper.Open?) || (o.side.Bear? && o.oper.Close?))
  {
    hide Run, Tidy;
    BookIsConsistent(s0, ops);
    var s := Run(s0, ops);
    TidyIsSorted(s.asks, true);
    TidyIsSorted(s.bids, false);
  }

  // ----- whom a taker trades with

  /** Opening a long and closing a short buy. */
  predicate Buys(t: Order) {
    (t.side.Bull? && t.oper.Open?) || (t.side.Bear? && t.oper.Close?)
  }

  function Faces(s: State, t: Order): Book {
    if Buys(t) then s.asks else s.bids
  }

  /** A market order takes every price, a limit order no worse one than its own. */
  predicate Accepts(t: Order, price: real) {
    t.kind.Market? || (if Buys(t) then price <= t.price else price >= t.price)
  }

  ghost predicate IsBest(book: Book, m: Order, buys: bool) {
    && m in book
    && (forall o :: o in book && o.id != m.id ==>
          (if buys then m.price < o.price else m.price > o.price) || (m.price == o.price && m.id < o.id))
  }

  /** The matching loop from here on: while the taker has something left and accepts the best price
      that is there, it trades with the best order of that side, the earliest at that price, for as
      much as both have left; then it stops. */
  ghost predicate Fair(s: State, t: Order)
    requires Sided(s)
    decreases |Opposite(s, t)|
  {
    if Opposite(s, t) == [] || t.left == 0 then Faces(s, t) == Opposite(s, t) && Match(s, t) == (s, t)
    else
      var m := Opposite(s, t)[0];
      var a := if t.left < m.left then t.left else m.left;
      var r := Step(s, t);
      StepShrinksBook(s, t);
      && Faces(s, t) == Opposite(s, t) && IsBest(Faces(s, t), m, Buys(t))
      && (if !Accepts(t, m.price) then Match(s, t) == (s, t)
          else
            && r.1.left == t.left - a && r.0.deals != [] && r.0.deals[|r.0.deals| - 1].maker == m.id
            && r.0.deals[|r.0.deals| - 1].price == m.price && r.0.deals[|r.0.deals| - 1].amount == a
            && (if r.1.left == 0 then Match(s, t) == r
                else a == m.left && Match(s, t) == Match(r.0, r.1) && Fair(r.0, r.1)))
  }

  lemma BestIsFirst(s: State, t: Order)
    requires Indexed(s) && Opposite(s, t) != []
    ensures IsBest(Faces(s, t), Opposite(s, t)[0], Buys(t)) && Faces(s, t) == Opposite(s, t)
  {
    var book := Opposite(s, t);
    TidyIsSorted(s.asks, true);
    TidyIsSorted(s.bids, false);
    forall o | o in book && o.id != book[0].id
      ensures (if Buys(t) then book[0].price < o.price else book[0].price > o.price)
              || (book[0].price == o.price && book[0].id < o.id) {
      var j :| 0 <= j < |book| && book[j] == o;
    }
  }

  /** Every matching loop, of whatever taker in whatever reachable book, is fair to the end. */
  lemma {:induction false} MatchIsFair(s: State, t: Order, c: Scope)
    requires Sided(s) && Good(s, [t], c)
    ensures Fair(s, t)
    decreases |Opposite(s, t)|
  {
    hide Step, Good, Indexed, Tidy;
    GoodIndex(s, [t], c);
    if Opposite(s, t) != [] && t.left != 0 {
      BestIsFirst(s, t);
      LiveOpposite(s, t, c);
      if Crosses(t, Opposite(s, t)[0]) {
        StepKeepsGood(s, t, c);
        StepShrinksBook(s, t);
        RoundTrades(s, t);
        var r := Step(s, t);
        if r.1.left != 0 { MatchIsFair(r.0, r.1, c); }
      }
    }
  }

  // ----- what becomes of the rest of an order

  /** Once matching stops, the rest of a limit order rests, on the side that its direction chooses,
      and of a market order nothing does; every other order stays as matching left it. */
  lemma RestRests(s: State, t: Order, c: Scope)
    requires Sided(s) && Good(s, [t], c)
    ensures var (m, rest) := Match(s, t); var r := Execute(s, t);
            var stays := t.kind.Limit? && rest.left > 0;
            && (forall o :: o in r.asks <==> o in m.asks || (o == rest && stays && !Buys(t)))
            && (forall o :: o in r.bids <==> o in m.bids || (o == rest && stays && Buys(t)))
  {
    hide Match, Good, Cancel, Insert, Finish;
    MatchKeepsGood(s, t, c);
    var (m, rest) := Match(s, t);
    GoodFlight(m, rest, c);
    assert Buys(rest) == Buys(t) && rest.kind == t.kind && Sells(rest) == !Buys(t);
    FlightIsAbsent(m, rest, c);
    FlightIsNew(m, rest, c);
    if rest.left != 0 && t.kind.Market? { CancelSparesBooks(m, rest); }
  }

  lemma FlightIsNew(s: State, t: Order, c: Scope)
    requires Good(s, [t], c)
    ensures t.id !in s.orders
  {
    assert t in [t];
  }

  lemma CancelSparesBooks(s: State, o: Order)
    requires Finish(s, o) == s
    ensures Cancel(s, o).asks == s.asks && Cancel(s, o).bids == s.bids
  {
    hide Finish, ThawMargin;
    CancelIsRelease(s, o);
  }
}
