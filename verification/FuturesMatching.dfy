/** Price-time priority: execute_order refines a greedy matcher on the shape of the
    book, and the book it leaves is never crossed. */
module FuturesMatching {
  import opened Common
  import opened Futures
  import opened FuturesIndex

  /** What price-time matching looks at. */
  datatype Level = Level(id: nat, price: real, left: int)
  datatype Trade = Trade(maker: nat, price: real, amount: int)

  function Shape(book: Book): seq<Level> {
    if book == [] then [] else [Level(book[0].id, book[0].price, book[0].left)] + Shape(book[1..])
  }

  /** The makers at the front of the book whose price the taker accepts. */
  function Crossing(book: Book, t: Order): Book {
    if book == [] || !Crosses(t, book[0]) then [] else [book[0]] + Crossing(book[1..], t)
  }

  function Depth(book: Book): int {
    if book == [] then 0 else book[0].left + Depth(book[1..])
  }

  // ----- the greedy matcher: spend `q` from the front

  function Trades(levels: seq<Level>, q: int): seq<Trade>
    decreases |levels|
  {
    if levels == [] || q <= 0 then []
    else [Trade(levels[0].id, levels[0].price, Min(q, levels[0].left))] + Trades(levels[1..], q - levels[0].left)
  }

  function Spend(levels: seq<Level>, q: int): seq<Level>
    decreases |levels|
  {
    if levels == [] || q <= 0 then levels
    else if q < levels[0].left then [levels[0].(left := levels[0].left - q)] + levels[1..]
    else Spend(levels[1..], q - levels[0].left)
  }

  function Volume(ts: seq<Trade>): int {
    if ts == [] then 0 else ts[0].amount + Volume(ts[1..])
  }

  ghost predicate PositiveLevels(levels: seq<Level>) {
    forall i :: 0 <= i < |levels| ==> levels[i].left > 0
  }

  function TotalLeft(levels: seq<Level>): int {
    if levels == [] then 0 else levels[0].left + TotalLeft(levels[1..])
  }

  /** The greedy trades are a prefix of the book: every maker but the last is used up, every
      trade is at its maker's price, and the volumes add up. */
  lemma {:induction false} TradesArePrefix(levels: seq<Level>, q: int)
    requires PositiveLevels(levels) && 0 <= q <= TotalLeft(levels)
    ensures var ts := Trades(levels, q);
            && |ts| <= |levels| && Volume(ts) == q
            && (forall i :: 0 <= i < |ts| ==> ts[i].maker == levels[i].id && ts[i].price == levels[i].price
                                              && 0 < ts[i].amount <= levels[i].left)
            && (forall i :: 0 <= i < |ts| - 1 ==> ts[i].amount == levels[i].left)
            && TotalLeft(Spend(levels, q)) == TotalLeft(levels) - q
            && PositiveLevels(Spend(levels, q))
  {
    if levels != [] && q > 0 {
      var l, rest := levels[0], levels[1..];
      var ts := Trades(levels, q);
      assert PositiveLevels(rest) by { assert forall i :: 0 <= i < |rest| ==> rest[i] == levels[i + 1]; }
      TotalLeftNonNegative(rest);
      assert ts[1..] == Trades(rest, q - l.left);
      if q >= l.left {
        TradesArePrefix(rest, q - l.left);
        assert forall i :: 1 <= i < |ts| ==> ts[i] == ts[1..][i - 1] && levels[i] == rest[i - 1];
      } else {
        assert Trades(rest, q - l.left) == [];
        assert ([l.(left := l.left - q)] + rest)[1..] == rest;
      }
    }
  }

  lemma {:induction false} TotalLeftNonNegative(levels: seq<Level>)
    requires PositiveLevels(levels)
    ensures TotalLeft(levels) >= 0 && (levels != [] ==> TotalLeft(levels) > 0)
  {
    if levels != [] {
      assert forall i :: 0 <= i < |levels[1..]| ==> levels[1..][i] == levels[i + 1];
      TotalLeftNonNegative(levels[1..]);
    }
  }

  /** The part of the deal history that matching one taker added, as greedy trades. */
  function AsTrades(deals: seq<Deal>): seq<Trade> {
    if deals == [] then [] else [Trade(deals[0].maker, deals[0].price, deals[0].amount)] + AsTrades(deals[1..])
  }

  ghost predicate LiveBook(book: Book) {
    forall o :: o in book ==> o.left > 0
  }

  lemma {:induction false} DepthOfCrossing(book: Book, t: Order)
    requires LiveBook(book)
    ensures Depth(Crossing(book, t)) >= 0
    ensures TotalLeft(Shape(book)) == Depth(book) >= Depth(Crossing(book, t))
    ensures PositiveLevels(Shape(book)) && |Shape(book)| == |book|
  {
    if book != [] {
      assert LiveBook(book[1..]);
      DepthOfCrossing(book[1..], t);
      assert Shape(book)[1..] == Shape(book[1..]);
      if Crosses(t, book[0]) {
        assert Crossing(book, t)[1..] == Crossing(book[1..], t);
      }
    }
  }

  /** How much a taker trades: what it asks for, or all that crosses. */
  function Reach(book: Book, t: Order): int {
    Min(t.left, Depth(Crossing(book, t)))
  }

  /** `r` is what greedy trading with `t` makes of `s`: the deals added, the makers left, and the
      rest of the taker, which crosses nothing any more. */
  ghost predicate TradesGreedily(s: State, t: Order, r: (State, Order)) {
    var book := Opposite(s, t);
    var q := Reach(book, t);
    && r.1.left == t.left - q
    && Shape(Opposite(r.0, t)) == Spend(Shape(book), q)
    && |s.deals| <= |r.0.deals| && r.0.deals[..|s.deals|] == s.deals
    && AsTrades(r.0.deals[|s.deals|..]) == Trades(Shape(book), q)
    && (forall d :: d in r.0.deals[|s.deals|..] ==> d.taker == t.id)
    && (if Sells(t) then r.0.asks == s.asks else r.0.bids == s.bids)
    && (r.1.left > 0 ==> Opposite(r.0, t) == [] || !Crosses(t, Opposite(r.0, t)[0]))
    && LiveBook(Opposite(r.0, t))
  }

  lemma OneDealTrades(s: State, t: Order)
    requires Sided(s) && Opposite(s, t) != [] && LiveBook(Opposite(s, t)) && t.left > 0
             && Crosses(t, Opposite(s, t)[0])
    ensures var m := Opposite(s, t)[0]; var r := Step(s, t).0;
            && |r.deals| == |s.deals| + 1 && r.deals[|s.deals|..] == [r.deals[|s.deals|]]
            && AsTrades(r.deals[|s.deals|..]) == [Trade(m.id, m.price, Min(t.left, m.left))]
  {
    hide Step, Fill, SameTerms;
    RoundTrades(s, t);
  }

  lemma LastRoundIsGreedy(s: State, t: Order)
    requires Sided(s) && Opposite(s, t) != [] && LiveBook(Opposite(s, t)) && t.left > 0
             && Crosses(t, Opposite(s, t)[0])
    requires Step(s, t).1.left == 0
    ensures TradesGreedily(s, t, Step(s, t))
  {
    hide Step, Fill, SameTerms, Sided;
    var book := Opposite(s, t);
    OneDealTrades(s, t);
    RoundTrades(s, t);
    RoundShape(s, t);
    assert Crossing(book, t)[1..] == Crossing(book[1..], t);
    assert LiveBook(book[1..]);
    DepthOfCrossing(book[1..], t);
    assert Shape(book)[1..] == Shape(book[1..]);
  }

  lemma RoundThenGreedy(s: State, t: Order, u: (State, Order))
    requires Sided(s) && Opposite(s, t) != [] && LiveBook(Opposite(s, t)) && t.left > 0
             && Crosses(t, Opposite(s, t)[0])
    requires var r := Step(s, t); r.1.left != 0 && TradesGreedily(r.0, r.1, u)
    ensures TradesGreedily(s, t, u)
  {
    hide Step, Fill, SameTerms, Sided;
    var book, rest := Opposite(s, t), Opposite(s, t)[1..];
    var r := Step(s, t);
    OneDealTrades(s, t);
    RoundTrades(s, t);
    assert Crossing(book, t)[1..] == Crossing(rest, t);
    assert Shape(book)[1..] == Shape(rest);
    assert LiveBook(rest);
    DepthOfCrossing(rest, t);
    SameSideAs(t, r.1, rest);
    assert Reach(book, t) == book[0].left + Reach(rest, r.1);
    SplitDeals(s.deals, r.0.deals[|s.deals|], r.0.deals, u.0.deals);
  }

  /** execute_order's loop trades greedily. */
  lemma {:induction false} MatchIsGreedy(s: State, t: Order)
    requires Sided(s) && LiveBook(Opposite(s, t)) && t.left >= 0
    ensures TradesGreedily(s, t, Match(s, t))
    decreases |Opposite(s, t)|
  {
    hide Step, Fill, SameTerms, Sided;
    var book := Opposite(s, t);
    DepthOfCrossing(book, t);
    if book == [] || t.left == 0 || !Crosses(t, book[0]) {
      assert s.deals[|s.deals|..] == [];
    } else {
      var r := Step(s, t);
      RoundTrades(s, t);
      hide TradesGreedily;
      if r.1.left == 0 {
        LastRoundIsGreedy(s, t);
      } else {
        SameSideAs(t, r.1, book[1..]);
        MatchIsGreedy(r.0, r.1);
        RoundThenGreedy(s, t, Match(r.0, r.1));
      }
    }
  }

  lemma SplitDeals(a: seq<Deal>, d: Deal, b: seq<Deal>, c: seq<Deal>)
    requires b == a + [d] && |b| <= |c| && c[..|b|] == b
    ensures c[..|a|] == a && c[|a|..] == [d] + c[|b|..]
    ensures AsTrades(c[|a|..]) == [Trade(d.maker, d.price, d.amount)] + AsTrades(c[|b|..])
  {
    assert c == b + c[|b|..];
    assert c[|a|..] == [d] + c[|b|..];
    assert ([d] + c[|b|..])[1..] == c[|b|..];
  }

  lemma SameSideAs(t: Order, t2: Order, book: Book)
    requires SameTerms(t2, t)
    ensures Sells(t2) == Sells(t) && t2.id == t.id && Crossing(book, t2) == Crossing(book, t)
    ensures forall m :: Crosses(t2, m) <==> Crosses(t, m)
  {
    if book != [] { SameSideAs(t, t2, book[1..]); }
  }

  /** One round: one trade with the best maker. */
  lemma RoundTrades(s: State, t: Order)
    requires Sided(s) && Opposite(s, t) != []
    ensures var m := Opposite(s, t)[0]; var a := Min(t.left, m.left); var r := Step(s, t);
            && r.0.deals == s.deals + [Report(s.dealId + 1, m.price, a, t, m)]
            && SameTerms(r.1, t) && r.1.left == t.left - a && Sided(r.0)
            && (a == m.left ==> Opposite(r.0, t) == Opposite(s, t)[1..])
            && (if Sells(t) then r.0.asks == s.asks else r.0.bids == s.bids)
  {
    hide Fill, SameTerms;
    var m := Opposite(s, t)[0];
    var f := Fill(s, t, m, Min(t.left, m.left), m.price);
    StepShrinksBook(s, t);
    SameSideAs(t, f.taker, []);
    SameSideAs(m, f.maker, []);
    assert Sells(m) != Sells(t);
    assert Step(s, t).0.deals == f.s.deals;
  }

  /** When the round satisfies the taker, the book loses exactly that volume. */
  lemma RoundShape(s: State, t: Order)
    requires Sided(s) && Opposite(s, t) != [] && LiveBook(Opposite(s, t)) && 0 < t.left <= Opposite(s, t)[0].left
    ensures var r := Step(s, t);
            && Shape(Opposite(r.0, t)) == Spend(Shape(Opposite(s, t)), t.left)
            && LiveBook(Opposite(r.0, t))
            && Trades(Shape(Opposite(s, t)), t.left)
               == [Trade(Opposite(s, t)[0].id, Opposite(s, t)[0].price, t.left)]
  {
    hide Step, Fill;
    var book := Opposite(s, t);
    var m, rest := book[0], book[1..];
    StepShrinksBook(s, t);
    var r := Step(s, t);
    SameSideAs(t, r.1, []);
    assert Shape(book)[1..] == Shape(rest);
    assert Trades(Shape(rest), t.left - m.left) == [];
    if m.left == t.left {
      assert Opposite(r.0, t) == rest;
      assert Spend(Shape(book), t.left) == Spend(Shape(rest), 0) == Shape(rest);
    } else {
      var book2 := Opposite(r.0, t);
      assert book2[1..] == rest;
      assert forall o :: o in book2 ==> o == book2[0] || o in book2[1..];
    }
  }

  /** A limit taker never trades past its limit. */
  lemma {:induction false} TradesWithinLimit(book: Book, t: Order, q: int)
    requires LiveBook(book) && t.kind.Limit? && q <= Depth(Crossing(book, t))
    ensures forall x :: x in Trades(Shape(book), q) ==> if Sells(t) then x.price >= t.price else x.price <= t.price
  {
    if book != [] && q > 0 {
      assert LiveBook(book[1..]);
      assert Shape(book)[1..] == Shape(book[1..]);
      assert Crosses(t, book[0]) ==> Crossing(book, t)[1..] == Crossing(book[1..], t);
      TradesWithinLimit(book[1..], t, q - book[0].left);
    }
  }

  // ----- the book never crosses

  ghost predicate Uncrossed(s: State) {
    forall a, b :: a in s.asks && b in s.bids ==> b.price < a.price
  }

  /** A taker that does not cross the best maker crosses none. */
  lemma {:induction false} BestIsBest(book: Book, t: Order, o: Order)
    requires Tidy(book) && o in book && t.kind.Limit? && !Crosses(t, book[0])
    requires forall x :: x in book ==> Sells(x) != Sells(t)
    ensures !Crosses(t, o)
  {
    if o != book[0] { assert o in book[1..]; assert Before(book[0], o); }
  }

  lemma PutKeepsUncrossed(s: State, t: Order)
    requires Sided(s) && Tidy(s.asks) && Tidy(s.bids) && Uncrossed(s) && t.kind.Limit?
    requires Opposite(s, t) == [] || !Crosses(t, Opposite(s, t)[0])
    ensures Uncrossed(Put(s, t))
  {
    var r := Put(s, t);
    forall a, b | a in r.asks && b in r.bids ensures b.price < a.price {
      if a == t && b in s.bids && Sells(t) { BestIsBest(s.bids, t, b); }
      if b == t && a in s.asks && !Sells(t) { BestIsBest(s.asks, t, a); }
    }
  }

  lemma StepKeepsUncrossed(s: State, t: Order)
    requires Sided(s) && Uncrossed(s) && Opposite(s, t) != []
    ensures Uncrossed(Step(s, t).0)
  {
    hide Fill, Step, SameTerms;
    var book := Opposite(s, t);
    RoundTrades(s, t);
    StepShrinksBook(s, t);
    var r := Step(s, t);
    SameSideAs(t, r.1, []);
    var book2 := Opposite(r.0, t);
    if book2 != book[1..] {
      SamePrice(book2[0], book[0]);
      assert forall o :: o in book2 ==> o == book2[0] || o in book[1..];
    }
    assert forall o :: o in book2 ==> exists p :: p in book && p.price == o.price;
  }

  lemma SamePrice(a: Order, b: Order)
    requires SameTerms(a, b)
    ensures a.price == b.price
  {
  }

  lemma {:induction false} MatchKeepsUncrossed(s: State, t: Order)
    requires Sided(s) && Uncrossed(s)
    ensures Uncrossed(Match(s, t).0)
    decreases |Opposite(s, t)|
  {
    hide Step, Uncrossed, SameTerms;
    if Opposite(s, t) != [] && t.left != 0 && Crosses(t, Opposite(s, t)[0]) {
      var r := Step(s, t);
      StepKeepsUncrossed(s, t);
      StepShrinksBook(s, t);
      if r.1.left != 0 { MatchKeepsUncrossed(r.0, r.1); }
    }
  }
}
