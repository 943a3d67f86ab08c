/** Which spot orders are accepted, and what an accepted one does from its first deal to its rest. */
module SpotAcceptance {
  import opened Ledger
  import opened LedgerTotals
  import opened Spot
  import opened SpotLedger
  import opened SpotTheorems
  import opened SpotBook
  import opened SpotFairness

  /** The user has an available entry of the asset that the order gives, with at least that much. */
  predicate Covered(s: Spot, a: Args, stock: int, money: int) {
    var k := Key(a.user, Available, if a.ask then s.m.stock else s.m.money);
    && k in s.bal
    && s.bal[k] >= if a.ask then (stock * s.m.feeUnit * s.m.feeScale) as real else (money * s.m.moneyScale) as real
  }

  /** A limit order is accepted if and only if its user has the lots, or the money for them at the
      limit, and its amount is not too small; a refused one changes nothing. */
  lemma LimitAcceptedIff(s: Spot, a: Args)
    ensures var (s1, reply) := PutLimit(s, a); var covered := Covered(s, a, a.amount, a.price * a.amount);
            && (reply == Accepted <==> covered && a.amount >= s.m.minAmount)
            && (reply == Rejected(-1) <==> !covered)
            && (reply == Rejected(-2) <==> covered && a.amount < s.m.minAmount)
            && (reply != Accepted ==> s1 == s)
  {
    hide Match, Put;
  }

  /** The smallest market order: lots, or what as many lots cost at the best price. */
  function Least(s: Spot, a: Args): int
    requires a.ask || s.asks != []
  {
    if a.ask then s.m.minAmount else s.asks[0].price * s.m.minAmount
  }

  /** A market order is accepted if and only if its user has the lots, or the money, that it names,
      somebody is on the other side, and it is not too small: lots against the smallest amount, money
      against what that costs at the best price. */
  lemma MarketAcceptedIff(s: Spot, a: Args)
    ensures var (s1, reply) := PutMarket(s, a); var covered := Covered(s, a, a.amount, a.amount);
            var none := if a.ask then s.bids == [] else s.asks == [];
            && (reply == Rejected(-1) <==> !covered)
            && (reply == Rejected(-3) <==> covered && none)
            && (reply == Rejected(-2) <==> covered && !none && a.amount < Least(s, a))
            && (reply == Accepted <==> covered && !none && a.amount >= Least(s, a))
            && (reply != Accepted ==> s1 == s)
  {
    hide Match;
  }

  /** The order that a request becomes: the next number, nothing traded, nothing held. */
  ghost predicate Becomes(t: Order, id: int, a: Args, market: bool) {
    && t.id == id && t.user == a.user && t.ask == a.ask && t.mm == a.mm && t.takerFee == a.takerFee
    && t.amount == a.amount && t.left == a.amount && t.freeze == 0
    && t.dealStock == 0 && t.dealMoney == 0 && t.dealFee == 0.0 && t.kind.MarketOrder? == market
    && (!market ==> t.price == a.price && t.makerFee == a.makerFee)
  }

  lemma AcceptedIsAble(s: Spot, a: Args, market: bool, c: Origin)
    requires Good(s, [], c) && Proper(s.m, if market then MarketOp(a) else LimitOrder(a))
    requires (if market then PutMarket(s, a).1 else PutLimit(s, a).1) == Accepted
    ensures var s1, t := s.(orderId := s.orderId + 1), NewOrder(s.orderId + 1, a, if market then MarketOrder else Limit);
            Able(s1, t) && Good(s1, [], c) && Becomes(t, s.orderId + 1, a, market)
  {
    hide Good, Match, Put;
    CountedIsGood(s, s.orderId + 1, c);
  }

  /** What is left of the order rests on its side, holding its lots, or their price, out of its
      user's available balance. */
  ghost predicate Rests(s: Spot, rest: Order, r: Spot) {
    var o := rest.(freeze := if rest.ask then rest.left else rest.price * rest.left);
    var asset := if rest.ask then s.m.stock else s.m.money;
    var lots, cash := (rest.left * s.m.feeUnit * s.m.feeScale) as real, (rest.price * rest.left * s.m.moneyScale) as real;
    var held := if rest.ask then lots else cash;
    && (forall x :: x in r.asks <==> x in s.asks || (x == o && rest.ask))
    && (forall x :: x in r.bids <==> x in s.bids || (x == o && !rest.ask))
    && (forall u, a :: Avail(r.bal, u, a) == Avail(s.bal, u, a) - (if u == rest.user && a == asset then held else 0.0))
    && (forall u, a :: Frozen(r.bal, u, a) == Frozen(s.bal, u, a) + (if u == rest.user && a == asset then held else 0.0))
    && r.deals == s.deals
  }

  lemma PutRests(s: Spot, o: Order, c: Origin)
    requires Good(s, [], c) && Able(s, o) && o.left > 0 && o.kind.Limit?
    ensures Rests(s, o, Put(s, o))
  {
    hide Good, Insert, Move;
    PutTakes(s, o, c);
    assert forall x :: x in Insert(s.asks, Holding(o)) <==> x == Holding(o) || x in s.asks;
    assert forall x :: x in Insert(s.bids, Holding(o)) <==> x == Holding(o) || x in s.bids;
  }

  lemma PutTakes(s: Spot, o: Order, c: Origin)
    requires Good(s, [], c) && Able(s, o) && o.left > 0 && o.kind.Limit?
    ensures var r := Put(s, o); var p := Pledge(s.m, Holding(o));
            && (forall u, a :: Avail(r.bal, u, a) == Avail(s.bal, u, a) - (if u == o.user && a == p.0 then p.1 else 0.0))
            && (forall u, a :: Frozen(r.bal, u, a) == Frozen(s.bal, u, a) + (if u == o.user && a == p.0 then p.1 else 0.0))
  {
    hide Holdings, Move, Insert, Pledge, Conserved, FrozenMatches;
    HoldingIsPositive(s, o);
    PutMoves(s, o, c);
    var p := Pledge(s.m, Holding(o));
    var a, f := Key(o.user, Available, p.0), Key(o.user, Freeze, p.0);
    MoveMeans(s.assets, s.bal, a, f, p.1);
    MoveKeepsSum(s.assets, s.bal, a, f, p.1);
  }

  /** An accepted limit order in whatever reachable state: it trades fairly to the end, and what is
      left of it then rests. */
  lemma LimitOrderTrades(s0: Spot, ops: seq<Op>, a: Args)
    requires Untouched(s0) && AllProper(s0.m, ops) && Proper(s0.m, LimitOrder(a))
    requires PutLimit(Run(s0, ops), a).1 == Accepted
    ensures var s := Run(s0, ops); var s1, t := s.(orderId := s.orderId + 1), NewOrder(s.orderId + 1, a, Limit);
            var (m, rest) := Match(s1, t); var r := PutLimit(s, a).0;
            && Becomes(t, s.orderId + 1, a, false) && Fair(s1, t) && rest.left >= 0
            && (if rest.left == 0 then r == m else Rests(m, rest, r))
  {
    hide Run, Good, Match, Put, Fair, Able, Proper, Rests, Ordered;
    var c := OriginOf(s0);
    UntouchedIsGood(s0);
    RunKeeps(s0, ops, c);
    EmptyIsOrdered(s0);
    RunKeepsOrder(s0, ops);
    var s := Run(s0, ops);
    var s1, t := s.(orderId := s.orderId + 1), NewOrder(s.orderId + 1, a, Limit);
    AcceptedIsAble(s, a, false, c);
    CountKeepsOrder(s);
    MatchIsFair(s1, t, c, s.orderId);
    MatchKeeps(s1, t, c);
    var (m, rest) := Match(s1, t);
    AbleIsPositive(m, rest);
    if rest.left != 0 { PutRests(m, rest, c); }
  }

  /** An accepted market order trades fairly to the end, and nothing of it rests. */
  lemma MarketOrderTrades(s0: Spot, ops: seq<Op>, a: Args)
    requires Untouched(s0) && AllProper(s0.m, ops) && Proper(s0.m, MarketOp(a))
    requires PutMarket(Run(s0, ops), a).1 == Accepted
    ensures var s := Run(s0, ops); var s1, t := s.(orderId := s.orderId + 1), NewOrder(s.orderId + 1, a, MarketOrder);
            && Becomes(t, s.orderId + 1, a, true) && Fair(s1, t)
            && PutMarket(s, a).0 == Match(s1, t).0
  {
    hide Run, Good, Match, Fair, Able, Proper, Ordered;
    var c := OriginOf(s0);
    UntouchedIsGood(s0);
    RunKeeps(s0, ops, c);
    EmptyIsOrdered(s0);
    RunKeepsOrder(s0, ops);
    var s := Run(s0, ops);
    AcceptedIsAble(s, a, true, c);
    CountKeepsOrder(s);
    MatchIsFair(s.(orderId := s.orderId + 1), NewOrder(s.orderId + 1, a, MarketOrder), c, s.orderId);
  }
}
