/** Whom every round of the spot matching loops trades with, for how much, and what that moves in
    the ledger, in prices, numbers and rates. */
module SpotFairness {
  import opened Ledger
  import opened LedgerTotals
  import opened Spot
  import opened SpotLedger
  import opened SpotTheorems
  import opened SpotBook

  /** The side that a taker trades with. */
  function Faces(s: Spot, t: Order): Book {
    if t.ask then s.bids else s.asks
  }

  /** A market order takes every price, a limit order no worse one than its own. */
  predicate Accepts(t: Order, price: int) {
    t.kind.MarketOrder? || (if t.ask then price >= t.price else price <= t.price)
  }

  ghost predicate IsBest(book: Book, k: Order, sells: bool) {
    && k in book
    && (forall o :: o in book && o.id != k.id ==>
          (if sells then k.price > o.price else k.price < o.price) || (k.price == o.price && k.id < o.id))
  }

  /** The smaller rest of the two; but a market buy, whose rest is money, takes as many lots as that
      buys, or all there are. */
  predicate FairLots(t: Order, k: Order, lots: int) {
    if t.kind.MarketOrder? && !t.ask then
      0 < lots <= k.left && lots * k.price <= t.left && (lots == k.left || t.left < (lots + 1) * k.price)
    else lots == if t.left < k.left then t.left else k.left
  }

  /** The deal names both orders, the taker's at its taker rate and the maker's at its maker rate. */
  predicate Names(d: Deal, t: Order, k: Order) {
    && d.takerSells == t.ask && d.price == k.price && d.cash == k.price * d.lots
    && (if t.ask then d.seller == Party(t.id, t.user, t.takerFee) && d.buyer == Party(k.id, k.user, k.makerFee)
        else d.seller == Party(k.id, k.user, k.makerFee) && d.buyer == Party(t.id, t.user, t.takerFee))
  }

  // ----- what a deal moves

  /** Lots and money in ledger units. */
  function Lots(m: Market, d: Deal): real {
    (d.lots * m.feeUnit * m.feeScale) as real
  }

  function Cash(m: Market, d: Deal): real {
    (d.cash * m.moneyScale) as real
  }

  /** The buyer pays its rate on the lots, the seller its rate on the money. */
  ghost predicate Charges(m: Market, d: Deal) {
    && m.feeScale > 0
    && d.bidFee == Lots(m, d) * d.buyer.rate as real / m.feeScale as real
    && d.askFee == Cash(m, d) * d.seller.rate as real / m.feeScale as real
  }

  ghost predicate StockMoves(m: Market, before: Balances, after: Balances, d: Deal, u: nat) {
    && Avail(after, u, m.stock) == Avail(before, u, m.stock)
         + (if u == d.buyer.user then Lots(m, d) - d.bidFee else 0.0)
         - (if u == d.seller.user && d.takerSells then Lots(m, d) else 0.0)
    && Frozen(after, u, m.stock) == Frozen(before, u, m.stock)
         - (if u == d.seller.user && !d.takerSells then Lots(m, d) else 0.0)
  }

  ghost predicate MoneyMoves(m: Market, before: Balances, after: Balances, d: Deal, u: nat) {
    && Avail(after, u, m.money) == (Avail(before, u, m.money)
         + (if u == d.seller.user then Cash(m, d) - d.askFee else 0.0)
         - (if u == d.buyer.user && !d.takerSells then Cash(m, d) else 0.0)).Floor as real
    && Frozen(after, u, m.money) == Frozen(before, u, m.money)
         - (if u == d.buyer.user && d.takerSells then Cash(m, d) else 0.0)
  }

  /** The taker pays out of its available balance, the maker out of what it froze; both receive
      into their available balances, less the fee; money received is rounded down. */
  ghost predicate Settled(m: Market, before: Balances, after: Balances, d: Deal) {
    && (forall u :: StockMoves(m, before, after, d, u) && MoneyMoves(m, before, after, d, u))
    && Elsewhere(m, before, after)
  }

  ghost predicate Elsewhere(m: Market, before: Balances, after: Balances) {
    forall u, a :: a != m.stock && a != m.money ==>
      Avail(after, u, a) == Avail(before, u, a) && Frozen(after, u, a) == Frozen(before, u, a)
  }

  function After(v: real, q: Key, p: Payment): real {
    if q == p.out then v - p.give else if q == p.into then Rescale(Down, v + p.get - p.fee) else v
  }

  lemma PaysMove(assets: Assets, bal: Balances, tp: Payment, kp: Payment)
    requires Sound(bal) && Payable(assets, tp) && Payable(assets, kp)
    requires tp.out.kind.Available? && tp.into.kind.Available? && kp.out.kind.Freeze? && kp.into.kind.Available?
    requires Val(bal, tp.out) >= tp.give && Val(bal, kp.out) >= kp.give
    ensures var r := Pay(assets, Pay(assets, bal, tp).bal, kp).bal;
            forall q :: Val(r, q) == After(After(Val(bal, q), q, tp), q, kp)
  {
    hide Pay, Rescale, Holdings;
    PayMeans(assets, bal, tp);
    PayMeans(assets, Pay(assets, bal, tp).bal, kp);
  }

  lemma FloorOfWhole(v: real)
    requires Whole(v)
    ensures v.Floor as real == v && Rescale(Down, v) == v
  {
    RescaleMeans(Down, v);
  }

  lemma StockIsMoved(s: Spot, t: Order, k: Order, lots: int, u: nat, c: Origin)
    requires Good(s, [k], c) && Able(s, t) && Dealable(s, t, k, lots)
    ensures var f := Fill(s, t, k, lots).s; StockMoves(s.m, s.bal, f.bal, f.deals[|f.deals| - 1], u)
  {
    hide Pay, FeeOn, Holdings, Rescale, Conserved, FrozenMatches;
    PaymentsArePayable(s, t, k, lots, c);
    PartiesHaveEnough(s, t, k, lots, c);
    var cash := k.price * lots;
    var tp, kp := PaymentOf(s.m, t, false, lots, cash), PaymentOf(s.m, k, true, lots, cash);
    PaysMove(s.assets, s.bal, tp, kp);
    var a, buy := Key(u, Available, s.m.stock), if t.ask then kp else tp;
    WholeVal(s.bal, a);
    WholeSum(Val(s.bal, a), tp.give);
    WholeSum(buy.get, buy.fee);
    var v := After(Val(s.bal, a), a, if t.ask then tp else kp);
    assert Whole(v);
    WholeSum(v, buy.get - buy.fee);
    FloorOfWhole(v + (buy.get - buy.fee));
  }

  lemma MoneyIsMoved(s: Spot, t: Order, k: Order, lots: int, u: nat, c: Origin)
    requires Good(s, [k], c) && Able(s, t) && Dealable(s, t, k, lots)
    ensures var f := Fill(s, t, k, lots).s; MoneyMoves(s.m, s.bal, f.bal, f.deals[|f.deals| - 1], u)
  {
    hide Pay, FeeOn, Holdings, Conserved, FrozenMatches;
    PaymentsArePayable(s, t, k, lots, c);
    PartiesHaveEnough(s, t, k, lots, c);
    var cash := k.price * lots;
    var tp, kp := PaymentOf(s.m, t, false, lots, cash), PaymentOf(s.m, k, true, lots, cash);
    PaysMove(s.assets, s.bal, tp, kp);
    var a := Key(u, Available, s.m.money);
    WholeVal(s.bal, a);
    FloorOfWhole(Val(s.bal, a));
    WholeSum(Val(s.bal, a), tp.give);
    FloorOfWhole(Val(s.bal, a) - tp.give);
  }

  lemma OthersStay(s: Spot, t: Order, k: Order, lots: int, c: Origin)
    requires Good(s, [k], c) && Able(s, t) && Dealable(s, t, k, lots)
    ensures Elsewhere(s.m, s.bal, Fill(s, t, k, lots).s.bal)
  {
    hide Pay, FeeOn, Holdings, Conserved, FrozenMatches, Rescale;
    PaymentsArePayable(s, t, k, lots, c);
    PartiesHaveEnough(s, t, k, lots, c);
    var cash := k.price * lots;
    PaysMove(s.assets, s.bal, PaymentOf(s.m, t, false, lots, cash), PaymentOf(s.m, k, true, lots, cash));
  }

  lemma FillSettlesDeal(s: Spot, t: Order, k: Order, lots: int, c: Origin)
    requires Good(s, [k], c) && Able(s, t) && Dealable(s, t, k, lots)
    ensures var f := Fill(s, t, k, lots).s; var d := f.deals[|f.deals| - 1];
            Settled(s.m, s.bal, f.bal, d) && Charges(s.m, d)
  {
    hide Pay, PaymentOf, Good, StockMoves, MoneyMoves, Able, Charges, Elsewhere;
    var f := Fill(s, t, k, lots).s;
    var d := f.deals[|f.deals| - 1];
    OthersStay(s, t, k, lots, c);
    GoodScale(s, [k], c);
    FeesAreCharged(s.m, s.dealId + 1, t, k, lots);
    forall u: nat ensures StockMoves(s.m, s.bal, f.bal, d, u) && MoneyMoves(s.m, s.bal, f.bal, d, u) {
      StockIsMoved(s, t, k, lots, u, c);
      MoneyIsMoved(s, t, k, lots, u, c);
    }
  }

  lemma GoodScale(s: Spot, flight: Book, c: Origin)
    requires Good(s, flight, c)
    ensures s.m.feeScale > 0
  {
  }

  lemma FeesAreCharged(m: Market, id: nat, t: Order, k: Order, lots: int)
    requires m.feeScale > 0 && t.ask != k.ask
    ensures var cash := k.price * lots;
            var tp, kp := PaymentOf(m, t, false, lots, cash), PaymentOf(m, k, true, lots, cash);
            Charges(m, DealOf(id, t, k, lots, tp.fee, kp.fee))
  {
  }

  /** What a swept order held goes back to its user. */
  ghost predicate Returned(m: Market, before: Balances, after: Balances, k: Order) {
    var lots, cash := (k.left * m.feeUnit * m.feeScale) as real, (k.price * k.left * m.moneyScale) as real;
    var held := if k.ask then lots else cash;
    var asset := if k.ask then m.stock else m.money;
    && (forall u, a :: Avail(after, u, a) == Avail(before, u, a) + (if u == k.user && a == asset then held else 0.0))
    && (forall u, a :: Frozen(after, u, a) == Frozen(before, u, a) - (if u == k.user && a == asset then held else 0.0))
  }

  lemma ThawReturns(s: Spot, k: Order, c: Origin)
    requires Good(s, [k], c) && Resting(s.m, k)
    ensures Returned(s.m, s.bal, Thaw(s, k).bal, k) && Thaw(s, k).deals == s.deals
  {
    hide Good, Thaw;
    if !k.ask { assert k.price * k.left > 0; }
    ThawMoves(s, k, c);
  }

  // ----- the matching loop

  /** The matching loop from here on.  While the taker has something left and accepts the best price
      that is there, it meets the best order of that side, the earliest at that price.  A taker that
      makes markets sweeps an order away that is to give way to it, and its user gets back what it
      held; any other order it trades with, for as much as both have left, or as a market buy can pay.
      Then it stops. */
  ghost predicate Fair(s: Spot, t: Order)
    decreases |Opposite(s, t)|, if Stops(s, t) then 0 else 1
  {
    if Faces(s, t) == [] || t.left == 0 then Match(s, t) == (s, t)
    else
      var book := Faces(s, t);
      var k := book[0];
      && IsBest(book, k, t.ask)
      && (if !Accepts(t, k.price) then Match(s, t) == (s, t)
          else if Stops(s, t) then
            && t.kind.MarketOrder? && !t.ask && t.left < k.price && (t.mm.NotMM? || !k.mm.MMCancel?)
            && Match(s, t) == (s, t)
          else
            StepShrinks(s, t);
            var r := Step(s, t);
            && Match(s, t) == Match(r.0, r.1) && Fair(r.0, r.1)
            && (if !t.mm.NotMM? && k.mm.MMCancel? then
                  && r.1 == t && r.0.deals == s.deals && Faces(r.0, t) == book[1..]
                  && Returned(s.m, s.bal, r.0.bal, k)
                else Trades(s, t, k, r.0, r.1)))
  }

  /** A round that trades: one more deal, its money and stock moved, and what is left of both. */
  ghost predicate Trades(s: Spot, t: Order, k: Order, s1: Spot, t1: Order)
    requires Faces(s, t) != []
  {
    && s1.deals != []
    && var d := s1.deals[|s1.deals| - 1];
    && s1.deals == s.deals + [d] && d.id == s.dealId + 1 && Names(d, t, k) && FairLots(t, k, d.lots)
    && Charges(s.m, d) && Settled(s.m, s.bal, s1.bal, d)
    && t1.left == t.left - (if t.kind.MarketOrder? && !t.ask then d.cash else d.lots)
    && (if d.lots == k.left then Faces(s1, t) == Faces(s, t)[1..]
        else
          && Faces(s1, t) != [] && Faces(s1, t)[1..] == Faces(s, t)[1..]
          && var k1 := Faces(s1, t)[0];
          k1.left == k.left - d.lots && k1.id == k.id && k1.price == k.price && k1.user == k.user)
  }

  lemma BestIsFirst(s: Spot, t: Order, last: int)
    requires Ordered(s, last) && Faces(s, t) != []
    ensures IsBest(Faces(s, t), Faces(s, t)[0], t.ask)
  {
    BestIsAhead(Faces(s, t), last);
    assert Faces(s, t)[0] in Faces(s, t);
  }

  lemma LotsAreFair(t: Order, k: Order)
    requires k.price > 0 && t.left >= 0 && k.left > 0
    ensures t.kind.MarketOrder? && !t.ask && LotsWith(t, k) == 0 ==> t.left < k.price
    ensures LotsWith(t, k) > 0 ==> FairLots(t, k, LotsWith(t, k))
  {
    if t.kind.MarketOrder? && !t.ask {
      MoneyBuys(t.left, k.price, t.left / k.price, LotsWith(t, k));
    }
  }

  lemma MoneyBuys(left: int, price: int, q: int, lots: int)
    requires price > 0 && left >= 0 && q == left / price && lots <= q
    ensures q >= 0 && lots * price <= left < (q + 1) * price
    ensures q == 0 ==> left < price
  {
    RestBuysNothing(left, price);
    assert price * q == q * price && (q + 1) * price == q * price + price;
    ScaleIsLinear(lots, q, price);
    if q < 0 { ScaleIsLinear(q, -1, price); }
  }

  lemma RoundTrades(s: Spot, t: Order, c: Origin)
    requires Good(s, [], c) && Able(s, t) && !Stops(s, t) && !Sweeps(t, Opposite(s, t)[0])
    ensures var r := Step(s, t); Trades(s, t, Faces(s, t)[0], r.0, r.1)
  {
    hide Good, Able, Pay, Settled, Charges, FeeOn, Held, Terms;
    var book := Opposite(s, t);
    var k, rest := book[0], book[1..];
    var s1 := WithOpposite(s, t, rest);
    PopKeeps(s, t, c);
    StaysAble(s, s1, t);
    AbleIsPositive(s, t);
    LotsAreDealable(s1, t, k);
    var lots := LotsWith(t, k);
    UsedUpHoldsNothing(s.m, k, lots);
    LotsAreFair(t, k);
    FillIgnoresBooks(s, t, k, lots, rest);
    FillSettlesDeal(s1, t, k, lots, c);
  }

  lemma AbleIsPositive(s: Spot, t: Order)
    requires Able(s, t)
    ensures t.left >= 0
  {
  }

  /** A maker that is used up holds nothing that could be thawed. */
  lemma UsedUpHoldsNothing(m: Market, k: Order, lots: int)
    requires Resting(m, k)
    ensures k.price > 0 && (lots == k.left ==> k.freeze == if k.ask then lots else k.price * lots)
  {
  }

  /** Every matching loop, of whatever taker in whatever reachable book, is fair to the end. */
  lemma {:induction false} MatchIsFair(s: Spot, t: Order, c: Origin, last: int)
    requires Good(s, [], c) && Able(s, t) && Ordered(s, last)
    ensures Fair(s, t)
    decreases |Opposite(s, t)|, if Stops(s, t) then 0 else 1
  {
    hide Step, Good, Able, Ordered, Trades, Returned;
    if Faces(s, t) != [] && t.left != 0 {
      BestIsFirst(s, t, last);
      var k := Faces(s, t)[0];
      if !Stops(s, t) {
        StepKeeps(s, t, c);
        StepShrinks(s, t);
        StepKeepsOrder(s, t, last);
        var r := Step(s, t);
        if Sweeps(t, k) { SweepReturns(s, t, c); } else { RoundTrades(s, t, c); }
        MatchIsFair(r.0, r.1, c, last);
      } else if Crosses(t, k) {
        PopKeeps(s, t, c);
        AbleIsPositive(s, t);
        LotsAreFair(t, k);
      }
    }
  }

  lemma SweepReturns(s: Spot, t: Order, c: Origin)
    requires Good(s, [], c) && !Stops(s, t) && Sweeps(t, Opposite(s, t)[0])
    ensures var r := Step(s, t); var book := Faces(s, t);
            && r.1 == t && r.0.deals == s.deals && Faces(r.0, t) == book[1..]
            && Returned(s.m, s.bal, r.0.bal, book[0])
  {
    hide Good, Returned, Thaw;
    PopKeeps(s, t, c);
    ThawReturns(WithOpposite(s, t, Opposite(s, t)[1..]), Opposite(s, t)[0], c);
  }
}
