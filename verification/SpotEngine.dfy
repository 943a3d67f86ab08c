/** The spot functions of me_market.c that update the market in place, each proved to make
    exactly the step of the spot state machine. */
module SpotEngine {
  import opened Ledger
  import opened Spot

  class Engine {
    const m: Market
    const accounts: Accounts
    /** mpd_div followed by mpd_rescale: some lot count that is at least the exact quotient. */
    const divide: (int, int) -> int
    var asks: Book
    var bids: Book
    var orderId: nat
    var dealId: nat
    var deals: seq<Deal>
    ghost var stockFees: real
    ghost var moneyFees: real
    ghost var denied: bool

    ghost function View(): Spot
      reads this, accounts
    {
      Spot(m, accounts.assets, asks, bids, accounts.dict, orderId, dealId, deals, stockFees, moneyFees, denied)
    }

    ghost predicate DividesUp() {
      forall a, b {:trigger divide(a, b)} :: b > 0 ==> divide(a, b) >= a / b
    }

    constructor (m: Market, accounts: Accounts, divide: (int, int) -> int)
      ensures this.m == m && this.accounts == accounts && this.divide == divide
      ensures View() == Spot(m, accounts.assets, [], [], accounts.dict, 0, 0, [], 0.0, 0.0, false)
    {
      this.m, this.accounts, this.divide := m, accounts, divide;
      asks, bids, orderId, dealId, deals := [], [], 0, 0, [];
      stockFees, moneyFees, denied := 0.0, 0.0, false;
    }

    // ----- order_put, order_finish

    method OrderPut(o: Order)
      modifies this, accounts
      ensures View() == Put(old(View()), o)
    {
      hide Insert;
      var frozen;
      if o.ask {
        var o1 := o.(freeze := o.left);
        asks := Insert(asks, o1);
        frozen := accounts.FreezeAmount(o.user, m.stock, StockVal(m, o.left));
      } else {
        var cost := o.price * o.left;
        bids := Insert(bids, o.(freeze := cost));
        frozen := accounts.FreezeAmount(o.user, m.money, MoneyVal(m, cost));
      }
      denied := denied || !frozen;
    }

    /** order_finish for an order that has just been taken out of the book. */
    method OrderFinish(o: Order)
      modifies this, accounts
      ensures View() == Thaw(old(View()), o)
    {
      if o.freeze > 0 {
        var thawed;
        if o.ask {
          thawed := accounts.UnfreezeAmount(o.user, m.stock, StockVal(m, o.freeze));
        } else {
          thawed := accounts.UnfreezeAmount(o.user, m.money, MoneyVal(m, o.freeze));
        }
        denied := denied || !thawed;
      }
    }

    // ----- the ledger part of one deal

    method Settle(p: Payment)
      modifies this, accounts
      ensures var r := Pay(accounts.assets, old(accounts.dict), p);
              View() == old(View()).(bal := r.bal, denied := old(denied) || !r.ok)
    {
      var gave := accounts.SubFrom(p.out, p.give);
      var got := accounts.AddTo(p.into, p.get);
      var charged := true;
      if p.fee > 0.0 {
        charged := accounts.SubFrom(p.into, p.fee);
      }
      denied := denied || !(gave && got && charged);
    }

    /** A deal in which the taker sells: stock from the taker's available balance, money from
        what the maker froze. */
    method AskDeal(taker: Order, maker: Order, lots: int) returns (t: Order, k: Order)
      requires taker.ask && !maker.ask
      modifies this, accounts
      ensures var f := Fill(old(View()), taker, maker, lots);
              View() == f.s && t == f.taker && k == f.maker
    {
      hide Pay, FeeOn;
      var cash := maker.price * lots;
      var askFee := FeeOn(m, MoneyVal(m, cash), taker.takerFee);
      var bidFee := FeeOn(m, StockVal(m, lots), maker.makerFee);
      dealId := dealId + 1;
      deals := deals + [Deal(dealId, true, Party(taker.id, taker.user, taker.takerFee),
                             Party(maker.id, maker.user, maker.makerFee), maker.price, lots, cash, askFee, bidFee)];
      t := taker.(left := taker.left - lots, dealStock := taker.dealStock + lots,
                  dealMoney := taker.dealMoney + cash, dealFee := taker.dealFee + askFee);
      Settle(Payment(Key(taker.user, Available, m.stock), StockVal(m, lots),
                     Key(taker.user, Available, m.money), MoneyVal(m, cash), askFee));
      k := maker.(left := maker.left - lots, freeze := maker.freeze - cash, dealStock := maker.dealStock + lots,
                  dealMoney := maker.dealMoney + cash, dealFee := maker.dealFee + bidFee);
      Settle(Payment(Key(maker.user, Freeze, m.money), MoneyVal(m, cash),
                     Key(maker.user, Available, m.stock), StockVal(m, lots), bidFee));
      stockFees, moneyFees := stockFees + bidFee, moneyFees + askFee;
    }

    /** A deal in which the taker buys; a market buy counts its rest in money. */
    method BidDeal(taker: Order, maker: Order, lots: int) returns (t: Order, k: Order)
      requires !taker.ask && maker.ask
      modifies this, accounts
      ensures var f := Fill(old(View()), taker, maker, lots);
              View() == f.s && t == f.taker && k == f.maker
    {
      hide Pay, FeeOn;
      var cash := maker.price * lots;
      var askFee := FeeOn(m, MoneyVal(m, cash), maker.makerFee);
      var bidFee := FeeOn(m, StockVal(m, lots), taker.takerFee);
      dealId := dealId + 1;
      deals := deals + [Deal(dealId, false, Party(maker.id, maker.user, maker.makerFee),
                             Party(taker.id, taker.user, taker.takerFee), maker.price, lots, cash, askFee, bidFee)];
      t := taker.(left := taker.left - (if taker.kind.MarketOrder? then cash else lots), dealStock := taker.dealStock + lots,
                  dealMoney := taker.dealMoney + cash, dealFee := taker.dealFee + bidFee);
      Settle(Payment(Key(taker.user, Available, m.money), MoneyVal(m, cash),
                     Key(taker.user, Available, m.stock), StockVal(m, lots), bidFee));
      k := maker.(left := maker.left - lots, freeze := maker.freeze - lots, dealStock := maker.dealStock + lots,
                  dealMoney := maker.dealMoney + cash, dealFee := maker.dealFee + askFee);
      Settle(Payment(Key(maker.user, Freeze, m.stock), StockVal(m, lots),
                     Key(maker.user, Available, m.money), MoneyVal(m, cash), askFee));
      stockFees, moneyFees := stockFees + bidFee, moneyFees + askFee;
    }

    // ----- the matchers

    /** The correction loop of execute_market_bid_order: from a lot count that may be too
        large down to the largest one the money buys. */
    method AffordableLots(money: int, price: int, guess: int) returns (lots: int)
      requires price > 0 && guess >= money / price
      ensures lots == money / price
      ensures lots * price <= money < (lots + 1) * price
    {
      lots := guess;
      while lots * price > money
        invariant lots >= money / price
        decreases lots - money / price
      {
        AboveCostIsAbove(money, price, lots);
        lots := lots - 1;
      }
      FitIsLargest(money, price, lots);
    }

    static lemma LeqOfProducts(x: int, y: int, c: int)
      requires c > 0 && x * c <= y * c
      ensures x <= y
    {
      assert (y - x) * c >= 0;
    }

    static lemma AboveCostIsAbove(money: int, price: int, lots: int)
      requires price > 0 && lots * price > money
      ensures lots > money / price
    {
      RestBuysNothing(money, price);
      var q := money / price;
      assert (q + 1) * price == price * q + price;
      assert q * price + 1 <= lots * price;
      LeqOfProducts(q, lots, price);
    }

    static lemma FitIsLargest(money: int, price: int, lots: int)
      requires price > 0 && lots >= money / price && lots * price <= money
      ensures lots == money / price && money < (lots + 1) * price
    {
      RestBuysNothing(money, price);
      var q := money / price;
      assert (q + 1) * price == price * q + price;
      assert lots * price <= (q + 1) * price - 1;
      assert lots * price == price * lots;
      LeqOfProducts(lots, q + 1, price);
    }

    method LotsToTrade(taker: Order, maker: Order) returns (lots: int)
      requires DividesUp()
      ensures lots == LotsWith(taker, maker)
    {
      if taker.kind.MarketOrder? && !taker.ask {
        if maker.price <= 0 {
          return 0;
        }
        lots := AffordableLots(taker.left, maker.price, divide(taker.left, maker.price));
        if lots > maker.left {
          lots := maker.left;
        }
      } else {
        lots := if taker.left < maker.left then taker.left else maker.left;
      }
    }

    /** A deal with the best maker, which leaves the book when it is used up. */
    method TradeWithBest(taker: Order, lots: int) returns (t: Order)
      requires Opposite(View(), taker) != [] && Opposite(View(), taker)[0].ask != taker.ask
      requires !Sweeps(taker, Opposite(View(), taker)[0]) && lots == LotsWith(taker, Opposite(View(), taker)[0])
      modifies this, accounts
      ensures (View(), t) == Step(old(View()), taker)
    {
      hide Fill;
      var maker := (if taker.ask then bids else asks)[0];
      if taker.ask {
        t, maker := AskDeal(taker, maker, lots);
      } else {
        t, maker := BidDeal(taker, maker, lots);
      }
      DropBest(taker.ask);
      if maker.left == 0 {
        OrderFinish(maker);
      } else if taker.ask {
        bids := [maker] + bids;
      } else {
        asks := [maker] + asks;
      }
    }

    /** One round of a matcher's loop against the best maker, whose price is accepted. */
    method Round(taker: Order) returns (t: Order, stop: bool)
      requires Opposite(View(), taker) != [] && taker.left != 0 && Crosses(taker, Opposite(View(), taker)[0])
      requires Sided(View()) && DividesUp()
      modifies this, accounts
      ensures stop == Stops(old(View()), taker)
      ensures stop ==> View() == old(View()) && t == taker
      ensures !stop ==> (View(), t) == Step(old(View()), taker)
    {
      hide Fill, LotsWith;
      var maker := (if taker.ask then bids else asks)[0];
      assert maker in Opposite(View(), taker);
      t, stop := taker, false;
      if taker.mm != NotMM && maker.mm == MMCancel {
        DropBest(taker.ask);
        OrderFinish(maker);
        return;
      }
      var lots := LotsToTrade(taker, maker);
      if taker.kind.MarketOrder? && !taker.ask && lots == 0 {
        stop := true;
        return;
      }
      t := TradeWithBest(taker, lots);
    }

    method DropBest(fromBids: bool)
      requires (if fromBids then bids else asks) != []
      modifies this
      ensures View() == old(View()).(bids := if fromBids then old(bids)[1..] else old(bids),
                                     asks := if fromBids then old(asks) else old(asks)[1..])
    {
      if fromBids {
        bids := bids[1..];
      } else {
        asks := asks[1..];
      }
    }

    /** The loop of the four matchers. */
    method Execute(order: Order) returns (t: Order)
      requires Sided(View()) && DividesUp()
      modifies this, accounts
      ensures (View(), t) == Match(old(View()), order) && Sided(View())
    {
      hide Step, Fill, Thaw;
      t := order;
      var stop := false;
      while !stop && (if t.ask then bids else asks) != [] && t.left != 0
            && Crosses(t, (if t.ask then bids else asks)[0])
        invariant Sided(View())
        invariant Match(View(), t) == Match(old(View()), order)
        invariant stop ==> Stops(View(), t)
        decreases !stop, |if t.ask then bids else asks|, if Stops(View(), t) then 0 else 1
      {
        ghost var before, was := View(), t;
        if !Stops(before, was) {
          StepShrinks(before, was);
          StepSided(before, was);
        }
        t, stop := Round(t);
      }
    }

    static lemma StepSided(s: Spot, t: Order)
      requires Sided(s) && !Stops(s, t)
      ensures Sided(Step(s, t).0)
    {
      hide Pay;
      var k := Opposite(s, t)[0];
      assert k in Opposite(s, t);
      assert Fill(s, t, k, LotsWith(t, k)).maker.ask == k.ask;
    }

    // ----- market_put_limit_order, market_put_market_order

    method PutLimitOrder(a: Args) returns (reply: Reply)
      requires Sided(View()) && DividesUp()
      modifies this, accounts
      ensures (View(), reply) == PutLimit(old(View()), a)
    {
      hide Match, Put;
      var k, require;
      if a.ask {
        k, require := Key(a.user, Available, m.stock), StockVal(m, a.amount);
      } else {
        k, require := Key(a.user, Available, m.money), MoneyVal(m, a.price * a.amount);
      }
      if k !in accounts.dict || accounts.dict[k] < require {
        return Rejected(-1);
      }
      if a.amount < m.minAmount {
        return Rejected(-2);
      }
      orderId := orderId + 1;
      var order := Execute(NewOrder(orderId, a, Limit));
      if order.left != 0 {
        OrderPut(order);
      }
      return Accepted;
    }

    method PutMarketOrder(a: Args) returns (reply: Reply)
      requires Sided(View()) && DividesUp()
      modifies this, accounts
      ensures (View(), reply) == PutMarket(old(View()), a)
    {
      hide Match;
      var k, need;
      if a.ask {
        k, need := Key(a.user, Available, m.stock), StockVal(m, a.amount);
      } else {
        k, need := Key(a.user, Available, m.money), MoneyVal(m, a.amount);
      }
      if k !in accounts.dict || accounts.dict[k] < need {
        return Rejected(-1);
      }
      if a.ask {
        if bids == [] {
          return Rejected(-3);
        }
        if a.amount < m.minAmount {
          return Rejected(-2);
        }
      } else {
        if asks == [] {
          return Rejected(-3);
        }
        if a.amount < asks[0].price * m.minAmount {
          return Rejected(-2);
        }
      }
      orderId := orderId + 1;
      var order := Execute(NewOrder(orderId, a, MarketOrder));
      return Accepted;
    }

    // ----- market_cancel_all_order

    method CancelAllOrders()
      modifies this, accounts
      ensures View() == CancelAll(old(View()))
    {
      hide Thaw;
      while asks != []
        invariant FinishAsks(View()) == FinishAsks(old(View()))
        decreases |asks|
      {
        var order := asks[0];
        DropBest(false);
        OrderFinish(order);
      }
      while bids != []
        invariant FinishBids(View()) == CancelAll(old(View()))
        decreases |bids|
      {
        var order := bids[0];
        DropBest(true);
        OrderFinish(order);
      }
    }
  }
}
