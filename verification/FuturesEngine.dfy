/** The engine that updates all of this in place: the fields of one market together with
    the global dictionaries, and the functions of me_market.c and me_liquidation.c that
    change them, each proved to make exactly the step of the state machine. */
module FuturesEngine {
  import opened Common
  import opened Ledger
  import opened Futures

  class Engine {
    const accounts: Accounts
    const money: nat
    var asks: Book
    var bids: Book
    var orders: set<nat>
    var users: IdLists
    var userOrders: IdLists
    var pos: map<PKey, Pos>
    var modes: map<nat, Mode>
    var latest: real
    var orderId: nat
    var dealId: nat
    var posId: nat
    var deals: seq<Deal>
    ghost var fault: bool
    ghost var denied: bool

    ghost function View(): State
      reads this, accounts
    {
      State(accounts.assets, money, asks, bids, orders, users, userOrders, pos, modes, accounts.dict,
            latest, orderId, dealId, posId, deals, fault, denied)
    }

    constructor (accounts: Accounts, money: nat)
      ensures this.accounts == accounts && this.money == money
      ensures View() == State(accounts.assets, money, [], [], {}, map[], map[], map[], map[], accounts.dict,
                              0.0, 0, 0, 0, [], false, false)
    {
      this.accounts, this.money := accounts, money;
      asks, bids, orders, users, userOrders := [], [], {}, map[], map[];
      pos, modes, latest, orderId, dealId, posId, deals := map[], map[], 0.0, 0, 0, 0, [];
      fault, denied := false, false;
    }

    // ----- order_put_future, order_finish_future

    method OrderPut(o: Order)
      modifies this
      ensures View() == Put(old(View()), o)
    {
      hide Insert, AddToList;
      if o.id in orders {
        return;
      }
      orders := orders + {o.id};
      users := AddToList(users, o.user, o.id);
      userOrders := AddToList(userOrders, o.user, o.id);
      if Sells(o) {
        asks := Insert(asks, o);
      } else {
        bids := Insert(bids, o);
      }
    }

    method OrderFinish(o: Order)
      modifies this
      ensures View() == Finish(old(View()), o)
    {
      hide Remove, DropFromList;
      if Sells(o) {
        asks := Remove(asks, o.id);
      } else {
        bids := Remove(bids, o.id);
      }
      orders := orders - {o.id};
      users := DropFromList(users, o.user, o.id);
      userOrders := DropFromList(userOrders, o.user, o.id);
    }

    // ----- adjustOrder, adjustPosition, adjustBalance for one party of a deal

    method AdjustOrder(o: Order, amount: int, price: real, feeRate: real) returns (r: Order, fee: real)
      ensures fee == Fee(amount, feeRate)
      ensures r == FillOrder(o, amount, price, fee)
    {
      r := o.(left := o.left - amount);
      fee := amount as real * feeRate;
      r := r.(dealFee := r.dealFee + fee);
      var pri := Div(amount as real, r.leverage);
      r := r.(dealStock := r.dealStock + (pri - fee));
      r := r.(dealMoney := r.dealMoney + price * amount as real);
    }

    method AdjustPosition(o: Order, amount: int, price: real, fee: real) returns (r: Order, payout: real)
      modifies this
      ensures var t := TradeParty(old(View()), o, amount, price, fee);
              View() == t.s && r == t.o && payout == t.payout
    {
      hide TradeOn;
      var k := KeyOf(o);
      var pri := Div(amount as real, o.leverage);
      var profit;
      var p;
      if k !in pos {
        fault := fault || o.oper.Close?;
        posId := posId + 1;
        p := CreatePosition(posId, o, amount, price, fee, pri);
        payout, profit := 0.0, 0.0;
      } else {
        p, payout, profit := TradePosition(pos[k], posId + 1, o, amount, price, fee, pri);
      }
      r := o.(pnl := o.pnl + profit);
      pos := pos[k := p];
      if p.position == 0 && p.frozen == 0 {
        pos := pos - {k};
      }
      assert pos == SetPos(old(pos), k, Kept(p));
    }

    /** add_position for an order whose user holds nothing on its side. */
    method CreatePosition(id: nat, o: Order, amount: int, price: real, fee: real, pri: real) returns (p: Pos)
      ensures TradeOn(None, id, o, amount, price, fee, pri) == Traded(Kept(p), 0.0, 0.0, o.oper.Close?)
    {
      p := Pos(id, o.pattern, o.leverage, amount, 0, price, pri - fee);
    }

    /** The two branches for a position that exists. */
    method TradePosition(before: Pos, ghost newId: nat, o: Order, amount: int, price: real, fee: real, pri: real)
      returns (p: Pos, payout: real, profit: real)
      ensures TradeOn(Some(before), newId, o, amount, price, fee, pri) == Traded(Kept(p), payout, profit, false)
    {
      hide Equity, PartProfit;
      p, payout, profit := before, 0.0, 0.0;
      var total := Total(p) as real;
      if o.oper.Open? {
        var sum := p.price * total;
        p := p.(principal := p.principal + pri);
        p := p.(principal := p.principal - fee);
        var newPrice := Div(price * amount as real + sum, amount as real + total);
        p := p.(position := p.position + amount);
        p := p.(price := newPrice);
        assert p == OpenPos(before, amount, price, fee, pri);
      } else {
        payout := Equity(o.side, p, price);
        profit := PartProfit(o.side, p, amount, price);
        payout := payout * amount as real;
        payout := Div(payout, total);
        assert payout == Payout(o.side, before, amount, price);
        var released := amount as real * p.principal;
        released := Div(released, total);
        assert released == ReleasedPrincipal(before, amount);
        p := p.(principal := p.principal - released);
        if Total(p) - amount == 0 {
          p := p.(frozen := 0, position := 0);
        } else {
          p := p.(frozen := p.frozen - amount);
        }
      }
    }

    method AdjustBalance(o: Order, amount: int, payout: real, fee: real) returns (r: Order)
      modifies this, accounts
      ensures var t := SettleParty(old(View()), o, amount, payout, fee);
              View() == t.0 && r == t.1
    {
      var available := Key(o.user, Available, money);
      r := o;
      if o.oper.Open? {
        var pri := Div(amount as real, o.leverage);
        var thawed, debited := o.leverage != 0.0, o.leverage != 0.0;
        if o.kind.Limit? && o.leverage != 0.0 {
          thawed := accounts.UnfreezeAmount(o.user, money, pri);
        }
        if o.leverage != 0.0 {
          debited := accounts.SubFrom(available, pri);
        }
        r := r.(freeze := r.freeze - pri);
        denied := denied || !(thawed && debited);
      } else if !o.isblast {
        var added := accounts.AddTo(available, payout);
        var charged := accounts.SubFrom(available, fee);
      }
    }

    /** adjustOrder and adjustPosition of both parties. */
    method TradeBoth(taker: Order, maker: Order, amount: int, price: real)
      returns (t: Order, m: Order, tPay: real, mPay: real)
      modifies this
      ensures Flow(View(), t, m, tPay, mPay) == Exchange(old(View()), taker, maker, amount, price)
    {
      hide TradeParty, FillOrder;
      var tFee, mFee;
      t, tFee := AdjustOrder(taker, amount, price, taker.takerFee);
      m, mFee := AdjustOrder(maker, amount, price, maker.makerFee);
      t, tPay := AdjustPosition(t, amount, price, tFee);
      m, mPay := AdjustPosition(m, amount, price, mFee);
    }

    /** adjustBalance of both parties. */
    method PayBoth(taker: Order, maker: Order, amount: int, tPay: real, mPay: real) returns (t: Order, m: Order)
      modifies this, accounts
      ensures Filled(View(), t, m) == Pay(Flow(old(View()), taker, maker, tPay, mPay), amount)
    {
      hide SettleParty;
      t := AdjustBalance(taker, amount, tPay, Fee(amount, taker.takerFee));
      m := AdjustBalance(maker, amount, mPay, Fee(amount, maker.makerFee));
    }

    /** execute_order_open_imp: one deal between a taker and a maker. */
    method ExecuteDeal(taker: Order, maker: Order, amount: int, price: real) returns (t: Order, m: Order)
      modifies this, accounts
      ensures var f := Fill(old(View()), taker, maker, amount, price);
              View() == f.s && t == f.taker && m == f.maker
    {
      hide Exchange, Pay;
      latest := price;
      var tPay, mPay;
      t, m, tPay, mPay := TradeBoth(taker, maker, amount, price);
      t, m := PayBoth(t, m, amount, tPay, mPay);
      dealId := dealId + 1;
      deals := deals + [Report(dealId, price, amount, taker, maker)];
    }

    // ----- execute_order

    /** The body of the matching loop, once the best maker's price is accepted. */
    method ExecuteRound(taker: Order) returns (t: Order)
      requires Sided(View()) && Opposite(View(), taker) != []
      modifies this, accounts
      ensures (View(), t) == Step(old(View()), taker)
      ensures Sided(View())
    {
      hide Fill, Finish;
      var book := if Sells(taker) then bids else asks;
      var maker := book[0];
      var amount := if taker.left < maker.left then taker.left else maker.left;
      t, maker := ExecuteDeal(taker, maker, amount, maker.price);
      if Sells(taker) {
        bids := [maker] + book[1..];
      } else {
        asks := [maker] + book[1..];
      }
      assert View() == WithOpposite(Fill(old(View()), taker, book[0], amount, book[0].price).s, taker, [maker] + book[1..]);
      if maker.left == 0 {
        OrderFinish(maker);
      }
    }

    method ExecuteOrder(order: Order)
      requires Sided(View())
      modifies this, accounts
      ensures Sided(View()) && View() == Execute(old(View()), order)
    {
      hide Step, Finish, Put, Cancel;
      var taker := order;
      var matching := true;
      while matching && (if Sells(taker) then bids else asks) != []
        invariant Sided(View())
        invariant Match(View(), taker) == Match(old(View()), order)
        invariant !matching ==> Match(View(), taker) == (View(), taker)
        decreases matching, |if Sells(taker) then bids else asks|
      {
        var maker := (if Sells(taker) then bids else asks)[0];
        if taker.left == 0 || !Crosses(taker, maker) {
          matching := false;
        } else {
          StepShrinksBook(View(), taker);
          taker := ExecuteRound(taker);
          if taker.left == 0 {
            matching := false;
          }
        }
      }
      if taker.left == 0 {
        OrderFinish(taker);
      } else if taker.kind.Limit? {
        OrderPut(taker);
      } else {
        CancelOrder(taker);
      }
    }

    // ----- market_cancel_order

    /** The closing amount of a cancelled order goes back to the position. */
    method ReturnFrozen(o: Order)
      modifies this
      ensures View() == if o.oper.Close? && o.left > 0 then ThawPosition(old(View()), KeyOf(o), o.left) else old(View())
    {
      if o.oper.Close? && o.left > 0 {
        var k := KeyOf(o);
        if k in pos {
          pos := pos[k := pos[k].(frozen := pos[k].frozen - o.left, position := pos[k].position + o.left)];
        } else {
          fault := true;
        }
      }
    }

    method CancelOrder(o: Order)
      modifies this, accounts
      ensures View() == Cancel(old(View()), o)
    {
      hide ThawPosition, Finish;
      if o.oper.Open? && o.freeze > 0.0 {
        var thawed := accounts.UnfreezeAmount(o.user, money, o.freeze);
        if !thawed {
          denied := true;
          return;
        }
      }
      ReturnFrozen(o);
      OrderFinish(o);
    }

    // ----- market_put_order_open, market_put_order_close

    /** The position mode is created, adjusted while the user is idle, or left alone; the
        result is the leverage that the margin is computed with. */
    method SelectMode(a: Args) returns (orderLeverage: real, marginLeverage: real)
      modifies this
      ensures View() == old(View()).(modes := ModeAfter(old(View()), a))
      ensures orderLeverage == OrderLeverage(old(View()), a) && marginLeverage == MarginLeverage(old(View()), a)
    {
      orderLeverage, marginLeverage := a.leverage, a.leverage;
      var bull, bear := PKey(a.user, Bull), PKey(a.user, Bear);
      if bull in pos {
        orderLeverage := pos[bull].leverage;
        marginLeverage := orderLeverage;
      } else if bear in pos {
        orderLeverage := pos[bear].leverage;
        marginLeverage := orderLeverage;
      } else {
        if a.user !in modes || Ids(users, a.user) == [] {
          modes := modes[a.user := Mode(a.pattern, a.leverage)];
        }
        marginLeverage := modes[a.user].leverage;
      }
    }

    /** checkPriAndFee == 0 */
    method CheckMargin(a: Args, balance: real, pri: real) returns (ok: bool)
      ensures ok == CanAfford(View(), a, balance, pri)
    {
      if a.pattern.Isolated? {
        return balance >= pri;
      }
      var count, total := a.otherCross, a.otherPnl;
      var bear, bull := PKey(a.user, Bear), PKey(a.user, Bull);
      if bear in pos && pos[bear].pattern.Cross? {
        count, total := count + 1, total + Equity(Bear, pos[bear], latest);
      }
      if bull in pos && pos[bull].pattern.Cross? {
        count, total := count + 1, total + Equity(Bull, pos[bull], latest);
      }
      if count > 0 && total < 0.0 {
        return total + balance >= pri;
      }
      return balance >= pri;
    }

    method PutOrderOpen(a: Args) returns (reply: Reply)
      requires Sided(View())
      modifies this, accounts
      ensures (View(), reply) == PutOpen(old(View()), a)
      ensures Sided(View())
    {
      hide ModeAfter, OrderLeverage, MarginLeverage, CanAfford, Execute, DoFreeze;
      if a.kind.Limit? && a.price <= 0.0 {
        return Rejected(-1);
      }
      var available := Key(a.user, Available, money);
      if available !in accounts.dict || accounts.dict[available] <= 0.0 {
        return Rejected(-1);
      }
      var balance := accounts.dict[available];
      if !GoodVolume(a.volume) {
        return Rejected(-1);
      }
      var orderLeverage, marginLeverage := SelectMode(a);
      if a.user !in modes {
        fault := true;
        return Rejected(-1);
      }
      if modes[a.user].pattern != a.pattern {
        return Rejected(-1);
      }
      var pri := Div(a.volume, marginLeverage);
      var affordable := CheckMargin(a, balance, pri);
      if marginLeverage == 0.0 || !affordable {
        return Rejected(-1);
      }
      orderId := orderId + 1;
      var taker := NewOrder(orderId, a, Open, orderLeverage, 0.0);
      if a.kind.Limit? {
        var frozen := accounts.FreezeAmount(a.user, money, pri);
        if !frozen {
          return Rejected(-2);
        }
        taker := taker.(freeze := pri);
      }
      ExecuteOrder(taker);
      return Accepted;
    }

    method PutOrderClose(a: Args) returns (reply: Reply)
      requires Sided(View())
      modifies this, accounts
      ensures (View(), reply) == PutClose(old(View()), a)
      ensures Sided(View())
    {
      hide Execute;
      if a.kind.Limit? && a.price <= 0.0 {
        return Rejected(-1);
      }
      if !GoodVolume(a.volume) {
        return Rejected(-3);
      }
      var k := PKey(a.user, a.side);
      if k !in pos {
        return Rejected(-4);
      }
      if pos[k].position as real < a.volume {
        return Rejected(-5);
      }
      var leverage := pos[k].leverage;
      MoveToFrozen(k, a.volume.Floor);
      orderId := orderId + 1;
      ExecuteOrder(NewOrder(orderId, a, Close, leverage, 0.0));
      return Accepted;
    }

    method MoveToFrozen(k: PKey, amount: int)
      requires k in pos
      modifies this
      ensures View() == FreezePosition(old(View()), k, amount)
    {
      pos := pos[k := pos[k].(frozen := pos[k].frozen + amount)];
      pos := pos[k := pos[k].(position := pos[k].position - amount)];
    }

    // ----- isolated_liquidation

    /** The first order of the list that closes the given side. */
    method FindClose(ids: seq<nat>, side: Side) returns (o: Option<Order>)
      ensures o == FirstClose(View(), ids, side)
    {
      var i := 0;
      while i < |ids|
        invariant 0 <= i <= |ids|
        invariant FirstClose(View(), ids, side) == FirstClose(View(), ids[i..], side)
      {
        o := Find(asks, ids[i]);
        if o.None? {
          o := Find(bids, ids[i]);
        }
        if o.Some? && o.value.side == side && o.value.oper.Close? {
          return;
        }
        i := i + 1;
      }
      return None;
    }

    method IsolatedLiquidation(k: PKey) returns (done: bool)
      requires Sided(View())
      modifies this, accounts
      ensures View() == Liquidate(old(View()), k)
      ensures Sided(View())
    {
      hide Execute, Cancel, Equity, FirstClose;
      if k !in pos || !pos[k].pattern.Isolated? || latest <= 0.0 {
        return false;
      }
      if !Underwater(k.side, pos[k], latest) {
        return false;
      }
      var o := FindClose(Ids(users, k.user), k.side);
      while o.Some? && o.value.user == k.user
        invariant Sided(View())
        invariant o == FirstClose(View(), Ids(users, k.user), k.side)
        invariant CancelCloses(View(), k.user, k.side) == CancelCloses(old(View()), k.user, k.side)
        decreases |Ids(users, k.user)|
      {
        FirstCloseFinds(View(), Ids(users, k.user), k.side);
        CancelShrinksList(View(), o.value);
        CancelOrder(o.value);
        o := FindClose(Ids(users, k.user), k.side);
      }
      if k !in pos {
        fault := true;
        return true;
      }
      orderId := orderId + 1;
      var order := BlastOrder(orderId, k, pos[k]);
      MoveToFrozen(k, pos[k].position);
      ExecuteOrder(order);
      return true;
    }
  }
}
