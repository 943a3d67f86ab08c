/** A run on which the margin ledger does not balance: the second order asks for another
    leverage while the first one rests. */
module FuturesStranded {
  import opened Common
  import opened Ledger
  import opened Futures
  import opened FuturesOps
  import opened FuturesTheorems

  const AVAIL1 := Key(1, Available, 0)
  const FREEZE1 := Key(1, Freeze, 0)
  const AVAIL2 := Key(2, Available, 0)

  const START: State := State(
    map[0 := Exact], 0, [], [], {}, map[], map[], map[], map[], map[AVAIL1 := 10.0, AVAIL2 := 10.0],
    0.0, 0, 0, 0, [], false, false)

  /** User 1 buys one at price 1 with leverage 1. */
  const FIRST: Args := Args(1, Bull, Limit, Isolated, 1.0, 1.0, 1.0, 0.0, 0.0, 0, 0.0)
  /** User 1 buys two at price 2 with leverage 2. */
  const SECOND: Args := Args(1, Bull, Limit, Isolated, 2.0, 2.0, 2.0, 0.0, 0.0, 0, 0.0)
  /** User 2 sells two at the market. */
  const SALE: Args := Args(2, Bear, Market, Isolated, 0.0, 1.0, 2.0, 0.0, 0.0, 0, 0.0)

  function Rested(id: nat, a: Args, freeze: real): Order {
    NewOrder(id, a, Open, a.leverage, freeze)
  }

  const AFTER_FIRST: State := START.(
    bids := [Rested(1, FIRST, 1.0)], orders := {1}, users := map[1 := [1]], userOrders := map[1 := [1]],
    modes := map[1 := Mode(Isolated, 1.0)], orderId := 1,
    bal := map[AVAIL1 := 9.0, FREEZE1 := 1.0, AVAIL2 := 10.0])

  const AFTER_SECOND: State := AFTER_FIRST.(
    bids := [Rested(2, SECOND, 2.0), Rested(1, FIRST, 1.0)], orders := {1, 2},
    users := map[1 := [2, 1]], userOrders := map[1 := [2, 1]], orderId := 2,
    bal := map[AVAIL1 := 7.0, FREEZE1 := 3.0, AVAIL2 := 10.0])

  lemma FirstRests()
    ensures PutOpen(START, FIRST) == (AFTER_FIRST, Accepted)
  {
    var s1 := START.(modes := ModeAfter(START, FIRST), orderId := 1, bal := AFTER_FIRST.bal);
    assert DoFreeze(START.assets, START.bal, 1, 0, 1.0) == Outcome(true, AFTER_FIRST.bal);
    var t := Rested(1, FIRST, 1.0);
    assert Match(s1, t) == (s1, t);
    assert InsertId([], 1) == [1];
    var none: IdLists := map[];
    assert AddToList(none, 1, 1) == none[1 := [1]];
    assert Put(s1, t) == AFTER_FIRST;
  }

  lemma SecondRests()
    ensures PutOpen(AFTER_FIRST, SECOND) == (AFTER_SECOND, Accepted)
  {
    var s := AFTER_FIRST;
    assert !Idle(s, 1) && AnyPosition(s, 1).None?;
    assert ModeAfter(s, SECOND) == s.modes;
    assert DoFreeze(s.assets, s.bal, 1, 0, 2.0) == Outcome(true, AFTER_SECOND.bal);
    var s1 := s.(orderId := 2, bal := AFTER_SECOND.bal);
    var t := Rested(2, SECOND, 2.0);
    assert Match(s1, t) == (s1, t);
    assert Insert(s1.bids, t) == AFTER_SECOND.bids;
    assert InsertId([1], 2) == [2, 1];
    assert Put(s1, t) == AFTER_SECOND;
  }

  const SELLER: Order := NewOrder(3, SALE, Open, 1.0, 0.0)

  const AFTER_SALE: State := AFTER_SECOND.(
    bids := [Rested(1, FIRST, 1.0)], orders := {1}, orderId := 3,
    users := map[1 := [1]], userOrders := map[1 := [1]],
    modes := map[1 := Mode(Isolated, 1.0), 2 := Mode(Isolated, 1.0)],
    pos := map[PKey(2, Bear) := Pos(1, Isolated, 1.0, 2, 0, 2.0, 2.0),
               PKey(1, Bull) := Pos(2, Isolated, 2.0, 2, 0, 2.0, 1.0)],
    bal := map[AVAIL1 := 7.0, FREEZE1 := 2.0, AVAIL2 := 8.0],
    latest := 2.0, dealId := 1, posId := 2, 
    deals := [Deal(1, 2.0, 2, 3, 2, Leg(PKey(2, Bear), Open, Isolated, 1.0, 0.0),
                   Leg(PKey(1, Bull), Open, Isolated, 2.0, 0.0))])

  const MATCHING: State := AFTER_SECOND.(modes := AFTER_SALE.modes, orderId := 3)
  const MAKER: Order := Rested(2, SECOND, 2.0)
  const TRADED: Flow := Exchange(MATCHING.(latest := 2.0), SELLER, MAKER, 2, 2.0)

  lemma SaleTradesPositions()
    ensures TRADED.s == MATCHING.(latest := 2.0, pos := AFTER_SALE.pos, posId := 2)
    ensures TRADED.taker == SELLER.(left := 0, dealStock := 2.0, dealMoney := 4.0)
    ensures TRADED.maker == MAKER.(left := 0, dealStock := 1.0, dealMoney := 4.0)
  {
    var t := TradeParty(MATCHING.(latest := 2.0), FillOrder(SELLER, 2, 2.0, 0.0), 2, 2.0, 0.0);
    assert t.s.pos == map[PKey(2, Bear) := AFTER_SALE.pos[PKey(2, Bear)]] && t.s.posId == 1;
    var m := TradeParty(t.s, FillOrder(MAKER, 2, 2.0, 0.0), 2, 2.0, 0.0);
    assert m.s.pos == AFTER_SALE.pos && m.s.posId == 2;
  }

  lemma SalePays()
    ensures var p := Pay(TRADED, 2);
            && p.s == TRADED.s.(bal := AFTER_SALE.bal)
            && p.taker.left == 0 && p.maker.left == 0 && p.taker.id == 3
            && p.maker.id == 2 && p.maker.user == 1 && !Sells(p.maker) && p.taker.user == 2 && Sells(p.taker)
            && !p.taker.kind.Limit?
  {
    hide Exchange;
    SaleTradesPositions();
    var b := MATCHING.bal;
    var s1 := DebitMargin(TRADED.s, TRADED.taker, 2);
    assert s1.bal == b[AVAIL2 := 8.0] && !s1.denied;
    var s2 := DebitMargin(s1, TRADED.maker, 2);
    assert DoUnfreeze(s1.assets, s1.bal, 1, 0, 1.0) == Outcome(true, s1.bal[AVAIL1 := 8.0][FREEZE1 := 2.0]);
    assert s2.bal == AFTER_SALE.bal && !s2.denied;
  }

  const FILLED: Filled := Fill(MATCHING, SELLER, MAKER, 2, 2.0)

  lemma SaleFillsMaker()
    ensures FILLED.s == MATCHING.(latest := 2.0, pos := AFTER_SALE.pos, posId := 2, bal := AFTER_SALE.bal,
                                   dealId := 1, deals := AFTER_SALE.deals)
    ensures FILLED.taker == Pay(TRADED, 2).taker && FILLED.maker == Pay(TRADED, 2).maker
  {
    hide Exchange, Pay;
    SaleTradesPositions();
    SalePays();
  }

  lemma SaleLeavesBook(m: Order)
    requires m.id == 2 && m.user == 1 && !Sells(m)
    ensures var s := AFTER_SALE.(bids := [m, Rested(1, FIRST, 1.0)], orders := {1, 2},
                                users := AFTER_SECOND.users, userOrders := AFTER_SECOND.userOrders);
            Finish(s, m) == AFTER_SALE
  {
    var rest := [Rested(1, FIRST, 1.0)];
    assert Remove([m] + rest, 2) == rest by { assert ([m] + rest)[1..] == rest; }
    assert [m] + rest == [m, Rested(1, FIRST, 1.0)];
    assert RemoveId([2, 1], 2) == [1];
    assert DropFromList(MATCHING.users, 1, 2) == map[1 := [1]];
    assert {1, 2} - {2} == {1};
  }

  lemma SaleFinishes()
    ensures Match(MATCHING, SELLER) == (AFTER_SALE, Pay(TRADED, 2).taker)
  {
    hide Fill, Exchange, Pay, Finish;
    SaleFillsMaker();
    SalePays();
    var rest := [Rested(1, FIRST, 1.0)];
    assert MATCHING.bids == [MAKER] + rest && MATCHING.bids[1..] == rest;
    SaleLeavesBook(FILLED.maker);
    assert [FILLED.maker] + rest == [FILLED.maker, Rested(1, FIRST, 1.0)];
    assert Step(MATCHING, SELLER) == (AFTER_SALE, FILLED.taker);
  }

  lemma SaleFills()
    ensures PutOpen(AFTER_SECOND, SALE) == (AFTER_SALE, Accepted)
  {
    hide Match, Exchange, Pay;
    var s := AFTER_SECOND;
    assert AnyPosition(s, 2).None? && 2 !in s.modes;
    assert ModeAfter(s, SALE) == AFTER_SALE.modes;
    SaleFinishes();
    SalePays();
    assert {1} - {3} == {1};
    assert Finish(AFTER_SALE, Pay(TRADED, 2).taker) == AFTER_SALE;
    assert Execute(MATCHING, SELLER) == AFTER_SALE;
  }

  lemma LastCancelled()
    ensures var s := CancelById(AFTER_SALE, 1);
            s.asks == [] && s.bids == [] && Frozen(s.bal, 1, s.money) == 1.0
  {
    var o := Rested(1, FIRST, 1.0);
    assert Lookup(AFTER_SALE, 1) == Some(o);
    var b := DoUnfreeze(AFTER_SALE.assets, AFTER_SALE.bal, 1, 0, 1.0);
    assert b.ok && Frozen(b.bal, 1, 0) == 1.0;
    assert Remove(AFTER_SALE.bids, 1) == [];
  }

  /** After the last order is cancelled, one unit of user 1's money is frozen with no order resting. */
  lemma MarginCanStrand()
    ensures var s := Run(START, [OpenOrder(FIRST), OpenOrder(SECOND), OpenOrder(SALE), CancelOrder(1)]);
            && s.asks == [] && s.bids == [] && Frozen(s.bal, 1, s.money) == 1.0
    ensures Untouched(START)
    ensures !LeverageAgrees(AFTER_FIRST, SECOND)
  {
    hide PutOpen, CancelById;
    FirstRests();
    SecondRests();
    SaleFills();
    LastCancelled();
    RunOfFour(START, OpenOrder(FIRST), OpenOrder(SECOND), OpenOrder(SALE), CancelOrder(1));
  }
}
