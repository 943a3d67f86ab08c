/** A run on which a position is opened that nobody pays for: the market order names another
    leverage than the mode that its margin is checked with. */
module FuturesUnpaid {
  import opened Common
  import opened Ledger
  import opened Futures
  import opened FuturesOps
  import opened FuturesTheorems

  const AVAIL1 := Key(1, Available, 0)
  const FREEZE1 := Key(1, Freeze, 0)
  const AVAIL2 := Key(2, Available, 0)
  const FREEZE2 := Key(2, Freeze, 0)

  const START: State := State(
    map[0 := Exact], 0, [], [], {}, map[], map[], map[], map[], map[AVAIL1 := 10.0, AVAIL2 := 100.0],
    0.0, 0, 0, 0, [], false, false)

  /** User 1 bids for one at price 1 with leverage 10. */
  const BID: Args := Args(1, Bull, Limit, Isolated, 1.0, 10.0, 1.0, 0.0, 0.0, 0, 0.0)
  /** User 2 offers fifty at price 5 with leverage 1. */
  const OFFER: Args := Args(2, Bear, Limit, Isolated, 5.0, 1.0, 50.0, 0.0, 0.0, 0, 0.0)
  /** User 1 buys fifty at the market, naming leverage 1. */
  const GRAB: Args := Args(1, Bull, Market, Isolated, 0.0, 1.0, 50.0, 0.0, 0.0, 0, 0.0)

  const RESTING_BID: Order := NewOrder(1, BID, Open, 10.0, 0.1)
  const RESTING_OFFER: Order := NewOrder(2, OFFER, Open, 1.0, 50.0)
  const BUYER: Order := NewOrder(3, GRAB, Open, 1.0, 0.0)

  const AFTER_BID: State := START.(
    bids := [RESTING_BID], orders := {1}, users := map[1 := [1]], userOrders := map[1 := [1]],
    modes := map[1 := Mode(Isolated, 10.0)], orderId := 1,
    bal := map[AVAIL1 := 9.9, FREEZE1 := 0.1, AVAIL2 := 100.0])

  const AFTER_OFFER: State := AFTER_BID.(
    asks := [RESTING_OFFER], orders := {1, 2}, users := map[1 := [1], 2 := [2]],
    userOrders := map[1 := [1], 2 := [2]], modes := map[1 := Mode(Isolated, 10.0), 2 := Mode(Isolated, 1.0)],
    orderId := 2, bal := map[AVAIL1 := 9.9, FREEZE1 := 0.1, AVAIL2 := 50.0, FREEZE2 := 50.0])

  lemma BidRests()
    ensures PutOpen(START, BID) == (AFTER_BID, Accepted)
  {
    assert DoFreeze(START.assets, START.bal, 1, 0, 0.1) == Outcome(true, AFTER_BID.bal);
    var s1 := START.(modes := ModeAfter(START, BID), orderId := 1, bal := AFTER_BID.bal);
    assert Match(s1, RESTING_BID) == (s1, RESTING_BID);
    assert InsertId([], 1) == [1];
    var none: IdLists := map[];
    assert AddToList(none, 1, 1) == none[1 := [1]];
    assert Put(s1, RESTING_BID) == AFTER_BID;
  }

  lemma OfferRests()
    ensures PutOpen(AFTER_BID, OFFER) == (AFTER_OFFER, Accepted)
  {
    var s := AFTER_BID;
    assert DoFreeze(s.assets, s.bal, 2, 0, 50.0) == Outcome(true, AFTER_OFFER.bal);
    var s1 := s.(modes := ModeAfter(s, OFFER), orderId := 2, bal := AFTER_OFFER.bal);
    assert Match(s1, RESTING_OFFER) == (s1, RESTING_OFFER);
    assert InsertId([], 2) == [2];
    assert AddToList(s.users, 2, 2) == AFTER_OFFER.users;
    assert {1} + {2} == {1, 2};
    assert Put(s1, RESTING_OFFER) == AFTER_OFFER;
  }

  const MATCHING: State := AFTER_OFFER.(orderId := 3)
  const TRADED: Flow := Exchange(MATCHING.(latest := 5.0), BUYER, RESTING_OFFER, 50, 5.0)

  lemma BothTrade()
    ensures TRADED.s == MATCHING.(
              latest := 5.0, posId := 2,
              pos := map[PKey(1, Bull) := Pos(1, Isolated, 1.0, 50, 0, 5.0, 50.0),
                         PKey(2, Bear) := Pos(2, Isolated, 1.0, 50, 0, 5.0, 50.0)])
    ensures TRADED.taker.left == 0 && TRADED.maker.left == 0
  {
    var t := TradeParty(MATCHING.(latest := 5.0), FillOrder(BUYER, 50, 5.0, 0.0), 50, 5.0, 0.0);
    assert t.s.pos == map[PKey(1, Bull) := Pos(1, Isolated, 1.0, 50, 0, 5.0, 50.0)] && t.s.posId == 1;
  }

  lemma OnlyTheSellerPays()
    ensures var p := Pay(TRADED, 50);
            && p.s.denied && Val(p.s.bal, AVAIL1) == 9.9 && p.s.pos == TRADED.s.pos
            && p.taker.left == 0 && p.maker.left == 0
  {
    hide Exchange;
    BothTrade();
    var s1 := DebitMargin(TRADED.s, TRADED.taker, 50);
    assert Margin(TRADED.taker, 50) == 50.0;
    assert s1.denied && s1.bal == MATCHING.bal;
    var s2 := DebitMargin(s1, TRADED.maker, 50);
    assert Margin(TRADED.maker, 50) == 50.0;
    SellerPays(s1.assets, s1.bal);
  }

  lemma SellerPays(assets: Assets, bal: Balances)
    requires assets == START.assets && bal == MATCHING.bal
    ensures var thaw := DoUnfreeze(assets, bal, 2, 0, 50.0);
            thaw.ok && Val(Sub(assets, thaw.bal, AVAIL2, 50.0).bal, AVAIL1) == 9.9
  {
  }

  lemma GrabIsAccepted()
    ensures PutOpen(AFTER_OFFER, GRAB) == (Execute(MATCHING, BUYER), Accepted)
    ensures !LeverageAgrees(AFTER_OFFER, GRAB) && OrderLeverage(AFTER_OFFER, GRAB) == 1.0
    ensures Div(GRAB.volume, MarginLeverage(AFTER_OFFER, GRAB)) == 5.0
  {
    hide Execute;
    var s := AFTER_OFFER;
    assert !Idle(s, 1) && AnyPosition(s, 1).None?;
    assert ModeAfter(s, GRAB) == s.modes;
  }

  /** The open is accepted on a margin of 5, the debit of 50 is refused, and user 1 keeps 9.9
      besides a position whose principal of 50 nobody paid. */
  lemma PositionGoesUnpaid()
    ensures var s := Run(START, [OpenOrder(BID), OpenOrder(OFFER), OpenOrder(GRAB)]);
            && s.denied && Val(s.bal, AVAIL1) == 9.9
            && PKey(1, Bull) in s.pos && s.pos[PKey(1, Bull)].principal == 50.0
    ensures PutOpen(AFTER_OFFER, GRAB).1.Accepted? && !PaysMargin(AFTER_OFFER, GRAB)
    ensures Untouched(START)
    ensures LeverageAgrees(START, BID) && LeverageAgrees(AFTER_BID, OFFER)
  {
    hide PutOpen, Execute;
    BidRests();
    OfferRests();
    GrabIsAccepted();
    BuyerFinishes();
    BuyerIsNotCovered();
    RunOfThree(START, OpenOrder(BID), OpenOrder(OFFER), OpenOrder(GRAB));
  }

  lemma BuyerIsNotCovered()
    ensures !PaysMargin(AFTER_OFFER, GRAB)
  {
    var t := TakerOf(AFTER_OFFER, GRAB);
    assert t.leverage == 1.0 && t.left == 50 && !Sells(t);
    assert Opposite(AFTER_OFFER, t) == [RESTING_OFFER] && Min(t.left, RESTING_OFFER.left) == 50;
    assert Margin(t, 50) == 50.0 && Avail(AFTER_OFFER.bal, 1, 0) == 9.9;
  }

  lemma BuyerFinishes()
    ensures var s := Execute(MATCHING, BUYER);
            && s.denied && Val(s.bal, AVAIL1) == 9.9
            && PKey(1, Bull) in s.pos && s.pos[PKey(1, Bull)].principal == 50.0
  {
    hide Exchange, Pay, Finish;
    BothTrade();
    OnlyTheSellerPays();
    assert Opposite(MATCHING, BUYER) == [RESTING_OFFER];
    var f := Fill(MATCHING, BUYER, RESTING_OFFER, 50, 5.0);
    var s1 := WithOpposite(f.s, BUYER, [f.maker] + []);
    FinishKeepsMoney(s1, f.maker);
    assert Step(MATCHING, BUYER) == (Finish(s1, f.maker), f.taker) by {
      assert [RESTING_OFFER][1..] == [];
    }
    assert Match(MATCHING, BUYER) == Step(MATCHING, BUYER);
    FinishKeepsMoney(Finish(s1, f.maker), f.taker);
  }

  lemma FinishKeepsMoney(s: State, o: Order)
    ensures var r := Finish(s, o); r.bal == s.bal && r.denied == s.denied && r.pos == s.pos
  {
  }
}
