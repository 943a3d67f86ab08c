/** Runs with a market order that names a negative leverage: it is accepted whatever it costs, no
    ledger call takes its margin, and what is left of it thaws money that it never froze. */
module FuturesNegative {
  import opened Common
  import opened Ledger
  import opened Futures
  import opened FuturesOps
  import opened FuturesTheorems

  const AVAIL1 := Key(1, Available, 0)
  const FREEZE1 := Key(1, Freeze, 0)
  const AVAIL2 := Key(2, Available, 0)
  const FREEZE2 := Key(2, Freeze, 0)

  /** User 1 has 10 available, and 60 frozen by another market. */
  const START: State := State(
    map[0 := Exact], 0, [], [], {}, map[], map[], map[], map[],
    map[AVAIL1 := 10.0, FREEZE1 := 60.0, AVAIL2 := 100.0], 0.0, 0, 0, 0, [], false, false)

  /** User 2 offers fifty at price 5 with leverage 1. */
  const OFFER: Args := Args(2, Bear, Limit, Isolated, 5.0, 1.0, 50.0, 0.0, 0.0, 0, 0.0)
  /** User 1 buys fifty, or fifty-two, at the market, naming leverage -1. */
  const GRAB: Args := Args(1, Bull, Market, Isolated, 0.0, -1.0, 50.0, 0.0, 0.0, 0, 0.0)
  const GRAB_MORE: Args := GRAB.(volume := 52.0)

  const RESTING_OFFER: Order := NewOrder(1, OFFER, Open, 1.0, 50.0)
  const BUYER: Order := NewOrder(2, GRAB, Open, -1.0, 0.0)
  const BIGGER: Order := NewOrder(2, GRAB_MORE, Open, -1.0, 0.0)

  const OFFERED: State := START.(
    asks := [RESTING_OFFER], orders := {1}, users := map[2 := [1]], userOrders := map[2 := [1]],
    modes := map[2 := Mode(Isolated, 1.0)], orderId := 1,
    bal := map[AVAIL1 := 10.0, FREEZE1 := 60.0, AVAIL2 := 50.0, FREEZE2 := 50.0])

  const MATCHING: State := OFFERED.(modes := map[2 := Mode(Isolated, 1.0), 1 := Mode(Isolated, -1.0)], orderId := 2)

  const LONG: Pos := Pos(1, Isolated, -1.0, 50, 0, 5.0, -50.0)
  const SHORT: Pos := Pos(2, Isolated, 1.0, 50, 0, 5.0, 50.0)

  lemma OfferRests()
    ensures PutOpen(START, OFFER) == (OFFERED, Accepted)
  {
    var s := START;
    assert DoFreeze(s.assets, s.bal, 2, 0, 50.0) == Outcome(true, OFFERED.bal);
    var s1 := s.(modes := ModeAfter(s, OFFER), orderId := 1, bal := OFFERED.bal);
    assert Match(s1, RESTING_OFFER) == (s1, RESTING_OFFER);
    assert InsertId([], 1) == [1];
    var none: IdLists := map[];
    assert AddToList(none, 2, 1) == none[2 := [1]];
    assert Put(s1, RESTING_OFFER) == OFFERED;
  }

  lemma GrabIsAccepted(a: Args)
    requires a == GRAB || a == GRAB_MORE
    ensures PutOpen(OFFERED, a) == (Execute(MATCHING, NewOrder(2, a, Open, -1.0, 0.0)), Accepted)
    ensures LeverageAgrees(OFFERED, a) && TakerOf(OFFERED, a) == NewOrder(2, a, Open, -1.0, 0.0)
  {
    hide Execute;
    var s := OFFERED;
    assert Idle(s, 1) && AnyPosition(s, 1).None? && 1 !in s.modes;
    assert ModeAfter(s, a) == MATCHING.modes;
    assert Div(a.volume, -1.0) < 0.0;
    assert CanAfford(s.(modes := MATCHING.modes), a, 10.0, Div(a.volume, -1.0));
  }

  /** The fill of fifty, for either buyer. */
  ghost predicate Buys(t: Order) {
    t == BUYER || t == BIGGER
  }

  lemma BuyerTrades(t: Order)
    requires Buys(t)
    ensures var p := TradeParty(MATCHING.(latest := 5.0), FillOrder(t, 50, 5.0, 0.0), 50, 5.0, 0.0);
            && p.s == MATCHING.(latest := 5.0, posId := 1, pos := map[PKey(1, Bull) := LONG])
            && p.o.left == t.left - 50 && p.o.leverage == -1.0 && p.o.freeze == 0.0
  {
    var o := FillOrder(t, 50, 5.0, 0.0);
    assert Margin(o, 50) == -50.0 && KeyOf(o) == PKey(1, Bull);
    assert PosAt(MATCHING.pos, PKey(1, Bull)) == None;
  }

  lemma SellerTrades(s: State)
    requires s == MATCHING.(latest := 5.0, posId := 1, pos := map[PKey(1, Bull) := LONG])
    ensures var p := TradeParty(s, FillOrder(RESTING_OFFER, 50, 5.0, 0.0), 50, 5.0, 0.0);
            && p.s == s.(posId := 2, pos := map[PKey(1, Bull) := LONG, PKey(2, Bear) := SHORT])
            && p.o.left == 0
  {
    var o := FillOrder(RESTING_OFFER, 50, 5.0, 0.0);
    assert Margin(o, 50) == 50.0 && KeyOf(o) == PKey(2, Bear);
  }

  lemma BothTrade(t: Order)
    requires Buys(t)
    ensures var f := Exchange(MATCHING.(latest := 5.0), t, RESTING_OFFER, 50, 5.0);
            && f.s == MATCHING.(latest := 5.0, posId := 2, pos := map[PKey(1, Bull) := LONG, PKey(2, Bear) := SHORT])
            && f.taker.left == t.left - 50 && f.maker.left == 0 && f.taker.leverage == -1.0 && f.taker.freeze == 0.0
  {
    hide TradeParty, FillOrder;
    BuyerTrades(t);
    SellerTrades(TradeParty(MATCHING.(latest := 5.0), FillOrder(t, 50, 5.0, 0.0), 50, 5.0, 0.0).s);
    assert Fee(50, t.takerFee) == 0.0 && Fee(50, RESTING_OFFER.makerFee) == 0.0;
  }

  lemma SellerPays(assets: Assets, bal: Balances)
    requires assets == START.assets && bal == MATCHING.bal
    ensures var thaw := DoUnfreeze(assets, bal, 2, 0, 50.0);
            && thaw.ok && Sub(assets, thaw.bal, AVAIL2, 50.0).ok
            && Sub(assets, thaw.bal, AVAIL2, 50.0).bal == map[AVAIL1 := 10.0, FREEZE1 := 60.0, AVAIL2 := 50.0]
  {
    assert DoUnfreeze(assets, bal, 2, 0, 50.0).bal == map[AVAIL1 := 10.0, FREEZE1 := 60.0, AVAIL2 := 100.0];
  }

  lemma OnlyTheSellerPays(t: Order)
    requires Buys(t)
    ensures var f := Exchange(MATCHING.(latest := 5.0), t, RESTING_OFFER, 50, 5.0); var p := Pay(f, 50);
            && p.s == f.s.(bal := map[AVAIL1 := 10.0, FREEZE1 := 60.0, AVAIL2 := 50.0], denied := true)
            && p.taker.left == t.left - 50 && p.taker.freeze == 50.0 && p.maker.left == 0
  {
    hide Exchange;
    BothTrade(t);
    var f := Exchange(MATCHING.(latest := 5.0), t, RESTING_OFFER, 50, 5.0);
    assert Margin(f.taker, 50) == -50.0 && Margin(f.maker, 50) == 50.0;
    assert DebitMargin(f.s, f.taker, 50) == f.s.(denied := true);
    SellerPays(f.s.assets, f.s.bal);
  }

  /** The state after the only round, but for the indexes. */
  ghost predicate AfterRound(s: State) {
    && s.denied && s.bal == map[AVAIL1 := 10.0, FREEZE1 := 60.0, AVAIL2 := 50.0]
    && s.pos == map[PKey(1, Bull) := LONG, PKey(2, Bear) := SHORT]
    && s.assets == START.assets && s.money == 0 && s.asks == [] && s.bids == []
  }

  lemma OneRound(t: Order)
    requires Buys(t)
    ensures var r := Match(MATCHING, t);
            AfterRound(r.0) && r.1.left == t.left - 50 && r.1.freeze == 50.0
  {
    hide Exchange, Pay, Finish;
    BothTrade(t);
    OnlyTheSellerPays(t);
    assert Opposite(MATCHING, t) == [RESTING_OFFER] && [RESTING_OFFER][1..] == [];
    var f := Fill(MATCHING, t, RESTING_OFFER, 50, 5.0);
    var s1 := WithOpposite(f.s, t, [f.maker] + []);
    var r := Finish(s1, f.maker);
    DropsOnly(s1, f.maker);
    assert Step(MATCHING, t) == (r, f.taker);
    assert Match(r, f.taker) == (r, f.taker);
  }

  lemma DropsOnly(s: State, o: Order)
    ensures var r := Finish(s, o);
            r.bal == s.bal && r.denied == s.denied && r.pos == s.pos && r.assets == s.assets && r.money == s.money
    ensures s.asks == [] || (Sells(o) && s.asks == [o]) ==> Finish(s, o).asks == []
    ensures s.bids == [] ==> Finish(s, o).bids == []
  {
  }

  lemma BuyerFinishes()
    ensures AfterRound(Execute(MATCHING, BUYER))
  {
    hide Match, Finish;
    OneRound(BUYER);
    DropsOnly(Match(MATCHING, BUYER).0, Match(MATCHING, BUYER).1);
  }

  lemma RestThaws()
    ensures var s := Execute(MATCHING, BIGGER);
            && s.denied && s.bal == map[AVAIL1 := 60.0, FREEZE1 := 10.0, AVAIL2 := 50.0]
            && s.asks == [] && s.bids == []
  {
    hide Match, Finish;
    OneRound(BIGGER);
    var r := Match(MATCHING, BIGGER);
    assert r.1.oper.Open? && r.1.kind.Market? && r.1.user == 1;
    assert DoUnfreeze(r.0.assets, r.0.bal, 1, 0, 50.0)
        == Outcome(true, map[AVAIL1 := 60.0, FREEZE1 := 10.0, AVAIL2 := 50.0]);
    DropsOnly(r.0.(bal := map[AVAIL1 := 60.0, FREEZE1 := 10.0, AVAIL2 := 50.0]), r.1);
  }

  /** The two leverages agree and the open is accepted, but a debit of -50 is refused: user 1 keeps
      all 10 besides a position of fifty whose principal is -50. */
  lemma NegativeLeverageIsNotPaid()
    ensures Untouched(START) && LeverageAgrees(OFFERED, GRAB) && !PaysMargin(OFFERED, GRAB)
    ensures PutOpen(OFFERED, GRAB).1.Accepted?
    ensures var s := Run(START, [OpenOrder(OFFER), OpenOrder(GRAB)]);
            && s.denied && Val(s.bal, AVAIL1) == 10.0
            && PKey(1, Bull) in s.pos && s.pos[PKey(1, Bull)].principal == -50.0
  {
    hide PutOpen, Execute, PaysMargin;
    OfferRests();
    GrabIsAccepted(GRAB);
    BuyerFinishes();
    NothingAfforded();
    RunOfTwo(START, OpenOrder(OFFER), OpenOrder(GRAB));
  }

  lemma NothingAfforded()
    ensures !PaysMargin(OFFERED, GRAB)
  {
    hide PutOpen, Execute, PaysMargin;
    GrabIsAccepted(GRAB);
    BadLeverageFails(OFFERED, GRAB);
    assert Opposite(OFFERED, BUYER) == [RESTING_OFFER];
  }

  /** When two of fifty-two find no seller, giving them back thaws 50 that another market froze. */
  lemma NegativeLeverageThawsElsewhere()
    ensures Untouched(START) && PutOpen(OFFERED, GRAB_MORE).1.Accepted?
    ensures var s := Run(START, [OpenOrder(OFFER), OpenOrder(GRAB_MORE)]);
            && s.asks == [] && s.bids == []
            && Frozen(START.bal, 1, 0) == 60.0 && Frozen(s.bal, 1, 0) == 10.0 && Avail(s.bal, 1, 0) == 60.0
  {
    hide PutOpen, Execute;
    OfferRests();
    GrabIsAccepted(GRAB_MORE);
    RestThaws();
    RunOfTwo(START, OpenOrder(OFFER), OpenOrder(GRAB_MORE));
  }
}
