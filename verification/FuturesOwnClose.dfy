/** Why the guard of a market open looks at its user's own closing orders: sweeping one of them
    charges a fee between two margin debits, and the second debit is refused. */
module FuturesOwnClose {
  import opened Common
  import opened Ledger
  import opened Futures
  import FuturesBacking
  import opened FuturesMargin
  import opened FuturesSweep
  import opened FuturesOps
  import opened FuturesTheorems
  import opened FuturesExact

  const AVAIL1 := Key(1, Available, 0)
  const FREEZE1 := Key(1, Freeze, 0)
  const AVAIL2 := Key(2, Available, 0)
  const FREEZE2 := Key(2, Freeze, 0)
  const LONG1 := PKey(1, Bull)
  const SHORT2 := PKey(2, Bear)

  /** User 1 bids for one at 10 with leverage 10, and user 2 sells it at the market. */
  const ENTER: Args := Args(1, Bull, Limit, Isolated, 10.0, 10.0, 1.0, 0.0, 0.0, 0, 0.0)
  const HIT: Args := Args(2, Bear, Market, Isolated, 0.0, 1.0, 1.0, 0.0, 0.0, 0, 0.0)
  /** User 1 offers its long at 5, for a fee of a hundredth, and user 2 offers one more at 6. */
  const EXIT: Args := Args(1, Bull, Limit, Isolated, 5.0, 10.0, 1.0, 0.0, 0.01, 0, 0.0)
  const OFFER: Args := Args(2, Bear, Limit, Isolated, 6.0, 1.0, 1.0, 0.0, 0.0, 0, 0.0)
  /** User 1 buys two at the market. */
  const GRAB: Args := Args(1, Bull, Market, Isolated, 0.0, 10.0, 2.0, 0.0, 0.0, 0, 0.0)

  const O1: Order := NewOrder(1, ENTER, Open, 10.0, 0.1)
  const O2: Order := NewOrder(2, HIT, Open, 1.0, 0.0)
  const O3: Order := NewOrder(3, EXIT, Close, 10.0, 0.0)
  const O4: Order := NewOrder(4, OFFER, Open, 1.0, 1.0)
  const O5: Order := NewOrder(5, GRAB, Open, 10.0, 0.0)

  const S0: State := State(
    map[0 := Exact], 0, [], [], {}, map[], map[], map[], map[], map[AVAIL1 := 0.3, AVAIL2 := 10.0],
    0.0, 0, 0, 0, [], false, false)

  const S1: State := S0.(
    bids := [O1], orders := {1}, users := map[1 := [1]], userOrders := map[1 := [1]],
    modes := map[1 := Mode(Isolated, 10.0)], orderId := 1,
    bal := map[AVAIL1 := 0.2, FREEZE1 := 0.1, AVAIL2 := 10.0])

  const HELD1: Pos := Pos(2, Isolated, 10.0, 1, 0, 10.0, 0.1)
  const HELD2: Pos := Pos(1, Isolated, 1.0, 1, 0, 10.0, 1.0)

  const S2: State := S0.(
    users := map[1 := []], userOrders := map[1 := []],
    modes := map[1 := Mode(Isolated, 10.0), 2 := Mode(Isolated, 1.0)],
    pos := map[SHORT2 := HELD2, LONG1 := HELD1], bal := map[AVAIL1 := 0.2, AVAIL2 := 9.0],
    latest := 10.0, orderId := 2, dealId := 1, posId := 2,
    deals := [Report(1, 10.0, 1, O2, O1)])

  const S3: State := S2.(
    asks := [O3], orders := {3}, users := map[1 := [3]], userOrders := map[1 := [3]], orderId := 3,
    pos := map[SHORT2 := HELD2, LONG1 := HELD1.(position := 0, frozen := 1)])

  const S4: State := S3.(
    asks := [O3, O4], orders := {3, 4}, users := map[1 := [3], 2 := [4]],
    userOrders := map[1 := [3], 2 := [4]], orderId := 4,
    bal := map[AVAIL1 := 0.2, AVAIL2 := 8.0, FREEZE2 := 1.0])

  lemma FirstStep()
    ensures PutOpen(S0, ENTER) == (S1, Accepted)
  {
    assert DoFreeze(S0.assets, S0.bal, 1, 0, 0.1) == Outcome(true, S1.bal);
    var s := S0.(modes := ModeAfter(S0, ENTER), orderId := 1, bal := S1.bal);
    assert Match(s, O1) == (s, O1);
    assert InsertId([], 1) == [1];
    var none: IdLists := map[];
    assert AddToList(none, 1, 1) == none[1 := [1]];
    assert Put(s, O1) == S1;
  }

  const MATCHING: State := S1.(modes := S2.modes, orderId := 2)
  const TRADED: Flow := Exchange(MATCHING.(latest := 10.0), O2, O1, 1, 10.0)

  lemma EntryTrades()
    ensures TRADED.s == MATCHING.(latest := 10.0, pos := S2.pos, posId := 2)
    ensures TRADED.taker.left == 0 && TRADED.maker.left == 0
  {
    var t := TradeParty(MATCHING.(latest := 10.0), FillOrder(O2, 1, 10.0, 0.0), 1, 10.0, 0.0);
    assert t.s.pos == map[SHORT2 := HELD2] && t.s.posId == 1;
  }

  lemma EntryPays()
    ensures var p := Pay(TRADED, 1);
            && p.s == TRADED.s.(bal := S2.bal)
            && p.taker.left == 0 && p.maker.left == 0 && SameTerms(p.taker, O2) && SameTerms(p.maker, O1)
  {
    hide Exchange;
    EntryTrades();
    var b := MATCHING.bal;
    var s1 := DebitMargin(TRADED.s, TRADED.taker, 1);
    assert s1.bal == b[AVAIL2 := 9.0] && !s1.denied;
    var s2 := DebitMargin(s1, TRADED.maker, 1);
    assert DoUnfreeze(s1.assets, s1.bal, 1, 0, 0.1) == Outcome(true, (s1.bal - {FREEZE1})[AVAIL1 := 0.3]);
    assert s2.bal == S2.bal && !s2.denied;
  }

  lemma EntryFinishes()
    ensures Execute(MATCHING, O2) == S2
  {
    hide Exchange, Pay;
    EntryTrades();
    EntryPays();
    var f := Fill(MATCHING, O2, O1, 1, 10.0);
    assert [O1][1..] == [] && [f.maker] + [] == [f.maker];
    var s1 := WithOpposite(f.s, O2, [f.maker]);
    assert Remove([f.maker], 1) == [] by { assert [f.maker][1..] == []; }
    assert RemoveId([1], 1) == [] by { assert [1][1..] == []; }
    assert DropFromList(MATCHING.users, 1, 1) == S2.users;
    assert {1} - {1} == {};
    assert Finish(s1, f.maker) == S2;
    assert Match(MATCHING, O2) == (S2, f.taker);
    assert Finish(S2, f.taker) == S2 by { assert S2.orders - {2} == {}; }
  }

  lemma SecondStep()
    ensures PutOpen(S1, HIT) == (S2, Accepted)
  {
    hide Execute;
    EntryFinishes();
    assert ModeAfter(S1, HIT) == S2.modes;
  }

  lemma ThirdStep()
    ensures PutClose(S2, EXIT) == (S3, Accepted)
  {
    var s := FreezePosition(S2, LONG1, 1).(orderId := 3);
    assert s.pos == S3.pos;
    assert Match(s, O3) == (s, O3);
    assert InsertId([], 3) == [3];
    assert AddToList(S2.users, 1, 3) == S3.users;
    assert Put(s, O3) == S3;
  }

  lemma OfferEnters()
    ensures Execute(S3.(orderId := 4, bal := S4.bal), O4) == S4
  {
    var s := S3.(orderId := 4, bal := S4.bal);
    assert Match(s, O4) == (s, O4);
    assert Insert([O3], O4) == [O3, O4];
    assert InsertId([], 4) == [4];
    assert AddToList(S3.users, 2, 4) == S4.users;
    assert {3} + {4} == {3, 4};
    assert Put(s, O4) == S4;
  }

  lemma FourthStep()
    ensures PutOpen(S3, OFFER) == (S4, Accepted)
  {
    hide Execute;
    OfferEnters();
    assert AnyPosition(S3, 2) == Some(HELD2);
    assert ModeAfter(S3, OFFER) == S3.modes;
    assert DoFreeze(S3.assets, S3.bal, 2, 0, 1.0) == Outcome(true, S4.bal);
  }

  const SWEEPING: State := S4.(orderId := 5)
  const CLOSED: Flow := Exchange(SWEEPING.(latest := 5.0), O5, O3, 1, 5.0)

  const GROWN: Pos := Pos(2, Isolated, 10.0, 1, 1, 7.5, 0.2)

  lemma HeldGrows()
    ensures OpenPos(HELD1.(position := 0, frozen := 1), 1, 5.0, 0.0, 0.1) == GROWN
  {
    var p := HELD1.(position := 0, frozen := 1);
    assert Total(p) == 1;
    assert Div(15.0, 2.0) == 7.5;
    hide Div, Total;
  }

  lemma TakerGrows()
    ensures var t := TradeParty(SWEEPING.(latest := 5.0), FillOrder(O5, 1, 5.0, 0.0), 1, 5.0, 0.0);
            && t.s == SWEEPING.(latest := 5.0, pos := S4.pos[LONG1 := GROWN]) && t.o.left == 1
  {
    HeldGrows();
    hide OpenPos;
    assert Margin(FillOrder(O5, 1, 5.0, 0.0), 1) == 0.1;
    assert PosAt(SWEEPING.pos, LONG1) == Some(HELD1.(position := 0, frozen := 1));
  }

  lemma CloseLoses()
    ensures Payout(Bull, GROWN, 1, 5.0) < 0.0
  {
    assert Equity(Bull, GROWN, 5.0) == 0.2 - (2.5 / 7.5) * 2.0;
  }

  /** The first maker is the user's own closing order: its payout is negative. */
  lemma OwnCloseTrades()
    ensures CLOSED.s == SWEEPING.(latest := 5.0, pos := CLOSED.s.pos)
    ensures CLOSED.mPayout < 0.0 && CLOSED.taker.left == 1 && CLOSED.maker.left == 0
  {
    TakerGrows();
    CloseLoses();
    hide OpenPos, Payout, ClosePos, PartProfit;
    var s := SWEEPING.(latest := 5.0, pos := S4.pos[LONG1 := GROWN]);
    assert PosAt(s.pos, LONG1) == Some(GROWN);
    assert TradeParty(s, FillOrder(O3, 1, 5.0, 0.01), 1, 5.0, 0.01).payout == Payout(Bull, GROWN, 1, 5.0);
  }

  lemma OwnClosePays()
    ensures var p := Pay(CLOSED, 1);
            && !p.s.denied && p.s.bal == S4.bal[AVAIL1 := 0.09] && p.taker.left == 1 && p.maker.left == 0
            && SameTerms(p.taker, O5) && SameTerms(p.maker, O3)
  {
    hide Exchange;
    OwnCloseTrades();
    var s1 := DebitMargin(CLOSED.s, CLOSED.taker, 1);
    assert s1.bal == S4.bal[AVAIL1 := 0.1] && !s1.denied;
    var s2 := CreditPayout(s1, CLOSED.maker, CLOSED.mPayout, 0.01);
    assert s2.bal == S4.bal[AVAIL1 := 0.09];
  }

  /** The closing maker of the sweep lost on its position: the loss is not charged, the fee is. */
  lemma LossIsNotCharged()
    ensures CLOSED.mPayout < 0.0
    ensures Avail(Pay(CLOSED, 1).s.bal, 1, 0) == 0.2 - Margin(O5, 1) - Fee(1, O3.makerFee)
  {
    hide Exchange, Pay;
    OwnCloseTrades();
    OwnClosePays();
    assert Margin(O5, 1) == 0.1 && Fee(1, O3.makerFee) == 0.01;
  }

  lemma SweepIsDenied()
    ensures Execute(SWEEPING, O5).denied
  {
    hide Exchange, Pay, Finish, Settle;
    OwnCloseTrades();
    OwnClosePays();
    var f := Fill(SWEEPING, O5, O3, 1, 5.0);
    assert SWEEPING.asks[1..] == [O4];
    var s1 := WithOpposite(f.s, O5, [f.maker] + [O4]);
    assert Step(SWEEPING, O5) == (Finish(s1, f.maker), f.taker);
    DropsOwnClose(s1, f.maker);
    SecondFillIsDenied(Finish(s1, f.maker), f.taker);
    SettleKeepsDenied(Match(SWEEPING, O5).0, Match(SWEEPING, O5).1);
  }

  lemma DropsOwnClose(s: State, m: Order)
    requires m.id == 3 && Sells(m) && s.asks == [m] + [O4] && Sided(s)
    ensures var r := Finish(s, m); r.asks == [O4] && r.bal == s.bal && r.assets == s.assets && r.money == s.money
    ensures Finish(s, m).denied == s.denied
  {
    assert Remove([m] + [O4], 3) == [O4] by { assert ([m] + [O4])[1..] == [O4]; }
  }

  lemma SecondFillIsDenied(s: State, t: Order)
    requires Sided(s) && s.asks == [O4] && SameTerms(t, O5) && t.left == 1 && !s.denied
    requires s.assets == S4.assets && s.money == 0 && s.bal == S4.bal[AVAIL1 := 0.09]
    ensures Match(s, t).0.denied
  {
    hide Step, Fill, Exchange, Pay;
    assert Opposite(s, t) == [O4] && t.leverage == 10.0 && t.user == 1 && t.oper.Open? && t.kind.Market?;
    FillPays(s, t, 1);
    FuturesBacking.StepIsFill(s, t);
    assert Margin(t, 1) == 0.1 && !CanPay(s, t, 1);
    var r := Step(s, t);
    assert r.0.denied;
    StepShrinksBook(s, t);
  }

  lemma SweepIsAccepted()
    ensures PutOpen(S4, GRAB) == (Execute(SWEEPING, O5), Accepted) && LeverageAgrees(S4, GRAB)
  {
    hide Execute;
    assert AnyPosition(S4, 1) == Some(HELD1.(position := 0, frozen := 1));
    assert ModeAfter(S4, GRAB) == S4.modes;
  }

  lemma OwnCloseLeavesLittle()
    ensures AfterFill(O5, O3, 1, AccountOf(S4, O5)).avail == 0.09
  {
    hide Exchange, AfterFill, Bare;
    OwnCloseTrades();
    var s := SWEEPING.(latest := 5.0);
    ExchangeMovesAccount(s, O5, O3, 1);
    assert AccountOf(s, O5) == AccountOf(S4, O5);
    assert Avail(s.bal, 1, 0) == 0.2 && Margin(O5, 1) == 0.1 && Fee(1, O3.makerFee) == 0.01;
  }

  lemma TwoFills(a: Order, b: Order, t: Order, acc: Account)
    requires t.left == 2 && a.left == 1 && b.left == 1 && Affords([a, b], t, acc)
    ensures AfterFill(t, a, 1, acc).avail >= Margin(t.(left := 1), 1)
  {
    hide AfterFill, Margin;
    assert [a, b][1..] == [b];
    assert Affords([b], t.(left := 1), AfterFill(t, a, 1, acc));
  }

  lemma SweepFaces()
    ensures TakerOf(S4, GRAB) == O5 && Opposite(S4, O5) == [O3, O4]
  {
    assert AnyPosition(S4, 1) == Some(HELD1.(position := 0, frozen := 1));
  }

  lemma SweepIsNotAfforded()
    ensures !PaysMargin(S4, GRAB)
  {
    hide AfterFill, Affords, AccountOf, TakerOf, Opposite;
    SweepFaces();
    OwnCloseLeavesLittle();
    NextMargin();
    if Affords([O3, O4], O5, AccountOf(S4, O5)) { TwoFills(O3, O4, O5, AccountOf(S4, O5)); }
    assert O5.oper.Open? && O5.kind.Market? && GRAB.kind.Market?;
  }

  lemma NextMargin()
    ensures Margin(O5.(left := 1), 1) == 0.1 && O5.left == 2 && O3.left == 1 && O4.left == 1
  {
  }

  /** An open whose leverages agree is accepted, its debits are refused on the way, and the walk of
      the book foresees it. */
  ghost predicate Starves(s: State, a: Args) {
    && Sided(s) && LeverageAgrees(s, a) && PutOpen(s, a).1.Accepted?
    && !s.denied && PutOpen(s, a).0.denied && !PaysMargin(s, a)
  }

  lemma LastStarves()
    ensures Starves(S4, GRAB)
  {
    hide PutOpen, Execute, PaysMargin, LeverageAgrees;
    SweepIsAccepted();
    SweepIsDenied();
    SweepIsNotAfforded();
  }

  lemma FourSteps()
    ensures Run(S0, [OpenOrder(ENTER), OpenOrder(HIT), CloseOrder(EXIT), OpenOrder(OFFER)]) == S4
  {
    hide PutOpen, PutClose, Run;
    FirstStep();
    SecondStep();
    ThirdStep();
    FourthStep();
    RunOfFour(S0, OpenOrder(ENTER), OpenOrder(HIT), CloseOrder(EXIT), OpenOrder(OFFER));
  }

  /** User 1, long one and offering to close it, buys two more at the market: the two leverages agree,
      the margin of both units is there when the order is accepted, and still its second debit is
      refused. */
  lemma OwnCloseStarvesMargin()
    ensures Untouched(S0)
    ensures Starves(Run(S0, [OpenOrder(ENTER), OpenOrder(HIT), CloseOrder(EXIT), OpenOrder(OFFER)]), GRAB)
  {
    hide Run, Starves;
    FourSteps();
    LastStarves();
  }
}
