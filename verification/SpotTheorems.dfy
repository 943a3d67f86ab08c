/** The main results about the spot machine, for every run of limit orders, market
    orders and cancel-all. */
module SpotTheorems {
  import opened Ledger
  import opened LedgerTotals
  import opened Spot
  import opened SpotLedger

  datatype Op = LimitOrder(a: Args) | MarketOp(a: Args) | CancelEverything

  function Do(s: Spot, op: Op): Spot {
    match op
    case LimitOrder(a) => PutLimit(s, a).0
    case MarketOp(a) => PutMarket(s, a).0
    case CancelEverything => CancelAll(s)
  }

  function Run(s: Spot, ops: seq<Op>): Spot
    decreases |ops|
  {
    if ops == [] then s else Run(Do(s, ops[0]), ops[1..])
  }

  /** What the server checks before it calls the engine: positive amounts and prices, and
      fee rates from 0 to less than 1. */
  ghost predicate Proper(m: Market, op: Op) {
    op.CancelEverything?
    || ( && op.a.amount > 0 && (op.LimitOrder? ==> op.a.price > 0)
         && 0 <= op.a.takerFee < m.feeScale && 0 <= op.a.makerFee < m.feeScale)
  }

  ghost predicate AllProper(m: Market, ops: seq<Op>) {
    forall i :: 0 <= i < |ops| ==> Proper(m, ops[i])
  }

  ghost predicate Untouched(s: Spot) {
    MarketOk(s.m, s.assets) && s.asks == [] && s.bids == [] && Sound(s.bal) && !s.denied
    && s.stockFees == 0.0 && s.moneyFees == 0.0 && s.deals == []
  }

  ghost function OriginOf(s: Spot): Origin {
    Origin((u: nat) => Frozen(s.bal, u, s.m.stock), (u: nat) => Frozen(s.bal, u, s.m.money),
           Holdings(s.bal, s.m.stock), Holdings(s.bal, s.m.money), s.dealId)
  }

  lemma UntouchedIsGood(s: Spot)
    requires Untouched(s)
    ensures Good(s, [], OriginOf(s))
  {
    hide Holdings;
    ValuesAreLinear(s.m, s.assets, 0, 0);
    forall u ensures Frozen(s.bal, u, s.m.stock) >= 0.0 && Frozen(s.bal, u, s.m.money) >= 0.0 {
      WholeVal(s.bal, Key(u, Freeze, s.m.stock));
    }
  }

  // ----- one operation

  lemma CountedIsGood(s: Spot, id: nat, c: Origin)
    requires Good(s, [], c)
    ensures Good(s.(orderId := id), [], c)
  {
    hide Holdings;
    assert forall u, ask :: HeldLive(s.(orderId := id), [], u, ask) == HeldLive(s, [], u, ask);
  }

  lemma PutLimitKeeps(s: Spot, a: Args, c: Origin)
    requires Good(s, [], c) && Proper(s.m, LimitOrder(a))
    ensures Good(PutLimit(s, a).0, [], c)
  {
    hide Good, Match, Put;
    var s1, t := s.(orderId := s.orderId + 1), NewOrder(s.orderId + 1, a, Limit);
    CountedIsGood(s, s.orderId + 1, c);
    if Able(s1, t) {
      MatchKeeps(s1, t, c);
      var r := Match(s1, t);
      if r.1.left != 0 { PutKeeps(r.0, r.1, c); }
    }
  }

  lemma PutMarketKeeps(s: Spot, a: Args, c: Origin)
    requires Good(s, [], c) && Proper(s.m, MarketOp(a))
    ensures Good(PutMarket(s, a).0, [], c)
  {
    hide Good, Match;
    var s1, t := s.(orderId := s.orderId + 1), NewOrder(s.orderId + 1, a, MarketOrder);
    CountedIsGood(s, s.orderId + 1, c);
    if Able(s1, t) { MatchKeeps(s1, t, c); }
  }

  /** A taker that looks at one book side, to speak about that side. */
  function Looking(ask: bool): Order {
    Order(0, 0, ask, Limit, NotMM, 1, 0, 0, 0, 0, 0, 0, 0, 0.0)
  }

  lemma {:induction false} FinishAsksKeeps(s: Spot, c: Origin)
    requires Good(s, [], c)
    ensures Good(FinishAsks(s), [], c)
    decreases |s.asks|
  {
    hide Good, Thaw;
    if s.asks != [] {
      var t := Looking(false);
      PopKeeps(s, t, c);
      RestingIsHeld(s.m, s.asks[0]);
      assert WithOpposite(s, t, s.asks[1..]) == s.(asks := s.asks[1..]);
      ThawKeeps(s.(asks := s.asks[1..]), s.asks[0], c);
      FinishAsksKeeps(Thaw(s.(asks := s.asks[1..]), s.asks[0]), c);
    }
  }

  lemma {:induction false} FinishBidsKeeps(s: Spot, c: Origin)
    requires Good(s, [], c)
    ensures Good(FinishBids(s), [], c)
    decreases |s.bids|
  {
    hide Good, Thaw;
    if s.bids != [] {
      var t := Looking(true);
      PopKeeps(s, t, c);
      RestingIsHeld(s.m, s.bids[0]);
      assert WithOpposite(s, t, s.bids[1..]) == s.(bids := s.bids[1..]);
      ThawKeeps(s.(bids := s.bids[1..]), s.bids[0], c);
      FinishBidsKeeps(Thaw(s.(bids := s.bids[1..]), s.bids[0]), c);
    }
  }

  lemma {:induction false} FinishesEmpty(s: Spot)
    ensures FinishAsks(s).asks == [] && FinishAsks(s).m == s.m
    decreases |s.asks|
  {
    if s.asks != [] { FinishesEmpty(Thaw(s.(asks := s.asks[1..]), s.asks[0])); }
  }

  lemma {:induction false} FinishesBidsEmpty(s: Spot)
    ensures FinishBids(s).bids == [] && FinishBids(s).asks == s.asks && FinishBids(s).m == s.m
    decreases |s.bids|
  {
    if s.bids != [] { FinishesBidsEmpty(Thaw(s.(bids := s.bids[1..]), s.bids[0])); }
  }

  lemma SameMarket(s: Spot, t: Order)
    ensures Match(s, t).0.m == s.m
    decreases |Opposite(s, t)|, if Stops(s, t) then 0 else 1
  {
    hide Fill, Thaw;
    if !Stops(s, t) {
      StepShrinks(s, t);
      assert Step(s, t).0.m == s.m;
      SameMarket(Step(s, t).0, Step(s, t).1);
    }
  }

  lemma DoKeeps(s: Spot, op: Op, c: Origin)
    requires Good(s, [], c) && Proper(s.m, op)
    ensures Good(Do(s, op), [], c) && Do(s, op).m == s.m
  {
    hide Good, Match, FinishAsks, FinishBids;
    match op
    case LimitOrder(a) =>
      PutLimitKeeps(s, a, c);
      SameMarket(s.(orderId := s.orderId + 1), NewOrder(s.orderId + 1, a, Limit));
    case MarketOp(a) =>
      PutMarketKeeps(s, a, c);
      SameMarket(s.(orderId := s.orderId + 1), NewOrder(s.orderId + 1, a, MarketOrder));
    case CancelEverything =>
      FinishAsksKeeps(s, c);
      FinishesEmpty(s);
      FinishBidsKeeps(FinishAsks(s), c);
      FinishesBidsEmpty(FinishAsks(s));
  }

  // ----- every run

  lemma {:induction false} RunKeeps(s: Spot, ops: seq<Op>, c: Origin)
    requires Good(s, [], c) && AllProper(s.m, ops)
    ensures Good(Run(s, ops), [], c) && Run(s, ops).m == s.m
    decreases |ops|
  {
    hide Good, Do;
    if ops != [] {
      assert Proper(s.m, ops[0]);
      DoKeeps(s, ops[0], c);
      assert forall i :: 0 <= i < |ops[1..]| ==> ops[1..][i] == ops[i + 1];
      RunKeeps(Do(s, ops[0]), ops[1..], c);
    }
  }

  /** In every reachable state, each user's frozen stock and money is what was frozen before
      plus what the user's resting asks and bids hold; an ask holds what is left of it, a bid
      what that can cost; and no ledger call was refused. */
  lemma SpotLedgerBalances(s0: Spot, ops: seq<Op>)
    requires Untouched(s0) && AllProper(s0.m, ops)
    ensures var s := Run(s0, ops);
            && !s.denied && s.m == s0.m
            && (forall u :: Frozen(s.bal, u, s.m.stock)
                  == Frozen(s0.bal, u, s.m.stock) + StockVal(s.m, Sum(s.asks, u, true) + Sum(s.bids, u, true)))
            && (forall u :: Frozen(s.bal, u, s.m.money)
                  == Frozen(s0.bal, u, s.m.money) + MoneyVal(s.m, Sum(s.asks, u, false) + Sum(s.bids, u, false)))
            && (forall o :: o in s.asks ==> o.ask && o.freeze == o.left > 0)
            && (forall o :: o in s.bids ==> !o.ask && o.left > 0 && o.freeze == o.price * o.left)
  {
    hide Run, Holdings;
    var c := OriginOf(s0);
    UntouchedIsGood(s0);
    RunKeeps(s0, ops, c);
    var s := Run(s0, ops);
    assert forall u, ask :: HeldLive(s, [], u, ask) == Sum(s.asks, u, ask) + Sum(s.bids, u, ask);
    assert forall u :: c.stock(u) == Frozen(s0.bal, u, s.m.stock) && c.money(u) == Frozen(s0.bal, u, s.m.money);
  }

  /** Over every run, the stock of all users falls by exactly the stock fees, and the money by
      the money fees and by less than one save unit for each deal. */
  lemma SpotConserves(s0: Spot, ops: seq<Op>)
    requires Untouched(s0) && AllProper(s0.m, ops)
    ensures var s := Run(s0, ops); var deals := (s.dealId - s0.dealId) as real;
            && Holdings(s.bal, s0.m.stock) == Holdings(s0.bal, s0.m.stock) - s.stockFees
            && Holdings(s.bal, s0.m.money) <= Holdings(s0.bal, s0.m.money) - s.moneyFees
            && Holdings(s.bal, s0.m.money) >= Holdings(s0.bal, s0.m.money) - s.moneyFees - deals
  {
    hide Run, Holdings, FrozenMatches;
    UntouchedIsGood(s0);
    RunKeeps(s0, ops, OriginOf(s0));
  }

  /** Where the fees fit, the money of all users falls by exactly the money fees. */
  lemma FittingMarketConserves(s0: Spot, ops: seq<Op>)
    requires Untouched(s0) && AllProper(s0.m, ops) && FeesFit(s0.m)
    ensures var s := Run(s0, ops); Holdings(s.bal, s0.m.money) == Holdings(s0.bal, s0.m.money) - s.moneyFees
  {
    hide Run, Holdings, FrozenMatches;
    UntouchedIsGood(s0);
    RunKeeps(s0, ops, OriginOf(s0));
  }

  /** In any reachable state, a deal takes exactly its fee out of circulation if and only if that
      fee is a whole number of save units. */
  lemma DealIsExactIff(s0: Spot, ops: seq<Op>, t: Order, lots: int)
    requires Untouched(s0) && AllProper(s0.m, ops)
    requires var s := Run(s0, ops);
             Able(s, t) && Opposite(s, t) != [] && Dealable(s, t, Opposite(s, t)[0], lots)
    ensures var s := Run(s0, ops); var k := Opposite(s, t)[0];
            var f := Fill(s, t, k, lots).s;
            var fee := MoneyFee(s.m, k.price * lots, if t.ask then t.takerFee else k.makerFee);
            && f.moneyFees == s.moneyFees + fee
            && (Holdings(f.bal, s.m.money) == Holdings(s.bal, s.m.money) - fee <==> Whole(fee))
  {
    hide Run, Holdings, Pay, Frozen, Good, Whole;
    var c := OriginOf(s0);
    UntouchedIsGood(s0);
    RunKeeps(s0, ops, c);
    var s := Run(s0, ops);
    PopKeeps(s, t, c);
    var k, rest := Opposite(s, t)[0], Opposite(s, t)[1..];
    var s1 := WithOpposite(s, t, rest);
    var cash := k.price * lots;
    var tp, kp := PaymentOf(s.m, t, false, lots, cash), PaymentOf(s.m, k, true, lots, cash);
    PaymentsArePayable(s1, t, k, lots, c);
    PartiesHaveEnough(s1, t, k, lots, c);
    GoodIsSound(s1, [k], c);
    DealSettles(s.assets, s.bal, tp, kp);
  }

  lemma GoodIsSound(s: Spot, flight: Book, c: Origin)
    requires Good(s, flight, c)
    ensures Sound(s.bal)
  {
  }

  // ----- a deal that loses money

  /** Stock with one decimal, money saved with one decimal, prices in whole units and fees of a
      tenth: a market that market_create accepts. */
  const TENTHS := Config(1, 0, 1, 2, 1)
  const LOSING := Market(1, 0, 1, 1, 10, 1)
  const SELLER := 1
  const BUYER := 2
  const BID := Args(BUYER, false, 1, 1, 0, 0, NotMM)
  const ASK := Args(SELLER, true, 1, 1, 1, 0, NotMM)
  const RESTING_BID := Order(1, BUYER, false, Limit, NotMM, 1, 1, 0, 0, 1, 1, 0, 0, 0.0)
  const TWO_ASSETS: Assets := map[0 := Down, 1 := Down]

  /** The seller has a lot, the buyer the smallest amount of money there is. */
  const FUNDS: Balances := map[Key(SELLER, Available, 1) := 10.0, Key(BUYER, Available, 0) := 1.0]
  const FUNDS_PLEDGED: Balances := map[Key(SELLER, Available, 1) := 10.0, Key(BUYER, Freeze, 0) := 1.0]
  const FUNDS_PAID: Balances := map[Key(SELLER, Available, 0) := 0.0, Key(BUYER, Freeze, 0) := 1.0]
  const FUNDS_AFTER: Balances := map[Key(SELLER, Available, 0) := 0.0, Key(BUYER, Available, 1) := 10.0]

  const QUIET := Spot(LOSING, TWO_ASSETS, [], [], FUNDS, 0, 0, [], 0.0, 0.0, false)
  const BIDDEN := Spot(LOSING, TWO_ASSETS, [], [RESTING_BID], FUNDS_PLEDGED, 1, 0, [], 0.0, 0.0, false)
  const LOSING_DEAL := Deal(1, true, Party(2, SELLER, 1), Party(1, BUYER, 0), 1, 1, 1, 0.1, 0.0)
  const DEALT := Spot(LOSING, TWO_ASSETS, [], [], FUNDS_AFTER, 2, 1, [LOSING_DEAL], 0.0, 0.1, false)

  lemma LosingIsCreated()
    ensures Creatable(TENTHS) && CreateMarket(TENTHS, 1, 0, 1) == LOSING && !FeesFit(LOSING)
  {
    assert Pow10(0) == 1 && Pow10(1) == 10;
  }

  lemma BidRests()
    ensures PutLimit(QUIET, BID) == (BIDDEN, Accepted)
  {
    var z := DoFreeze(TWO_ASSETS, FUNDS, BUYER, 0, 1.0);
    assert z.ok && z.bal == FUNDS_PLEDGED;
    var s, t := QUIET.(orderId := 1), NewOrder(1, BID, Limit);
    assert Match(s, t) == (s, t);
    assert Insert([], RESTING_BID) == [RESTING_BID];
    assert Put(s, t) == BIDDEN;
  }

  lemma SellerIsPaidNothing()
    ensures Pay(TWO_ASSETS, FUNDS_PLEDGED, PaymentOf(LOSING, NewOrder(2, ASK, Limit), false, 1, 1))
            == Outcome(true, FUNDS_PAID)
  {
    var stock, money := Key(SELLER, Available, 1), Key(SELLER, Available, 0);
    var gave := Sub(TWO_ASSETS, FUNDS_PLEDGED, stock, 10.0);
    assert gave == Outcome(true, map[Key(BUYER, Freeze, 0) := 1.0]);
    var got := Add(TWO_ASSETS, gave.bal, money, 1.0);
    assert got == Outcome(true, map[Key(BUYER, Freeze, 0) := 1.0, money := 1.0]);
    assert 0.9.Floor == 0;
    assert Sub(TWO_ASSETS, got.bal, money, 0.1) == Outcome(true, FUNDS_PAID);
  }

  lemma BuyerGetsLot()
    ensures Pay(TWO_ASSETS, FUNDS_PAID, PaymentOf(LOSING, RESTING_BID, true, 1, 1)) == Outcome(true, FUNDS_AFTER)
  {
    var gave := Sub(TWO_ASSETS, FUNDS_PAID, Key(BUYER, Freeze, 0), 1.0);
    assert gave == Outcome(true, map[Key(SELLER, Available, 0) := 0.0]);
    assert Add(TWO_ASSETS, gave.bal, Key(BUYER, Available, 1), 10.0) == Outcome(true, FUNDS_AFTER);
  }

  lemma AskDeals()
    ensures PutLimit(BIDDEN, ASK) == (DEALT, Accepted)
  {
    hide Pay;
    SellerIsPaidNothing();
    BuyerGetsLot();
    var s, t := BIDDEN.(orderId := 2), NewOrder(2, ASK, Limit);
    assert s.bids[1..] == [];
    var f := Fill(s, t, RESTING_BID, 1);
    assert f.s.bal == FUNDS_AFTER && f.s.moneyFees == 0.1 && f.s.stockFees == 0.0 && !f.s.denied;
    assert f.s.deals == [LOSING_DEAL];
    assert f.maker.left == 0 && f.maker.freeze == 0 && f.taker.left == 0;
    assert Step(s, t) == (DEALT, f.taker);
    assert Match(s, t) == (DEALT, f.taker);
  }

  /** A lot is sold for the smallest amount of money there is, at a fee of a tenth of it.  The
      buyer pays the whole and the seller gets nothing: beside the fee, nine tenths are gone. */
  lemma OneDealLoses()
    ensures Creatable(TENTHS) && QUIET.m == CreateMarket(TENTHS, 1, 0, 1)
    ensures var ops := [LimitOrder(BID), LimitOrder(ASK)];
            && Untouched(QUIET) && AllProper(QUIET.m, ops) && Run(QUIET, ops) == DEALT
    ensures Holdings(QUIET.bal, QUIET.m.money) == 1.0
    ensures Holdings(DEALT.bal, DEALT.m.money) == 0.0 && DEALT.moneyFees == 0.1
  {
    hide PutLimit, Holdings;
    LosingIsCreated();
    BidRests();
    AskDeals();
    RunOfTwo(QUIET, LimitOrder(BID), LimitOrder(ASK));
    FundsAreWhole();
    HoldingsOfPair(Key(SELLER, Available, 1), 10.0, Key(BUYER, Available, 0), 1.0, 0);
    HoldingsOfPair(Key(SELLER, Available, 0), 0.0, Key(BUYER, Available, 1), 10.0, 0);
  }

  lemma RunOfTwo(s: Spot, a: Op, b: Op)
    ensures Run(s, [a, b]) == Do(Do(s, a), b)
  {
    hide Do;
    assert [a, b][1..] == [b] && [b][1..] == [];
    assert Run(Do(s, a), [b]) == Do(Do(s, a), b);
  }

  lemma FundsAreWhole()
    ensures Sound(FUNDS)
  {
    IntIsWhole(10);
    IntIsWhole(1);
  }

  lemma HoldingsOfPair(k: Key, x: real, j: Key, y: real, asset: nat)
    requires k != j
    ensures Holdings(map[k := x, j := y], asset)
            == (if k.asset == asset then x else 0.0) + (if j.asset == asset then y else 0.0)
  {
    var bal: Balances := map[k := x, j := y];
    var one: Balances := map[j := y];
    HoldingsSplits(bal, asset, k);
    assert bal - {k} == one;
    HoldingsSplits(one, asset, j);
    assert one - {j} == map[];
  }

  /** What a user has of an asset, available and frozen. */
  function Own(bal: Balances, user: nat, asset: nat): real {
    Avail(bal, user, asset) + Frozen(bal, user, asset)
  }

  lemma ThawKeepsOwn(s: Spot, o: Order, c: Origin)
    requires Good(s, [o], c) && o.freeze >= 0
    ensures forall u, a :: Own(Thaw(s, o).bal, u, a) == Own(s.bal, u, a)
  {
    hide Good;
    if o.freeze > 0 { ThawMoves(s, o, c); hide Thaw; }
  }

  lemma {:induction false} FinishAsksKeepsOwn(s: Spot, c: Origin)
    requires Good(s, [], c)
    ensures forall u, a :: Own(FinishAsks(s).bal, u, a) == Own(s.bal, u, a)
    decreases |s.asks|
  {
    hide Good, Thaw, Own;
    if s.asks != [] {
      var t, s1 := Looking(false), s.(asks := s.asks[1..]);
      PopKeeps(s, t, c);
      RestingIsHeld(s.m, s.asks[0]);
      assert WithOpposite(s, t, s.asks[1..]) == s1;
      ThawKeeps(s1, s.asks[0], c);
      ThawKeepsOwn(s1, s.asks[0], c);
      FinishAsksKeepsOwn(Thaw(s1, s.asks[0]), c);
    }
  }

  lemma {:induction false} FinishBidsKeepsOwn(s: Spot, c: Origin)
    requires Good(s, [], c)
    ensures forall u, a :: Own(FinishBids(s).bal, u, a) == Own(s.bal, u, a)
    decreases |s.bids|
  {
    hide Good, Thaw, Own;
    if s.bids != [] {
      var t, s1 := Looking(true), s.(bids := s.bids[1..]);
      PopKeeps(s, t, c);
      RestingIsHeld(s.m, s.bids[0]);
      assert WithOpposite(s, t, s.bids[1..]) == s1;
      ThawKeeps(s1, s.bids[0], c);
      ThawKeepsOwn(s1, s.bids[0], c);
      FinishBidsKeepsOwn(Thaw(s1, s.bids[0]), c);
    }
  }

  /** Cancelling everything empties the book, and gives every user back all that the market had
      frozen: what was frozen is available, and nobody has more or less than before. */
  lemma CancelAllThawsAll(s0: Spot, ops: seq<Op>)
    requires Untouched(s0) && AllProper(s0.m, ops)
    ensures var before := Run(s0, ops); var s := CancelAll(before);
            && s.asks == [] && s.bids == []
            && (forall u :: Frozen(s.bal, u, s0.m.stock) == Frozen(s0.bal, u, s0.m.stock)
                            && Frozen(s.bal, u, s0.m.money) == Frozen(s0.bal, u, s0.m.money))
            && (forall u, a :: Avail(s.bal, u, a) + Frozen(s.bal, u, a)
                               == Avail(before.bal, u, a) + Frozen(before.bal, u, a))
  {
    hide Run, Holdings, FinishAsks, FinishBids;
    var c := OriginOf(s0);
    UntouchedIsGood(s0);
    RunKeeps(s0, ops, c);
    var s := Run(s0, ops);
    FinishAsksKeeps(s, c);
    FinishAsksKeepsOwn(s, c);
    FinishesEmpty(s);
    FinishBidsKeeps(FinishAsks(s), c);
    FinishBidsKeepsOwn(FinishAsks(s), c);
    FinishesBidsEmpty(FinishAsks(s));
    var r := CancelAll(s);
    forall u, a
      ensures Avail(r.bal, u, a) + Frozen(r.bal, u, a) == Avail(s.bal, u, a) + Frozen(s.bal, u, a) {
      assert Own(r.bal, u, a) == Own(s.bal, u, a);
    }
    ValuesAreLinear(r.m, r.assets, 0, 0);
    assert forall u, ask :: HeldLive(r, [], u, ask) == 0;
    assert forall u :: c.stock(u) == Frozen(s0.bal, u, s0.m.stock) && c.money(u) == Frozen(s0.bal, u, s0.m.money);
  }

  // ----- the budget of a market buy

  lemma {:induction false} MatchSpends(s: Spot, t: Order)
    requires t.kind.MarketOrder? && !t.ask
    ensures var r := Match(s, t); r.1.dealMoney - t.dealMoney == t.left - r.1.left
    decreases |Opposite(s, t)|, if Stops(s, t) then 0 else 1
  {
    hide Thaw, Pay;
    if !Stops(s, t) {
      StepShrinks(s, t);
      MatchSpends(Step(s, t).0, Step(s, t).1);
    }
  }

  /** A market buy never spends more than its amount, and it stops with asks left only when
      the rest does not buy one lot at the best ask. */
  lemma MarketBuyKeepsBudget(s: Spot, t: Order, c: Origin)
    requires Good(s, [], c) && Able(s, t) && t.kind.MarketOrder? && !t.ask && t.dealMoney == 0
    ensures var r := Match(s, t);
            && r.1.dealMoney == t.left - r.1.left && 0 <= r.1.left
            && (r.0.asks == [] || r.1.left < r.0.asks[0].price)
  {
    hide Match;
    MatchKeeps(s, t, c);
    MatchSpends(s, t);
    var r := Match(s, t);
    if r.0.asks != [] {
      var k := r.0.asks[0];
      assert k in r.0.asks && Resting(r.0.m, k);
      QuotientZero(r.1.left, k.price);
    }
  }

  lemma QuotientZero(left: int, price: int)
    requires left >= 0 && price > 0
    ensures left / price == 0 ==> left < price
    ensures left / price >= 0
  {
  }
}
