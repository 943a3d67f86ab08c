/** The deals of a spot market account for every order: what an order has traded, paid in fees and
    has left is the sum over the deals that name it. */
module SpotHistory {
  import opened Ledger
  import opened Spot
  import opened SpotLedger
  import opened SpotTheorems
  import opened SpotBook

  predicate SoldBy(d: Deal, id: int) {
    d.seller.order == id
  }

  predicate BoughtBy(d: Deal, id: int) {
    d.buyer.order == id
  }

  function LotsOf(deals: seq<Deal>, id: int): int {
    if deals == [] then 0
    else
      var d := deals[|deals| - 1];
      LotsOf(deals[..|deals| - 1], id) + if SoldBy(d, id) || BoughtBy(d, id) then d.lots else 0
  }

  function CashOf(deals: seq<Deal>, id: int): int {
    if deals == [] then 0
    else
      var d := deals[|deals| - 1];
      CashOf(deals[..|deals| - 1], id) + if SoldBy(d, id) || BoughtBy(d, id) then d.price * d.lots else 0
  }

  function FeesOf(deals: seq<Deal>, id: int): real {
    if deals == [] then 0.0
    else
      var d := deals[|deals| - 1];
      FeesOf(deals[..|deals| - 1], id) + if SoldBy(d, id) then d.askFee else if BoughtBy(d, id) then d.bidFee else 0.0
  }

  ghost predicate Tallies(deals: seq<Deal>, o: Order) {
    && o.dealStock == LotsOf(deals, o.id) && o.dealMoney == CashOf(deals, o.id) && o.dealFee == FeesOf(deals, o.id)
    && o.left == o.amount - if o.kind.MarketOrder? && !o.ask then o.dealMoney else o.dealStock
  }

  ghost predicate AllTally(s: Spot) {
    forall o :: o in s.asks || o in s.bids ==> Tallies(s.deals, o)
  }

  /** Deals are numbered one after the other, and name two orders that there have been. */
  ghost predicate Chronicled(s: Spot, last: int) {
    && |s.deals| <= s.dealId
    && (forall i :: 0 <= i < |s.deals| ==> s.deals[i].id == s.dealId - |s.deals| + 1 + i)
    && (forall d :: d in s.deals ==> d.seller.order <= last && d.buyer.order <= last && d.seller.order != d.buyer.order)
  }

  lemma OneMoreDeal(deals: seq<Deal>, d: Deal, id: int)
    ensures var named := SoldBy(d, id) || BoughtBy(d, id); var all := deals + [d];
            && LotsOf(all, id) == LotsOf(deals, id) + (if named then d.lots else 0)
            && CashOf(all, id) == CashOf(deals, id) + (if named then d.price * d.lots else 0)
            && FeesOf(all, id)
               == FeesOf(deals, id) + (if SoldBy(d, id) then d.askFee else if BoughtBy(d, id) then d.bidFee else 0.0)
  {
    assert (deals + [d])[..|deals|] == deals;
  }

  lemma {:induction false} UnnamedHasNone(deals: seq<Deal>, id: int, last: int)
    requires forall d :: d in deals ==> d.seller.order <= last && d.buyer.order <= last
    requires last < id
    ensures LotsOf(deals, id) == 0 && CashOf(deals, id) == 0 && FeesOf(deals, id) == 0.0
  {
    if deals != [] { UnnamedHasNone(deals[..|deals| - 1], id, last); }
  }

  /** One deal: taker and maker follow it, and no other order does. */
  lemma FillTallies(s: Spot, t: Order, k: Order, lots: int)
    requires Tallies(s.deals, t) && Tallies(s.deals, k) && t.id != k.id && t.ask != k.ask && k.kind.Limit?
    ensures var f := Fill(s, t, k, lots); Tallies(f.s.deals, f.taker) && Tallies(f.s.deals, f.maker)
  {
    hide Pay, PaymentOf;
    var f := Fill(s, t, k, lots);
    var d := f.s.deals[|s.deals|];
    OneMoreDeal(s.deals, d, t.id);
    OneMoreDeal(s.deals, d, k.id);
  }

  lemma OthersTally(s: Spot, t: Order, k: Order, lots: int, o: Order)
    requires Tallies(s.deals, o) && o.id != t.id && o.id != k.id
    ensures Tallies(Fill(s, t, k, lots).s.deals, o)
  {
    hide Pay, PaymentOf;
    OneMoreDeal(s.deals, Fill(s, t, k, lots).s.deals[|s.deals|], o.id);
  }

  lemma FillChronicles(s: Spot, t: Order, k: Order, lots: int, last: int)
    requires Chronicled(s, last) && t.id <= last && k.id <= last && t.id != k.id
    ensures Chronicled(Fill(s, t, k, lots).s, last)
  {
    hide Pay, PaymentOf;
  }

  lemma ThawKeepsHistory(s: Spot, o: Order)
    ensures var r := Thaw(s, o); r.deals == s.deals && r.dealId == s.dealId && r.asks == s.asks && r.bids == s.bids
  {
  }

  lemma StepTallies(s: Spot, t: Order)
    requires Ordered(s, t.id - 1) && AllTally(s) && Tallies(s.deals, t) && Chronicled(s, t.id) && !Stops(s, t)
    requires forall o :: o in s.asks || o in s.bids ==> o.kind.Limit?
    ensures var r := Step(s, t); AllTally(r.0) && Tallies(r.0.deals, r.1) && Chronicled(r.0, t.id)
    ensures var r := Step(s, t); forall o :: o in r.0.asks || o in r.0.bids ==> o.kind.Limit?
  {
    hide Fill, Thaw, Tallies, LotsWith, Crosses, Ranked, Chronicled;
    var book := Opposite(s, t);
    var k, rest := book[0], book[1..];
    var s1 := WithOpposite(s, t, rest);
    NumbersAreBelow(s.asks, t.id - 1);
    NumbersAreBelow(s.bids, t.id - 1);
    assert k in book && book == [k] + rest;
    RankIsStrict(book, t.id - 1);
    if Sweeps(t, k) {
      ThawKeepsHistory(s1, k);
      BooksKeepChronicle(s, Step(s, t).0, t.id);
    } else {
      var lots := LotsWith(t, k);
      var f := Fill(s, t, k, lots);
      FillOrders(s, t, k, lots);
      FillTallies(s, t, k, lots);
      FillChronicles(s, t, k, lots, t.id);
      forall o | (o in s.asks || o in s.bids) && o.id != k.id ensures Tallies(f.s.deals, o) {
        OthersTally(s, t, k, lots, o);
      }
      ThawKeepsHistory(WithOpposite(f.s, t, rest), f.maker);
      BooksKeepChronicle(f.s, Step(s, t).0, t.id);
    }
  }

  lemma FillOrders(s: Spot, t: Order, k: Order, lots: int)
    ensures var f := Fill(s, t, k, lots);
            && f.s.asks == s.asks && f.s.bids == s.bids && f.maker.kind == k.kind && f.maker.id == k.id
            && f.taker.ask == t.ask
  {
    hide Pay;
  }

  lemma BooksKeepChronicle(s: Spot, r: Spot, last: int)
    requires Chronicled(s, last) && r.deals == s.deals && r.dealId == s.dealId
    ensures Chronicled(r, last)
  {
  }

  /** No other order on the side has the best one's number. */
  lemma RankIsStrict(book: Book, last: int)
    requires Ranked(book, last) && book != []
    ensures forall o :: o in book[1..] ==> o.id != book[0].id
  {
  }

  // ----- every run

  ghost predicate OnlyLimits(s: Spot) {
    forall o :: o in s.asks || o in s.bids ==> o.kind.Limit?
  }

  ghost predicate Reconciled(s: Spot) {
    Ordered(s, s.orderId) && OnlyLimits(s) && AllTally(s) && Chronicled(s, s.orderId)
  }

  lemma {:induction false} MatchTallies(s: Spot, t: Order)
    requires Ordered(s, t.id - 1) && OnlyLimits(s) && AllTally(s) && Tallies(s.deals, t) && Chronicled(s, t.id)
    ensures var r := Match(s, t); OnlyLimits(r.0) && AllTally(r.0) && Tallies(r.0.deals, r.1) && Chronicled(r.0, t.id)
    decreases |Opposite(s, t)|, if Stops(s, t) then 0 else 1
  {
    hide Step, Ordered, Tallies, Chronicled;
    if !Stops(s, t) {
      StepTallies(s, t);
      StepKeepsOrder(s, t, t.id - 1);
      StepShrinks(s, t);
      MatchTallies(Step(s, t).0, Step(s, t).1);
    }
  }

  lemma PutTallies(s: Spot, o: Order)
    requires OnlyLimits(s) && AllTally(s) && Tallies(s.deals, o) && o.kind.Limit?
    ensures var r := Put(s, o); OnlyLimits(r) && AllTally(r) && r.deals == s.deals && r.dealId == s.dealId
  {
    hide DoFreeze, Insert;
  }

  lemma NewOrderTallies(s: Spot, a: Args, market: bool)
    requires Chronicled(s, s.orderId)
    ensures var t := NewOrder(s.orderId + 1, a, if market then MarketOrder else Limit);
            Tallies(s.deals, t) && Chronicled(s.(orderId := s.orderId + 1), t.id)
  {
    UnnamedHasNone(s.deals, s.orderId + 1, s.orderId);
  }

  lemma MatchReconciles(s: Spot, a: Args, market: bool)
    requires Reconciled(s)
    ensures var t := NewOrder(s.orderId + 1, a, if market then MarketOrder else Limit);
            var r := Match(s.(orderId := s.orderId + 1), t);
            && Ordered(r.0, s.orderId) && Stops(r.0, r.1) && r.0.orderId == t.id && r.1.id == t.id && r.1.kind == t.kind
            && OnlyLimits(r.0) && AllTally(r.0) && Tallies(r.0.deals, r.1) && Chronicled(r.0, t.id)
  {
    hide Match, Ordered, Tallies, Chronicled, Stops;
    var t := NewOrder(s.orderId + 1, a, if market then MarketOrder else Limit);
    NewOrderTallies(s, a, market);
    CountKeepsOrder(s);
    MatchTallies(s.(orderId := s.orderId + 1), t);
    MatchKeepsOrder(s.(orderId := s.orderId + 1), t, s.orderId);
  }

  lemma DoReconciles(s: Spot, op: Op)
    requires Reconciled(s)
    ensures Reconciled(Do(s, op))
  {
    hide Match, Put, CancelAll, Ordered, Tallies, Chronicled, Stops;
    DoKeepsOrder(s, op);
    match op {
      case LimitOrder(a) =>
        MatchReconciles(s, a, false);
        var r := Match(s.(orderId := s.orderId + 1), NewOrder(s.orderId + 1, a, Limit));
        PutTallies(r.0, r.1);
        PutCounts(r.0, r.1);
        BooksKeepChronicle(r.0, Put(r.0, r.1), s.orderId + 1);
      case MarketOp(a) =>
        MatchReconciles(s, a, true);
      case CancelEverything =>
        CancelKeepsHistory(s);
        BooksKeepChronicle(s, CancelAll(s), s.orderId);
    }
  }

  lemma PutCounts(s: Spot, o: Order)
    ensures Put(s, o).orderId == s.orderId
  {
  }

  lemma {:induction false} AsksKeepHistory(s: Spot)
    ensures var r := FinishAsks(s); r.deals == s.deals && r.dealId == s.dealId && r.orderId == s.orderId
    decreases |s.asks|
  {
    if s.asks != [] { AsksKeepHistory(Thaw(s.(asks := s.asks[1..]), s.asks[0])); }
  }

  lemma {:induction false} BidsKeepHistory(s: Spot)
    ensures var r := FinishBids(s); r.deals == s.deals && r.dealId == s.dealId && r.orderId == s.orderId
    decreases |s.bids|
  {
    if s.bids != [] { BidsKeepHistory(Thaw(s.(bids := s.bids[1..]), s.bids[0])); }
  }

  lemma CancelKeepsHistory(s: Spot)
    ensures var r := CancelAll(s);
            r.deals == s.deals && r.dealId == s.dealId && r.orderId == s.orderId && r.asks == [] && r.bids == []
  {
    hide FinishAsks, FinishBids;
    AsksKeepHistory(s);
    BidsKeepHistory(FinishAsks(s));
    FinishesEmpty(s);
    FinishesBidsEmpty(FinishAsks(s));
  }

  lemma {:induction false} RunReconciles(s: Spot, ops: seq<Op>)
    requires Reconciled(s)
    ensures Reconciled(Run(s, ops))
    decreases |ops|
  {
    hide Do, Reconciled;
    if ops != [] {
      DoReconciles(s, ops[0]);
      RunReconciles(Do(s, ops[0]), ops[1..]);
    }
  }

  /** In every reachable state each resting order has traded the lots, turned over the money and paid
      the fees of the deals that name it, and has the rest of its amount left; deals are numbered one
      after the other, and none names one order twice. */
  lemma OrdersReconcile(s0: Spot, ops: seq<Op>)
    requires Untouched(s0)
    ensures var s := Run(s0, ops);
            && (forall o :: o in s.asks || o in s.bids ==>
                  && o.dealStock == LotsOf(s.deals, o.id) && o.left == o.amount - o.dealStock
                  && o.dealMoney == CashOf(s.deals, o.id) && o.dealFee == FeesOf(s.deals, o.id))
            && Chronicled(s, s.orderId)
  {
    hide Run, Ordered;
    EmptyIsOrdered(s0);
    RunReconciles(s0, ops);
  }
}
