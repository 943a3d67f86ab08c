/** Orders and positions reconcile with the deal history: what an order traded, paid, was charged
    and turned over is the sum over the deals that name it, and a position is what replaying the
    deals on its key leaves. */
module FuturesHistory {
  import opened Common
  import opened Ledger
  import opened Futures
  import opened FuturesPositions
  import opened FuturesIndex
  import opened FuturesBacking
  import opened FuturesRun
  import opened FuturesOps
  import opened FuturesReplay
  import opened FuturesTheorems

  /** How often a deal names an order: as taker, as maker, or not at all. */
  function Part(d: Deal, id: nat): int {
    (if d.taker == id then 1 else 0) + (if d.maker == id then 1 else 0)
  }

  function VolumeOf(deals: seq<Deal>, id: nat): int {
    if deals == [] then 0
    else
      var d := deals[|deals| - 1];
      VolumeOf(deals[..|deals| - 1], id) + Part(d, id) * d.amount
  }

  function CashOf(deals: seq<Deal>, id: nat): real {
    if deals == [] then 0.0
    else
      var d := deals[|deals| - 1];
      CashOf(deals[..|deals| - 1], id) + Part(d, id) as real * (d.price * d.amount as real)
  }

  /** The taker rate where the order took, the maker rate where it made. */
  function FeesOf(deals: seq<Deal>, o: Order): real {
    if deals == [] then 0.0
    else
      var d := deals[|deals| - 1];
      FeesOf(deals[..|deals| - 1], o)
      + (if d.taker == o.id then d.amount as real * o.takerFee else 0.0)
      + (if d.maker == o.id then d.amount as real * o.makerFee else 0.0)
  }

  /** What closing at the price of a deal gains on a position entered at `entry`. */
  function GainOn(side: Side, entry: real, d: Deal): real {
    if entry == 0.0 then 0.0
    else (if side.Bull? then d.price - entry else entry - d.price) / entry * d.amount as real
  }

  /** The gains of a closing order's deals, each on the entry price that its position then had. */
  function ProfitOf(deals: seq<Deal>, o: Order): real {
    if deals == [] || o.oper.Open? then 0.0
    else
      var rest, d := deals[..|deals| - 1], deals[|deals| - 1];
      var k := PKey(o.user, o.side);
      ProfitOf(rest, o)
      + (if d.taker == o.id then GainOn(o.side, Replay(rest, k).price, d) else 0.0)
      + (if d.maker == o.id then GainOn(o.side, AfterTaker(Replay(rest, k), d, k).price, d) else 0.0)
  }

  /** The deals that name an order report its terms: its taker rate where it took, its maker rate
      where it made. */
  ghost predicate OnTerms(d: Deal, o: Order) {
    && (d.taker == o.id ==> d.takes == Leg(PKey(o.user, o.side), o.oper, o.pattern, o.leverage, o.takerFee))
    && (d.maker == o.id ==> d.makes == Leg(PKey(o.user, o.side), o.oper, o.pattern, o.leverage, o.makerFee))
  }

  ghost predicate Agrees(deals: seq<Deal>, o: Order) {
    && o.amount - o.left == VolumeOf(deals, o.id)
    && o.dealMoney == CashOf(deals, o.id)
    && o.dealFee == FeesOf(deals, o)
    && (o.leverage != 0.0 ==> o.dealStock == VolumeOf(deals, o.id) as real / o.leverage - FeesOf(deals, o))
    && o.pnl == ProfitOf(deals, o)
    && (forall d :: d in deals ==> OnTerms(d, o))
  }

  /** No deal names an order that does not exist yet. */
  ghost predicate Past(deals: seq<Deal>, orderId: nat) {
    forall d :: d in deals ==> d.taker <= orderId && d.maker <= orderId
  }

  /** Deals are numbered one after the other, and the latest price is that of the last one. */
  ghost predicate Chronicled(s: State) {
    && (forall i :: 0 <= i < |s.deals| ==> s.deals[i].id == s.dealId - |s.deals| + i + 1)
    && (s.deals != [] ==> s.latest == s.deals[|s.deals| - 1].price)
  }

  /** Every position has a number of its own. */
  ghost predicate Numbered(pos: map<PKey, Pos>, posId: nat) {
    && (forall k :: k in pos ==> 0 < pos[k].id <= posId)
    && (forall j, k :: j in pos && k in pos && pos[j].id == pos[k].id ==> j == k)
  }

  ghost predicate Reconciled(s: State, flight: Book) {
    && Past(s.deals, s.orderId)
    && (forall o :: o in s.asks || o in s.bids || o in flight ==> Agrees(s.deals, o))
    && Replayed(s.pos, s.deals) && Chronicled(s) && Numbered(s.pos, s.posId)
  }

  /** Nothing was traded between the two states. */
  ghost predicate SameStory(s: State, s2: State) {
    s2.deals == s.deals && s2.dealId == s.dealId && s2.latest == s.latest && s2.posId == s.posId
  }

  // ----- one more deal

  lemma Appended(deals: seq<Deal>, d: Deal, o: Order)
    ensures VolumeOf(deals + [d], o.id) == VolumeOf(deals, o.id) + Part(d, o.id) * d.amount
    ensures CashOf(deals + [d], o.id) == CashOf(deals, o.id) + Part(d, o.id) as real * (d.price * d.amount as real)
    ensures FeesOf(deals + [d], o) == FeesOf(deals, o)
                                      + (if d.taker == o.id then d.amount as real * o.takerFee else 0.0)
                                      + (if d.maker == o.id then d.amount as real * o.makerFee else 0.0)
    ensures ProfitOf(deals + [d], o) == ProfitOf(deals, o) + ProfitIn(deals, d, o)
  {
    assert (deals + [d])[..|deals|] == deals;
  }

  /** What deal `d` after the deals `rest` gains for an order. */
  function ProfitIn(rest: seq<Deal>, d: Deal, o: Order): real {
    var k := PKey(o.user, o.side);
    if o.oper.Open? then 0.0
    else
      (if d.taker == o.id then GainOn(o.side, Replay(rest, k).price, d) else 0.0)
      + (if d.maker == o.id then GainOn(o.side, AfterTaker(Replay(rest, k), d, k).price, d) else 0.0)
  }

  lemma OthersAgree(deals: seq<Deal>, d: Deal, o: Order)
    requires Agrees(deals, o) && Part(d, o.id) == 0
    ensures Agrees(deals + [d], o)
  {
    hide VolumeOf, CashOf, FeesOf, ProfitOf, GainOn, Replay, AfterTaker;
    Appended(deals, d, o);
  }

  lemma ShareGrows(a: real, b: real, l: real)
    requires l != 0.0
    ensures (a + b) / l == a / l + b / l
  {
  }

  /** `o2` is `o` after its part of deal `d`, up to frozen money. */
  lemma FilledAgrees(deals: seq<Deal>, d: Deal, o: Order, o2: Order, fee: real)
    requires Agrees(deals, o) && Part(d, o.id) == 1 && OnTerms(d, o)
    requires fee == d.amount as real * (if d.taker == o.id then o.takerFee else o.makerFee)
    requires o2 == FillOrder(o, d.amount, d.price, fee).(freeze := o2.freeze, pnl := o2.pnl)
    requires o2.pnl == o.pnl + ProfitIn(deals, d, o)
    ensures Agrees(deals + [d], o2)
  {
    hide VolumeOf, CashOf, FeesOf, ProfitOf, ProfitIn;
    Appended(deals, d, o2);
    FeesIgnoreTotals(deals, o, o2);
    ProfitIgnoresTotals(deals, d, o, o2);
    if o.leverage != 0.0 { ShareGrows(VolumeOf(deals, o.id) as real, d.amount as real, o.leverage); }
    assert forall e :: e in deals ==> OnTerms(e, o);
  }

  lemma {:induction false} FeesIgnoreTotals(deals: seq<Deal>, o: Order, o2: Order)
    requires o2.id == o.id && o2.takerFee == o.takerFee && o2.makerFee == o.makerFee
    ensures FeesOf(deals, o2) == FeesOf(deals, o)
    decreases |deals|
  {
    if deals != [] { FeesIgnoreTotals(deals[..|deals| - 1], o, o2); }
  }

  lemma {:induction false} ProfitIgnoresTotals(deals: seq<Deal>, d: Deal, o: Order, o2: Order)
    requires SameTerms(o2, o)
    ensures ProfitOf(deals, o2) == ProfitOf(deals, o) && ProfitIn(deals, d, o2) == ProfitIn(deals, d, o)
    decreases |deals|
  {
    hide Replay, AfterTaker, GainOn;
    if deals != [] { ProfitIgnoresTotals(deals[..|deals| - 1], d, o, o2); }
  }

  lemma {:induction false} FreshAgrees(deals: seq<Deal>, o: Order, orderId: nat)
    requires Past(deals, orderId) && o.id > orderId && o.left == o.amount
    requires o.dealMoney == 0.0 && o.dealFee == 0.0 && o.dealStock == 0.0 && o.pnl == 0.0
    ensures Agrees(deals, o)
    decreases |deals|
  {
    if deals != [] {
      var d := deals[|deals| - 1];
      assert d in deals;
      FreshAgrees(deals[..|deals| - 1], o, orderId);
    }
  }

  // ----- one round

  lemma FillTotals(s: State, t: Order, m: Order, amount: int, price: real)
    ensures var f := Fill(s, t, m, amount, price);
            && f.taker == FillOrder(t, amount, price, Fee(amount, t.takerFee))
                            .(freeze := f.taker.freeze, pnl := f.taker.pnl)
            && f.maker == FillOrder(m, amount, price, Fee(amount, m.makerFee))
                            .(freeze := f.maker.freeze, pnl := f.maker.pnl)
  {
    hide TradeParty, SettleParty, FillOrder;
    ExchangeTotals(s.(latest := price), t, m, amount, price);
    hide Exchange;
    PayTotals(Exchange(s.(latest := price), t, m, amount, price), amount);
  }

  lemma ExchangeTotals(s: State, t: Order, m: Order, amount: int, price: real)
    ensures var f := Exchange(s, t, m, amount, price);
            && f.taker == FillOrder(t, amount, price, Fee(amount, t.takerFee)).(pnl := f.taker.pnl)
            && f.maker == FillOrder(m, amount, price, Fee(amount, m.makerFee)).(pnl := f.maker.pnl)
  {
    hide TradeParty, FillOrder;
  }

  lemma PayTotals(f: Flow, amount: int)
    ensures var p := Pay(f, amount);
            p.taker == f.taker.(freeze := p.taker.freeze) && p.maker == f.maker.(freeze := p.maker.freeze)
  {
    hide SettleParty;
  }

  lemma RestingUnique(s: State, a: Order, b: Order)
    requires Indexed(s) && (a in s.asks || a in s.bids) && (b in s.asks || b in s.bids) && a.id == b.id
    ensures a == b
  {
    hide Indexed, Lookup;
    RestingIsListed(s, a);
    RestingIsListed(s, b);
  }

  lemma RestingIsKnown(s: State, o: Order)
    requires Indexed(s) && (o in s.asks || o in s.bids)
    ensures o.id in s.orders
  {
    hide Indexed, Lookup;
    RestingIsListed(s, o);
    IndexedMeans(s, o.id);
  }

  /** After a round, an order that rests is the maker just traded with or was there before and
      took no part. */
  lemma StepBooks(s: State, t: Order, c: Scope, o: Order)
    requires Good(s, [t], c) && Sided(s) && Opposite(s, t) != []
    requires o in Step(s, t).0.asks || o in Step(s, t).0.bids
    ensures var m := Opposite(s, t)[0];
            var f := Fill(s, t, m, Min(t.left, m.left), m.price);
            && (m in s.asks || m in s.bids) && m.id != t.id
            && (o == f.maker || ((o in s.asks || o in s.bids) && o.id != t.id && o.id != m.id))
  {
    hide Step, Fill, Indexed, Backed, Min;
    var m := Opposite(s, t)[0];
    var f := Fill(s, t, m, Min(t.left, m.left), m.price);
    var r := Step(s, t).0;
    StepIsFill(s, t);
    StepIndexed(s, t);
    RestingIsKnown(s, m);
    RestingIsKnown(r, o);
    if o != f.maker {
      assert o in s.asks || o in s.bids;
      if o.id == m.id {
        RestingUnique(s, o, m);
        StepDropsMaker(s, t, m);
        if f.maker.left != 0 { RestingUnique(r, o, f.maker); }
      }
    }
  }

  lemma FillKeepsIds(s: State, t: Order, m: Order, amount: int, price: real)
    ensures var f := Fill(s, t, m, amount, price); f.taker.id == t.id && f.maker.id == m.id
  {
    hide Fill, SameBooks;
  }

  lemma StepForgetsMaker(s: State, t: Order, m: Order)
    requires Sided(s) && Opposite(s, t) != [] && m == Opposite(s, t)[0]
    ensures var f := Fill(s, t, m, Min(t.left, m.left), m.price);
            f.maker.left == 0 ==> f.maker.id !in Step(s, t).0.orders
  {
    hide Fill, Remove, DropFromList, Min, SameTerms, SameBooks;
  }

  lemma StepDropsMaker(s: State, t: Order, m: Order)
    requires Sided(s) && Opposite(s, t) != [] && m == Opposite(s, t)[0]
    ensures var f := Fill(s, t, m, Min(t.left, m.left), m.price);
            && f.maker.id == m.id
            && (f.maker.left == 0 ==> m.id !in Step(s, t).0.orders)
            && (f.maker.left != 0 ==> f.maker in Opposite(Step(s, t).0, t))
  {
    hide Fill, Step, Min, SameTerms, SameBooks;
    FillKeepsIds(s, t, m, Min(t.left, m.left), m.price);
    StepForgetsMaker(s, t, m);
    StepIsFill(s, t);
  }

  lemma PartyProfits(s: State, o: Order, amount: int, price: real, fee: real, d: Deal, h: Holding)
    requires AllOk(s.pos) && amount > 0 && d.price == price && d.amount == amount
    requires Matches(PosAt(s.pos, KeyOf(o)), h)
    requires o.oper.Close? ==> FrozenAt(s.pos, KeyOf(o)) >= amount as real
    ensures TradeParty(s, o, amount, price, fee).o.pnl
            == o.pnl + (if o.oper.Open? then 0.0 else GainOn(o.side, h.price, d))
  {
    hide OpenPos, ClosePos, Payout, Margin;
  }

  lemma FillProfits(s: State, t: Order, m: Order, amount: int)
    requires AllOk(s.pos) && !s.fault && amount > 0 && m.price > 0.0
    requires Sells(t) != Sells(m) && t.id != m.id && Replayed(s.pos, s.deals)
    requires t.oper.Close? ==> FrozenAt(s.pos, KeyOf(t)) >= amount as real
    requires m.oper.Close? ==> FrozenAt(s.pos, KeyOf(m)) >= amount as real
    ensures var d := Report(s.dealId + 1, m.price, amount, t, m);
            var f := Fill(s, t, m, amount, m.price);
            && f.taker.pnl == t.pnl + ProfitIn(s.deals, d, t) && f.maker.pnl == m.pnl + ProfitIn(s.deals, d, m)
  {
    hide TradeParty, Matches, AfterLeg, PosOk, FrozenAt, Imbalance, SettleParty, Replay, GainOn;
    var p := m.price;
    var s1, d := s.(latest := p), Report(s.dealId + 1, p, amount, t, m);
    var tFee, mFee := Fee(amount, t.takerFee), Fee(amount, m.makerFee);
    var t1, m1 := FillOrder(t, amount, p, tFee), FillOrder(m, amount, p, mFee);
    var kt, km := KeyOf(t), KeyOf(m);
    PartyKeeps(s1, t1, amount, p, tFee);
    PartyProfits(s1, t1, amount, p, tFee, d, Replay(s.deals, kt));
    PartyReplays(s1, t1, amount, p, tFee, d.takes, km, Replay(s.deals, km));
    var s2 := TradeParty(s1, t1, amount, p, tFee).s;
    assert t.oper.Close? && m.oper.Close? ==> kt != km;
    PartyProfits(s2, m1, amount, p, mFee, d, AfterTaker(Replay(s.deals, km), d, km));
  }

  /** What a round of the matcher gains for its two orders. */
  lemma RoundProfits(s: State, t: Order, c: Scope)
    requires Good(s, [t], c) && Sided(s) && Opposite(s, t) != [] && t.left != 0 && Replayed(s.pos, s.deals)
    ensures var m := Opposite(s, t)[0]; var amount := Min(t.left, m.left);
            var d := Report(s.dealId + 1, m.price, amount, t, m);
            var f := Fill(s, t, m, amount, m.price);
            && f.taker.pnl == t.pnl + ProfitIn(s.deals, d, t) && f.maker.pnl == m.pnl + ProfitIn(s.deals, d, m)
  {
    hide Fill, Indexed, Replayed, ProfitIn, Imbalance, PosOk;
    var m := Opposite(s, t)[0];
    MakerIsNotTaker(s, t, c);
    FlightIsLive(s, t);
    assert t in [t];
    if t.oper.Close? { CloseIsBacked(s, [t], t); }
    if m.oper.Close? { CloseIsBacked(s, [t], m); }
    FillProfits(s, t, m, Min(t.left, m.left));
  }

  lemma PartyNumbers(s: State, o: Order, amount: int, price: real, fee: real)
    requires Numbered(s.pos, s.posId)
    ensures var r := TradeParty(s, o, amount, price, fee).s; Numbered(r.pos, r.posId)
  {
    hide Payout, PartProfit, Margin, Equity, ReleasedPrincipal, Div;
  }

  lemma FillNumbers(s: State, t: Order, m: Order, amount: int, price: real)
    requires Numbered(s.pos, s.posId)
    ensures var r := Fill(s, t, m, amount, price).s; Numbered(r.pos, r.posId)
  {
    hide TradeParty, Numbered, SettleParty, FillOrder;
    var s1 := s.(latest := price);
    var tFee, mFee := Fee(amount, t.takerFee), Fee(amount, m.makerFee);
    var t1, m1 := FillOrder(t, amount, price, tFee), FillOrder(m, amount, price, mFee);
    PartyNumbers(s1, t1, amount, price, tFee);
    PartyNumbers(TradeParty(s1, t1, amount, price, tFee).s, m1, amount, price, mFee);
  }

  lemma StepStory(s: State, t: Order)
    requires Sided(s) && Opposite(s, t) != []
    ensures var m := Opposite(s, t)[0]; var f := Fill(s, t, m, Min(t.left, m.left), m.price); var r := Step(s, t);
            r.0.dealId == s.dealId + 1 && r.0.posId == f.s.posId
  {
  }

  lemma StepChronicles(s: State, t: Order)
    requires Sided(s) && Opposite(s, t) != [] && Chronicled(s) && Numbered(s.pos, s.posId)
    ensures var r := Step(s, t).0; Chronicled(r) && Numbered(r.pos, r.posId)
  {
    hide Step, Fill, Min, Numbered;
    var m := Opposite(s, t)[0];
    StepIsFill(s, t);
    StepStory(s, t);
    FillNumbers(s, t, m, Min(t.left, m.left), m.price);
  }

  lemma StepReconciles(s: State, t: Order, c: Scope)
    requires Good(s, [t], c) && Sided(s) && Opposite(s, t) != [] && t.left != 0 && Reconciled(s, [t])
    ensures var r := Step(s, t); Reconciled(r.0, [r.1])
  {
    hide Step, Fill, Good, Agrees, Min, Replayed;
    var m := Opposite(s, t)[0];
    var amount := Min(t.left, m.left);
    var f := Fill(s, t, m, amount, m.price);
    var d := Report(s.dealId + 1, m.price, amount, t, m);
    var r := Step(s, t);
    StepIsFill(s, t);
    assert t in [t] && f.s.deals == s.deals + [d];
    FillTotals(s, t, m, amount, m.price);
    MakerIsNotTaker(s, t, c);
    GoodReplays(s, t, c);
    RoundProfits(s, t, c);
    StepChronicles(s, t);
    hide ProfitIn, Chronicled, Numbered;
    FilledAgrees(s.deals, d, t, f.taker, Fee(amount, t.takerFee));
    FilledAgrees(s.deals, d, m, f.maker, Fee(amount, m.makerFee));
    forall o | o in r.0.asks || o in r.0.bids
      ensures Agrees(r.0.deals, o)
    {
      StepBooks(s, t, c, o);
      if o != f.maker { OthersAgree(s.deals, d, o); }
    }
  }

  lemma GoodReplays(s: State, t: Order, c: Scope)
    requires Good(s, [t], c) && Sided(s) && Opposite(s, t) != [] && t.left != 0 && Replayed(s.pos, s.deals)
    ensures var r := Step(s, t); Replayed(r.0.pos, r.0.deals)
  {
    hide Step, Replayed, Indexed;
    FlightIsLive(s, t);
    StepReplays(s, t);
  }

  lemma MakerIsNotTaker(s: State, t: Order, c: Scope)
    requires Good(s, [t], c) && Sided(s) && Opposite(s, t) != []
    ensures var m := Opposite(s, t)[0];
            && (m in s.asks || m in s.bids) && m.id != t.id
            && t.id <= s.orderId && m.id <= s.orderId
  {
    hide Indexed, Backed;
    var m := Opposite(s, t)[0];
    RestingIsKnown(s, m);
    IndexedMeans(s, m.id);
    assert t in [t];
  }

  // ----- matching, resting, cancelling

  lemma {:induction false} MatchReconciles(s: State, t: Order, c: Scope)
    requires Good(s, [t], c) && Reconciled(s, [t])
    ensures var r := Match(s, t); Reconciled(r.0, [r.1])
    decreases |Opposite(s, t)|
  {
    hide Step, Good, Reconciled;
    GoodFlight(s, t, c);
    if Opposite(s, t) != [] && t.left != 0 && Crosses(t, Opposite(s, t)[0]) {
      StepKeepsGood(s, t, c);
      StepReconciles(s, t, c);
      StepShrinksBook(s, t);
      var r := Step(s, t);
      if r.1.left != 0 { MatchReconciles(r.0, r.1, c); }
    }
  }

  /** Fewer orders with the same history and holdings reconcile as well. */
  lemma FewerReconcile(s: State, flight: Book, s2: State)
    requires Reconciled(s, flight) && SameStory(s, s2) && s2.orderId >= s.orderId
    requires SameHoldings(s.pos, s2.pos)
    requires forall o :: o in s2.asks || o in s2.bids ==> o in s.asks || o in s.bids || o in flight
    ensures Reconciled(s2, [])
  {
    hide Agrees, Replayed;
    SameHoldingsReplay(s.pos, s2.pos, s.deals);
  }

  lemma FinishDropsOnly(s: State, o: Order)
    ensures var r := Finish(s, o);
            && SameStory(s, r) && r.orderId == s.orderId
            && (forall x :: x in r.asks ==> x in s.asks) && (forall x :: x in r.bids ==> x in s.bids)
  {
    hide DropFromList, Remove;
  }

  lemma CancelDropsOnly(s: State, o: Order)
    ensures var r := Cancel(s, o);
            && SameStory(s, r) && r.orderId == s.orderId
            && (forall x :: x in r.asks ==> x in s.asks) && (forall x :: x in r.bids ==> x in s.bids)
  {
    var thaw := ThawMargin(s, o);
    if thaw.ok {
      var s1 := s.(bal := thaw.bal);
      var s2 := if o.oper.Close? && o.left > 0 then ThawPosition(s1, KeyOf(o), o.left) else s1;
      FinishDropsOnly(s2, o);
      hide ThawMargin, ThawPosition, Finish;
      assert Cancel(s, o) == Finish(s2, o);
    }
  }

  lemma PutAddsOnly(s: State, o: Order)
    ensures var r := Put(s, o);
            && SameStory(s, r) && r.orderId == s.orderId
            && (forall x :: x in r.asks || x in r.bids ==> x in s.asks || x in s.bids || x == o)
  {
    hide AddToList, Insert;
  }

  lemma SettleAddsOnly(s: State, t: Order)
    ensures var r := Settle(s, t);
            && SameStory(s, r) && r.orderId == s.orderId
            && (forall x :: x in r.asks || x in r.bids ==> x in s.asks || x in s.bids || x == t)
  {
    hide Finish, Put, Cancel;
    FinishDropsOnly(s, t);
    PutAddsOnly(s, t);
    CancelDropsOnly(s, t);
  }

  lemma ExecuteReconciles(s: State, t: Order, c: Scope)
    requires Sided(s) && Good(s, [t], c) && Reconciled(s, [t])
    ensures Reconciled(Execute(s, t), [])
  {
    hide Good, Match, Settle, Reconciled, SameHoldings;
    MatchReconciles(s, t, c);
    var r := Match(s, t);
    SettleAddsOnly(r.0, r.1);
    SettleKeepsHoldings(r.0, r.1);
    FewerReconcile(r.0, [r.1], Settle(r.0, r.1));
  }

  // ----- the operations

  lemma NewOrderReconciles(s: State, s2: State, o: Order)
    requires Reconciled(s, []) && s2.asks == s.asks && s2.bids == s.bids && SameStory(s, s2)
    requires s2.orderId == s.orderId + 1 == o.id && o.left == o.amount
    requires o.dealMoney == 0.0 && o.dealFee == 0.0 && o.dealStock == 0.0 && o.pnl == 0.0
    requires SameHoldings(s.pos, s2.pos)
    ensures Reconciled(s2, [o])
  {
    hide Agrees, Replayed;
    SameHoldingsReplay(s.pos, s2.pos, s.deals);
    FreshAgrees(s.deals, o, s.orderId);
  }

  lemma AcceptedReconciles(s: State, a: Args, c: Scope)
    requires Sided(s) && Good(s, [], c) && !c.funded && Reconciled(s, []) && PutOpen(s, a).1.Accepted?
    ensures Reconciled(PutOpen(s, a).0, [])
  {
    hide Good, Reconciled, PutOpen, Execute, GoodVolume, ModeAfter, OrderLeverage, Funding, SameHoldings;
    UserHasMode(s, a, c);
    OpenOutcome(s, a);
    AcceptedIsGood(s, a, c);
    var (bal, freeze) := Funding(s, a);
    var (s1, t) := Opened(s, a, bal, freeze);
    SameIsSame(s.pos);
    NewOrderReconciles(s, s1, t);
    ExecuteReconciles(s1, t, c);
  }

  lemma PutOpenReconciles(s: State, a: Args, c: Scope)
    requires Sided(s) && Good(s, [], c) && !c.funded && Reconciled(s, [])
    ensures Reconciled(PutOpen(s, a).0, [])
  {
    hide Good, Reconciled, PutOpen, Execute, ModeAfter, Opened, Funding;
    if PutOpen(s, a).1.Accepted? {
      AcceptedReconciles(s, a, c);
    } else {
      UserHasMode(s, a, c);
      OpenOutcome(s, a);
      UnmovedReconciles(s, PutOpen(s, a).0);
    }
  }

  lemma UnmovedReconciles(s: State, s2: State)
    requires Reconciled(s, []) && s2.asks == s.asks && s2.bids == s.bids && SameStory(s, s2)
    requires s2.orderId >= s.orderId && s2.pos == s.pos
    ensures Reconciled(s2, [])
  {
    hide Agrees, Replayed;
  }

  /** Sending out a closing order for frozen volume. */
  lemma CloseReconciles(s: State, k: PKey, t: Order, c: Scope)
    requires Sided(s) && Good(s, [], c) && Reconciled(s, [])
    requires k in s.pos && t.oper.Close? && KeyOf(t) == k && t.id == s.orderId + 1
    requires 0 < t.left == t.amount && t.left <= s.pos[k].position && t.leverage == s.pos[k].leverage
    requires t.kind.Limit? ==> t.price > 0.0
    requires t.dealMoney == 0.0 && t.dealFee == 0.0 && t.dealStock == 0.0 && t.pnl == 0.0
    ensures var s1 := FreezePosition(s, k, t.left).(orderId := s.orderId + 1);
            Sided(s1) && Reconciled(Execute(s1, t), [])
  {
    hide Good, Reconciled, Execute, FreezePosition, SameHoldings;
    var s1 := FreezePosition(s, k, t.left).(orderId := s.orderId + 1);
    CloseFlightIsGood(s, k, t, c);
    SidedFromGood(s1, [t], c);
    FreezeTouches(s, k, t.left);
    FreezeKeepsHoldings(s, k, t.left);
    NewOrderReconciles(s, s1, t);
    ExecuteReconciles(s1, t, c);
  }

  lemma PutCloseReconciles(s: State, a: Args, c: Scope)
    requires Sided(s) && Good(s, [], c) && Reconciled(s, [])
    ensures Reconciled(PutClose(s, a).0, [])
  {
    hide Good, Reconciled, Execute, FreezePosition;
    var k := PKey(a.user, a.side);
    if GoodVolume(a.volume) && k in s.pos && s.pos[k].position as real >= a.volume
       && (a.kind.Limit? ==> a.price > 0.0) {
      FreezeTouches(s, k, a.volume.Floor);
      CloseReconciles(s, k, NewOrder(s.orderId + 1, a, Close, s.pos[k].leverage, 0.0), c);
    }
  }

  lemma {:induction false} CancelClosesReconciles(s: State, user: nat, side: Side)
    requires Reconciled(s, [])
    ensures Reconciled(CancelCloses(s, user, side), [])
    decreases |Ids(s.users, user)|
  {
    hide Reconciled, Cancel;
    var o := FirstClose(s, Ids(s.users, user), side);
    if o.Some? {
      FirstCloseFinds(s, Ids(s.users, user), side);
      if o.value.user == user {
        CancelShrinksList(s, o.value);
        CancelReconciles(s, o.value);
        CancelClosesReconciles(Cancel(s, o.value), user, side);
      }
    }
  }

  lemma CancelReconciles(s: State, o: Order)
    requires Reconciled(s, [])
    ensures Reconciled(Cancel(s, o), [])
  {
    hide Cancel, Reconciled, SameHoldings;
    CancelDropsOnly(s, o);
    CancelKeepsHoldings(s, o);
    FewerReconcile(s, [], Cancel(s, o));
  }

  lemma LiquidateReconciles(s: State, k: PKey, c: Scope)
    requires Sided(s) && Good(s, [], c) && Reconciled(s, [])
    ensures Reconciled(Liquidate(s, k), [])
  {
    hide Good, Reconciled, Execute, FreezePosition, CancelCloses, Equity, FrozenAt, SameHoldings;
    if k in s.pos && s.pos[k].pattern.Isolated? && s.latest > 0.0 && Underwater(k.side, s.pos[k], s.latest) {
      var s1 := CancelCloses(s, k.user, k.side);
      CancelClosesReconciles(s, k.user, k.side);
      CancelClosesKeepsGood(s, k.user, k.side, c);
      assert k in s1.pos;
      BlastFitsPosition(s1, k, c);
      var t := BlastOrder(s1.orderId + 1, k, s1.pos[k]);
      FreezeCommutes(s1, k, t.left);
      CancelClosesSided(s, k);
      CloseReconciles(s1, k, t, c);
    }
  }

  lemma CancelClosesSided(s: State, k: PKey)
    requires Sided(s)
    ensures Sided(CancelCloses(s, k.user, k.side))
  {
  }

  lemma DoReconciles(s: State, op: Op, c: Scope)
    requires Sided(s) && Good(s, [], c) && !c.funded && Reconciled(s, [])
    ensures Reconciled(Do(s, op), [])
  {
    hide Good, Reconciled, PutOpen, PutClose, Cancel, Liquidate;
    match op
    case OpenOrder(a) => PutOpenReconciles(s, a, c);
    case CloseOrder(a) => PutCloseReconciles(s, a, c);
    case CancelOrder(id) =>
      if Lookup(s, id).Some? { CancelReconciles(s, Lookup(s, id).value); }
    case LiquidatePosition(k) => LiquidateReconciles(s, k, c);
    case ChangeBalance(u, change) => UnmovedReconciles(s, AdjustBalance(s, u, change));
  }

  lemma {:induction false} RunReconciles(s: State, ops: seq<Op>, c: Scope)
    requires Sided(s) && Good(s, [], c) && !c.funded && Reconciled(s, [])
    ensures Reconciled(Run(s, ops), [])
    decreases |ops|
  {
    hide Good, Reconciled, Do;
    if ops != [] {
      DoKeepsGood(s, ops[0], c);
      DoReconciles(s, ops[0], c);
      RunReconciles(Do(s, ops[0]), ops[1..], c);
    }
  }

  lemma ReachableReconciles(s0: State, ops: seq<Op>)
    requires Untouched(s0) && s0.deals == []
    ensures Reconciled(Run(s0, ops), [])
  {
    hide Good, Run;
    var c := Scope(false, Base(s0));
    UntouchedIsGood(s0, c);
    RunReconciles(s0, ops, c);
  }

  /** In every reachable state, what each resting order has traded, its turnover, its fees and
      its traded margin are the sums over the deals of the history that name it. */
  lemma HistoryReconciles(s0: State, ops: seq<Op>)
    requires Untouched(s0) && s0.deals == []
    ensures var s := Run(s0, ops); forall o :: o in s.asks || o in s.bids ==> Agrees(s.deals, o)
  {
    hide Agrees, Run;
    ReachableReconciles(s0, ops);
  }

  /** In every reachable state, a key holds a position exactly when replaying the deals on it
      leaves something, and then with the replayed size, entry price and principal, and on the terms
      it was opened on. */
  lemma PositionsReplayHistory(s0: State, ops: seq<Op>, k: PKey)
    requires Untouched(s0) && s0.deals == []
    ensures var s := Run(s0, ops);
            var h := Replay(s.deals, k);
            && (k in s.pos <==> h.total > 0)
            && (k in s.pos ==>
                  && s.pos[k].position + s.pos[k].frozen == h.total && s.pos[k].price == h.price
                  && s.pos[k].principal == h.principal
                  && s.pos[k].pattern == h.pattern && s.pos[k].leverage == h.leverage)
  {
    hide Agrees, Run, Replay;
    ReachableReconciles(s0, ops);
    assert Matches(PosAt(Run(s0, ops).pos, k), Replay(Run(s0, ops).deals, k));
  }

  /** In every reachable state, deals are numbered in order without a gap, the latest price is that
      of the last deal, and no two positions share a number. */
  lemma HistoryIsNumbered(s0: State, ops: seq<Op>)
    requires Untouched(s0) && s0.deals == []
    ensures var s := Run(s0, ops); Chronicled(s) && Numbered(s.pos, s.posId)
  {
    hide Agrees, Run, Replayed;
    ReachableReconciles(s0, ops);
  }

  /** In every reachable state, the entry price of a position lies between the lowest and the
      highest price of the deals that opened it since there was last nothing on its key; whatever
      was closed in between does not matter. */
  lemma EntryPriceStaysInRange(s0: State, ops: seq<Op>, k: PKey, lo: real, hi: real)
    requires Untouched(s0) && s0.deals == []
    requires k in Run(s0, ops).pos
    requires forall x :: x in Replay(Run(s0, ops).deals, k).opens ==> lo <= x <= hi
    ensures lo <= Run(s0, ops).pos[k].price <= hi
  {
    hide Agrees, Run, Replay;
    var s := Run(s0, ops);
    ReachableReconciles(s0, ops);
    PositionsReplayHistory(s0, ops, k);
    ReplayIsAveraged(s.deals, k);
    assert Between(Replay(s.deals, k).opens, lo, hi);
  }
}
