/** What one deal does to everybody's money, told from the deal history alone. */
module FuturesAccounts {
  import opened Common
  import opened Ledger
  import opened Futures
  import opened FuturesSums
  import opened FuturesPositions
  import opened FuturesIndex
  import opened FuturesBacking
  import opened FuturesSweep
  import opened FuturesMargin
  import opened FuturesRun
  import opened FuturesReplay
  import opened FuturesHistory

  /** The equity in `amount` of a holding: its share of the principal and the gain since entry. */
  function Worth(h: Holding, side: Side, amount: int, price: real): real {
    if h.total == 0 || h.price == 0.0 then 0.0
    else
      var gain := (if side.Bull? then price - h.price else h.price - price) / h.price;
      (h.principal / h.total as real + gain) * amount as real
  }

  /** The available money of a party after its side of a deal: a limit order pays its margin out of
      what it froze, a market order out of what is available; a closing order is paid its worth,
      unless that is a loss, and then its fee is taken, if it is there; a liquidation gets nothing. */
  function Settled(o: Order, avail: real, amount: int, worth: real, rate: real): real {
    if o.oper.Open? then
      if o.kind.Limit? || o.leverage == 0.0 then avail else avail - amount as real / o.leverage
    else if o.isblast then avail
    else
      var x := if worth >= 0.0 then avail + worth else avail;
      var fee := amount as real * rate;
      if 0.0 <= fee <= x then x - fee else x
  }

  lemma WorthIsPayout(p: Pos, h: Holding, side: Side, amount: int, price: real)
    requires PosOk(p) && Matches(Some(p), h)
    ensures Payout(side, p, amount, price) == Worth(h, side, amount, price)
  {
    PayoutIsShare(side, p, amount, price);
    var gain := (if side.Bull? then price - h.price else h.price - price) / h.price;
    var unit := p.principal / Total(p) as real;
    assert h.total as real == Total(p) as real && unit == h.principal / h.total as real;
    assert Gain(side, p, price) == gain;
    assert UnitEquity(side, p, price) == unit + gain;
    hide Payout, UnitEquity;
    SameFactors(UnitEquity(side, p, price), unit + gain, amount as real);
  }

  lemma SameFactors(x: real, y: real, a: real)
    requires x == y
    ensures x * a == y * a
  {
  }

  lemma PartyIsPaid(s: State, o: Order, amount: int, price: real, fee: real, h: Holding)
    requires AllOk(s.pos) && amount > 0 && Matches(PosAt(s.pos, KeyOf(o)), h) && o.oper.Close?
    requires FrozenAt(s.pos, KeyOf(o)) >= amount as real
    ensures TradeParty(s, o, amount, price, fee).payout == Worth(h, o.side, amount, price)
  {
    hide Worth, Payout, PartProfit, ClosePos, OpenPos, Margin;
    assert KeyOf(o) in s.pos;
    WorthIsPayout(s.pos[KeyOf(o)], h, o.side, amount, price);
  }

  lemma SettledMeans(s: State, o: Order, amount: int, payout: real, rate: real)
    requires Solvent(s) && amount > 0 && (o.oper.Open? ==> o.leverage > 0.0)
    requires !SettleParty(s, o, amount, payout, Fee(amount, rate)).0.denied
    ensures var r := SettleParty(s, o, amount, payout, Fee(amount, rate)).0;
            forall u :: Avail(r.bal, u, s.money)
                        == if u == o.user then Settled(o, Avail(s.bal, u, s.money), amount, payout, rate)
                           else Avail(s.bal, u, s.money)
  {
    hide SettleParty, Avail, NonNegative;
    SettleMeans(s, o, amount, payout, Fee(amount, rate));
  }

  lemma PaySettles(f: Flow, amount: int)
    requires Solvent(f.s) && amount > 0
    requires (f.taker.oper.Open? ==> f.taker.leverage > 0.0) && (f.maker.oper.Open? ==> f.maker.leverage > 0.0)
    requires !Pay(f, amount).s.denied
    ensures var r := Pay(f, amount).s;
            forall u ::
              var x := if u == f.taker.user
                       then Settled(f.taker, Avail(f.s.bal, u, f.s.money), amount, f.tPayout, f.taker.takerFee)
                       else Avail(f.s.bal, u, f.s.money);
              Avail(r.bal, u, f.s.money)
              == if u == f.maker.user then Settled(f.maker, x, amount, f.mPayout, f.maker.makerFee) else x
  {
    hide SettleParty, Avail, NonNegative, Settled;
    var s1 := SettleParty(f.s, f.taker, amount, f.tPayout, Fee(amount, f.taker.takerFee)).0;
    SettleMeans(f.s, f.taker, amount, f.tPayout, Fee(amount, f.taker.takerFee));
    SettleMeans(s1, f.maker, amount, f.mPayout, Fee(amount, f.maker.makerFee));
    SettledMeans(f.s, f.taker, amount, f.tPayout, f.taker.takerFee);
    SettledMeans(s1, f.maker, amount, f.mPayout, f.maker.makerFee);
  }

  lemma SettledIgnoresTotals(o: Order, o2: Order, avail: real, amount: int, worth: real, worth2: real, rate: real)
    requires SameTerms(o2, o) && (o.oper.Close? ==> worth2 == worth)
    ensures Settled(o2, avail, amount, worth2, rate) == Settled(o, avail, amount, worth, rate)
  {
  }

  /** The payouts of a deal are the worths of what it closes; the maker's counts after the taker's
      leg. */
  lemma ExchangePaysWorth(s: State, t: Order, m: Order, amount: int, d: Deal)
    requires AllOk(s.pos) && !s.fault && amount > 0 && m.price > 0.0
    requires Sells(t) != Sells(m) && Replayed(s.pos, s.deals) && d == Report(d.id, m.price, amount, t, m)
    requires t.oper.Close? ==> FrozenAt(s.pos, KeyOf(t)) >= amount as real
    requires m.oper.Close? ==> FrozenAt(s.pos, KeyOf(m)) >= amount as real
    ensures var x := Exchange(s, t, m, amount, m.price);
            && (t.oper.Close? ==> x.tPayout == Worth(Replay(s.deals, KeyOf(t)), t.side, amount, m.price))
            && (m.oper.Close? ==>
                  x.mPayout == Worth(AfterTaker(Replay(s.deals, KeyOf(m)), d, KeyOf(m)), m.side, amount, m.price))
  {
    hide TradeParty, Matches, AfterLeg, PosOk, FrozenAt, Imbalance, Replay, Worth;
    var p := m.price;
    var tFee, mFee := Fee(amount, t.takerFee), Fee(amount, m.makerFee);
    var t1, m1 := FillOrder(t, amount, p, tFee), FillOrder(m, amount, p, mFee);
    var kt, km := KeyOf(t), KeyOf(m);
    PartyKeeps(s, t1, amount, p, tFee);
    if t.oper.Close? { PartyIsPaid(s, t1, amount, p, tFee, Replay(s.deals, kt)); }
    PartyReplays(s, t1, amount, p, tFee, d.takes, km, Replay(s.deals, km));
    var s2 := TradeParty(s, t1, amount, p, tFee).s;
    assert t.oper.Close? && m.oper.Close? ==> kt != km;
    if m.oper.Close? { PartyIsPaid(s2, m1, amount, p, mFee, AfterTaker(Replay(s.deals, km), d, km)); }
  }

  /** The available money of user `u` after a deal, from the money before it and the deals before. */
  function AvailAfter(s: State, t: Order, m: Order, d: Deal, u: nat): real {
    var kt, km := PKey(t.user, t.side), PKey(m.user, m.side);
    var x := if u != t.user then Avail(s.bal, u, s.money)
             else Settled(t, Avail(s.bal, u, s.money), d.amount,
                          Worth(Replay(s.deals, kt), t.side, d.amount, d.price), t.takerFee);
    if u != m.user then x
    else Settled(m, x, d.amount, Worth(AfterTaker(Replay(s.deals, km), d, km), m.side, d.amount, d.price), m.makerFee)
  }

  lemma FillSettles(s: State, t: Order, m: Order, amount: int, u: nat)
    requires Solvent(s) && AllOk(s.pos) && !s.fault && amount > 0 && m.price > 0.0
    requires (t.oper.Open? ==> t.leverage > 0.0) && (m.oper.Open? ==> m.leverage > 0.0)
    requires Sells(t) != Sells(m) && Replayed(s.pos, s.deals)
    requires t.oper.Close? ==> FrozenAt(s.pos, KeyOf(t)) >= amount as real
    requires m.oper.Close? ==> FrozenAt(s.pos, KeyOf(m)) >= amount as real
    requires !Fill(s, t, m, amount, m.price).s.denied
    ensures var d := Report(s.dealId + 1, m.price, amount, t, m);
            Avail(Fill(s, t, m, amount, m.price).s.bal, u, s.money) == AvailAfter(s, t, m, d, u)
  {
    hide Fill, Exchange, Pay, Settled, Worth, Replay, AfterTaker, Replayed, Imbalance, PosOk, FrozenAt, Avail;
    var s1, d := s.(latest := m.price), Report(s.dealId + 1, m.price, amount, t, m);
    var x := Exchange(s1, t, m, amount, m.price);
    FillIsPay(s, t, m, amount);
    ExchangePaysWorth(s1, t, m, amount, d);
    DrawnIgnoresTotals(x.taker, t, amount);
    DrawnIgnoresTotals(x.maker, m, amount);
    PaySettles(x, amount);
    var kt, km := KeyOf(t), KeyOf(m);
    var before := Avail(s.bal, u, s.money);
    SettledIgnoresTotals(t, x.taker, before, amount,
                         Worth(Replay(s.deals, kt), t.side, amount, m.price), x.tPayout, t.takerFee);
    var mid := if u == t.user then Settled(x.taker, before, amount, x.tPayout, t.takerFee) else before;
    SettledIgnoresTotals(m, x.maker, mid, amount,
                         Worth(AfterTaker(Replay(s.deals, km), d, km), m.side, amount, m.price), x.mPayout, m.makerFee);
  }

  /** In every round that the ledger does not refuse, everybody's available money is what the deal
      history says: margins paid by market opens, worths less fees paid to closing orders, nothing
      for anybody else. */
  lemma RoundSettles(s: State, t: Order, base: nat -> real, drift: real, u: nat)
    requires Good(s, [t], Scope(false, base)) && Drifting(s, t, base, drift) && Opposite(s, t) != [] && t.left > 0
    requires Replayed(s.pos, s.deals) && !Step(s, t).0.denied
    ensures var m := Opposite(s, t)[0];
            var d := Report(s.dealId + 1, m.price, Min(t.left, m.left), t, m);
            Avail(Step(s, t).0.bal, u, s.money) == AvailAfter(s, t, m, d, u)
  {
    hide Fill, Step, Indexed, Replayed, AvailAfter, Imbalance, PosOk, Avail, Pledged, Frozen;
    var m := Opposite(s, t)[0];
    SidedFromBacked(s, t);
    PartiesAreSound(s, t, base, drift);
    StepDrifts(s, t, base, drift);
    StepIsFill(s, t);
    assert t in [t];
    if t.oper.Close? { CloseIsBacked(s, [t], t); }
    if m.oper.Close? { CloseIsBacked(s, [t], m); }
    FillSettles(s, t, m, Min(t.left, m.left), u);
  }
}
