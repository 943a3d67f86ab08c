/** Positions as the deal history tells them: replaying the deals on one key, by average cost,
    gives the size, the entry price and the principal of the position held there, and the terms it
    was opened on. */
module FuturesReplay {
  import opened Common
  import opened Futures
  import opened FuturesPositions
  import opened FuturesBacking

  /** What is held on one key, at which mean price, with how much money in it and on which terms, and
      the prices of the fills that opened it since there was last nothing. */
  datatype Holding = Holding(
    total: int, price: real, principal: real, pattern: Pattern, leverage: real, opens: seq<real>)

  const FLAT := Holding(0, 0.0, 0.0, Isolated, 0.0, [])

  /** What an opening leg puts into the position: its margin less its fee. (A margin over leverage
      zero is infinite and has no value here.) */
  function PutIn(leg: Leg, amount: int): real {
    (if leg.leverage == 0.0 then 0.0 else amount as real / leg.leverage) - amount as real * leg.rate
  }

  /** An opening leg starts a holding on its own terms or adds to one at the mean price; a closing
      leg takes out its share of the principal. */
  function AfterLeg(h: Holding, leg: Leg, amount: int, price: real): Holding {
    if leg.oper.Open? then
      if h.total <= 0 || amount <= 0 then Holding(amount, price, PutIn(leg, amount), leg.pattern, leg.leverage, [price])
      else
        var mean := (price * amount as real + h.price * h.total as real) / (amount + h.total) as real;
        h.(total := h.total + amount, price := mean, principal := h.principal + PutIn(leg, amount),
           opens := h.opens + [price])
    else if amount >= h.total then FLAT
    else
      h.(total := h.total - amount,
         principal := h.principal - (if h.total == 0 then 0.0 else amount as real * h.principal / h.total as real))
  }

  /** The taker's leg of a deal counts before the maker's. */
  function AfterTaker(h: Holding, d: Deal, k: PKey): Holding {
    if d.takes.key == k then AfterLeg(h, d.takes, d.amount, d.price) else h
  }

  function AfterDeal(h: Holding, d: Deal, k: PKey): Holding {
    var h1 := AfterTaker(h, d, k);
    if d.makes.key == k then AfterLeg(h1, d.makes, d.amount, d.price) else h1
  }

  function Replay(deals: seq<Deal>, k: PKey): Holding {
    if deals == [] then FLAT else AfterDeal(Replay(deals[..|deals| - 1], k), deals[|deals| - 1], k)
  }

  ghost predicate Matches(p: Option<Pos>, h: Holding) {
    match p
    case None => h == FLAT
    case Some(v) =>
      && h.total == Total(v) > 0 && h.price == v.price && h.principal == v.principal
      && h.pattern == v.pattern && h.leverage == v.leverage
  }

  ghost predicate Replayed(pos: map<PKey, Pos>, deals: seq<Deal>) {
    && (forall k :: Matches(PosAt(pos, k), Replay(deals, k)))
    && (forall d :: d in deals ==> d.amount > 0)
  }

  /** Positions that differ at most in how much of them is frozen. */
  ghost predicate SameHoldings(pos: map<PKey, Pos>, pos2: map<PKey, Pos>) {
    && pos.Keys == pos2.Keys
    && (forall k :: k in pos ==>
          Total(pos2[k]) == Total(pos[k])
          && pos2[k] == pos[k].(position := pos2[k].position, frozen := pos2[k].frozen))
  }

  lemma SameHoldingsReplay(pos: map<PKey, Pos>, pos2: map<PKey, Pos>, deals: seq<Deal>)
    requires Replayed(pos, deals) && SameHoldings(pos, pos2)
    ensures Replayed(pos2, deals)
  {
    hide Replay;
    forall k ensures Matches(PosAt(pos2, k), Replay(deals, k)) {
      assert Matches(PosAt(pos, k), Replay(deals, k));
    }
  }

  // ----- one fill

  lemma OpenMatches(p: Pos, amount: int, price: real, fee: real, pri: real, leg: Leg, h: Holding)
    requires PosOk(p) && Matches(Some(p), h) && amount > 0 && leg.oper.Open?
    requires fee == amount as real * leg.rate && pri == Div(amount as real, leg.leverage)
    ensures Matches(Some(OpenPos(p, amount, price, fee, pri)), AfterLeg(h, leg, amount, price))
  {
    var t, a := Total(p) as real, amount as real;
    var n := price * a + p.price * t;
    assert (amount + h.total) as real == a + t && n == price * a + h.price * h.total as real;
    assert OpenPos(p, amount, price, fee, pri).price == Div(n, a + t) == n / (a + t);
  }

  lemma CloseMatches(p: Pos, amount: int, leg: Leg, price: real, h: Holding)
    requires PosOk(p) && Matches(Some(p), h) && 0 < amount <= p.frozen && leg.oper.Close?
    ensures Matches(Kept(ClosePos(p, amount)), AfterLeg(h, leg, amount, price))
  {
    var t, a, x := Total(p) as real, amount as real, p.principal;
    assert h.total as real == t && h.principal == x;
    ReleaseUnfolds(p, amount, x, t);
    hide ReleasedPrincipal;
  }

  lemma TradeMatches(before: Option<Pos>, id: nat, o: Order, amount: int, price: real, fee: real, pri: real,
                     leg: Leg, h: Holding)
    requires Matches(before, h) && amount > 0
    requires leg.oper == o.oper && leg.pattern == o.pattern && leg.leverage == o.leverage
    requires fee == amount as real * leg.rate && pri == Div(amount as real, leg.leverage)
    requires o.oper.Close? ==> FrozenOf(before) >= amount
    requires before.Some? ==> PosOk(before.value)
    ensures Matches(TradeOn(before, id, o, amount, price, fee, pri).after, AfterLeg(h, leg, amount, price))
  {
    hide Payout, ReleasedPrincipal, PartProfit, OpenPos, ClosePos;
    if before.Some? {
      var p := before.value;
      if o.oper.Open? {
        OpenMatches(p, amount, price, fee, pri, leg, h);
      } else {
        CloseMatches(p, amount, leg, price, h);
      }
    }
  }

  lemma PartyReplays(s: State, o: Order, amount: int, price: real, fee: real, leg: Leg, k: PKey, h: Holding)
    requires AllOk(s.pos) && amount > 0 && Matches(PosAt(s.pos, k), h)
    requires leg == Leg(KeyOf(o), o.oper, o.pattern, o.leverage, leg.rate) && fee == amount as real * leg.rate
    requires o.oper.Close? ==> FrozenAt(s.pos, KeyOf(o)) >= amount as real
    ensures Matches(PosAt(TradeParty(s, o, amount, price, fee).s.pos, k),
                    if k == KeyOf(o) then AfterLeg(h, leg, amount, price) else h)
  {
    hide TradeOn, Matches, AfterLeg, PosOk;
    if k == KeyOf(o) {
      TradeMatches(PosAt(s.pos, k), s.posId + 1, o, amount, price, fee, Margin(o, amount), leg, h);
    }
  }

  lemma FillReplays(s: State, t: Order, m: Order, amount: int, k: PKey, h: Holding)
    requires AllOk(s.pos) && !s.fault && amount > 0 && m.price > 0.0
    requires Sells(t) != Sells(m)
    requires t.oper.Close? ==> FrozenAt(s.pos, KeyOf(t)) >= amount as real
    requires m.oper.Close? ==> FrozenAt(s.pos, KeyOf(m)) >= amount as real
    requires Matches(PosAt(s.pos, k), h)
    ensures Matches(PosAt(Fill(s, t, m, amount, m.price).s.pos, k),
                    AfterDeal(h, Report(s.dealId + 1, m.price, amount, t, m), k))
  {
    hide TradeParty, Matches, AfterLeg, PosOk, FrozenAt, Imbalance, SettleParty;
    var p := m.price;
    var s1 := s.(latest := p);
    var tFee, mFee := Fee(amount, t.takerFee), Fee(amount, m.makerFee);
    var t1, m1 := FillOrder(t, amount, p, tFee), FillOrder(m, amount, p, mFee);
    PartyKeeps(s1, t1, amount, p, tFee);
    var d := Report(s.dealId + 1, p, amount, t, m);
    PartyReplays(s1, t1, amount, p, tFee, d.takes, k, h);
    var s2 := TradeParty(s1, t1, amount, p, tFee).s;
    assert t.oper.Close? && m.oper.Close? ==> KeyOf(t) != KeyOf(m);
    PartyReplays(s2, m1, amount, p, mFee, d.makes, k, AfterTaker(h, d, k));
  }

  lemma ReplayOneMore(deals: seq<Deal>, d: Deal, k: PKey)
    ensures Replay(deals + [d], k) == AfterDeal(Replay(deals, k), d, k)
  {
    assert (deals + [d])[..|deals|] == deals;
  }

  lemma StepReplays(s: State, t: Order)
    requires Backed(s, [t]) && Opposite(s, t) != [] && t.left > 0 && Replayed(s.pos, s.deals)
    ensures var r := Step(s, t); Replayed(r.0.pos, r.0.deals)
  {
    hide Fill, Step, PosOk, Matches, Replay, AfterDeal, Imbalance;
    var m := Opposite(s, t)[0];
    var amount := Min(t.left, m.left);
    var d := Report(s.dealId + 1, m.price, amount, t, m);
    assert t in [t] && (m in s.asks || m in s.bids);
    if t.oper.Close? { CloseIsBacked(s, [t], t); }
    if m.oper.Close? { CloseIsBacked(s, [t], m); }
    StepIsFill(s, t);
    var r := Step(s, t).0;
    assert r.deals == s.deals + [d];
    forall k ensures Matches(PosAt(r.pos, k), Replay(r.deals, k)) {
      FillReplays(s, t, m, amount, k, Replay(s.deals, k));
      ReplayOneMore(s.deals, d, k);
    }
  }

  // ----- freezing and thawing

  lemma ThawKeepsHoldings(s: State, k: PKey, amount: int)
    ensures SameHoldings(s.pos, ThawPosition(s, k, amount).pos)
  {
  }

  lemma FreezeKeepsHoldings(s: State, k: PKey, amount: int)
    requires k in s.pos
    ensures SameHoldings(s.pos, FreezePosition(s, k, amount).pos)
  {
  }

  lemma CancelKeepsHoldings(s: State, o: Order)
    ensures SameHoldings(s.pos, Cancel(s, o).pos)
  {
    hide ThawMargin, ThawPosition, SameHoldings, DropFromList, Remove;
    var thaw := ThawMargin(s, o);
    ThawKeepsHoldings(s.(bal := thaw.bal), KeyOf(o), o.left);
    assert SameHoldings(s.pos, s.pos) by { SameIsSame(s.pos); }
  }

  lemma SameIsSame(pos: map<PKey, Pos>)
    ensures SameHoldings(pos, pos)
  {
  }

  lemma SettleKeepsHoldings(s: State, t: Order)
    ensures SameHoldings(s.pos, Settle(s, t).pos)
  {
    hide Cancel, SameHoldings, DropFromList, Remove, AddToList, Insert;
    SameIsSame(s.pos);
    CancelKeepsHoldings(s, t);
  }

  // ----- what the entry price means

  ghost predicate Between(xs: seq<real>, lo: real, hi: real) {
    forall x :: x in xs ==> lo <= x <= hi
  }

  ghost predicate Averaged(h: Holding) {
    && h.total >= 0 && (h.total == 0 <==> h.opens == [])
    && (forall lo, hi :: h.total > 0 && Between(h.opens, lo, hi) ==> lo <= h.price <= hi)
  }

  lemma LegKeepsAveraged(h: Holding, leg: Leg, amount: int, price: real)
    requires Averaged(h) && amount > 0
    ensures Averaged(AfterLeg(h, leg, amount, price))
  {
    var r := AfterLeg(h, leg, amount, price);
    forall lo, hi | r.total > 0 && Between(r.opens, lo, hi) ensures lo <= r.price <= hi {
      if leg.oper.Open? {
        assert price in r.opens;
        if h.total > 0 {
          assert Between(h.opens, lo, hi) by { assert forall x :: x in h.opens ==> x in r.opens; }
          var a, t := amount as real, h.total as real;
          MulDiv(price * a + h.price * t, a + t);
          MeanIsBetween(h.price, t, price, a, r.price, lo, hi);
        }
      }
    }
  }

  /** The replayed mean lies between the lowest and the highest opening price. */
  lemma {:induction false} ReplayIsAveraged(deals: seq<Deal>, k: PKey)
    requires forall d :: d in deals ==> d.amount > 0
    ensures Averaged(Replay(deals, k))
  {
    hide Averaged, AfterLeg;
    if deals == [] {
      assert Averaged(FLAT) by { FlatIsAveraged(); }
    } else {
      var d := deals[|deals| - 1];
      assert d in deals;
      ReplayIsAveraged(deals[..|deals| - 1], k);
      var h := Replay(deals[..|deals| - 1], k);
      LegKeepsAveraged(h, d.takes, d.amount, d.price);
      LegKeepsAveraged(AfterTaker(h, d, k), d.makes, d.amount, d.price);
    }
  }

  lemma FlatIsAveraged()
    ensures Averaged(FLAT)
  {
  }

  /** A deal that opens on a key, at its price. */
  ghost predicate OpensAt(d: Deal, k: PKey, price: real) {
    && d.price == price
    && ((d.takes.key == k && d.takes.oper.Open?) || (d.makes.key == k && d.makes.oper.Open?))
  }

  /** Every remembered opening price is that of a deal in the history. */
  lemma {:induction false} OpensAreDeals(deals: seq<Deal>, k: PKey, price: real)
    requires price in Replay(deals, k).opens
    ensures exists d :: d in deals && OpensAt(d, k, price)
  {
    var rest, d := deals[..|deals| - 1], deals[|deals| - 1];
    assert d in deals;
    if price in Replay(rest, k).opens {
      OpensAreDeals(rest, k, price);
      var e :| e in rest && OpensAt(e, k, price);
      assert e in deals;
    } else {
      assert OpensAt(d, k, price);
    }
  }
}
