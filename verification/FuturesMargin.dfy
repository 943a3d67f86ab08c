/** The margin ledger: each limit order that opens has its margin frozen, to the
    unit, for as long as it is live. */
module FuturesMargin {
  import opened Common
  import opened Ledger
  import opened Futures
  import opened FuturesSums
  import opened FuturesPositions
  import opened FuturesBacking
  import opened FuturesMatching
  import opened FuturesSweep

  /** A limit order that opens has a positive leverage and holds exactly the margin of its open
      amount. */
  ghost predicate Margined(o: Order) {
    o.oper.Open? && o.kind.Limit? ==> o.leverage > 0.0 && o.freeze == Margin(o, o.left)
  }

  /** A market order that opens froze nothing, and its fills take from that. */
  predicate HoldsNothing(o: Order) {
    o.oper.Open? && o.kind.Market? ==> o.freeze <= 0.0
  }

  /** The margin of user `u`'s live limit opens, resting and in flight. */
  function Pledged(s: State, flight: Book, u: nat): real {
    Sum(s.asks, FreezeOf(u)) + Sum(s.bids, FreezeOf(u)) + Sum(flight, FreezeOf(u))
  }

  /** A market order that opens is paid for out of the available balance, fill by fill. */
  predicate Covered(s: State, t: Order) {
    t.oper.Open? && t.kind.Market? ==> Affords(Opposite(s, t), t, AccountOf(s, t))
  }

  /** The margin ledger around one taker whose frozen margin is off by `drift`. */
  ghost predicate Drifting(s: State, t: Order, base: nat -> real, drift: real) {
    && s.money in s.assets && s.assets[s.money].Exact?
    && NonNegative(s.bal) && !s.denied
    && (forall o :: o in s.asks || o in s.bids ==> Margined(o))
    && (t.oper.Open? && t.kind.Limit? ==> t.freeze == Margin(t, t.left) + drift)
    && HoldsNothing(t)
    && (forall u :: base(u) >= 0.0)
    && (forall u :: Frozen(s.bal, u, s.money) == base(u) + Pledged(s, [t], u))
  }

  /** Each user's frozen money is what other markets froze (`base`) plus the margin
      of the live limit opens, and the ledger never refused to move any margin. */
  ghost predicate Funded(s: State, flight: Book, base: nat -> real) {
    && s.money in s.assets && s.assets[s.money].Exact?
    && NonNegative(s.bal) && !s.denied
    && (forall o :: o in s.asks || o in s.bids || o in flight ==> Margined(o))
    && (forall o :: o in flight ==> Covered(s, o) && HoldsNothing(o))
    && (forall u :: base(u) >= 0.0)
    && (forall u :: Frozen(s.bal, u, s.money) == base(u) + Pledged(s, flight, u))
  }

  lemma FundedDrifts(s: State, t: Order, base: nat -> real)
    ensures Funded(s, [t], base) <==> Drifting(s, t, base, 0.0) && Covered(s, t) && Margined(t)
  {
    hide Frozen, Pledged, Covered, Margin;
    assert t in [t];
  }

  /** What a fill of `o` draws from user `u`'s frozen money. */
  function Drawn(o: Order, u: nat, amount: int): real {
    if o.oper.Open? && o.kind.Limit? && o.user == u then Margin(o, amount) else 0.0
  }

  lemma MarginIsLinear(o: Order, amount: int)
    ensures Margin(o, o.left) - Margin(o, amount) == Margin(o, o.left - amount)
    ensures amount > 0 ==> (Margin(o, amount) > 0.0 <==> o.leverage > 0.0)
    ensures amount > 0 ==> (Margin(o, amount) < 0.0 <==> o.leverage < 0.0)
    ensures Margin(o, 0) == 0.0
  {
    var l, a, b := o.leverage, o.left as real, amount as real;
    assert (a - b) as real == (o.left - amount) as real;
    if l != 0.0 {
      MulDiv(a, l); MulDiv(b, l); MulDiv(a - b, l);
      assert (a / l - b / l) * l == a - b;
      MulDiv(a / l - b / l, l);
      if amount > 0 { SignOfShare(b, l); }
    }
  }

  lemma SignOfShare(b: real, l: real)
    requires b > 0.0 && l != 0.0
    ensures b / l > 0.0 <==> l > 0.0
    ensures b / l < 0.0 <==> l < 0.0
  {
    MulDiv(b, l);
    SignOfProduct(b / l, l);
  }

  lemma SignOfProduct(q: real, l: real)
    requires q * l > 0.0
    ensures (q > 0.0 <==> l > 0.0) && (q < 0.0 <==> l < 0.0)
  {
  }

  // ----- one party's settlement

  /** Whether the ledger lets an opening fill pay its margin. */
  predicate CanPay(s: State, o: Order, amount: int) {
    o.oper.Open? ==>
      o.leverage > 0.0 &&
      (if o.kind.Limit? then Frozen(s.bal, o.user, s.money) else Avail(s.bal, o.user, s.money)) >= Margin(o, amount)
  }

  ghost predicate Solvent(s: State) {
    s.money in s.assets && s.assets[s.money].Exact? && NonNegative(s.bal)
  }

  /** What a fill takes out of user `u`'s available money for margin: a market open pays there. */
  function Debited(o: Order, u: nat, amount: int): real {
    if o.oper.Open? && o.kind.Market? && o.user == u then Margin(o, amount) else 0.0
  }

  /** Neither an infinite nor a negative margin is moved by any ledger call. */
  lemma BadDebit(s: State, o: Order, amount: int)
    requires o.leverage <= 0.0 && amount > 0
    ensures DebitMargin(s, o, amount) == s.(denied := true)
  {
    MarginIsLinear(o, amount);
  }

  lemma LimitDebit(s: State, o: Order, amount: int)
    requires Solvent(s) && o.kind.Limit? && o.leverage > 0.0 && amount > 0
    ensures var r := DebitMargin(s, o, amount); var pri := Margin(o, amount);
            && NonNegative(r.bal) && (r.denied <==> s.denied || Frozen(s.bal, o.user, s.money) < pri)
            && (!r.denied ==>
                  forall u :: Frozen(r.bal, u, s.money) == Frozen(s.bal, u, s.money) - (if u == o.user then pri else 0.0)
                              && Avail(r.bal, u, s.money) == Avail(s.bal, u, s.money))
  {
    MarginIsLinear(o, amount);
    var pri := Margin(o, amount);
    var f, a := Key(o.user, Freeze, s.money), Key(o.user, Available, s.money);
    MoveMeans(s.assets, s.bal, f, a, pri);
    StaysNonNegative(s.assets, s.bal, f, a, pri);
    var b1 := DoUnfreeze(s.assets, s.bal, o.user, s.money, pri).bal;
    hide Move, Margin;
    SubMeans(s.assets, b1, a, pri);
    StaysNonNegative(s.assets, b1, a, f, pri);
  }

  lemma MarketDebit(s: State, o: Order, amount: int)
    requires Solvent(s) && o.kind.Market? && o.leverage > 0.0 && amount > 0
    ensures var r := DebitMargin(s, o, amount); var pri := Margin(o, amount);
            && NonNegative(r.bal) && (r.denied <==> s.denied || Avail(s.bal, o.user, s.money) < pri)
            && (!r.denied ==>
                  forall u :: Frozen(r.bal, u, s.money) == Frozen(s.bal, u, s.money)
                              && Avail(r.bal, u, s.money) == Avail(s.bal, u, s.money) - (if u == o.user then pri else 0.0))
  {
    MarginIsLinear(o, amount);
    var pri := Margin(o, amount);
    var f, a := Key(o.user, Freeze, s.money), Key(o.user, Available, s.money);
    hide Margin;
    SubMeans(s.assets, s.bal, a, pri);
    StaysNonNegative(s.assets, s.bal, a, f, pri);
  }

  lemma DebitMeans(s: State, o: Order, amount: int)
    requires Solvent(s) && o.oper.Open? && amount > 0
    ensures var r := DebitMargin(s, o, amount);
            && NonNegative(r.bal) && (r.denied <==> s.denied || !CanPay(s, o, amount))
            && (!r.denied ==>
                  forall u :: Frozen(r.bal, u, s.money) == Frozen(s.bal, u, s.money) - Drawn(o, u, amount)
                              && Avail(r.bal, u, s.money) == Avail(s.bal, u, s.money) - Debited(o, u, amount))
  {
    hide DebitMargin, Frozen, Avail, Margin, NonNegative;
    if o.leverage <= 0.0 {
      BadDebit(s, o, amount);
    } else if o.kind.Limit? {
      LimitDebit(s, o, amount);
    } else {
      MarketDebit(s, o, amount);
    }
  }

  lemma CreditMeans(s: State, o: Order, payout: real, fee: real)
    requires Solvent(s)
    ensures var r := CreditPayout(s, o, payout, fee);
            && NonNegative(r.bal) && r.denied == s.denied
            && Avail(r.bal, o.user, s.money) == Credited(Avail(s.bal, o.user, s.money), payout, fee)
            && (forall u :: Frozen(r.bal, u, s.money) == Frozen(s.bal, u, s.money)
                            && (u != o.user ==> Avail(r.bal, u, s.money) == Avail(s.bal, u, s.money)))
  {
    var a, f := Key(o.user, Available, s.money), Key(o.user, Freeze, s.money);
    AddMeans(s.assets, s.bal, a, payout);
    StaysNonNegative(s.assets, s.bal, a, f, payout);
    var b1 := Add(s.assets, s.bal, a, payout).bal;
    SubMeans(s.assets, b1, a, fee);
    StaysNonNegative(s.assets, b1, a, f, fee);
  }

  /** Settling one party: exactly when it is refused, and what it leaves of everyone's money. */
  lemma SettleMeans(s: State, o: Order, amount: int, payout: real, fee: real)
    requires Solvent(s) && amount > 0
    ensures var r := SettleParty(s, o, amount, payout, fee).0;
            && NonNegative(r.bal) && (r.denied <==> s.denied || !CanPay(s, o, amount))
            && (!r.denied ==>
                  && (forall u :: Frozen(r.bal, u, s.money) == Frozen(s.bal, u, s.money) - Drawn(o, u, amount))
                  && (forall u :: o.oper.Open? || u != o.user ==>
                        Avail(r.bal, u, s.money) == Avail(s.bal, u, s.money) - Debited(o, u, amount))
                  && (o.oper.Close? ==>
                        Avail(r.bal, o.user, s.money) == Earned(o, Avail(s.bal, o.user, s.money), payout, fee)))
  {
    hide DebitMargin, CreditPayout, Frozen, Avail, Margin, NonNegative, Credited;
    if o.oper.Open? {
      DebitMeans(s, o, amount);
    } else if !o.isblast {
      CreditMeans(s, o, payout, fee);
    }
  }

  lemma AvailNonNegative(s: State, user: nat)
    requires Solvent(s)
    ensures Avail(s.bal, user, s.money) >= 0.0
  {
  }

  /** The party of a closing fill gains its payout less its fee exactly when the payout is no loss
      and the fee is there to be taken (or both are the same negative number, and both refused). */
  lemma CloseIsCreditedIff(s: State, o: Order, amount: int, payout: real, fee: real)
    requires Solvent(s) && o.oper.Close? && !o.isblast
    ensures var before := Avail(s.bal, o.user, s.money);
            var after := Avail(SettleParty(s, o, amount, payout, fee).0.bal, o.user, s.money);
            after == before + payout - fee
            <==> (payout >= 0.0 && 0.0 <= fee <= before + payout) || payout == fee < 0.0
  {
    hide CreditPayout, Avail;
    CreditMeans(s, o, payout, fee);
    AvailNonNegative(s, o.user);
    assert Avail(s.bal, o.user, s.money) >= 0.0;
  }

  /** Settling a whole deal between a taker and a resting maker. */
  lemma PayMeans(f: Flow, amount: int)
    requires Solvent(f.s) && amount > 0 && f.maker.kind.Limit?
    ensures var r := Pay(f, amount);
            var u0 := f.taker.user;
            && Solvent(r.s) && (f.s.denied ==> r.s.denied)
            && r.taker.freeze == f.taker.freeze - (if f.taker.oper.Open? then Margin(f.taker, amount) else 0.0)
            && r.maker.freeze == f.maker.freeze - (if f.maker.oper.Open? then Margin(f.maker, amount) else 0.0)
            && (!r.s.denied ==>
                  && CanPay(f.s, f.taker, amount)
                  && (forall u :: Frozen(r.s.bal, u, f.s.money)
                                  == Frozen(f.s.bal, u, f.s.money) - Drawn(f.taker, u, amount) - Drawn(f.maker, u, amount))
                  && (f.taker.oper.Open? ==>
                        var left := Avail(f.s.bal, u0, f.s.money) - Debited(f.taker, u0, amount);
                        Avail(r.s.bal, u0, f.s.money)
                        == if OwnClose(f.maker, f.taker) then Earned(f.maker, left, f.mPayout, Fee(amount, f.maker.makerFee))
                           else left))
    ensures var r := Pay(f, amount);
            !f.s.denied && CanPay(f.s, f.taker, amount)
            && (f.maker.oper.Open? ==> f.maker.leverage > 0.0)
            && (forall u :: Frozen(f.s.bal, u, f.s.money) >= Drawn(f.taker, u, amount) + Drawn(f.maker, u, amount))
            ==> !r.s.denied
  {
    hide SettleParty, Frozen, Avail, Margin, NonNegative, Earned;
    var tFee, mFee := Fee(amount, f.taker.takerFee), Fee(amount, f.maker.makerFee);
    SettleMeans(f.s, f.taker, amount, f.tPayout, tFee);
    var s1 := SettleParty(f.s, f.taker, amount, f.tPayout, tFee).0;
    SettleMeans(s1, f.maker, amount, f.mPayout, mFee);
    assert Drawn(f.maker, f.maker.user, amount) == if f.maker.oper.Open? then Margin(f.maker, amount) else 0.0;
  }

  // ----- one round of matching

  lemma FillIsPay(s: State, t: Order, m: Order, amount: int)
    ensures var x := Exchange(s.(latest := m.price), t, m, amount, m.price);
            var f := Fill(s, t, m, amount, m.price);
            && f.s.bal == Pay(x, amount).s.bal && f.s.denied == Pay(x, amount).s.denied
            && f.taker == Pay(x, amount).taker && f.maker == Pay(x, amount).maker
            && x.s.bal == s.bal && x.s.assets == s.assets && x.s.money == s.money && x.s.denied == s.denied
            && f.s.assets == s.assets && f.s.money == s.money
  {
    hide Exchange, Pay;
  }

  lemma PledgedCovers(s: State, t: Order, m: Order, u: nat)
    requires Opposite(s, t) != [] && m == Opposite(s, t)[0]
    requires forall o :: o in s.asks || o in s.bids ==> Margined(o) && Resting(o)
    ensures Pledged(s, [t], u) >= Weigh(FreezeOf(u), t) + Weigh(FreezeOf(u), m)
  {
    var w := FreezeOf(u);
    forall o | o in s.asks || o in s.bids ensures Weigh(w, o) >= 0.0 {
      MarginIsLinear(o, o.left);
    }
    SumHead(t, [], w);
    SumBoundsMember(s.asks, m, w);
    SumBoundsMember(s.bids, m, w);
  }

  lemma DrawnFits(o: Order, u: nat, amount: int)
    requires Margined(o) && 0 < amount <= o.left
    ensures 0.0 <= Drawn(o, u, amount) <= Weigh(FreezeOf(u), o)
  {
    MarginIsLinear(o, amount);
    if amount < o.left {
      MarginIsLinear(o.(left := o.left - amount), o.left - amount);
    } else {
      MarginIsLinear(o, o.left);
    }
  }

  /** A fill takes the margin of the filled amount out of what the order holds frozen. */
  lemma FilledHolds(o: Order, o2: Order, amount: int, u: nat, drift: real)
    requires SameTerms(o2, o) && o2.left == o.left - amount
    requires o.oper.Open? && o.kind.Limit? ==> o.freeze == Margin(o, o.left) + drift
    requires o2.freeze == o.freeze - (if o.oper.Open? then Margin(o, amount) else 0.0)
    ensures o2.oper.Open? && o2.kind.Limit? ==> o2.freeze == Margin(o2, o2.left) + drift
    ensures drift == 0.0 && Margined(o) ==> Margined(o2)
    ensures Weigh(FreezeOf(u), o2) == Weigh(FreezeOf(u), o) - Drawn(o, u, amount)
    ensures drift == 0.0 && o2.left == 0 ==> Weigh(FreezeOf(u), o2) == 0.0
  {
    MarginIsLinear(o, amount);
    MarginIsLinear(o2, 0);
    assert Margin(o2, o2.left) == Margin(o, o.left - amount);
  }

  lemma DrawnIgnoresTotals(o: Order, o2: Order, amount: int)
    requires SameTerms(o, o2)
    ensures forall u :: Drawn(o, u, amount) == Drawn(o2, u, amount) && Debited(o, u, amount) == Debited(o2, u, amount)
    ensures forall x, payout, fee :: Earned(o, x, payout, fee) == Earned(o2, x, payout, fee)
    ensures Margin(o, amount) == Margin(o2, amount) && o.leverage == o2.leverage && o.oper == o2.oper
    ensures o.kind == o2.kind && o.user == o2.user && o.makerFee == o2.makerFee
  {
  }

  lemma PartiesAreSound(s: State, t: Order, base: nat -> real, drift: real)
    requires Backed(s, [t]) && Drifting(s, t, base, drift) && Opposite(s, t) != [] && t.left > 0
    ensures var m := Opposite(s, t)[0]; var a := Min(t.left, m.left);
            && Sided(s) && 0 < a <= t.left && a <= m.left
            && m.kind.Limit? && Margined(m)
            && (forall o :: o in s.asks || o in s.bids ==> Margined(o) && Resting(o))
  {
    var m := Opposite(s, t)[0];
    assert t in [t] && (m in s.asks || m in s.bids);
  }

  lemma StepPledged(s: State, t: Order, u: nat)
    requires Sided(s) && Opposite(s, t) != []
    ensures var m := Opposite(s, t)[0]; var w := FreezeOf(u);
            var f := Fill(s, t, m, Min(t.left, m.left), m.price); var r := Step(s, t);
            (f.maker.left == 0 ==> Weigh(w, f.maker) == 0.0) ==>
              Pledged(r.0, [r.1], u) - Pledged(s, [t], u)
              == Weigh(w, f.taker) - Weigh(w, t) + Weigh(w, f.maker) - Weigh(w, m)
  {
    hide Fill, Step, Sum, Weigh, Min, SameTerms;
    var w := FreezeOf(u);
    var book, rest := Opposite(s, t), Opposite(s, t)[1..];
    var m := book[0];
    var f := Fill(s, t, m, Min(t.left, m.left), m.price);
    StepIsFill(s, t);
    assert book == [m] + rest;
    SumHead(m, rest, w);
    SumHead(t, [], w);
    SumHead(f.taker, [], w);
    if f.maker.left == 0 {
      assert [] + rest == rest;
    } else {
      SumHead(f.maker, rest, w);
    }
  }

  /** What one round pays, seen from the state: `a` is the traded amount. */
  ghost predicate RoundPays(s: State, t: Order, r: State, a: int)
    requires Opposite(s, t) != []
  {
    var m := Opposite(s, t)[0];
    && Solvent(r) && r.money == s.money
    && (!r.denied ==>
          && CanPay(s, t, a)
          && (forall u :: Frozen(r.bal, u, s.money) == Frozen(s.bal, u, s.money) - Drawn(t, u, a) - Drawn(m, u, a))
          && (t.oper.Open? && t.kind.Market? ==>
                Avail(r.bal, t.user, s.money) == AfterFill(t, m, a, AccountOf(s, t)).avail))
    && (CanPay(s, t, a) && (forall u :: Frozen(s.bal, u, s.money) >= Drawn(t, u, a) + Drawn(m, u, a)) ==> !r.denied)
  }

  lemma FillPays(s: State, t: Order, a: int)
    requires Opposite(s, t) != [] && Solvent(s) && !s.denied
    requires a > 0 && Opposite(s, t)[0].kind.Limit? && Margined(Opposite(s, t)[0])
    requires Sells(t) != Sells(Opposite(s, t)[0])
    ensures var m := Opposite(s, t)[0]; var f := Fill(s, t, m, a, m.price);
            && RoundPays(s, t, f.s, a)
            && f.taker.freeze == t.freeze - (if t.oper.Open? then Margin(t, a) else 0.0)
            && f.maker.freeze == m.freeze - (if m.oper.Open? then Margin(m, a) else 0.0)
  {
    hide Exchange, Pay, Fill, Frozen, Avail, Margin, SameTerms, Drawn, Fee, NonNegative, Earned, AfterFill, Bare;
    var m := Opposite(s, t)[0];
    var x := Exchange(s.(latest := m.price), t, m, a, m.price);
    if t.oper.Open? { ExchangeMovesAccount(s.(latest := m.price), t, m, a); }
    FillIsPay(s, t, m, a);
    DrawnIgnoresTotals(x.taker, t, a);
    DrawnIgnoresTotals(x.maker, m, a);
    PayMeans(x, a);
  }

  lemma LimitCanPay(s: State, t: Order, m: Order, a: int)
    requires t.kind.Limit? && (t.oper.Open? ==> t.leverage > 0.0) && (m.oper.Open? ==> m.leverage > 0.0) && a > 0
    requires forall u :: Frozen(s.bal, u, s.money) >= Drawn(t, u, a) + Drawn(m, u, a)
    ensures CanPay(s, t, a)
  {
    MarginIsLinear(m, a);
    assert Frozen(s.bal, t.user, s.money) >= Drawn(t, t.user, a) + Drawn(m, t.user, a);
  }

  /** With the taker's margin right, everyone's frozen money covers what a round draws. */
  lemma RoundIsCovered(s: State, t: Order, base: nat -> real)
    requires Backed(s, [t]) && Drifting(s, t, base, 0.0) && Margined(t) && Opposite(s, t) != [] && t.left > 0
    ensures var m := Opposite(s, t)[0]; var a := Min(t.left, m.left);
            && (t.kind.Limit? ==> CanPay(s, t, a))
            && (forall u :: Frozen(s.bal, u, s.money) >= Drawn(t, u, a) + Drawn(m, u, a))
  {
    hide Frozen, Avail, Backed, Margin, Sum;
    var m := Opposite(s, t)[0];
    var a := Min(t.left, m.left);
    PartiesAreSound(s, t, base, 0.0);
    forall u ensures Frozen(s.bal, u, s.money) >= Drawn(t, u, a) + Drawn(m, u, a) {
      PledgedCovers(s, t, m, u);
      DrawnFits(t, u, a);
      DrawnFits(m, u, a);
    }
    if t.kind.Limit? { LimitCanPay(s, t, m, a); }
  }

  lemma RoundPledges(s: State, t: Order, drift: real)
    requires Sided(s) && Opposite(s, t) != []
    requires t.oper.Open? && t.kind.Limit? ==> t.freeze == Margin(t, t.left) + drift
    requires Margined(Opposite(s, t)[0])
    requires var m := Opposite(s, t)[0]; var a := Min(t.left, m.left); var f := Fill(s, t, m, a, m.price);
             && f.taker.freeze == t.freeze - (if t.oper.Open? then Margin(t, a) else 0.0)
             && f.maker.freeze == m.freeze - (if m.oper.Open? then Margin(m, a) else 0.0)
    ensures var m := Opposite(s, t)[0]; var a := Min(t.left, m.left); var r := Step(s, t);
            forall u :: Pledged(r.0, [r.1], u) == Pledged(s, [t], u) - Drawn(t, u, a) - Drawn(m, u, a)
  {
    hide Fill, Step, SameTerms, Margin, Sum, Drawn;
    var m := Opposite(s, t)[0];
    var a := Min(t.left, m.left);
    var f, r := Fill(s, t, m, a, m.price), Step(s, t);
    forall u ensures Pledged(r.0, [r.1], u) == Pledged(s, [t], u) - Drawn(t, u, a) - Drawn(m, u, a) {
      FilledHolds(t, f.taker, a, u, drift);
      FilledHolds(m, f.maker, a, u, 0.0);
      StepPledged(s, t, u);
    }
  }

  lemma StillHoldsNothing(s: State, t: Order, t2: Order, a: int)
    requires HoldsNothing(t) && CanPay(s, t, a) && a > 0 && SameTerms(t2, t)
    requires t2.freeze == t.freeze - (if t.oper.Open? then Margin(t, a) else 0.0)
    ensures HoldsNothing(t2)
  {
    MarginIsLinear(t, a);
  }

  /** One round keeps the drift of the taker, unless the ledger refuses; and it refuses
      nothing when the taker's margin is right and can be paid. */
  lemma StepDrifts(s: State, t: Order, base: nat -> real, drift: real)
    requires Backed(s, [t]) && Drifting(s, t, base, drift) && Opposite(s, t) != [] && t.left > 0
    ensures var m := Opposite(s, t)[0]; var r := Step(s, t);
            && RoundPays(s, t, r.0, Min(t.left, m.left))
            && (!r.0.denied ==> Drifting(r.0, r.1, base, drift))
            && (drift == 0.0 && Margined(t) && (t.kind.Market? ==> CanPay(s, t, Min(t.left, m.left))) ==> !r.0.denied)
  {
    hide Fill, Step, Exchange, Pay, SameTerms, Frozen, Avail, Backed, Margin, Sum, CanPay, Drawn;
    var book, m := Opposite(s, t), Opposite(s, t)[0];
    var a := Min(t.left, m.left);
    PartiesAreSound(s, t, base, drift);
    FillPays(s, t, a);
    StepIsFill(s, t);
    var f, r := Fill(s, t, m, a, m.price), Step(s, t);
    if drift == 0.0 && Margined(t) { RoundIsCovered(s, t, base); }
    if !f.s.denied { StillHoldsNothing(s, t, f.taker, a); }
    RoundPledges(s, t, drift);
    FilledHolds(t, f.taker, a, 0, drift);
    FilledHolds(m, f.maker, a, 0, 0.0);
    assert forall o :: o in Opposite(r.0, t) ==> o == f.maker || o in book[1..];
  }

  // ----- a market order that opens

  lemma RoundBooks(s: State, t: Order)
    requires Backed(s, [t]) && Opposite(s, t) != [] && t.left > 0
    ensures var book := Opposite(s, t); var m := book[0]; var a := Min(t.left, m.left); var r := Step(s, t);
            var m2 := Fill(s, t, m, a, m.price).maker;
            && 0 < a <= m.left && Sided(s)
            && SameTerms(r.1, t) && r.1.left == t.left - a
            && SameTerms(m2, m) && m2.left == m.left - a
            && Opposite(r.0, r.1) == (if m2.left == 0 then [] else [m2]) + book[1..]
            && LiveBook(book) && LiveBook(Opposite(r.0, r.1))
  {
    hide Fill, Step, SameTerms;
    var book, m := Opposite(s, t), Opposite(s, t)[0];
    assert t in [t] && (m in s.asks || m in s.bids);
    StepIsFill(s, t);
    StepShrinksBook(s, t);
    SameSideAs(t, Step(s, t).1, []);
  }

  lemma RoundPosition(s: State, t: Order)
    requires Sided(s) && Opposite(s, t) != [] && t.oper.Open?
    ensures var m := Opposite(s, t)[0]; var a := Min(t.left, m.left); var r := Step(s, t);
            Bare(PosAt(r.0.pos, KeyOf(t))) == AfterFill(t, m, a, AccountOf(s, t)).pos
  {
    hide Fill, Step, AfterFill, Bare, AccountOf, Min;
    var m := Opposite(s, t)[0];
    assert Sells(m) != Sells(t);
    StepMovesPositions(s, t);
    FillMovesPosition(s, t, m, Min(t.left, m.left));
  }

  lemma FillMovesPosition(s: State, t: Order, m: Order, a: int)
    requires Sells(t) != Sells(m) && t.oper.Open?
    ensures Bare(PosAt(Fill(s, t, m, a, m.price).s.pos, KeyOf(t))) == AfterFill(t, m, a, AccountOf(s, t)).pos
  {
    hide Exchange, Fill, AfterFill, Bare;
    FillTrades(s, t, m, a);
    ExchangeMovesAccount(s.(latest := m.price), t, m, a);
    assert AccountOf(s.(latest := m.price), t) == AccountOf(s, t);
  }

  lemma StepMovesPositions(s: State, t: Order)
    requires Sided(s) && Opposite(s, t) != []
    ensures var m := Opposite(s, t)[0];
            Step(s, t).0.pos == Fill(s, t, m, Min(t.left, m.left), m.price).s.pos
  {
    hide Fill, Step;
    StepIsFill(s, t);
  }

  lemma FillTrades(s: State, t: Order, m: Order, a: int)
    ensures Fill(s, t, m, a, m.price).s.pos == Exchange(s.(latest := m.price), t, m, a, m.price).s.pos
  {
    hide Exchange, Pay;
  }

  /** A taker is covered exactly when it can pay the next fill and is covered after it. */
  lemma CoverLasts(s: State, t: Order, base: nat -> real, drift: real)
    requires Backed(s, [t]) && Drifting(s, t, base, drift) && Opposite(s, t) != [] && t.left > 0
    ensures var a := Min(t.left, Opposite(s, t)[0].left); var r := Step(s, t);
            && (t.kind.Market? && Covered(s, t) ==> CanPay(s, t, a))
            && (!r.0.denied ==> (Covered(s, t) <==> Covered(r.0, r.1)))
            && (t.kind.Market? && r.0.denied && drift == 0.0 ==> !CanPay(s, t, a))
  {
    hide Step, Fill, Frozen, Avail, Pledged, Margin, Fee, Backed, Drifting, AfterFill, Bare, SameTerms;
    SidedFromBacked(s, t);
    StepDrifts(s, t, base, drift);
    RoundBooks(s, t);
    RoundTerms(s, t);
    if t.kind.Market? && t.oper.Open? {
      var book, m := Opposite(s, t), Opposite(s, t)[0];
      var a, r := Min(t.left, m.left), Step(s, t);
      RoundPosition(s, t);
      if !r.0.denied {
        assert AccountOf(r.0, r.1) == AfterFill(t, m, a, AccountOf(s, t));
        AffordsIgnoresTotals(book[1..], t.(left := t.left - a), r.1, AccountOf(r.0, r.1));
        if a == m.left { assert Opposite(r.0, r.1) == book[1..]; }
      }
    }
  }

  lemma RoundTerms(s: State, t: Order)
    requires Sided(s) && Opposite(s, t) != []
    ensures var r := Step(s, t);
            && r.1.user == t.user && r.1.kind == t.kind && r.1.oper == t.oper && KeyOf(r.1) == KeyOf(t)
            && r.1.leverage == t.leverage
            && r.0.money == s.money && SameTerms(r.1, t.(left := r.1.left))
  {
    hide Fill;
    StepShrinksBook(s, t);
  }

  lemma MarginedTerms(s: State, t2: Order, t: Order, base: nat -> real)
    requires Margined(t) && t2.leverage == t.leverage && t2.oper == t.oper && t2.kind == t.kind
    ensures Drifting(s, t2, base, 0.0) ==> Margined(t2)
  {
  }

  lemma StepKeepsFunded(s: State, t: Order, base: nat -> real)
    requires Backed(s, [t]) && Funded(s, [t], base) && Opposite(s, t) != [] && t.left > 0
    ensures var r := Step(s, t); Funded(r.0, [r.1], base)
  {
    hide Step, Funded, Covered, Drifting, Backed, CanPay, RoundPays, Margined;
    assert Sided(s) by { SidedFromBacked(s, t); }
    FundedDrifts(s, t, base);
    StepDrifts(s, t, base, 0.0);
    CoverLasts(s, t, base, 0.0);
    RoundTerms(s, t);
    MarginedTerms(Step(s, t).0, Step(s, t).1, t, base);
    FundedDrifts(Step(s, t).0, Step(s, t).1, base);
  }

  lemma SidedFromBacked(s: State, t: Order)
    requires Backed(s, [t])
    ensures Sided(s)
  {
  }
}
