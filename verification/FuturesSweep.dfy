/** What a market order that opens can pay for: it is charged fill by fill while it sweeps the
    book, and a closing order of its own user on the way pays out and takes its fee in between. */
module FuturesSweep {
  import opened Common
  import opened Ledger
  import opened Futures
  import opened FuturesPositions
  import opened FuturesMatching

  /** What the sweep changes for the taker's user: the available money, and the position traded on. */
  datatype Account = Account(avail: real, pos: Option<Pos>)

  /** A payout is credited unless it is negative, then the fee is taken if it is there. */
  function Credited(avail: real, payout: real, fee: real): real {
    var x := if payout >= 0.0 then avail + payout else avail;
    if 0.0 <= fee <= x then x - fee else x
  }

  function Earned(m: Order, avail: real, payout: real, fee: real): real {
    if m.oper.Open? || m.isblast then avail else Credited(avail, payout, fee)
  }

  /** A position but for its number. */
  function Bare(p: Option<Pos>): Option<Pos> {
    match p
    case None => None
    case Some(v) => Some(v.(id := 0))
  }

  predicate OwnClose(m: Order, t: Order) {
    m.user == t.user && m.oper.Close?
  }

  function TakerTrade(t: Order, m: Order, a: int, pos: Option<Pos>): Traded {
    TradeOn(pos, 0, t, a, m.price, Fee(a, t.takerFee), Margin(t, a))
  }

  function MakerTrade(m: Order, a: int, pos: Option<Pos>): Traded {
    TradeOn(pos, 0, m, a, m.price, Fee(a, m.makerFee), Margin(m, a))
  }

  /** The account after a fill that could be paid. */
  function AfterFill(t: Order, m: Order, a: int, acc: Account): Account {
    var grown := TakerTrade(t, m, a, acc.pos).after;
    if !OwnClose(m, t) then Account(acc.avail - Margin(t, a), grown)
    else
      var x := MakerTrade(m, a, grown);
      Account(Earned(m, acc.avail - Margin(t, a), x.payout, Fee(a, m.makerFee)), x.after)
  }

  /** A walk over the best makers before the order is sent: each fill's margin is positive, and there
      when its turn comes. */
  predicate Affords(book: Book, t: Order, acc: Account)
    decreases |book|
  {
    book == [] || t.left <= 0
    || (var m := book[0]; var a := Min(t.left, m.left);
        && t.leverage > 0.0 && acc.avail >= Margin(t, a)
        && Affords(book[1..], t.(left := t.left - a), AfterFill(t, m, a, acc)))
  }

  // ----- only the terms of the orders matter

  lemma TradeIgnoresTotals(p: Option<Pos>, id: nat, o: Order, o2: Order, a: int, price: real, fee: real, pri: real)
    requires SameTerms(o2, o)
    ensures var x, y := TradeOn(p, id, o2, a, price, fee, pri), TradeOn(Bare(p), 0, o, a, price, fee, pri);
            Bare(x.after) == y.after && x.payout == y.payout
  {
    hide OpenPos, ClosePos, Payout, PartProfit;
    assert o2.oper == o.oper && o2.side == o.side && o2.pattern == o.pattern && o2.leverage == o.leverage;
    if p.Some? {
      NumberIsIdle(o.side, p.value, a, price, fee, pri);
      BareKept(OpenPos(p.value, a, price, fee, pri));
      BareKept(ClosePos(p.value, a));
    } else {
      BareKept(Pos(id, o.pattern, o.leverage, a, 0, price, pri - fee));
    }
  }

  lemma BareKept(p: Pos)
    ensures Bare(Kept(p)) == Kept(p.(id := 0))
  {
  }

  lemma NumberIsIdle(side: Side, p: Pos, a: int, price: real, fee: real, pri: real)
    ensures var q := p.(id := 0);
            && OpenPos(q, a, price, fee, pri) == OpenPos(p, a, price, fee, pri).(id := 0)
            && ClosePos(q, a) == ClosePos(p, a).(id := 0)
            && Payout(side, q, a, price) == Payout(side, p, a, price)
  {
    hide Equity, Div, Payout, ReleasedPrincipal;
    var q := p.(id := 0);
    var t, e, x := Total(p) as real, Equity(side, p, price), p.principal;
    EquityIgnoresNumber(side, p, price);
    assert Total(q) as real == t && q.price * t == p.price * t;
    PayoutUnfolds(side, p, a, price, e, t);
    PayoutUnfolds(side, q, a, price, e, t);
    ReleaseUnfolds(p, a, x, t);
    ReleaseUnfolds(q, a, x, t);
    assert ReleasedPrincipal(q, a) == ReleasedPrincipal(p, a) && Total(q) == Total(p);
  }

  lemma PayoutUnfolds(side: Side, p: Pos, a: int, price: real, e: real, t: real)
    requires e == Equity(side, p, price) && t == Total(p) as real
    ensures Payout(side, p, a, price) == Div(e * a as real, t)
  {
    hide Equity;
  }

  lemma EquityIgnoresNumber(side: Side, p: Pos, price: real)
    ensures Equity(side, p.(id := 0), price) == Equity(side, p, price)
  {
    hide Div;
    assert Total(p.(id := 0)) == Total(p);
  }

  lemma {:induction false} AffordsIgnoresTotals(book: Book, t: Order, t2: Order, acc: Account)
    requires SameTerms(t2, t) && t2.left == t.left
    ensures Affords(book, t2, acc) == Affords(book, t, acc)
    decreases |book|
  {
    hide TradeOn, Earned;
    if book != [] && t.left > 0 {
      var m := book[0];
      var a := Min(t.left, m.left);
      FillIgnoresTotals(t, t2, m, a, acc);
      AffordsIgnoresTotals(book[1..], t.(left := t.left - a), t2.(left := t2.left - a), AfterFill(t, m, a, acc));
    }
  }

  lemma FillIgnoresTotals(t: Order, t2: Order, m: Order, a: int, acc: Account)
    requires SameTerms(t2, t)
    ensures AfterFill(t2, m, a, acc) == AfterFill(t, m, a, acc) && Margin(t2, a) == Margin(t, a)
  {
    hide Equity, PartProfit, ReleasedPrincipal, Payout;
  }

  // ----- a simple condition that is enough

  /** The closing fees that user `u` may have to pay while `book` is swept. */
  function OwnFees(book: Book, u: nat): real {
    if book == [] then 0.0 else OwnFee(book[0], u) + OwnFees(book[1..], u)
  }

  function OwnFee(m: Order, u: nat): real {
    if m.user == u && m.oper.Close? && m.makerFee > 0.0 then Fee(m.left, m.makerFee) else 0.0
  }

  ghost predicate OwnsNoClose(book: Book, u: nat) {
    forall m :: m in book && m.user == u ==> m.oper.Open?
  }

  lemma {:induction false} NoCloseNoFees(book: Book, u: nat)
    requires OwnsNoClose(book, u)
    ensures OwnFees(book, u) == 0.0
    decreases |book|
  {
    if book != [] { NoCloseNoFees(book[1..], u); }
  }

  lemma {:induction false} OwnFeesNonNegative(book: Book, u: nat)
    requires LiveBook(book)
    ensures OwnFees(book, u) >= 0.0
    decreases |book|
  {
    if book != [] {
      assert LiveBook(book[1..]);
      OwnFeesNonNegative(book[1..], u);
      FeePositive(book[0].left, book[0].makerFee);
    }
  }

  lemma FeePositive(a: int, rate: real)
    requires a > 0
    ensures rate > 0.0 ==> Fee(a, rate) > 0.0
    ensures rate <= 0.0 ==> Fee(a, rate) <= 0.0
  {
    var y := a as real;
    if rate > 0.0 { assert y * rate > 0.0; } else { assert y * rate <= 0.0; }
  }

  lemma MarginSplits(o: Order, a: int, b: int)
    requires o.leverage > 0.0
    ensures Margin(o, a + b) == Margin(o, a) + Margin(o, b)
    ensures b >= 0 ==> Margin(o, b) >= 0.0
    ensures b > 0 ==> Margin(o, b) > 0.0
  {
    var l, x, y := o.leverage, a as real, b as real;
    MulDiv(x, l); MulDiv(y, l); MulDiv(x + y, l);
    assert (x / l + y / l) * l == x + y;
    MulDiv(x / l + y / l, l);
    if b > 0 { assert y / l > 0.0; }
  }

  lemma FillCostsAtMost(t: Order, m: Order, a: int, acc: Account)
    requires a == m.left > 0
    ensures AfterFill(t, m, a, acc).avail >= acc.avail - Margin(t, a) - OwnFee(m, t.user)
  {
    hide TradeOn, Margin, Fee;
    FeePositive(a, m.makerFee);
  }

  /** Money for all the margin of what will be traded, and for the fees of one's own closing orders
      on that side, is enough. */
  lemma {:induction false} SimplyAffords(book: Book, t: Order, acc: Account)
    requires LiveBook(book) && t.leverage > 0.0 && t.left >= 0 && t.kind.Market?
    requires acc.avail >= Margin(t, Reach(book, t)) + OwnFees(book, t.user)
    ensures Affords(book, t, acc)
    decreases |book|
  {
    hide AfterFill, Margin, OwnFee, Crossing, Depth;
    if book != [] && t.left > 0 {
      var m, rest := book[0], book[1..];
      var a := Min(t.left, m.left);
      var t2 := t.(left := t.left - a);
      assert LiveBook(rest);
      OwnFeesNonNegative(book, t.user);
      MarketReach(book, t);
      MarginSplits(t, a, Reach(book, t) - a);
      if m.left < t.left {
        FillCostsAtMost(t, m, a, acc);
        SameMargin(t, t2, Reach(rest, t2));
        SimplyAffords(rest, t2, AfterFill(t, m, a, acc));
      }
    }
  }

  lemma SameMargin(t: Order, t2: Order, a: int)
    requires t2.leverage == t.leverage
    ensures Margin(t2, a) == Margin(t, a)
  {
  }

  lemma MarketReach(book: Book, t: Order)
    requires book != [] && LiveBook(book) && t.kind.Market? && t.left > 0
    ensures var m := book[0]; var t2 := t.(left := t.left - m.left);
            && 0 < Min(t.left, m.left) <= Reach(book, t)
            && (m.left < t.left ==> Reach(book, t) == m.left + Reach(book[1..], t2))
  {
    var t2 := t.(left := t.left - book[0].left);
    assert LiveBook(book[1..]);
    assert Crossing(book, t)[1..] == Crossing(book[1..], t);
    DepthOfCrossing(book[1..], t);
    CrossingIgnoresLeft(book[1..], t, t2);
  }

  lemma {:induction false} CrossingIgnoresLeft(book: Book, t: Order, t2: Order)
    requires t2 == t.(left := t2.left)
    ensures Crossing(book, t2) == Crossing(book, t)
    decreases |book|
  {
    if book != [] { CrossingIgnoresLeft(book[1..], t, t2); }
  }

  // ----- a fill of the machine moves the account

  function AccountOf(s: State, t: Order): Account {
    Account(Avail(s.bal, t.user, s.money), Bare(PosAt(s.pos, KeyOf(t))))
  }

  lemma PartyTrades(s: State, o: Order, amount: int, price: real, fee: real, k: PKey)
    ensures var t := TradeOn(PosAt(s.pos, KeyOf(o)), s.posId + 1, o, amount, price, fee, Margin(o, amount));
            var r := TradeParty(s, o, amount, price, fee);
            && PosAt(r.s.pos, k) == (if k == KeyOf(o) then t.after else PosAt(s.pos, k))
            && r.payout == t.payout
  {
    hide TradeOn;
  }

  /** The position of a taker that opens, and what its user's own closing maker is paid. */
  lemma ExchangeMovesAccount(s: State, t: Order, m: Order, a: int)
    requires Sells(t) != Sells(m) && t.oper.Open?
    ensures var x := Exchange(s, t, m, a, m.price);
            var acc := AfterFill(t, m, a, AccountOf(s, t));
            && Bare(PosAt(x.s.pos, KeyOf(t))) == acc.pos
            && acc.avail == (if OwnClose(m, t)
                             then Earned(m, Avail(s.bal, t.user, s.money) - Margin(t, a), x.mPayout, Fee(a, m.makerFee))
                             else Avail(s.bal, t.user, s.money) - Margin(t, a))
  {
    hide TradeOn, TradeParty, Bare, Margin, Fee, Earned;
    var p, k := m.price, KeyOf(t);
    var tFee, mFee := Fee(a, t.takerFee), Fee(a, m.makerFee);
    var t1, m1 := FillOrder(t, a, p, tFee), FillOrder(m, a, p, mFee);
    PartyTrades(s, t1, a, p, tFee, k);
    var s2 := TradeParty(s, t1, a, p, tFee).s;
    PartyTrades(s2, m1, a, p, mFee, k);
    SameMargin(t, t1, a);
    SameMargin(m, m1, a);
    TradeIgnoresTotals(PosAt(s.pos, k), s.posId + 1, t, t1, a, p, tFee, Margin(t, a));
    assert OwnClose(m, t) <==> KeyOf(m) == k;
    TradeIgnoresTotals(PosAt(s2.pos, k), s2.posId + 1, m, m1, a, p, mFee, Margin(m, a));
  }
}
