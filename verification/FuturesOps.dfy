/** The operations of the futures machine, and runs of them. */
module FuturesOps {
  import opened Common
  import opened Ledger
  import opened Futures
  import opened FuturesSums
  import opened FuturesPositions
  import opened FuturesIndex
  import opened FuturesBacking
  import opened FuturesMatching
  import opened FuturesMargin
  import opened FuturesSweep
  import opened FuturesRun

  // ----- opening

  /** What a caller can check before an open: the order's leverage is the one the margin
      is computed with unless the user has no position, already has a mode, has orders
      resting, and asks for another leverage than the mode's. */
  predicate LeverageAgrees(s: State, a: Args) {
    || AnyPosition(s, a.user).Some?
    || a.user !in s.modes
    || Idle(s, a.user)
    || s.modes[a.user].leverage == a.leverage
  }

  /** The order that an open hands to the matcher, but for its frozen margin. */
  function TakerOf(s: State, a: Args): Order {
    NewOrder(s.orderId + 1, a, Open, OrderLeverage(s, a), 0.0)
  }

  /** What a caller can check before an open that is going to be accepted: a limit order's two
      leverages agree; a market order is covered. */
  predicate PaysMargin(s: State, a: Args) {
    if a.kind.Limit? then LeverageAgrees(s, a) else Covered(s, TakerOf(s, a))
  }

  lemma LeverageAgreesMeans(s: State, a: Args)
    ensures LeverageAgrees(s, a) <==> OrderLeverage(s, a) == MarginLeverage(s, a)
  {
  }

  /** The margin that a freeze can take is the margin of the amount at the order's own leverage,
      which then is positive, exactly when the two leverages agree. */
  lemma FrozenMarginIsRightIff(s: State, a: Args, id: nat)
    requires GoodVolume(a.volume) && a.kind.Limit?
    requires MarginLeverage(s, a) != 0.0 && Div(a.volume, MarginLeverage(s, a)) >= 0.0
    ensures var o := NewOrder(id, a, Open, OrderLeverage(s, a), Div(a.volume, MarginLeverage(s, a)));
            Margined(o) <==> LeverageAgrees(s, a)
  {
    var v, l, m := a.volume, OrderLeverage(s, a), MarginLeverage(s, a);
    LeverageAgreesMeans(s, a);
    assert v == v.Floor as real;
    SignOfShare(v, m);
    if l > 0.0 && v / l == v / m {
      MulDiv(v, l);
      MulDiv(v, m);
      SignOfShare(v, l);
      SameFactor(v / l, l, m);
    }
  }

  lemma SameFactor(q: real, l: real, m: real)
    requires q != 0.0 && q * l == q * m
    ensures l == m
  {
    assert q * (l - m) == 0.0;
  }

  /** The state and the taker that an accepted open hands to the matcher. */
  function Opened(s: State, a: Args, bal: Balances, freeze: real): (State, Order) {
    (s.(modes := ModeAfter(s, a), orderId := s.orderId + 1, bal := bal),
     NewOrder(s.orderId + 1, a, Open, OrderLeverage(s, a), freeze))
  }

  lemma ModesOnlyGrow(s: State, a: Args)
    ensures s.modes.Keys <= ModeAfter(s, a).Keys
  {
  }

  lemma UserHasMode(s: State, a: Args, c: Scope)
    requires Good(s, [], c)
    ensures a.user in ModeAfter(s, a)
    ensures AnyPosition(s, a.user).Some? ==> PosOk(AnyPosition(s, a.user).value)
  {
    assert PKey(a.user, Bull) in s.pos ==> a.user in s.modes;
    assert PKey(a.user, Bear) in s.pos ==> a.user in s.modes;
  }

  lemma FreezeOfMargin(s: State, a: Args, pri: real)
    requires NonNegative(s.bal) && s.money in s.assets && s.assets[s.money].Exact?
    requires DoFreeze(s.assets, s.bal, a.user, s.money, pri).ok
    ensures var b := DoFreeze(s.assets, s.bal, a.user, s.money, pri).bal;
            && NonNegative(b)
            && (forall u :: Frozen(b, u, s.money)
                            == Frozen(s.bal, u, s.money) + (if u == a.user then pri else 0.0))
  {
    var k, f := Key(a.user, Available, s.money), Key(a.user, Freeze, s.money);
    MoveMeans(s.assets, s.bal, k, f, pri);
    StaysNonNegative(s.assets, s.bal, k, f, pri);
  }

  lemma OpenedIsGood(s: State, a: Args, bal: Balances, freeze: real, c: Scope)
    requires Good(s, [], c) && GoodVolume(a.volume) && (a.kind.Limit? ==> a.price > 0.0)
    requires a.kind.Market? ==> freeze == 0.0
    requires c.funded ==> NonNegative(bal)
    requires c.funded && a.kind.Limit? ==> Margined(Opened(s, a, bal, freeze).1)
    requires c.funded && a.kind.Market? ==> Covered(Opened(s, a, bal, freeze).0, Opened(s, a, bal, freeze).1)
    requires c.funded ==>
               forall u :: Frozen(bal, u, s.money)
                           == Frozen(s.bal, u, s.money) + (if u == a.user && a.kind.Limit? then freeze else 0.0)
    ensures var r := Opened(s, a, bal, freeze); Good(r.0, [r.1], c)
  {
    hide Sum, Imbalance, Frozen, FrozenAt, ModeAfter, AnyPosition;
    var r := Opened(s, a, bal, freeze);
    UserHasMode(s, a, c);
    ModesOnlyGrow(s, a);
    SameIndex(s, r.0);
    assert InFlight(r.1);
    assert r.1.id !in s.orders by { IndexedMeans(s, r.1.id); }
    forall k ensures Closing(r.0, [r.1], k) == Closing(s, [], k) {
      SumHead(r.1, [], CloseOf(k));
      SumEmpty(CloseOf(k));
    }
    forall u ensures Pledged(r.0, [r.1], u) == Pledged(s, [], u) + Weigh(FreezeOf(u), r.1) {
      SumHead(r.1, [], FreezeOf(u));
      SumEmpty(FreezeOf(u));
    }
  }

  lemma RejectedIsGood(s: State, a: Args, id: nat, c: Scope)
    requires Good(s, [], c) && id >= s.orderId
    ensures Good(s.(modes := ModeAfter(s, a), orderId := id), [], c)
  {
    hide Sum, Imbalance, Frozen, FrozenAt, ModeAfter;
    var r := s.(modes := ModeAfter(s, a), orderId := id);
    ModesOnlyGrow(s, a);
    SameIndex(s, r);
    assert forall k :: Closing(r, [], k) == Closing(s, [], k);
    assert forall u :: Pledged(r, [], u) == Pledged(s, [], u);
  }

  /** What an open hands to the matcher: the balances after freezing, and the frozen margin. */
  function Funding(s: State, a: Args): (Balances, real) {
    var pri := Div(a.volume, MarginLeverage(s, a));
    if a.kind.Limit? then (DoFreeze(s.assets, s.bal, a.user, s.money, pri).bal, pri) else (s.bal, 0.0)
  }

  lemma MarketFreezesNothing(s: State, a: Args)
    ensures a.kind.Market? ==> Funding(s, a) == (s.bal, 0.0)
  {
  }

  lemma SameSides(s: State, a: Args)
    requires Sided(s)
    ensures Sided(Opened(s, a, Funding(s, a).0, Funding(s, a).1).0)
  {
  }

  /** An open is matched exactly when it is accepted; a refused one moves at most the mode and
      the id counter. */
  lemma OpenOutcome(s: State, a: Args)
    requires Sided(s) && a.user in ModeAfter(s, a)
    ensures var (r, reply) := PutOpen(s, a);
            var (bal, freeze) := Funding(s, a);
            var (s1, t) := Opened(s, a, bal, freeze);
            var pri := Div(a.volume, MarginLeverage(s, a));
            if reply.Accepted? then
              && GoodVolume(a.volume) && (a.kind.Limit? ==> a.price > 0.0) && Sided(s1) && r == Execute(s1, t)
              && MarginLeverage(s, a) != 0.0
              && CanAfford(s.(modes := ModeAfter(s, a)), a, Avail(s.bal, a.user, s.money), pri)
              && (a.kind.Limit? ==> DoFreeze(s.assets, s.bal, a.user, s.money, pri).ok)
            else
              && r == s.(modes := r.modes, orderId := r.orderId)
              && (r.modes == s.modes || r.modes == ModeAfter(s, a)) && s.orderId <= r.orderId
              && (r.modes == s.modes ==> r.orderId == s.orderId || s.modes == ModeAfter(s, a))
  {
    hide ModeAfter, Execute, CanAfford, DoFreeze, OrderLeverage, MarginLeverage, GoodVolume, Div, NewOrder, Sided;
    SameSides(s, a);
  }

  lemma PutOpenKeepsGood(s: State, a: Args, c: Scope)
    requires Sided(s) && Good(s, [], c)
    requires c.funded && PutOpen(s, a).1.Accepted? ==> PaysMargin(s, a)
    ensures Good(PutOpen(s, a).0, [], c)
  {
    hide Good, ModeAfter, Execute, CanAfford, DoFreeze, OrderLeverage, MarginLeverage, Frozen, Funding, PutOpen, PaysMargin,
         GoodVolume;
    UserHasMode(s, a, c);
    OpenOutcome(s, a);
    var (r, reply) := PutOpen(s, a);
    if reply.Accepted? {
      var (bal, freeze) := Funding(s, a);
      var (s1, t) := Opened(s, a, bal, freeze);
      AcceptedIsGood(s, a, c);
      ExecuteKeepsGood(s1, t, c);
    } else if r.modes == ModeAfter(s, a) {
      RejectedIsGood(s, a, r.orderId, c);
    } else {
      assert r == s;
    }
  }

  lemma AcceptedIsGood(s: State, a: Args, c: Scope)
    requires Sided(s) && Good(s, [], c) && PutOpen(s, a).1.Accepted?
    requires c.funded ==> PaysMargin(s, a)
    ensures var (bal, freeze) := Funding(s, a); var (s1, t) := Opened(s, a, bal, freeze); Good(s1, [t], c)
  {
    hide Good, ModeAfter, CanAfford, DoFreeze, OrderLeverage, MarginLeverage, Frozen, PutOpen, GoodVolume, Avail,
         LeverageAgrees;
    UserHasMode(s, a, c);
    OpenOutcome(s, a);
    var (bal, freeze) := Funding(s, a);
    OpenTakesMargin(s, a, c);
    if c.funded && a.kind.Market? { CoveredOpened(s, a); }
    OpenedIsGood(s, a, bal, freeze, c);
  }

  lemma CoveredOpened(s: State, a: Args)
    requires a.kind.Market? && PaysMargin(s, a)
    ensures var r := Opened(s, a, s.bal, 0.0); Covered(r.0, r.1)
  {
  }

  /** A market open with a positive leverage passes the guard when its user has the margin of all it
      will trade, and the fees of the user's own closing orders on the side it sweeps. */
  lemma SimpleCoverPays(s: State, a: Args, c: Scope)
    requires Good(s, [], c) && OrderLeverage(s, a) > 0.0 && a.kind.Market? && GoodVolume(a.volume)
    requires var t := TakerOf(s, a);
             Avail(s.bal, a.user, s.money) >= Margin(t, Reach(Opposite(s, t), t)) + OwnFees(Opposite(s, t), a.user)
    ensures PaysMargin(s, a)
  {
    hide OrderLeverage, Avail, Reach, OwnFees, Affords, Margin;
    var t := TakerOf(s, a);
    LiveGood(s, Opposite(s, t), c);
    SimplyAffords(Opposite(s, t), t, AccountOf(s, t));
  }

  /** Without a positive leverage no fill can be paid. */
  lemma BadLeverageFails(s: State, a: Args)
    requires a.kind.Market? && GoodVolume(a.volume) && OrderLeverage(s, a) <= 0.0
    ensures PaysMargin(s, a) <==> Opposite(s, TakerOf(s, a)) == []
  {
    hide OrderLeverage, Avail, AfterFill, Bare;
  }

  /** A market open whose leverages agree, in a book without closing orders of its user on the
      side it sweeps, passes the guard exactly when its leverage is positive or there is nothing to
      trade with: the balance that the acceptance looked at then covers it. */
  lemma AgreeingMarketPays(s: State, a: Args, c: Scope)
    requires Sided(s) && Good(s, [], c) && a.kind.Market? && PutOpen(s, a).1.Accepted?
    requires LeverageAgrees(s, a) && OwnsNoClose(Opposite(s, TakerOf(s, a)), a.user)
    ensures PaysMargin(s, a) <==> OrderLeverage(s, a) > 0.0 || Opposite(s, TakerOf(s, a)) == []
  {
    hide PutOpen, ModeAfter, Funding, OrderLeverage, MarginLeverage, Avail, Reach, OwnFees, LeverageAgrees, Execute, DoFreeze,
         PaysMargin;
    UserHasMode(s, a, c);
    OpenOutcome(s, a);
    LeverageAgreesMeans(s, a);
    if OrderLeverage(s, a) > 0.0 {
      var t := TakerOf(s, a);
      var book := Opposite(s, t);
      NoCloseNoFees(book, a.user);
      ReachWithin(book, t);
      MarginSplits(t, Reach(book, t), t.left - Reach(book, t));
      assert Margin(t, t.left) == Div(a.volume, MarginLeverage(s, a));
      SimpleCoverPays(s, a, c);
    } else {
      BadLeverageFails(s, a);
    }
  }

  lemma ReachWithin(book: Book, t: Order)
    ensures Reach(book, t) <= t.left
  {
  }

  lemma LiveGood(s: State, book: Book, c: Scope)
    requires Good(s, [], c) && (book == s.asks || book == s.bids)
    ensures LiveBook(book)
  {
  }

  lemma SidedFromGood(s: State, flight: Book, c: Scope)
    requires Good(s, flight, c)
    ensures Sided(s)
  {
  }

  lemma OnlyFreezesPositive(s: State, user: nat, amount: real)
    requires DoFreeze(s.assets, s.bal, user, s.money, amount).ok
    ensures amount >= 0.0
  {
  }

  lemma OpenTakesMargin(s: State, a: Args, c: Scope)
    requires Good(s, [], c) && GoodVolume(a.volume) && MarginLeverage(s, a) != 0.0
    requires c.funded && a.kind.Limit? ==> LeverageAgrees(s, a)
    requires a.kind.Limit? ==> DoFreeze(s.assets, s.bal, a.user, s.money, Div(a.volume, MarginLeverage(s, a))).ok
    ensures var (bal, freeze) := Funding(s, a);
            && (a.kind.Market? ==> freeze == 0.0)
            && (c.funded ==>
                  && NonNegative(bal)
                  && (a.kind.Limit? ==> Margined(Opened(s, a, bal, freeze).1))
                  && forall u :: Frozen(bal, u, s.money)
                                 == Frozen(s.bal, u, s.money) + (if u == a.user && a.kind.Limit? then freeze else 0.0))
  {
    if c.funded && a.kind.Limit? {
      OnlyFreezesPositive(s, a.user, Div(a.volume, MarginLeverage(s, a)));
      FrozenMarginIsRightIff(s, a, s.orderId + 1);
      FreezeOfMargin(s, a, Div(a.volume, MarginLeverage(s, a)));
    }
  }

  // ----- closing

  lemma PutCloseKeepsGood(s: State, a: Args, c: Scope)
    requires Sided(s) && Good(s, [], c)
    ensures Good(PutClose(s, a).0, [], c)
  {
    hide Good, Execute, FreezePosition;
    var k := PKey(a.user, a.side);
    if GoodVolume(a.volume) && k in s.pos && s.pos[k].position as real >= a.volume
       && (a.kind.Limit? ==> a.price > 0.0) {
      var s1 := FreezePosition(s, k, a.volume.Floor).(orderId := s.orderId + 1);
      var t := NewOrder(s1.orderId, a, Close, s.pos[k].leverage, 0.0);
      CloseFlightIsGood(s, k, t, c);
      SidedFromGood(s1, [t], c);
      ExecuteKeepsGood(s1, t, c);
    }
  }

  /** Moving volume into the frozen part and sending out a closing order for it. */
  lemma CloseFlightIsGood(s: State, k: PKey, t: Order, c: Scope)
    requires Good(s, [], c) && k in s.pos && t.oper.Close? && KeyOf(t) == k && t.id == s.orderId + 1
    requires 0 < t.left <= s.pos[k].position && t.leverage == s.pos[k].leverage
    requires t.kind.Limit? ==> t.price > 0.0
    ensures Good(FreezePosition(s, k, t.left).(orderId := s.orderId + 1), [t], c)
  {
    hide Sum, Imbalance, Frozen, FrozenAt, FreezePosition;
    FreezePositionMeans(s, k, t.left);
    FreezeTouches(s, k, t.left);
    var r := FreezePosition(s, k, t.left).(orderId := s.orderId + 1);
    SameIndex(s, r);
    assert t.id !in s.orders by { IndexedMeans(s, t.id); }
    assert PosOk(s.pos[k]) && k.user in s.modes;
    forall j ensures Closing(r, [t], j) == Closing(s, [], j) + (if j == k then t.left as real else 0.0) {
      SumHead(t, [], CloseOf(j));
      SumEmpty(CloseOf(j));
    }
    forall u ensures Pledged(r, [t], u) == Pledged(s, [], u) {
      SumHead(t, [], FreezeOf(u));
      SumEmpty(FreezeOf(u));
    }
  }

  lemma FreezeTouches(s: State, k: PKey, amount: int)
    requires k in s.pos
    ensures var r := FreezePosition(s, k, amount); r == s.(pos := r.pos)
  {
  }

  // ----- cancelling and liquidating

  lemma LookupFinds(s: State, id: nat)
    ensures Lookup(s, id).Some? ==> Lookup(s, id).value.id == id
  {
    FindFinds(s.asks, id);
    FindFinds(s.bids, id);
  }

  lemma CancelByIdKeepsGood(s: State, id: nat, c: Scope)
    requires Good(s, [], c)
    ensures Good(CancelById(s, id), [], c)
    ensures c.funded ==> id !in CancelById(s, id).orders
  {
    hide Good, Cancel;
    LookupFinds(s, id);
    GoodIndex(s, [], c);
    IndexedMeans(s, id);
    if id in s.orders {
      CancelKeepsGood(s, Lookup(s, id).value, c);
      GoodIndex(CancelById(s, id), [], c);
      IndexedMeans(CancelById(s, id), id);
    }
  }

  lemma GoodIndex(s: State, flight: Book, c: Scope)
    requires Good(s, flight, c)
    ensures Indexed(s)
  {
  }

  lemma {:induction false} FirstCloseIsNewest(s: State, ids: seq<nat>, side: Side)
    ensures var o := FirstClose(s, ids, side);
            && (o.Some? ==> Lookup(s, o.value.id) == o && o.value.id in ids && o.value.oper.Close? && o.value.side == side)
            && (o.None? ==> forall id :: id in ids && Lookup(s, id).Some?
                                         ==> !(Lookup(s, id).value.side == side && Lookup(s, id).value.oper.Close?))
  {
    if ids != [] {
      LookupFinds(s, ids[0]);
      FirstCloseIsNewest(s, ids[1..], side);
    }
  }

  /** When no closing order of the user is listed on a side, none is live there. */
  lemma NoCloseListed(s: State, user: nat, side: Side, c: Scope)
    requires Good(s, [], c) && FirstClose(s, Ids(s.users, user), side).None?
    ensures FrozenAt(s.pos, PKey(user, side)) == 0.0
  {
    var k := PKey(user, side);
    FirstCloseIsNewest(s, Ids(s.users, user), side);
    assert ListAgrees(s, user, Ids(s.users, user));
    forall o | o in s.asks || o in s.bids ensures Weigh(CloseOf(k), o) == 0.0 {
      RestingIsListed(s, o);
      assert o.user == user ==> Owns(s, user, o.id);
    }
    SumOfZeros(s.asks, CloseOf(k));
    SumOfZeros(s.bids, CloseOf(k));
    assert FrozenAt(s.pos, k) == Closing(s, [], k);
  }

  lemma RestingIsListed(s: State, o: Order)
    requires Indexed(s) && (o in s.asks || o in s.bids)
    ensures Lookup(s, o.id) == Some(o)
  {
    if o in s.asks { MemberFound(s.asks, o); } else { MemberFound(s.bids, o); }
  }

  lemma {:induction false} SumOfZeros(book: Book, w: Weight)
    requires forall o :: o in book ==> Weigh(w, o) == 0.0
    ensures Sum(book, w) == 0.0
  {
    if book != [] { SumOfZeros(book[1..], w); }
  }

  lemma {:induction false} CancelClosesKeepsGood(s: State, user: nat, side: Side, c: Scope)
    requires Good(s, [], c)
    ensures var r := CancelCloses(s, user, side);
            && Good(r, [], c) && r.pos.Keys == s.pos.Keys && r.orderId == s.orderId
            && FrozenAt(r.pos, PKey(user, side)) == 0.0
    decreases |Ids(s.users, user)|
  {
    hide Good, Cancel;
    var o := FirstClose(s, Ids(s.users, user), side);
    FirstCloseIsNewest(s, Ids(s.users, user), side);
    if o.None? {
      NoCloseListed(s, user, side, c);
    } else {
      ListedIsOwned(s, user, o.value, c);
      CancelKeepsGood(s, o.value, c);
      CancelCloseKeepsKeys(s, o.value, c);
      CancelShrinksList(s, o.value);
      CancelClosesKeepsGood(Cancel(s, o.value), user, side, c);
    }
  }

  lemma ListedIsOwned(s: State, user: nat, o: Order, c: Scope)
    requires Good(s, [], c) && Lookup(s, o.id) == Some(o) && o.id in Ids(s.users, user)
    ensures o.user == user
  {
    assert ListAgrees(s, user, Ids(s.users, user));
    assert Owns(s, user, o.id);
  }

  lemma CancelCloseKeepsKeys(s: State, o: Order, c: Scope)
    requires Good(s, [], c) && Lookup(s, o.id) == Some(o) && o.oper.Close?
    ensures Cancel(s, o).pos.Keys == s.pos.Keys && Cancel(s, o).orderId == s.orderId
  {
    hide Finish;
    RestingIsLive(s, o, c);
    FindFinds(s.asks, o.id);
    FindFinds(s.bids, o.id);
    CloseIsBacked(s, [], o);
    FinishTouches(s, s, o);
    CancelIsRelease(s, o);
  }

  lemma LiquidateKeepsGood(s: State, k: PKey, c: Scope)
    requires Sided(s) && Good(s, [], c)
    ensures Good(Liquidate(s, k), [], c)
  {
    hide Good, Execute, FreezePosition, CancelCloses, Equity, FrozenAt;
    if k in s.pos && s.pos[k].pattern.Isolated? && s.latest > 0.0 && Underwater(k.side, s.pos[k], s.latest) {
      var s1 := CancelCloses(s, k.user, k.side);
      CancelClosesKeepsGood(s, k.user, k.side, c);
      assert k in s1.pos;
      BlastFitsPosition(s1, k, c);
      var p := s1.pos[k];
      var t := BlastOrder(s1.orderId + 1, k, p);
      CloseFlightIsGood(s1, k, t, c);
      var s2 := FreezePosition(s1, k, t.left).(orderId := s1.orderId + 1);
      assert s2 == FreezePosition(s1.(orderId := s1.orderId + 1), k, p.position) by { FreezeCommutes(s1, k, t.left); }
      SidedFromGood(s2, [t], c);
      ExecuteKeepsGood(s2, t, c);
    }
  }

  lemma FreezeCommutes(s: State, k: PKey, amount: int)
    requires k in s.pos
    ensures FreezePosition(s.(orderId := s.orderId + 1), k, amount)
            == FreezePosition(s, k, amount).(orderId := s.orderId + 1)
  {
  }

  /** With its closing orders cancelled, a position has nothing frozen: the liquidation
      order covers it exactly. */
  lemma BlastFitsPosition(s: State, k: PKey, c: Scope)
    requires Good(s, [], c) && k in s.pos && FrozenAt(s.pos, k) == 0.0
    ensures s.pos[k].frozen == 0 && Total(s.pos[k]) == s.pos[k].position > 0
  {
    assert PosOk(s.pos[k]);
  }
}
