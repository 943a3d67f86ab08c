/** When an isolated position is liquidated, and what that leaves. */
module FuturesLiquidation {
  import opened Common
  import opened Futures
  import opened FuturesPositions
  import opened FuturesIndex
  import opened FuturesBacking
  import opened FuturesMatching
  import opened FuturesRun
  import opened FuturesOps
  import opened FuturesTheorems

  /** The equity left after a closing fee of one in ten thousand and a maintenance margin of three
      in ten thousand of the volume is used up. */
  ghost predicate UsedUp(side: Side, p: Pos, price: real)
    requires p.price > 0.0
  {
    var total := (p.position + p.frozen) as real;
    p.principal + Gain(side, p, price) * total - 0.0001 * total - 0.0003 * total <= 0.0
  }

  ghost predicate Fires(s: State, k: PKey)
    requires AllOk(s.pos)
  {
    k in s.pos && s.pos[k].pattern.Isolated? && s.latest > 0.0
    && s.pos[k].price > 0.0 && UsedUp(k.side, s.pos[k], s.latest)
  }

  /** `r` is `s` after a market order has sold off position `k`: it met everything there was to
      trade with or was filled, all deals since are its own, and nothing of the position is frozen
      any more. */
  ghost predicate SoldOff(s: State, r: State, k: PKey)
    requires k in s.pos
  {
    var total := s.pos[k].position + s.pos[k].frozen;
    && r.orderId == s.orderId + 1
    && |s.deals| <= |r.deals| && r.deals[..|s.deals|] == s.deals
    && (forall d :: d in r.deals[|s.deals|..] ==>
          && d.taker == r.orderId && d.takes.key == k && d.takes.oper.Close? && d.takes.rate == 0.0001
          && d.takes.pattern == s.pos[k].pattern && d.takes.leverage == s.pos[k].leverage)
    && (Volume(AsTrades(r.deals[|s.deals|..])) == total
        || (Volume(AsTrades(r.deals[|s.deals|..])) < total && (if k.side.Bull? then r.bids == [] else r.asks == [])))
    && (forall o :: (o in r.asks || o in r.bids) && o.oper.Close? ==> PKey(o.user, o.side) != k)
  }

  lemma UnderwaterMeans(side: Side, p: Pos, price: real)
    requires PosOk(p)
    ensures Underwater(side, p, price) <==> UsedUp(side, p, price)
  {
    EquityIsPrincipalPlusGain(side, p, price);
    hide Equity, Gain;
  }

  // ----- no closing order is left

  ghost predicate NoClose(s: State, k: PKey) {
    forall o :: (o in s.asks || o in s.bids) && o.oper.Close? ==> PKey(o.user, o.side) != k
  }

  lemma NothingListed(s: State, user: nat, side: Side)
    requires Indexed(s) && FirstClose(s, Ids(s.users, user), side).None?
    ensures NoClose(s, PKey(user, side))
  {
    FirstCloseIsNewest(s, Ids(s.users, user), side);
    assert ListAgrees(s, user, Ids(s.users, user));
    forall o | (o in s.asks || o in s.bids) && o.oper.Close? ensures PKey(o.user, o.side) != PKey(user, side) {
      RestingIsListed(s, o);
      assert o.user == user ==> Owns(s, user, o.id);
    }
  }

  /** Cancelling the closing orders of a side leaves none there, and trades nothing. */
  lemma {:induction false} CancelClosesClears(s: State, user: nat, side: Side, c: Scope)
    requires Good(s, [], c)
    ensures var r := CancelCloses(s, user, side);
            && NoClose(r, PKey(user, side)) && r.deals == s.deals && r.orderId == s.orderId
    decreases |Ids(s.users, user)|
  {
    hide Good, Cancel, NoClose;
    var o := FirstClose(s, Ids(s.users, user), side);
    GoodIndex(s, [], c);
    FirstCloseIsNewest(s, Ids(s.users, user), side);
    if o.None? {
      NothingListed(s, user, side);
    } else {
      FirstCloseFinds(s, Ids(s.users, user), side);
      ListedIsOwned(s, user, o.value);
      CancelShrinksList(s, o.value);
      CancelKeepsGood(s, o.value, c);
      CancelIsQuiet(s, o.value);
      CancelClosesClears(Cancel(s, o.value), user, side, c);
    }
  }

  lemma ListedIsOwned(s: State, user: nat, o: Order)
    requires Indexed(s) && o.id in Ids(s.users, user) && Lookup(s, o.id) == Some(o)
    ensures o.user == user
  {
    assert ListAgrees(s, user, Ids(s.users, user));
  }

  lemma CancelIsQuiet(s: State, o: Order)
    ensures Cancel(s, o).deals == s.deals && Cancel(s, o).orderId == s.orderId
  {
    hide DropFromList, Remove, ThawMargin;
  }

  lemma StepKeepsNoClose(s: State, t: Order, k: PKey)
    requires Sided(s) && Opposite(s, t) != [] && NoClose(s, k)
    ensures NoClose(Step(s, t).0, k)
  {
    hide Step, Fill;
    var book, m := Opposite(s, t), Opposite(s, t)[0];
    var f, r := Fill(s, t, m, Min(t.left, m.left), m.price), Step(s, t).0;
    StepIsFill(s, t);
    assert f.maker.user == m.user && f.maker.side == m.side && f.maker.oper == m.oper;
    forall o | (o in r.asks || o in r.bids) && o.oper.Close? ensures PKey(o.user, o.side) != k {
      assert o in Opposite(r, t) ==> o == f.maker || o in book;
    }
  }

  lemma {:induction false} MatchKeepsNoClose(s: State, t: Order, k: PKey)
    requires Sided(s) && NoClose(s, k)
    ensures NoClose(Match(s, t).0, k)
    decreases |Opposite(s, t)|
  {
    hide Step, NoClose;
    if Opposite(s, t) != [] && t.left != 0 && Crosses(t, Opposite(s, t)[0]) {
      StepKeepsNoClose(s, t, k);
      StepShrinksBook(s, t);
      var r := Step(s, t);
      if r.1.left != 0 { MatchKeepsNoClose(r.0, r.1, k); }
    }
  }

  // ----- selling off

  lemma SettleIsQuiet(s: State, t: Order)
    requires t.kind.Market? && Finish(s, t) == s && t.oper.Close?
    ensures var r := Settle(s, t);
            r.asks == s.asks && r.bids == s.bids && r.deals == s.deals && r.orderId == s.orderId
  {
    hide Finish, Remove, DropFromList;
    CancelIsRelease(s, t);
  }

  /** A market order that closes is filled, or has met everything there was. */
  lemma BlastSells(s: State, t: Order, c: Scope)
    requires Good(s, [t], c) && Sided(s) && t.kind.Market? && t.oper.Close? && NoClose(s, KeyOf(t))
    ensures var r := Execute(s, t);
            && r.orderId == s.orderId && |s.deals| <= |r.deals| && r.deals[..|s.deals|] == s.deals
            && (forall d :: d in r.deals[|s.deals|..] ==> d.taker == t.id)
            && NoClose(r, KeyOf(t))
            && (forall d :: d in r.deals[|s.deals|..] ==> d.takes == LegOf(t))
    ensures var r := Execute(s, t);
            var sold := Volume(AsTrades(r.deals[|s.deals|..]));
            sold == t.left || (sold < t.left && Opposite(r, t) == [])
  {
    hide Match, Settle, NoClose, Good;
    LiveOpposite(s, t, c);
    MatchIsGreedy(s, t);
    MatchKeepsNoClose(s, t, KeyOf(t));
    MatchKeepsGood(s, t, c);
    MatchKeepsOrderId(s, t);
    MatchDealsAreOwn(s, t);
    var r := Match(s, t);
    var book := Opposite(s, t);
    DepthOfCrossing(book, t);
    TradesArePrefix(Shape(book), Reach(book, t));
    GoodAbsent(r.0, r.1, c);
    SettleIsQuiet(r.0, r.1);
    SameNoClose(r.0, Settle(r.0, r.1), KeyOf(t));
  }

  lemma SameNoClose(s: State, s2: State, k: PKey)
    requires NoClose(s, k) && s2.asks == s.asks && s2.bids == s.bids
    ensures NoClose(s2, k)
  {
  }

  lemma GoodAbsent(s: State, t: Order, c: Scope)
    requires Good(s, [t], c)
    ensures Finish(s, t) == s
  {
    FlightIsAbsent(s, t, c);
  }

  lemma {:induction false} MatchKeepsOrderId(s: State, t: Order)
    requires Sided(s)
    ensures Match(s, t).0.orderId == s.orderId
    decreases |Opposite(s, t)|
  {
    hide Step;
    if Opposite(s, t) != [] && t.left != 0 && Crosses(t, Opposite(s, t)[0]) {
      StepIsFill(s, t);
      StepShrinksBook(s, t);
      var r := Step(s, t);
      if r.1.left != 0 { MatchKeepsOrderId(r.0, r.1); }
    }
  }

  function LegOf(t: Order): Leg {
    Leg(PKey(t.user, t.side), t.oper, t.pattern, t.leverage, t.takerFee)
  }

  /** The deals that matching adds report the terms of the taker. */
  lemma {:induction false} MatchDealsAreOwn(s: State, t: Order)
    requires Sided(s)
    ensures var r := Match(s, t).0;
            && |s.deals| <= |r.deals| && r.deals[..|s.deals|] == s.deals
            && forall d :: d in r.deals[|s.deals|..] ==> d.takes == LegOf(t)
    decreases |Opposite(s, t)|
  {
    hide Step;
    if Opposite(s, t) != [] && t.left != 0 && Crosses(t, Opposite(s, t)[0]) {
      RoundTrades(s, t);
      StepShrinksBook(s, t);
      var r := Step(s, t);
      assert r.0.deals[|s.deals|..] == [r.0.deals[|s.deals|]];
      if r.1.left != 0 {
        MatchDealsAreOwn(r.0, r.1);
        var u := Match(r.0, r.1).0;
        assert u.deals[|s.deals|..] == [r.0.deals[|s.deals|]] + u.deals[|r.0.deals|..];
      }
    }
  }

  lemma SellsOff(s: State, k: PKey, c: Scope)
    requires Sided(s) && Good(s, [], c) && k in s.pos && FrozenAt(s.pos, k) == 0.0 && NoClose(s, k)
    ensures var s1 := FreezePosition(s, k, s.pos[k].position).(orderId := s.orderId + 1);
            Sided(s1) && SoldOff(s, Execute(s1, BlastOrder(s.orderId + 1, k, s.pos[k])), k)
  {
    hide Good, Execute, FreezePosition, NoClose, FrozenAt;
    BlastFitsPosition(s, k, c);
    var t := BlastOrder(s.orderId + 1, k, s.pos[k]);
    var s1 := FreezePosition(s, k, t.left).(orderId := s.orderId + 1);
    CloseFlightIsGood(s, k, t, c);
    SidedFromGood(s1, [t], c);
    FreezeTouches(s, k, t.left);
    SameNoClose(s, s1, k);
    BlastSells(s1, t, c);
    SpelledOut(Execute(s1, t), k);
  }

  lemma SpelledOut(s: State, k: PKey)
    requires NoClose(s, k)
    ensures forall o :: (o in s.asks || o in s.bids) && o.oper.Close? ==> PKey(o.user, o.side) != k
  {
  }

  lemma ClearedPosition(s: State, s1: State, k: PKey)
    requires k in s.pos && k in s1.pos && SoldOffFits(s, s1, k)
    ensures forall r :: SoldOff(s1, r, k) ==> SoldOff(s, r, k)
  {
  }

  /** The same position, with another part of it frozen. */
  predicate SamePosition(p: Pos, q: Pos) {
    Total(p) == Total(q) && q == p.(position := q.position, frozen := q.frozen)
  }

  ghost predicate SoldOffFits(s: State, s1: State, k: PKey)
    requires k in s.pos && k in s1.pos
  {
    s1.orderId == s.orderId && s1.deals == s.deals && SamePosition(s.pos[k], s1.pos[k])
  }

  /** An isolated position is sold off exactly when there is a latest price at which its principal
      and gain no longer cover the closing fee and the maintenance margin; in every other case
      nothing happens at all. */
  lemma LiquidatesIff(s: State, k: PKey, c: Scope)
    requires Sided(s) && Good(s, [], c)
    ensures AllOk(s.pos)
    ensures Fires(s, k) ==> SoldOff(s, Liquidate(s, k), k)
    ensures !Fires(s, k) ==> Liquidate(s, k) == s
  {
    hide Good, Execute, FreezePosition, CancelCloses, Equity, FrozenAt, NoClose, Underwater, SoldOff, Gain, UsedUp;
    PositionsOk(s, c);
    if k in s.pos { UnderwaterMeans(k.side, s.pos[k], s.latest); }
    if Fires(s, k) {
      var s1 := CancelCloses(s, k.user, k.side);
      CancelClosesClears(s, k.user, k.side, c);
      CancelClosesKeepsGood(s, k.user, k.side, c);
      CancelClosesKeepsPosition(s, k.user, k.side, k, c);
      SidedFromGood(s1, [], c);
      SellsOff(s1, k, c);
      FreezeCommutes(s1, k, s1.pos[k].position);
      ClearedPosition(s, s1, k);
    }
  }

  lemma PositionsOk(s: State, c: Scope)
    requires Good(s, [], c)
    ensures AllOk(s.pos)
  {
  }

  lemma {:induction false} CancelClosesKeepsPosition(s: State, user: nat, side: Side, k: PKey, c: Scope)
    requires Good(s, [], c) && k in s.pos
    ensures var r := CancelCloses(s, user, side); k in r.pos && SamePosition(s.pos[k], r.pos[k])
    decreases |Ids(s.users, user)|
  {
    hide Good, Cancel;
    var o := FirstClose(s, Ids(s.users, user), side);
    FirstCloseIsNewest(s, Ids(s.users, user), side);
    if o.Some? {
      FirstCloseFinds(s, Ids(s.users, user), side);
      if o.value.user == user {
        CancelShrinksList(s, o.value);
        CancelKeepsGood(s, o.value, c);
        CancelKeepsPosition(s, o.value, k);
        CancelClosesKeepsPosition(Cancel(s, o.value), user, side, k, c);
      }
    }
  }

  lemma CancelKeepsPosition(s: State, o: Order, k: PKey)
    requires k in s.pos
    ensures var r := Cancel(s, o); k in r.pos && SamePosition(s.pos[k], r.pos[k])
  {
    hide Cancel, Finish, ThawMargin, Release, SamePosition;
    CancelUnfolds(s, o);
    ReleaseKeepsPosition(s, o, k);
    FinishKeepsPositions(Release(s, o), o);
    assert SamePosition(s.pos[k], s.pos[k]) by { NothingFrozen(s.pos[k]); }
  }

  lemma NothingFrozen(p: Pos)
    ensures SamePosition(p, p)
  {
  }

  lemma ReleaseKeepsPosition(s: State, o: Order, k: PKey)
    requires k in s.pos
    ensures var r := Release(s, o); k in r.pos && SamePosition(s.pos[k], r.pos[k])
  {
    hide ThawMargin;
  }

  lemma FinishKeepsPositions(s: State, o: Order)
    ensures Finish(s, o).pos == s.pos
  {
    hide DropFromList, Remove;
  }

  // ----- the further the price goes, the surer

  lemma GainGrows(p: Pos, x: real, y: real)
    requires p.price > 0.0 && y <= x
    ensures Gain(Bull, p, y) <= Gain(Bull, p, x) && Gain(Bear, p, y) >= Gain(Bear, p, x)
  {
    MulDiv(y - p.price, p.price);
    MulDiv(x - p.price, p.price);
    MulDiv(p.price - y, p.price);
    MulDiv(p.price - x, p.price);
    LeqOfProducts(Gain(Bull, p, y), Gain(Bull, p, x), p.price);
    LeqOfProducts(Gain(Bear, p, x), Gain(Bear, p, y), p.price);
  }

  /** A long that is liquidated at one price is liquidated at every lower one, a short at every
      higher one. */
  lemma LiquidationIsMonotonic(s: State, k: PKey, price: real, c: Scope)
    requires Sided(s) && Good(s, [], c)
    requires price > 0.0 && (if k.side.Bull? then price <= s.latest else price >= s.latest)
    ensures AllOk(s.pos) && (Fires(s, k) ==> Fires(s.(latest := price), k))
  {
    PositionsOk(s, c);
    if Fires(s, k) {
      var p := s.pos[k];
      var g, h := Gain(k.side, p, s.latest), Gain(k.side, p, price);
      if k.side.Bull? { GainGrows(p, s.latest, price); } else { GainGrows(p, price, s.latest); }
      var t := (p.position + p.frozen) as real;
      assert h <= g;
      ProductLeq(h, g, t);
    }
  }

  lemma ProductLeq(x: real, y: real, t: real)
    requires x <= y && t >= 0.0
    ensures x * t <= y * t
  {
    assert (y - x) * t >= 0.0;
  }
}
