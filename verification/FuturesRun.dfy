/** Whole runs of the futures machine: the invariants of open interest, closing
    orders, order indexes and margin hold in every reachable state. */
module FuturesRun {
  import opened Common
  import opened Ledger
  import opened Futures
  import opened FuturesSums
  import opened FuturesPositions
  import opened FuturesIndex
  import opened FuturesBacking
  import opened FuturesMargin

  /** `funded` says whether the margin ledger is part of the invariant; `base` is what
      other markets keep frozen. */
  datatype Scope = Scope(funded: bool, base: nat -> real)

  ghost predicate Good(s: State, flight: Book, c: Scope) {
    && Backed(s, flight) && Indexed(s)
    && (forall o :: o in flight ==> o.id !in s.orders && o.id <= s.orderId)
    && (c.funded ==> Funded(s, flight, c.base))
  }

  // ----- matching and what follows it

  lemma StepKeepsGood(s: State, t: Order, c: Scope)
    requires Good(s, [t], c) && Sided(s) && Opposite(s, t) != [] && t.left != 0 && Crosses(t, Opposite(s, t)[0])
    ensures var r := Step(s, t); Good(r.0, [r.1], c) && SameTerms(r.1, t) && r.0.orderId == s.orderId
  {
    hide Step, Backed, Indexed, Funded;
    var r := Step(s, t);
    FlightIsLive(s, t);
    StepKeepsBacked(s, t);
    StepIndexed(s, t);
    if c.funded { StepKeepsFunded(s, t, c.base); }
    StepShrinksBook(s, t);
    assert t in [t];
  }

  lemma {:induction false} MatchKeepsGood(s: State, t: Order, c: Scope)
    requires Good(s, [t], c)
    ensures var r := Match(s, t); Good(r.0, [r.1], c) && SameTerms(r.1, t)
    decreases |Opposite(s, t)|
  {
    hide Step, Good;
    assert Sided(s) by { GoodFlight(s, t, c); }
    if Opposite(s, t) != [] && t.left != 0 && Crosses(t, Opposite(s, t)[0]) {
      StepKeepsGood(s, t, c);
      StepShrinksBook(s, t);
      var r := Step(s, t);
      if r.1.left != 0 { MatchKeepsGood(r.0, r.1, c); }
    }
  }

  lemma FlightIsLive(s: State, t: Order)
    requires Backed(s, [t])
    ensures t.left >= 0
    ensures Opposite(s, t) != [] ==> Opposite(s, t)[0].left > 0
  {
    assert t in [t];
    if Opposite(s, t) != [] {
      assert Opposite(s, t)[0] in s.asks || Opposite(s, t)[0] in s.bids;
    }
  }

  /** The sums over the books change by one order that enters, or leaves, them. */
  lemma SumsAfterPut(s: State, o: Order, w: Weight)
    requires o.id !in s.orders
    ensures Sum(Put(s, o).asks, w) + Sum(Put(s, o).bids, w) == Sum(s.asks, w) + Sum(s.bids, w) + Weigh(w, o)
  {
    SumInsert(s.asks, o, w);
    SumInsert(s.bids, o, w);
  }

  lemma SumsAfterFinish(s: State, o: Order, w: Weight)
    requires Indexed(s) && Lookup(s, o.id) == Some(o)
    ensures Sum(Finish(s, o).asks, w) + Sum(Finish(s, o).bids, w) == Sum(s.asks, w) + Sum(s.bids, w) - Weigh(w, o)
  {
    SumRemove(s.asks, o.id, w);
    SumRemove(s.bids, o.id, w);
    FindFinds(s.asks, o.id);
    FindFinds(s.bids, o.id);
  }

  lemma PutKeepsGood(s: State, t: Order, c: Scope)
    requires Good(s, [t], c) && t.left > 0 && t.kind.Limit?
    ensures Good(Put(s, t), [], c)
  {
    hide Indexed, Sum, Insert, Imbalance, PosOk, Frozen, FrozenAt;
    assert t in [t];
    PutIndexed(s, t);
    var r := Put(s, t);
    forall w: Weight ensures Sum(r.asks, w) + Sum(r.bids, w) == Sum(s.asks, w) + Sum(s.bids, w) + Sum([t], w)
                             && Sum([], w) == 0.0 {
      SumsAfterPut(s, t, w);
      SumHead(t, [], w);
      SumEmpty(w);
    }
    forall k ensures Closing(r, [], k) == Closing(s, [t], k) {
      assert CloseOf(k) == CloseOf(k);
    }
    forall u ensures Pledged(r, [], u) == Pledged(s, [t], u) {
      assert FreezeOf(u) == FreezeOf(u);
    }
  }

  lemma SumEmpty(w: Weight)
    ensures Sum([], w) == 0.0
  {
  }

  /** A spent taker weighs nothing, so it can simply be dropped. */
  lemma FinishKeepsGood(s: State, t: Order, c: Scope)
    requires Good(s, [t], c) && t.left == 0
    ensures Good(Finish(s, t), [], c)
  {
    hide Indexed, Sum, Imbalance, PosOk, Frozen, FrozenAt;
    assert t in [t];
    FinishAbsent(s, t);
    forall w: Weight | c.funded || w.CloseOf? ensures Sum([t], w) == 0.0 && Sum([], w) == 0.0 {
      SumHead(t, [], w);
      SumEmpty(w);
      MarginIsLinear(t, 0);
    }
    forall k ensures Closing(s, [], k) == Closing(s, [t], k) {
      assert CloseOf(k) == CloseOf(k);
    }
    if c.funded {
      forall u ensures Pledged(s, [], u) == Pledged(s, [t], u) {
        assert FreezeOf(u) == FreezeOf(u);
      }
    }
  }

  // ----- giving back what a cancelled order holds

  lemma ThawPositionMeans(s: State, k: PKey, amount: int)
    requires AllOk(s.pos) && k in s.pos && 0 < amount && FrozenAt(s.pos, k) >= amount as real
    ensures var r := ThawPosition(s, k, amount);
            && AllOk(r.pos) && r.pos.Keys == s.pos.Keys && r.fault == s.fault
            && (forall j :: FrozenAt(r.pos, j) == FrozenAt(s.pos, j) - (if j == k then amount as real else 0.0))
            && Imbalance(r.pos) == Imbalance(s.pos)
  {
    var p := s.pos[k];
    var q := p.(frozen := p.frozen - amount, position := p.position + amount);
    InterestAfterSet(s.pos, Bull, k, Some(q));
    InterestAfterSet(s.pos, Bear, k, Some(q));
  }

  lemma FreezePositionMeans(s: State, k: PKey, amount: int)
    requires AllOk(s.pos) && k in s.pos && 0 < amount <= s.pos[k].position
    ensures var r := FreezePosition(s, k, amount);
            && AllOk(r.pos) && r.pos.Keys == s.pos.Keys
            && (forall j :: FrozenAt(r.pos, j) == FrozenAt(s.pos, j) + (if j == k then amount as real else 0.0))
            && Imbalance(r.pos) == Imbalance(s.pos)
  {
    var p := s.pos[k];
    var q := p.(frozen := p.frozen + amount, position := p.position - amount);
    InterestAfterSet(s.pos, Bull, k, Some(q));
    InterestAfterSet(s.pos, Bear, k, Some(q));
  }

  /** What cancelling gives back, apart from the index entries. */
  function Release(s: State, o: Order): (r: State)
    ensures r == s.(bal := ThawMargin(s, o).bal, pos := r.pos, fault := r.fault)
  {
    var s1 := s.(bal := ThawMargin(s, o).bal);
    if o.oper.Close? && o.left > 0 then ThawPosition(s1, KeyOf(o), o.left) else s1
  }

  lemma CancelUnfolds(s: State, o: Order)
    ensures Cancel(s, o) == if ThawMargin(s, o).ok then Finish(Release(s, o), o) else s.(denied := true)
  {
    hide Finish, ThawMargin, ThawPosition;
  }

  /** What is given back does not depend on the indexes. */
  lemma ReleaseIgnoresIndex(s: State, s2: State, o: Order)
    requires s2 == s.(asks := s2.asks, bids := s2.bids, orders := s2.orders, users := s2.users,
                      userOrders := s2.userOrders)
    ensures ThawMargin(s2, o) == ThawMargin(s, o)
    ensures var r := Release(s, o); Release(s2, o) == s2.(bal := r.bal, pos := r.pos, fault := r.fault)
  {
    hide DoUnfreeze;
  }

  lemma CancelIsRelease(s: State, o: Order)
    ensures Cancel(s, o) == if ThawMargin(s, o).ok then Release(Finish(s, o), o)
                            else s.(denied := true)
  {
    hide Finish, Release, Cancel, ThawMargin;
    CancelUnfolds(s, o);
    FinishTouches(s, Release(s, o), o);
    ReleaseIgnoresIndex(s, Finish(s, o), o);
  }

  /** Dropping an order touches the indexes only, and looks at nothing else. */
  lemma FinishTouches(s: State, s2: State, o: Order)
    requires s2 == s.(bal := s2.bal, pos := s2.pos, fault := s2.fault)
    ensures var r := Finish(s, o);
            r == s.(asks := r.asks, bids := r.bids, orders := r.orders, users := r.users, userOrders := r.userOrders)
    ensures Finish(s2, o) == Finish(s, o).(bal := s2.bal, pos := s2.pos, fault := s2.fault)
  {
    hide Remove, DropFromList, Sided;
  }

  lemma UnrestSums(s: State, o: Order, w: Weight)
    requires Indexed(s) && Lookup(s, o.id) == Some(o)
    ensures var r := Finish(s, o);
            Sum(r.asks, w) + Sum(r.bids, w) + Sum([o], w) == Sum(s.asks, w) + Sum(s.bids, w) + Sum([], w)
  {
    hide Finish, Sum, Indexed, Lookup;
    SumsAfterFinish(s, o, w);
    SumHead(o, [], w);
    SumEmpty(w);
  }

  lemma UnrestBacked(s: State, o: Order)
    requires Backed(s, []) && Indexed(s) && Lookup(s, o.id) == Some(o)
    ensures Backed(Finish(s, o), [o])
  {
    hide Indexed, Sum, Remove, Imbalance, PosOk, FrozenAt, DropFromList;
    FinishTouches(s, s, o);
    FindFinds(s.asks, o.id);
    FindFinds(s.bids, o.id);
    var r := Finish(s, o);
    forall k ensures Closing(r, [o], k) == Closing(s, [], k) { UnrestSums(s, o, CloseOf(k)); }
  }

  lemma UnrestFunded(s: State, o: Order, base: nat -> real)
    requires Backed(s, []) && Funded(s, [], base) && Indexed(s) && Lookup(s, o.id) == Some(o)
    ensures Funded(Finish(s, o), [o], base)
  {
    hide Indexed, Sum, Remove, Imbalance, PosOk, Frozen, FrozenAt, DropFromList, Margin;
    FinishTouches(s, s, o);
    FindFinds(s.asks, o.id);
    FindFinds(s.bids, o.id);
    var r := Finish(s, o);
    forall u ensures Pledged(r, [o], u) == Pledged(s, [], u) { UnrestSums(s, o, FreezeOf(u)); }
  }

  /** Taking an order out of the book puts it in flight. */
  lemma UnrestKeepsGood(s: State, o: Order, c: Scope)
    requires Good(s, [], c) && Lookup(s, o.id) == Some(o)
    ensures Good(Finish(s, o), [o], c)
  {
    hide Indexed, Backed, Funded, Finish, Lookup;
    FinishIndexed(s, o);
    UnrestBacked(s, o);
    if c.funded { UnrestFunded(s, o, c.base); }
    FinishTouches(s, s, o);
    IndexedMeans(s, o.id);
    IndexedMeans(Finish(s, o), o.id);
  }

  lemma IndexedMeans(s: State, id: nat)
    requires Indexed(s)
    ensures id in s.orders <==> Lookup(s, id).Some?
    ensures id in s.orders ==> id <= s.orderId
  {
  }

  lemma ReleaseMargin(s: State, o: Order, c: Scope)
    requires Good(s, [o], c) && c.funded && o.left > 0
    ensures ThawMargin(s, o).ok && NonNegative(ThawMargin(s, o).bal)
    ensures forall u :: Frozen(ThawMargin(s, o).bal, u, s.money) == c.base(u) + Pledged(s, [], u)
  {
    assert o in [o];
    MarginIsLinear(o, o.left);
    var f, a := Key(o.user, Freeze, s.money), Key(o.user, Available, s.money);
    forall u ensures Pledged(s, [o], u) == Pledged(s, [], u) + Weigh(FreezeOf(u), o) {
      SumHead(o, [], FreezeOf(u));
    }
    if o.oper.Open? && o.kind.Limit? {
      BooksPledgeNothingNegative(s, o, c);
      assert Frozen(s.bal, o.user, s.money) >= o.freeze;
    }
    if o.oper.Open? && o.freeze > 0.0 {
      MoveMeans(s.assets, s.bal, f, a, o.freeze);
      StaysNonNegative(s.assets, s.bal, f, a, o.freeze);
    }
  }

  lemma BooksPledgeNothingNegative(s: State, o: Order, c: Scope)
    requires Good(s, [o], c) && c.funded
    ensures Pledged(s, [], o.user) >= 0.0
  {
    var w := FreezeOf(o.user);
    forall x | x in s.asks || x in s.bids ensures Weigh(w, x) >= 0.0 { MarginIsLinear(x, x.left); }
    SumBoundsMember(s.asks, o, w);
    SumBoundsMember(s.bids, o, w);
  }

  lemma ReleasePosition(s: State, o: Order, c: Scope)
    requires Good(s, [o], c) && o.left > 0
    ensures var r := Release(s, o);
            && AllOk(r.pos) && r.pos.Keys == s.pos.Keys && !r.fault && Imbalance(r.pos) == 0
            && forall k :: FrozenAt(r.pos, k) == Closing(s, [], k)
  {
    hide ThawPosition, Sum, Imbalance, PosOk;
    forall k ensures Closing(s, [o], k) == Closing(s, [], k) + Weigh(CloseOf(k), o) {
      SumHead(o, [], CloseOf(k));
      SumEmpty(CloseOf(k));
    }
    if o.oper.Close? {
      assert o in [o];
      CloseIsBacked(s, [o], o);
      ThawPositionMeans(s.(bal := ThawMargin(s, o).bal), KeyOf(o), o.left);
    }
  }

  lemma ReleaseKeepsGood(s: State, o: Order, c: Scope)
    requires Good(s, [o], c) && o.left > 0
    ensures Good(Release(s, o), [], c)
  {
    ReleasePosition(s, o, c);
    hide Sum, Imbalance, PosOk, Frozen, FrozenAt, ThawMargin, Release;
    if c.funded { ReleaseMargin(s, o, c); }
    var r := Release(s, o);
    SameIndex(s, r);
    assert forall k :: Closing(r, [], k) == Closing(s, [], k);
    assert forall u :: Pledged(r, [], u) == Pledged(s, [], u);
  }

  /** Cancelling an order that rests. */
  lemma CancelKeepsGood(s: State, o: Order, c: Scope)
    requires Good(s, [], c) && Lookup(s, o.id) == Some(o)
    ensures Good(Cancel(s, o), [], c)
    ensures ThawMargin(s, o).ok ==> Lookup(Cancel(s, o), o.id).None?
    ensures c.funded ==> ThawMargin(s, o).ok
  {
    CancelIsRelease(s, o);
    UnrestKeepsGood(s, o, c);
    RestingIsLive(s, o, c);
    var f := Finish(s, o);
    FinishTouches(s, s, o);
    assert ThawMargin(f, o) == ThawMargin(s, o);
    if c.funded { ReleaseMargin(f, o, c); }
    if ThawMargin(s, o).ok {
      ReleaseKeepsGood(f, o, c);
      FinishIndexed(s, o);
      assert Lookup(Release(f, o), o.id) == Lookup(f, o.id);
    } else {
      DeniedKeepsGood(s, c);
    }
  }

  lemma RestingIsLive(s: State, o: Order, c: Scope)
    requires Good(s, [], c) && Lookup(s, o.id) == Some(o)
    ensures o.left > 0
  {
    FindFinds(s.asks, o.id);
    FindFinds(s.bids, o.id);
  }

  lemma DeniedKeepsGood(s: State, c: Scope)
    requires Good(s, [], c) && !c.funded
    ensures Good(s.(denied := true), [], c)
  {
    hide Sum, Imbalance, PosOk, Frozen, FrozenAt;
    var r := s.(denied := true);
    SameIndex(s, r);
    assert forall k :: Closing(r, [], k) == Closing(s, [], k);
  }

  /** A market order that opens and whose thaw is refused is lost on the way. */
  lemma LostFlightKeepsGood(s: State, t: Order, c: Scope)
    requires Good(s, [t], c) && t.oper.Open? && !c.funded
    ensures Good(s.(denied := true), [], c)
  {
    hide Sum, Imbalance, PosOk, Frozen, FrozenAt;
    var r := s.(denied := true);
    SameIndex(s, r);
    forall k ensures Closing(r, [], k) == Closing(s, [t], k) {
      SumHead(t, [], CloseOf(k));
      SumEmpty(CloseOf(k));
    }
  }

  lemma ThawNeverFails(s: State, t: Order, c: Scope)
    requires Good(s, [t], c) && t.left > 0
    ensures ThawMargin(s, t).ok || (t.oper.Open? && !c.funded)
  {
    if c.funded { ReleaseMargin(s, t, c); }
  }

  /** Giving back what is left of a market order. */
  lemma CancelFlightKeepsGood(s: State, t: Order, c: Scope)
    requires Good(s, [t], c) && t.left > 0 && t.kind.Market?
    ensures Good(Cancel(s, t), [], c)
  {
    hide Good, ThawMargin, Release, Cancel;
    CancelIsRelease(s, t);
    ThawNeverFails(s, t, c);
    if ThawMargin(s, t).ok {
      FlightIsAbsent(s, t, c);
      ReleaseKeepsGood(s, t, c);
    } else {
      LostFlightKeepsGood(s, t, c);
    }
  }

  lemma FlightIsAbsent(s: State, t: Order, c: Scope)
    requires Good(s, [t], c)
    ensures Finish(s, t) == s
  {
    hide Backed, Finish;
    assert t in [t];
    FinishAbsent(s, t);
  }

  lemma ExecuteKeepsGood(s: State, t: Order, c: Scope)
    requires Sided(s) && Good(s, [t], c)
    ensures Good(Execute(s, t), [], c)
  {
    hide Good, Cancel, Put, Finish;
    GoodFlight(s, t, c);
    MatchKeepsGood(s, t, c);
    var r := Match(s, t);
    GoodFlight(r.0, r.1, c);
    if r.1.left == 0 { FinishKeepsGood(r.0, r.1, c); }
    else if r.1.kind.Limit? { PutKeepsGood(r.0, r.1, c); }
    else { CancelFlightKeepsGood(r.0, r.1, c); }
  }

  lemma GoodFlight(s: State, t: Order, c: Scope)
    requires Good(s, [t], c)
    ensures t.left >= 0 && Sided(s)
  {
    assert t in [t];
  }
}
