/** The main results about the futures machine, for every run of opens, closes,
    cancels, liquidations and balance changes. */
module FuturesTheorems {
  import opened Common
  import opened Ledger
  import opened Futures
  import opened FuturesSums
  import opened FuturesPositions
  import opened FuturesIndex
  import opened FuturesBacking
  import opened FuturesMargin
  import opened FuturesMatching
  import opened FuturesRun
  import opened FuturesOps

  datatype Op =
    | OpenOrder(a: Args)
    | CloseOrder(a: Args)
    | CancelOrder(id: nat)
    | LiquidatePosition(k: PKey)
    | ChangeBalance(user: nat, change: real)   // update_user_balance

  function AdjustBalance(s: State, user: nat, change: real): State {
    var k := Key(user, Available, s.money);
    s.(bal := if change >= 0.0 then Add(s.assets, s.bal, k, change).bal else Sub(s.assets, s.bal, k, -change).bal)
  }

  function Do(s: State, op: Op): (r: State)
    requires Sided(s)
    ensures Sided(r)
  {
    match op
    case OpenOrder(a) => PutOpen(s, a).0
    case CloseOrder(a) => PutClose(s, a).0
    case CancelOrder(id) => CancelById(s, id)
    case LiquidatePosition(k) => Liquidate(s, k)
    case ChangeBalance(u, c) => AdjustBalance(s, u, c)
  }

  function Run(s: State, ops: seq<Op>): (r: State)
    requires Sided(s)
    ensures Sided(r)
    decreases |ops|
  {
    if ops == [] then s else Run(Do(s, ops[0]), ops[1..])
  }

  /** Running step by step. */
  lemma RunStarts(s: State, op: Op, rest: seq<Op>)
    requires Sided(s)
    ensures Run(s, [op] + rest) == Run(Do(s, op), rest)
  {
    assert ([op] + rest)[1..] == rest;
  }

  lemma RunOfOne(s: State, a: Op)
    requires Sided(s)
    ensures Run(s, [a]) == Do(s, a)
  {
    hide Do;
    assert [a][1..] == [];
  }

  lemma RunOfTwo(s: State, a: Op, b: Op)
    requires Sided(s)
    ensures Run(s, [a, b]) == Do(Do(s, a), b)
  {
    hide Do, Run;
    assert [a, b] == [a] + [b];
    RunStarts(s, a, [b]);
    RunOfOne(Do(s, a), b);
  }

  lemma RunOfThree(s: State, a: Op, b: Op, c: Op)
    requires Sided(s)
    ensures Run(s, [a, b, c]) == Do(Do(Do(s, a), b), c)
  {
    hide Do, Run;
    assert [a, b, c] == [a] + [b, c];
    RunStarts(s, a, [b, c]);
    RunOfTwo(Do(s, a), b, c);
  }

  lemma RunOfFour(s: State, a: Op, b: Op, c: Op, d: Op)
    requires Sided(s)
    ensures Run(s, [a, b, c, d]) == Do(Do(Do(Do(s, a), b), c), d)
  {
    hide Do, Run;
    var ops, rest := [a, b, c, d], [b, c, d];
    assert |ops| == |[a] + rest| && ops[1] == rest[0] && ops[2] == rest[1] && ops[3] == rest[2];
    assert ops == [a] + rest;
    RunStarts(s, a, rest);
    RunOfThree(Do(s, a), b, c, d);
  }

  ghost predicate OpPays(s: State, op: Op)
    requires Sided(s)
  {
    op.OpenOrder? && PutOpen(s, op.a).1.Accepted? ==> PaysMargin(s, op.a)
  }

  /** Every open that the run accepts can pay its margin. */
  ghost predicate Agreeing(s: State, ops: seq<Op>)
    requires Sided(s)
    decreases |ops|
  {
    ops == []
    || (OpPays(s, ops[0]) && Agreeing(Do(s, ops[0]), ops[1..]))
  }

  /** A market before its first order. */
  ghost predicate Untouched(s: State) {
    && s.asks == [] && s.bids == [] && s.orders == {} && s.users == map[] && s.userOrders == map[]
    && s.pos == map[] && !s.fault && !s.denied
    && s.money in s.assets && s.assets[s.money].Exact? && NonNegative(s.bal)
  }

  lemma UntouchedIsGood(s: State, c: Scope)
    requires Untouched(s) && c.base == Base(s)
    ensures Good(s, [], c) && Uncrossed(s)
  {
    assert forall u :: c.base(u) == Frozen(s.bal, u, s.money) >= 0.0;
  }

  // ----- one operation

  lemma ExecuteKeepsUncrossed(s: State, t: Order, c: Scope)
    requires Sided(s) && Good(s, [t], c) && Uncrossed(s)
    ensures Uncrossed(Execute(s, t))
  {
    hide Good, Uncrossed, Put, Finish, Cancel;
    MatchKeepsUncrossed(s, t);
    MatchKeepsGood(s, t, c);
    var r := Match(s, t);
    LiveOpposite(s, t, c);
    MatchIsGreedy(s, t);
    GoodFlight(r.0, r.1, c);
    GoodIndex(r.0, [r.1], c);
    if r.1.left == 0 { FinishUncrossed(r.0, r.1); }
    else if r.1.kind.Limit? {
      SameSideAs(t, r.1, []);
      TidyBooks(r.0);
      PutKeepsUncrossed(r.0, r.1);
    } else { CancelUncrossed(r.0, r.1); }
  }

  lemma TidyBooks(s: State)
    requires Indexed(s)
    ensures Tidy(s.asks) && Tidy(s.bids)
  {
  }

  lemma LiveOpposite(s: State, t: Order, c: Scope)
    requires Good(s, [t], c)
    ensures LiveBook(Opposite(s, t)) && t.left >= 0
  {
    assert t in [t];
  }

  lemma FinishUncrossed(s: State, o: Order)
    requires Uncrossed(s)
    ensures Uncrossed(Finish(s, o))
  {
  }

  lemma CancelUncrossed(s: State, o: Order)
    requires Uncrossed(s)
    ensures Uncrossed(Cancel(s, o))
  {
    hide Finish, ThawMargin;
    CancelIsRelease(s, o);
    FinishUncrossed(s, o);
  }

  lemma {:induction false} CancelClosesUncrossed(s: State, user: nat, side: Side)
    requires Uncrossed(s)
    ensures Uncrossed(CancelCloses(s, user, side))
    decreases |Ids(s.users, user)|
  {
    hide Uncrossed, Cancel;
    var o := FirstClose(s, Ids(s.users, user), side);
    if o.Some? && o.value.user == user {
      FirstCloseFinds(s, Ids(s.users, user), side);
      CancelShrinksList(s, o.value);
      CancelUncrossed(s, o.value);
      CancelClosesUncrossed(Cancel(s, o.value), user, side);
    }
  }

  lemma SameBooksUncrossed(s: State, s2: State)
    requires Uncrossed(s) && s2.asks == s.asks && s2.bids == s.bids
    ensures Uncrossed(s2)
  {
  }

  lemma BalanceChangeKeepsGood(s: State, user: nat, change: real, c: Scope)
    requires Good(s, [], c)
    ensures Good(AdjustBalance(s, user, change), [], c)
  {
    hide Sum, Imbalance, FrozenAt, PosOk, Add, Sub;
    var r := AdjustBalance(s, user, change);
    SameIndex(s, r);
    var k, f := Key(user, Available, s.money), Key(user, Freeze, s.money);
    AddMeans(s.assets, s.bal, k, change);
    SubMeans(s.assets, s.bal, k, -change);
    if c.funded {
      StaysNonNegative(s.assets, s.bal, k, f, change);
      StaysNonNegative(s.assets, s.bal, k, f, -change);
    }
    assert forall j :: Closing(r, [], j) == Closing(s, [], j);
    assert forall u :: Pledged(r, [], u) == Pledged(s, [], u);
  }

  lemma DoKeepsGood(s: State, op: Op, c: Scope)
    requires Sided(s) && Good(s, [], c)
    requires c.funded ==> OpPays(s, op)
    ensures Good(Do(s, op), [], c)
  {
    hide Good, PutOpen, PutClose, CancelById, Liquidate, AdjustBalance, PaysMargin;
    match op
    case OpenOrder(a) => PutOpenKeepsGood(s, a, c);
    case CloseOrder(a) => PutCloseKeepsGood(s, a, c);
    case CancelOrder(id) => CancelByIdKeepsGood(s, id, c);
    case LiquidatePosition(k) => LiquidateKeepsGood(s, k, c);
    case ChangeBalance(u, change) => BalanceChangeKeepsGood(s, u, change, c);
  }

  lemma PutOpenUncrossed(s: State, a: Args, c: Scope)
    requires Sided(s) && Good(s, [], c) && !c.funded && Uncrossed(s)
    ensures Uncrossed(PutOpen(s, a).0)
  {
    hide Good, Uncrossed, ModeAfter, Execute, CanAfford, DoFreeze, OrderLeverage, MarginLeverage;
    SameBooksUncrossed(s, s.(modes := ModeAfter(s, a)));
    SameBooksUncrossed(s, s.(modes := ModeAfter(s, a), fault := true));
    SameBooksUncrossed(s, s.(modes := ModeAfter(s, a), orderId := s.orderId + 1));
    if GoodVolume(a.volume) && (a.kind.Limit? ==> a.price > 0.0) {
      var pri := Div(a.volume, MarginLeverage(s, a));
      var fz := DoFreeze(s.assets, s.bal, a.user, s.money, pri);
      var bal := if a.kind.Limit? then fz.bal else s.bal;
      var freeze := if a.kind.Limit? then pri else 0.0;
      var r := Opened(s, a, bal, freeze);
      OpenedIsGood(s, a, bal, freeze, c);
      SidedFromGood(r.0, [r.1], c);
      SameBooksUncrossed(s, r.0);
      ExecuteKeepsUncrossed(r.0, r.1, c);
    }
  }

  lemma PutCloseUncrossed(s: State, a: Args, c: Scope)
    requires Sided(s) && Good(s, [], c) && Uncrossed(s)
    ensures Uncrossed(PutClose(s, a).0)
  {
    hide Good, Uncrossed, Execute, FreezePosition;
    var k := PKey(a.user, a.side);
    if GoodVolume(a.volume) && k in s.pos && s.pos[k].position as real >= a.volume
       && (a.kind.Limit? ==> a.price > 0.0) {
      var s1 := FreezePosition(s, k, a.volume.Floor).(orderId := s.orderId + 1);
      var t := NewOrder(s1.orderId, a, Close, s.pos[k].leverage, 0.0);
      CloseFlightIsGood(s, k, t, c);
      SidedFromGood(s1, [t], c);
      FreezeTouches(s, k, a.volume.Floor);
      SameBooksUncrossed(s, s1);
      ExecuteKeepsUncrossed(s1, t, c);
    }
  }

  lemma LiquidateUncrossed(s: State, k: PKey, c: Scope)
    requires Sided(s) && Good(s, [], c) && Uncrossed(s)
    ensures Uncrossed(Liquidate(s, k))
  {
    hide Good, Uncrossed, Execute, FreezePosition, CancelCloses, Equity, FrozenAt;
    if k in s.pos && s.pos[k].pattern.Isolated? && s.latest > 0.0 && Underwater(k.side, s.pos[k], s.latest) {
      var s1 := CancelCloses(s, k.user, k.side);
      CancelClosesUncrossed(s, k.user, k.side);
      CancelClosesKeepsGood(s, k.user, k.side, c);
      assert k in s1.pos;
      BlastFitsPosition(s1, k, c);
      var t := BlastOrder(s1.orderId + 1, k, s1.pos[k]);
      CloseFlightIsGood(s1, k, t, c);
      FreezeCommutes(s1, k, t.left);
      FreezeTouches(s1, k, t.left);
      var s2 := FreezePosition(s1, k, t.left).(orderId := s1.orderId + 1);
      SameBooksUncrossed(s1, s2);
      SidedFromGood(s2, [t], c);
      ExecuteKeepsUncrossed(s2, t, c);
    }
  }

  lemma DoKeepsUncrossed(s: State, op: Op, c: Scope)
    requires Sided(s) && Good(s, [], c) && !c.funded && Uncrossed(s)
    ensures Uncrossed(Do(s, op))
  {
    hide Good, Uncrossed, PutOpen, PutClose, Cancel, Liquidate;
    match op
    case OpenOrder(a) => PutOpenUncrossed(s, a, c);
    case CloseOrder(a) => PutCloseUncrossed(s, a, c);
    case CancelOrder(id) =>
      if Lookup(s, id).Some? { CancelUncrossed(s, Lookup(s, id).value); }
    case LiquidatePosition(k) => LiquidateUncrossed(s, k, c);
    case ChangeBalance(u, change) => SameBooksUncrossed(s, AdjustBalance(s, u, change));
  }

  // ----- every run

  lemma {:induction false} RunKeepsGood(s: State, ops: seq<Op>, c: Scope)
    requires Sided(s) && Good(s, [], c)
    requires c.funded ==> Agreeing(s, ops)
    ensures Good(Run(s, ops), [], c)
    decreases |ops|
  {
    hide Good, Do, LeverageAgrees;
    if ops != [] {
      DoKeepsGood(s, ops[0], c);
      RunKeepsGood(Do(s, ops[0]), ops[1..], c);
    }
  }

  lemma {:induction false} RunKeepsUncrossed(s: State, ops: seq<Op>, c: Scope)
    requires Sided(s) && Good(s, [], c) && !c.funded && Uncrossed(s)
    ensures Uncrossed(Run(s, ops))
    decreases |ops|
  {
    hide Good, Uncrossed, Do;
    if ops != [] {
      DoKeepsGood(s, ops[0], c);
      DoKeepsUncrossed(s, ops[0], c);
      RunKeepsUncrossed(Do(s, ops[0]), ops[1..], c);
    }
  }

  ghost function Base(s: State): nat -> real {
    (u: nat) => Frozen(s.bal, u, s.money)
  }

  /** In every reachable state, long and short interest are equal, and no null pointer
      was ever followed. */
  lemma OpenInterestBalances(s0: State, ops: seq<Op>)
    requires Untouched(s0)
    ensures var s := Run(s0, ops); Interest(s.pos, Bull) == Interest(s.pos, Bear) && !s.fault
  {
    var c := Scope(false, Base(s0));
    UntouchedIsGood(s0, c);
    RunKeepsGood(s0, ops, c);
  }

  /** In every reachable state, each position is whole and its frozen part is exactly the
      open amount of its owner's resting closing orders; in particular a deleted position
      has none. */
  lemma ClosingOrdersAreBacked(s0: State, ops: seq<Op>)
    requires Untouched(s0)
    ensures var s := Run(s0, ops);
            && (forall k :: k in s.pos ==> s.pos[k].position >= 0 && s.pos[k].frozen >= 0 && Total(s.pos[k]) > 0)
            && (forall k :: FrozenAt(s.pos, k) == Sum(s.asks, CloseOf(k)) + Sum(s.bids, CloseOf(k)))
            && (forall o :: (o in s.asks || o in s.bids) && o.oper.Close? ==>
                  KeyOf(o) in s.pos && s.pos[KeyOf(o)].frozen >= o.left > 0)
  {
    hide Run;
    var c := Scope(false, Base(s0));
    UntouchedIsGood(s0, c);
    RunKeepsGood(s0, ops, c);
    var s := Run(s0, ops);
    forall k ensures FrozenAt(s.pos, k) == Sum(s.asks, CloseOf(k)) + Sum(s.bids, CloseOf(k)) {
      assert FrozenAt(s.pos, k) == Closing(s, [], k);
      SumEmpty(CloseOf(k));
    }
    forall o | (o in s.asks || o in s.bids) && o.oper.Close?
      ensures KeyOf(o) in s.pos && s.pos[KeyOf(o)].frozen >= o.left > 0 {
      CloseIsBacked(s, [], o);
    }
  }

  /** In every reachable state the four indexes agree, both sides are in price-time order,
      and the best bid is strictly below the best ask. */
  lemma BookIsConsistent(s0: State, ops: seq<Op>)
    requires Untouched(s0)
    ensures var s := Run(s0, ops); Indexed(s) && Uncrossed(s)
  {
    hide Run, Indexed, Uncrossed;
    var c := Scope(false, Base(s0));
    UntouchedIsGood(s0, c);
    RunKeepsGood(s0, ops, c);
    RunKeepsUncrossed(s0, ops, c);
    GoodIndex(Run(s0, ops), [], c);
  }

  /** What agreement of the indexes says about one order. */
  lemma IndexesAgreeOnOrder(s: State, o: Order)
    requires Indexed(s)
    ensures o in s.asks ==> Sells(o) && o !in s.bids
    ensures o in s.bids ==> !Sells(o) && o !in s.asks
    ensures o in s.asks || o in s.bids
            ==> o.id in s.orders && o.id in Ids(s.users, o.user) && o.id in Ids(s.userOrders, o.user)
    ensures o.id in s.orders ==> exists r :: (r in s.asks || r in s.bids) && r.id == o.id
    ensures forall r :: (o in s.asks || o in s.bids) && (r in s.asks || r in s.bids) && r.id == o.id ==> r == o
    ensures forall u, id :: id in Ids(s.users, u) <==> id in Ids(s.userOrders, u)
    ensures forall u, id :: id in Ids(s.users, u) ==> id in s.orders
  {
    LookupFinds(s, o.id);
    FindFinds(s.asks, o.id);
    FindFinds(s.bids, o.id);
    forall u, id ensures (id in Ids(s.users, u) <==> Owns(s, u, id)) && (id in Ids(s.userOrders, u) <==> Owns(s, u, id)) {
      assert ListAgrees(s, u, Ids(s.users, u)) && ListAgrees(s, u, Ids(s.userOrders, u));
    }
    forall r | r in s.asks || r in s.bids ensures Lookup(s, r.id) == Some(r) { RestingIsListed(s, r); }
    if o in s.asks || o in s.bids { assert Owns(s, o.user, o.id); }
  }

  /** In every run whose accepted opens pass their guard, each user's frozen money is what was
      frozen elsewhere plus the margins of the resting limit opens, each margin is the open
      amount over the leverage, and the ledger never refused a margin movement. */
  lemma MarginLedgerBalances(s0: State, ops: seq<Op>)
    requires Untouched(s0) && Agreeing(s0, ops)
    ensures var s := Run(s0, ops);
            && (forall u :: Frozen(s.bal, u, s.money)
                  == Frozen(s0.bal, u, s0.money) + Sum(s.asks, FreezeOf(u)) + Sum(s.bids, FreezeOf(u)))
            && (forall o :: (o in s.asks || o in s.bids) && o.oper.Open? ==>
                  o.leverage > 0.0 && o.freeze == o.left as real / o.leverage)
            && !s.denied
  {
    hide Run;
    var c := Scope(true, Base(s0));
    UntouchedIsGood(s0, c);
    UntouchedIsFunded(s0, c);
    RunKeepsGood(s0, ops, c);
    var s := Run(s0, ops);
    forall u ensures Frozen(s.bal, u, s.money)
                     == Frozen(s0.bal, u, s0.money) + Sum(s.asks, FreezeOf(u)) + Sum(s.bids, FreezeOf(u)) {
      assert Frozen(s.bal, u, s.money) == c.base(u) + Pledged(s, [], u);
      SumEmpty(FreezeOf(u));
    }
  }

  lemma UntouchedIsFunded(s: State, c: Scope)
    requires Untouched(s) && c.base == Base(s)
    ensures Funded(s, [], c.base)
  {
    assert forall u :: c.base(u) == Frozen(s.bal, u, s.money) >= 0.0;
  }
}
