/** Cancelling undoes placing: a limit order that rests untouched and is then cancelled leaves
    the book, the indexes, the positions and every balance as they were. */
module FuturesUndo {
  import opened Common
  import opened Ledger
  import opened Futures
  import opened FuturesIndex
  import FuturesOps

  /** Nothing a user or the matcher can see differs, whatever the counters say. */
  ghost predicate Restored(s: State, u: State) {
    && u.asks == s.asks && u.bids == s.bids && u.orders == s.orders
    && SameLists(s.users, u.users) && SameLists(s.userOrders, u.userOrders)
    && u.pos == s.pos && OnlyChanges(s.bal, u.bal, {})
    && u.deals == s.deals && u.dealId == s.dealId && u.posId == s.posId && u.latest == s.latest
    && u.fault == s.fault && u.denied == s.denied
  }

  ghost predicate SameLists(l: IdLists, m: IdLists) {
    forall user :: Ids(m, user) == Ids(l, user)
  }

  /** The order finds no price to trade at. */
  predicate Rests(s: State, a: Args, oper: Oper) {
    var o := NewOrder(0, a, oper, 0.0, 0.0);
    a.kind.Limit? && (Opposite(s, o) == [] || !Crosses(o, Opposite(s, o)[0]))
  }

  // ----- the book and the indexes

  lemma {:induction false} InsertThenFind(book: Book, o: Order)
    requires Find(book, o.id).None?
    ensures Find(Insert(book, o), o.id) == Some(o)
    decreases |book|
  {
    if book != [] && !Before(o, book[0]) { InsertThenFind(book[1..], o); }
  }

  lemma {:induction false} InsertThenRemove(book: Book, o: Order)
    requires Find(book, o.id).None?
    ensures Remove(Insert(book, o), o.id) == book
    decreases |book|
  {
    if book != [] && !Before(o, book[0]) { InsertThenRemove(book[1..], o); }
  }

  lemma {:induction false} InsertIdThenRemove(ids: seq<nat>, id: nat)
    requires id !in ids
    ensures RemoveId(InsertId(ids, id), id) == ids
    decreases |ids|
  {
    if ids != [] && id <= ids[0] { InsertIdThenRemove(ids[1..], id); }
  }

  lemma AddThenDrop(lists: IdLists, user: nat, id: nat)
    requires id !in Ids(lists, user)
    ensures SameLists(lists, DropFromList(AddToList(lists, user, id), user, id))
  {
    InsertIdThenRemove(Ids(lists, user), id);
  }

  lemma UnusedId(s: State, o: Order)
    requires Indexed(s) && o.id > s.orderId
    ensures o.id !in s.orders && Find(s.asks, o.id).None? && Find(s.bids, o.id).None?
    ensures o.id !in Ids(s.users, o.user) && o.id !in Ids(s.userOrders, o.user)
  {
    hide Tidy, Descending, Sided;
    assert Lookup(s, o.id).None?;
    assert !Owns(s, o.user, o.id);
    assert ListAgrees(s, o.user, Ids(s.users, o.user)) && ListAgrees(s, o.user, Ids(s.userOrders, o.user));
  }

  /** order_finish_future undoes order_put_future. */
  lemma PutThenFinish(s: State, o: Order)
    requires Indexed(s) && o.id > s.orderId
    ensures var u := Finish(Put(s, o), o);
            && u.asks == s.asks && u.bids == s.bids && u.orders == s.orders
            && SameLists(s.users, u.users) && SameLists(s.userOrders, u.userOrders)
    ensures Lookup(Put(s, o), o.id) == Some(o) && o.id in Put(s, o).orders
  {
    UnusedId(s, o);
    hide Indexed;
    InsertThenFind(s.asks, o);
    InsertThenFind(s.bids, o);
    InsertThenRemove(s.asks, o);
    InsertThenRemove(s.bids, o);
    AddThenDrop(s.users, o.user, o.id);
    AddThenDrop(s.userOrders, o.user, o.id);
    assert s.orders + {o.id} - {o.id} == s.orders;
  }

  // ----- the money and the position

  lemma FreezeThenUnfreeze(assets: Assets, bal: Balances, user: nat, asset: nat, amount: real)
    requires asset in assets && assets[asset].Exact? && NonNegative(bal)
    requires DoFreeze(assets, bal, user, asset, amount).ok
    ensures var fz := DoFreeze(assets, bal, user, asset, amount);
            && (amount > 0.0 ==> DoUnfreeze(assets, fz.bal, user, asset, amount).ok
                                 && OnlyChanges(bal, DoUnfreeze(assets, fz.bal, user, asset, amount).bal, {}))
            && (amount <= 0.0 ==> OnlyChanges(bal, fz.bal, {}))
  {
    var a, f := Key(user, Available, asset), Key(user, Freeze, asset);
    MoveMeans(assets, bal, a, f, amount);
    var fz := Move(assets, bal, a, f, amount).bal;
    MoveMeans(assets, fz, f, a, amount);
  }

  lemma FreezeThenThaw(s: State, k: PKey, amount: int)
    requires k in s.pos
    ensures ThawPosition(FreezePosition(s, k, amount), k, amount) == s
  {
    var p := s.pos[k];
    assert FreezePosition(s, k, amount).pos[k := p] == s.pos;
  }

  // ----- placing and cancelling

  lemma RestingExecutes(s: State, t: Order)
    requires Sided(s) && t.kind.Limit? && t.left > 0
    requires Opposite(s, t) == [] || !Crosses(t, Opposite(s, t)[0])
    ensures Execute(s, t) == Put(s, t)
  {
  }

  /** `s1` is `s` but for the money, the positions and two counters. */
  ghost predicate SameMarket(s: State, s1: State) {
    s1 == s.(modes := s1.modes, orderId := s1.orderId, bal := s1.bal, pos := s1.pos)
  }

  lemma PutInMarket(s: State, s1: State, o: Order)
    requires SameMarket(s, s1)
    ensures SameMarket(Put(s, o), Put(s1, o)) && Lookup(Put(s1, o), o.id) == Lookup(Put(s, o), o.id)
    ensures var p := Put(s1, o); p.bal == s1.bal && p.pos == s1.pos
    ensures var p := Put(s, o);
            p == s.(asks := p.asks, bids := p.bids, orders := p.orders, users := p.users, userOrders := p.userOrders)
  {
  }

  lemma FinishInMarket(s: State, s1: State, o: Order)
    requires SameMarket(s, s1)
    ensures SameMarket(Finish(s, o), Finish(s1, o))
    ensures var p := Finish(s1, o); p.bal == s1.bal && p.pos == s1.pos
    ensures var p := Finish(s, o);
            p == s.(asks := p.asks, bids := p.bids, orders := p.orders, users := p.users, userOrders := p.userOrders)
  {
  }

  /** If giving back the money and the amount restores both, dropping the order restores all. */
  lemma DropRestores(s: State, s1: State, thawed: State, o: Order)
    requires Indexed(s) && o.id > s.orderId && SameMarket(s, s1) && SameMarket(Put(s, o), thawed)
    requires thawed.pos == s.pos && OnlyChanges(s.bal, thawed.bal, {})
    ensures Restored(s, Finish(thawed, o))
    ensures CancelById(Put(s1, o), o.id) == Cancel(Put(s1, o), o)
  {
    hide Indexed, Put, Finish, Cancel, Lookup, SameLists;
    PutThenFinish(s, o);
    PutInMarket(s, s1, o);
    FinishInMarket(Put(s, o), thawed, o);
  }

  /** The state and the order with which an accepted limit open reaches the matcher. */
  function Placed(s: State, a: Args): (State, Order) {
    var pri := Div(a.volume, MarginLeverage(s, a));
    FuturesOps.Opened(s, a, DoFreeze(s.assets, s.bal, a.user, s.money, pri).bal, pri)
  }

  lemma OpenRests(s: State, a: Args)
    requires Sided(s) && Rests(s, a, Open) && PutOpen(s, a).1.Accepted?
    ensures PutOpen(s, a).0 == Put(Placed(s, a).0, Placed(s, a).1)
    ensures DoFreeze(s.assets, s.bal, a.user, s.money, Placed(s, a).1.freeze).ok
  {
    hide ModeAfter, OrderLeverage, MarginLeverage, DoFreeze, CanAfford, Put, Execute;
    RestingExecutes(Placed(s, a).0, Placed(s, a).1);
  }

  /** Whatever leverage the order and the mode have, cancelling an untouched opening order gives
      back exactly what placing it froze. */
  lemma CancelUndoesOpen(s: State, a: Args)
    requires Indexed(s) && NonNegative(s.bal) && s.money in s.assets && s.assets[s.money].Exact?
    requires Rests(s, a, Open) && PutOpen(s, a).1.Accepted?
    ensures Restored(s, CancelById(PutOpen(s, a).0, s.orderId + 1))
  {
    hide Indexed, NonNegative, PutOpen, ModeAfter, OrderLeverage, MarginLeverage, DoUnfreeze, DoFreeze, Put, Finish,
         CancelById, Restored, OnlyChanges, Rests;
    assert Sided(s) by { IndexedIsSided(s); }
    OpenRests(s, a);
    var (s1, o) := Placed(s, a);
    FreezeThenUnfreeze(s.assets, s.bal, a.user, s.money, o.freeze);
    PutInMarket(s, s1, o);
    var p := Put(s1, o);
    var thawed := p.(bal := ThawMargin(p, o).bal);
    DropRestores(s, s1, thawed, o);
    assert Cancel(p, o) == Finish(thawed, o);
  }

  lemma IndexedIsSided(s: State)
    requires Indexed(s)
    ensures Sided(s)
  {
  }

  lemma CloseRests(s: State, a: Args)
    requires Sided(s) && Rests(s, a, Close) && PutClose(s, a).1.Accepted?
    ensures var k := PKey(a.user, a.side);
            && k in s.pos && a.volume.Floor > 0
            && PutClose(s, a).0 == Put(FreezePosition(s, k, a.volume.Floor).(orderId := s.orderId + 1),
                                       NewOrder(s.orderId + 1, a, Close, s.pos[k].leverage, 0.0))
  {
    hide Put, Execute;
    var k := PKey(a.user, a.side);
    RestingExecutes(FreezePosition(s, k, a.volume.Floor).(orderId := s.orderId + 1),
                    NewOrder(s.orderId + 1, a, Close, s.pos[k].leverage, 0.0));
  }

  /** Cancelling an untouched closing order gives the frozen amount back to the position. */
  lemma CancelUndoesClose(s: State, a: Args)
    requires Indexed(s) && Rests(s, a, Close) && PutClose(s, a).1.Accepted?
    ensures Restored(s, CancelById(PutClose(s, a).0, s.orderId + 1))
  {
    hide Indexed, PutClose, Put, Finish, CancelById, Restored, Rests;
    assert Sided(s) by { IndexedIsSided(s); }
    CloseRests(s, a);
    var k := PKey(a.user, a.side);
    var o := NewOrder(s.orderId + 1, a, Close, s.pos[k].leverage, 0.0);
    var s1 := FreezePosition(s, k, a.volume.Floor).(orderId := s.orderId + 1);
    FreezeThenThaw(s, k, a.volume.Floor);
    PutInMarket(s, s1, o);
    var p := Put(s1, o);
    var thawed := ThawPosition(p, k, a.volume.Floor);
    assert thawed.pos == s.pos;
    DropRestores(s, s1, thawed, o);
    assert Cancel(p, o) == Finish(thawed, o);
  }
}
