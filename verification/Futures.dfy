/** The futures matching engine of matchengine/src/me_market.c, me_position.c and
    me_liquidation.c as a state machine on values: what every operation does to the
    order book, the order indexes, the positions and the balances of one market.

    The two book lists hold the order records; the other indexes (the order
    dictionary and the two per-user lists) hold order ids, which play the role of
    the shared pointers.  Two flags record what the source does not look at: `fault`
    is raised where it would follow a null pointer, `denied` where the ledger refuses
    to thaw or debit the margin of an order that opens. */
module Futures {
  import opened Common
  import opened Ledger

  datatype Side = Bear | Bull
  datatype Oper = Open | Close
  datatype OrderKind = Market | Limit
  datatype Pattern = Isolated | Cross

  datatype Order = Order(
    id: nat, kind: OrderKind, side: Side, oper: Oper, user: nat, pattern: Pattern, isblast: bool,
    price: real, leverage: real, takerFee: real, makerFee: real, amount: int,
    left: int, freeze: real, dealStock: real, dealMoney: real, dealFee: real, pnl: real)

  datatype Mode = Mode(pattern: Pattern, leverage: real)
  datatype PKey = PKey(user: nat, side: Side)
  datatype Pos = Pos(
    id: nat, pattern: Pattern, leverage: real, position: int, frozen: int, price: real, principal: real)

  /** Whose position a party of a deal trades, in which direction, and on which terms: the pattern
      and the leverage of its order, and the fee rate that the deal is charged at. */
  datatype Leg = Leg(key: PKey, oper: Oper, pattern: Pattern, leverage: real, rate: real)

  /** One executed trade, as it is reported to the deal history. */
  datatype Deal = Deal(id: nat, price: real, amount: int, taker: nat, maker: nat, takes: Leg, makes: Leg)

  type Book = seq<Order>
  type IdLists = map<nat, seq<nat>>

  datatype State = State(
    assets: Assets, money: nat,
    asks: Book, bids: Book, orders: set<nat>, users: IdLists, userOrders: IdLists,
    pos: map<PKey, Pos>, modes: map<nat, Mode>, bal: Balances,
    latest: real, orderId: nat, dealId: nat, posId: nat, deals: seq<Deal>, fault: bool, denied: bool)

  /** mpd_div gives an infinite amount for a zero divisor, which has no value here: where the divisor
      is a leverage, the ledger refuses such an amount and the margin check finds it too much. */
  function Div(a: real, b: real): real {
    if b == 0.0 then 0.0 else a / b
  }

  // ----- the order book

  /** Opening a short and closing a long both sell; such orders rest among the asks. */
  predicate Sells(o: Order) {
    o.side.Bear? == o.oper.Open?
  }

  /** order_match_compare(a, b) < 0 for two limit orders of one book side. */
  predicate Before(a: Order, b: Order) {
    if a.price != b.price then (if Sells(a) then a.price < b.price else a.price > b.price)
    else a.id < b.id
  }

  function Insert(book: Book, o: Order): (r: Book)
    ensures forall x :: x in r <==> x == o || x in book
  {
    if book == [] || Before(o, book[0]) then [o] + book else [book[0]] + Insert(book[1..], o)
  }

  function Remove(book: Book, id: nat): (r: Book)
    ensures forall x :: x in r ==> x in book
    ensures forall x :: x in book && x.id != id ==> x in r
  {
    if book == [] then []
    else if book[0].id == id then book[1..]
    else [book[0]] + Remove(book[1..], id)
  }

  function Find(book: Book, id: nat): Option<Order> {
    if book == [] then None
    else if book[0].id == id then Some(book[0])
    else Find(book[1..], id)
  }

  /** The side of the book that `t` trades against. */
  function Opposite(s: State, t: Order): Book {
    if Sells(t) then s.bids else s.asks
  }

  function WithOpposite(s: State, t: Order, book: Book): State {
    s.(bids := if Sells(t) then book else s.bids, asks := if Sells(t) then s.asks else book)
  }

  /** Every order rests on its own side of the book. */
  predicate Sided(s: State) {
    && (forall o :: o in s.asks ==> Sells(o))
    && (forall o :: o in s.bids ==> !Sells(o))
  }

  // ----- the id lists, newest order first (order_id_compare)

  function InsertId(ids: seq<nat>, id: nat): seq<nat> {
    if ids == [] || id > ids[0] then [id] + ids else [ids[0]] + InsertId(ids[1..], id)
  }

  function RemoveId(ids: seq<nat>, id: nat): seq<nat> {
    if ids == [] then []
    else if ids[0] == id then ids[1..]
    else [ids[0]] + RemoveId(ids[1..], id)
  }

  function Ids(lists: IdLists, user: nat): seq<nat> {
    if user in lists then lists[user] else []
  }

  function AddToList(lists: IdLists, user: nat, id: nat): IdLists {
    lists[user := InsertId(Ids(lists, user), id)]
  }

  function DropFromList(lists: IdLists, user: nat, id: nat): IdLists {
    if user in lists then lists[user := RemoveId(lists[user], id)] else lists
  }

  /** order_put_future for a limit order. */
  function Put(s: State, o: Order): (r: State)
    ensures Sided(s) ==> Sided(r)
  {
    if o.id in s.orders then s
    else s.(orders := s.orders + {o.id},
            users := AddToList(s.users, o.user, o.id),
            userOrders := AddToList(s.userOrders, o.user, o.id),
            asks := if Sells(o) then Insert(s.asks, o) else s.asks,
            bids := if Sells(o) then s.bids else Insert(s.bids, o))
  }

  /** order_finish_future; an order that is in no index is not an error. */
  function Finish(s: State, o: Order): (r: State)
    ensures Sided(s) ==> Sided(r)
  {
    s.(orders := s.orders - {o.id},
       users := DropFromList(s.users, o.user, o.id),
       userOrders := DropFromList(s.userOrders, o.user, o.id),
       asks := if Sells(o) then Remove(s.asks, o.id) else s.asks,
       bids := if Sells(o) then s.bids else Remove(s.bids, o.id))
  }

  // ----- one trade on one position (adjustPosition)

  function Total(p: Pos): int {
    p.position + p.frozen
  }

  /** getPNL: the equity of the whole position at a price. */
  function Equity(side: Side, p: Pos, price: real): real {
    var total := Total(p) as real;
    if side.Bull? then
      if price >= p.price then Div(price - p.price, p.price) * total + p.principal
      else p.principal - Div(p.price - price, p.price) * total
    else
      if price <= p.price then Div(p.price - price, p.price) * total + p.principal
      else p.principal - Div(price - p.price, p.price) * total
  }

  /** getPartPNL: the profit on `amount` of the position. */
  function PartProfit(side: Side, p: Pos, amount: int, price: real): real {
    (if side.Bull? then Div(price - p.price, p.price) else Div(p.price - price, p.price)) * amount as real
  }

  datatype Traded = Traded(after: Option<Pos>, payout: real, profit: real, fault: bool)

  /** A position with nothing left in it is deleted. */
  function Kept(p: Pos): Option<Pos> {
    if p.position == 0 && p.frozen == 0 then None else Some(p)
  }

  function OpenPos(p: Pos, amount: int, price: real, fee: real, pri: real): Pos {
    var total := Total(p) as real;
    p.(principal := p.principal + pri - fee,
       position := p.position + amount,
       price := Div(price * amount as real + p.price * total, amount as real + total))
  }

  function ReleasedPrincipal(p: Pos, amount: int): real {
    Div(amount as real * p.principal, Total(p) as real)
  }

  function Payout(side: Side, p: Pos, amount: int, price: real): real {
    Div(Equity(side, p, price) * amount as real, Total(p) as real)
  }

  function ClosePos(p: Pos, amount: int): Pos {
    var p1 := p.(principal := p.principal - ReleasedPrincipal(p, amount));
    if Total(p) - amount == 0 then p1.(frozen := 0, position := 0)
    else p1.(frozen := p.frozen - amount)
  }

  function TradeOn(before: Option<Pos>, newId: nat, o: Order, amount: int, price: real, fee: real, pri: real): Traded {
    match before
    case None =>
      Traded(Kept(Pos(newId, o.pattern, o.leverage, amount, 0, price, pri - fee)), 0.0, 0.0, o.oper.Close?)
    case Some(p) =>
      if o.oper.Open? then Traded(Kept(OpenPos(p, amount, price, fee, pri)), 0.0, 0.0, false)
      else Traded(Kept(ClosePos(p, amount)), Payout(o.side, p, amount, price),
                  PartProfit(o.side, p, amount, price), false)
  }

  function PosAt(pos: map<PKey, Pos>, k: PKey): Option<Pos> {
    if k in pos then Some(pos[k]) else None
  }

  function SetPos(pos: map<PKey, Pos>, k: PKey, p: Option<Pos>): map<PKey, Pos> {
    match p
    case None => pos - {k}
    case Some(v) => pos[k := v]
  }

  function KeyOf(o: Order): PKey {
    PKey(o.user, o.side)
  }

  // ----- one trade between a taker and a maker (execute_order_open_imp)

  function Margin(o: Order, amount: int): real {
    Div(amount as real, o.leverage)
  }

  /** adjustOrder, for either party. */
  function FillOrder(o: Order, amount: int, price: real, fee: real): Order {
    o.(left := o.left - amount,
       dealFee := o.dealFee + fee,
       dealStock := o.dealStock + (Margin(o, amount) - fee),
       dealMoney := o.dealMoney + price * amount as real)
  }

  datatype Party = Party(s: State, o: Order, payout: real)

  /** adjustPosition, for either party. */
  function TradeParty(s: State, o: Order, amount: int, price: real, fee: real): (r: Party)
    ensures r.s == s.(pos := r.s.pos, posId := r.s.posId, fault := r.s.fault)
    ensures r.o == o.(pnl := r.o.pnl)
  {
    var k := KeyOf(o);
    var t := TradeOn(PosAt(s.pos, k), s.posId + 1, o, amount, price, fee, Margin(o, amount));
    Party(s.(pos := SetPos(s.pos, k, t.after),
             posId := if k in s.pos then s.posId else s.posId + 1,
             fault := s.fault || t.fault),
          o.(pnl := o.pnl + t.profit), t.payout)
  }

  /** The debit of an opening fill: the margin of a limit order is thawed first.  The source
      looks at neither answer. */
  function DebitMargin(s: State, o: Order, amount: int): State {
    if o.leverage == 0.0 then s.(denied := true)
    else
      var pri := Margin(o, amount);
      var thaw := if o.kind.Limit? then DoUnfreeze(s.assets, s.bal, o.user, s.money, pri) else Outcome(true, s.bal);
      var debit := Sub(s.assets, thaw.bal, Key(o.user, Available, s.money), pri);
      s.(bal := debit.bal, denied := s.denied || !(thaw.ok && debit.ok))
  }

  /** The credit of a closing fill: the payout is added, then the fee is taken. */
  function CreditPayout(s: State, o: Order, payout: real, fee: real): State {
    var k := Key(o.user, Available, s.money);
    s.(bal := Sub(s.assets, Add(s.assets, s.bal, k, payout).bal, k, fee).bal)
  }

  /** adjustBalance, for either party; a liquidation order gets nothing back. */
  function SettleParty(s: State, o: Order, amount: int, payout: real, fee: real): (r: (State, Order))
    ensures r.0 == s.(bal := r.0.bal, denied := r.0.denied)
    ensures r.1 == o.(freeze := if o.oper.Open? then o.freeze - Margin(o, amount) else o.freeze)
  {
    if o.oper.Open? then (DebitMargin(s, o, amount), o.(freeze := o.freeze - Margin(o, amount)))
    else if o.isblast then (s, o)
    else (CreditPayout(s, o, payout, fee), o)
  }

  /** An order keeps its identity and terms for life; only its running totals change. */
  predicate SameTerms(a: Order, b: Order) {
    a == b.(left := a.left, freeze := a.freeze, dealStock := a.dealStock,
            dealMoney := a.dealMoney, dealFee := a.dealFee, pnl := a.pnl)
  }

  /** Nothing but positions, balances and counters differs. */
  predicate SameBooks(s: State, s2: State) {
    s2 == s.(pos := s2.pos, bal := s2.bal, latest := s2.latest, dealId := s2.dealId, posId := s2.posId,
             deals := s2.deals, fault := s2.fault, denied := s2.denied)
  }

  datatype Flow = Flow(s: State, taker: Order, maker: Order, tPayout: real, mPayout: real)
  datatype Filled = Filled(s: State, taker: Order, maker: Order)

  function Fee(amount: int, rate: real): real {
    amount as real * rate
  }

  /** adjustOrder and adjustPosition: the taker's position first, then the maker's. */
  function Exchange(s: State, taker: Order, maker: Order, amount: int, price: real): (r: Flow)
    ensures r.s == s.(pos := r.s.pos, posId := r.s.posId, fault := r.s.fault)
    ensures SameTerms(r.taker, taker) && r.taker.left == taker.left - amount && r.taker.freeze == taker.freeze
    ensures SameTerms(r.maker, maker) && r.maker.left == maker.left - amount && r.maker.freeze == maker.freeze
  {
    var tFee, mFee := Fee(amount, taker.takerFee), Fee(amount, maker.makerFee);
    var t := TradeParty(s, FillOrder(taker, amount, price, tFee), amount, price, tFee);
    var m := TradeParty(t.s, FillOrder(maker, amount, price, mFee), amount, price, mFee);
    Flow(m.s, t.o, m.o, t.payout, m.payout)
  }

  /** adjustBalance: the taker's money first, then the maker's. */
  function Pay(f: Flow, amount: int): (r: Filled)
    ensures r.s == f.s.(bal := r.s.bal, denied := r.s.denied)
    ensures SameTerms(r.taker, f.taker) && r.taker.left == f.taker.left
    ensures SameTerms(r.maker, f.maker) && r.maker.left == f.maker.left
  {
    var (s1, t) := SettleParty(f.s, f.taker, amount, f.tPayout, Fee(amount, f.taker.takerFee));
    var (s2, m) := SettleParty(s1, f.maker, amount, f.mPayout, Fee(amount, f.maker.makerFee));
    Filled(s2, t, m)
  }

  /** What the deal history records of a deal. */
  function Report(id: nat, price: real, amount: int, taker: Order, maker: Order): Deal {
    Deal(id, price, amount, taker.id, maker.id,
         Leg(KeyOf(taker), taker.oper, taker.pattern, taker.leverage, taker.takerFee),
         Leg(KeyOf(maker), maker.oper, maker.pattern, maker.leverage, maker.makerFee))
  }

  function Fill(s: State, taker: Order, maker: Order, amount: int, price: real): (r: Filled)
    ensures SameBooks(s, r.s)
    ensures SameTerms(r.taker, taker) && r.taker.left == taker.left - amount
    ensures SameTerms(r.maker, maker) && r.maker.left == maker.left - amount
    ensures r.s.latest == price && r.s.orderId == s.orderId
    ensures r.s.deals == s.deals + [Report(s.dealId + 1, price, amount, taker, maker)]
  {
    var f := Pay(Exchange(s.(latest := price), taker, maker, amount, price), amount);
    f.(s := f.s.(dealId := s.dealId + 1,
                 deals := s.deals + [Report(s.dealId + 1, price, amount, taker, maker)]))
  }

  // ----- matching (execute_order)

  /** A taker accepts a maker's price; a market taker accepts every price. */
  predicate Crosses(t: Order, m: Order) {
    t.kind.Market? || (if Sells(t) then t.price <= m.price else t.price >= m.price)
  }

  /** One round of the matching loop against the best maker. */
  function Step(s: State, t: Order): (r: (State, Order))
    requires Sided(s) && Opposite(s, t) != []
    ensures Sided(r.0)
  {
    var m := Opposite(s, t)[0];
    var f := Fill(s, t, m, Min(t.left, m.left), m.price);
    var s1 := WithOpposite(f.s, t, [f.maker] + Opposite(s, t)[1..]);
    assert Sells(m) != Sells(t) && Sells(f.maker) == Sells(m);
    (if f.maker.left == 0 then Finish(s1, f.maker) else s1, f.taker)
  }

  lemma StepShrinksBook(s: State, t: Order)
    requires Sided(s) && Opposite(s, t) != []
    ensures var m := Opposite(s, t)[0]; var a := Min(t.left, m.left);
            var r := Step(s, t);
            && SameTerms(r.1, t) && r.1.left == t.left - a
            && (m.left == a ==> Opposite(r.0, r.1) == Opposite(s, t)[1..])
            && (m.left != a ==> Opposite(r.0, r.1)[1..] == Opposite(s, t)[1..]
                                && Opposite(r.0, r.1) != []
                                && SameTerms(Opposite(r.0, r.1)[0], m)
                                && Opposite(r.0, r.1)[0].left == m.left - a)
  {
    hide Fill;
    var book := Opposite(s, t);
    var m := book[0];
    assert Sells(m) != Sells(t);
    var f := Fill(s, t, m, Min(t.left, m.left), m.price);
    assert Sells(f.maker) == Sells(m);
    var s1 := WithOpposite(f.s, t, [f.maker] + book[1..]);
    assert Opposite(s1, t) == [f.maker] + book[1..];
    if f.maker.left == 0 {
      assert Remove([f.maker] + book[1..], f.maker.id) == book[1..];
      assert Opposite(Finish(s1, f.maker), t) == book[1..];
    }
  }

  function Match(s: State, t: Order): (r: (State, Order))
    requires Sided(s)
    ensures Sided(r.0) && SameTerms(r.1, t)
    decreases |Opposite(s, t)|
  {
    if Opposite(s, t) == [] || t.left == 0 || !Crosses(t, Opposite(s, t)[0]) then (s, t)
    else
      var r := Step(s, t);
      StepShrinksBook(s, t);
      if r.1.left == 0 then r else Match(r.0, r.1)
  }

  function ThawPosition(s: State, k: PKey, amount: int): (r: State)
    ensures r == s.(pos := r.pos, fault := r.fault)
  {
    if k !in s.pos then s.(fault := true)
    else
      var p := s.pos[k];
      s.(pos := s.pos[k := p.(frozen := p.frozen - amount, position := p.position + amount)])
  }

  /** The margin that cancelling an order gives back. */
  function ThawMargin(s: State, o: Order): Outcome {
    if o.oper.Open? && o.freeze > 0.0 then DoUnfreeze(s.assets, s.bal, o.user, s.money, o.freeze)
    else Outcome(true, s.bal)
  }

  /** market_cancel_order: thaw the margin or the closing amount, then drop the order. */
  function Cancel(s: State, o: Order): (r: State)
    ensures Sided(s) ==> Sided(r)
    ensures o.oper.Close? ==> r.users == DropFromList(s.users, o.user, o.id)
  {
    var thaw := ThawMargin(s, o);
    if !thaw.ok then s.(denied := true)
    else
      var s1 := s.(bal := thaw.bal);
      Finish(if o.oper.Close? && o.left > 0 then ThawPosition(s1, KeyOf(o), o.left) else s1, o)
  }

  /** What happens to a taker after matching: done, resting, or given back. */
  function Settle(s: State, t: Order): (r: State)
    ensures Sided(s) ==> Sided(r)
  {
    if t.left == 0 then Finish(s, t)
    else if t.kind.Limit? then Put(s, t)
    else Cancel(s, t)
  }

  function Execute(s: State, t: Order): (r: State)
    requires Sided(s)
    ensures Sided(r)
  {
    var r := Match(s, t);
    Settle(r.0, r.1)
  }

  // ----- opening (market_put_order_common, market_put_order_open)

  datatype Args = Args(
    user: nat, side: Side, kind: OrderKind, pattern: Pattern, price: real, leverage: real, volume: real,
    takerFee: real, makerFee: real,
    otherCross: nat, otherPnl: real)  // cross positions of the user in other markets

  datatype Reply = Accepted | Rejected(code: int)

  function NewOrder(id: nat, a: Args, oper: Oper, leverage: real, freeze: real): Order {
    Order(id, a.kind, a.side, oper, a.user, a.pattern, false, a.price, leverage, a.takerFee, a.makerFee,
          a.volume.Floor, a.volume.Floor, freeze, 0.0, 0.0, 0.0, 0.0)
  }

  predicate GoodVolume(v: real) {
    v >= 1.0 && v == v.Floor as real
  }

  /** A position of the user in this market, the long one first. */
  function AnyPosition(s: State, user: nat): Option<Pos> {
    if PKey(user, Bull) in s.pos then Some(s.pos[PKey(user, Bull)]) else PosAt(s.pos, PKey(user, Bear))
  }

  /** check_position_order_mode(...) == 0 */
  predicate Idle(s: State, user: nat) {
    Ids(s.users, user) == [] && AnyPosition(s, user).None?
  }

  /** The position mode after an open order was looked at: created, changed, or left alone. */
  function ModeAfter(s: State, a: Args): map<nat, Mode> {
    if AnyPosition(s, a.user).None? && (a.user !in s.modes || Idle(s, a.user))
    then s.modes[a.user := Mode(a.pattern, a.leverage)] else s.modes
  }

  /** The leverage that is written into the order. */
  function OrderLeverage(s: State, a: Args): real {
    match AnyPosition(s, a.user)
    case Some(p) => p.leverage
    case None => a.leverage
  }

  /** The leverage that the required margin is computed with. */
  function MarginLeverage(s: State, a: Args): real {
    match AnyPosition(s, a.user)
    case Some(p) => p.leverage
    case None =>
      var modes := ModeAfter(s, a);
      if a.user in modes then modes[a.user].leverage else a.leverage
  }

  function CrossOf(s: State, k: PKey): (nat, real) {
    if k in s.pos && s.pos[k].pattern.Cross? then (1, Equity(k.side, s.pos[k], s.latest)) else (0, 0.0)
  }

  /** checkPriAndFee(...) == 0 */
  predicate CanAfford(s: State, a: Args, balance: real, pri: real) {
    var bear := CrossOf(s, PKey(a.user, Bear));
    var bull := CrossOf(s, PKey(a.user, Bull));
    var pnl := bear.1 + bull.1 + a.otherPnl;
    if a.pattern.Cross? && bear.0 + bull.0 + a.otherCross > 0 && pnl < 0.0 then pnl + balance >= pri
    else balance >= pri
  }

  function PutOpen(s: State, a: Args): (r: (State, Reply))
    requires Sided(s)
    ensures Sided(r.0)
  {
    var k := Key(a.user, Available, s.money);
    if a.kind.Limit? && a.price <= 0.0 then (s, Rejected(-1))
    else if Val(s.bal, k) <= 0.0 then (s, Rejected(-1))
    else if !GoodVolume(a.volume) then (s, Rejected(-1))
    else
      var s1 := s.(modes := ModeAfter(s, a));
      if a.user !in s1.modes then (s1.(fault := true), Rejected(-1))
      else if s1.modes[a.user].pattern != a.pattern then (s1, Rejected(-1))
      else
        var pri := Div(a.volume, MarginLeverage(s, a));
        if MarginLeverage(s, a) == 0.0 || !CanAfford(s1, a, Val(s.bal, k), pri) then (s1, Rejected(-1))
        else
          var s2 := s1.(orderId := s.orderId + 1);
          if a.kind.Limit? then
            var fz := DoFreeze(s2.assets, s2.bal, a.user, s2.money, pri);
            if !fz.ok then (s2, Rejected(-2))
            else (Execute(s2.(bal := fz.bal), NewOrder(s2.orderId, a, Open, OrderLeverage(s, a), pri)), Accepted)
          else (Execute(s2, NewOrder(s2.orderId, a, Open, OrderLeverage(s, a), 0.0)), Accepted)
  }

  // ----- closing (market_put_order_close)

  function FreezePosition(s: State, k: PKey, amount: int): State
    requires k in s.pos
  {
    var p := s.pos[k];
    s.(pos := s.pos[k := p.(frozen := p.frozen + amount, position := p.position - amount)])
  }

  function PutClose(s: State, a: Args): (r: (State, Reply))
    requires Sided(s)
    ensures Sided(r.0)
  {
    var k := PKey(a.user, a.side);
    if a.kind.Limit? && a.price <= 0.0 then (s, Rejected(-1))
    else if !GoodVolume(a.volume) then (s, Rejected(-3))
    else if k !in s.pos then (s, Rejected(-4))
    else if s.pos[k].position as real < a.volume then (s, Rejected(-5))
    else
      var s1 := FreezePosition(s, k, a.volume.Floor).(orderId := s.orderId + 1);
      (Execute(s1, NewOrder(s1.orderId, a, Close, s.pos[k].leverage, 0.0)), Accepted)
  }

  // ----- cancelling by id, and liquidating an isolated position

  function Lookup(s: State, id: nat): Option<Order> {
    var a := Find(s.asks, id);
    if a.Some? then a else Find(s.bids, id)
  }

  function CancelById(s: State, id: nat): (r: State)
    ensures Sided(s) ==> Sided(r)
  {
    var o := Lookup(s, id);
    if id in s.orders && o.Some? then Cancel(s, o.value) else s
  }

  /** The newest listed closing order on one side. */
  function FirstClose(s: State, ids: seq<nat>, side: Side): Option<Order> {
    if ids == [] then None
    else
      var o := Lookup(s, ids[0]);
      if o.Some? && o.value.side == side && o.value.oper.Close? then o else FirstClose(s, ids[1..], side)
  }

  lemma FindFinds(book: Book, id: nat)
    ensures Find(book, id).Some? ==> Find(book, id).value in book && Find(book, id).value.id == id
  {
  }

  lemma FirstCloseFinds(s: State, ids: seq<nat>, side: Side)
    ensures var o := FirstClose(s, ids, side);
            o.Some? ==> o.value.id in ids && o.value.side == side && o.value.oper.Close?
                        && (o.value in s.asks || o.value in s.bids)
  {
    if ids != [] {
      FindFinds(s.asks, ids[0]);
      FindFinds(s.bids, ids[0]);
    }
  }

  lemma RemoveIdShrinks(ids: seq<nat>, id: nat)
    requires id in ids
    ensures |RemoveId(ids, id)| == |ids| - 1
  {
  }

  lemma CancelShrinksList(s: State, o: Order)
    requires o.oper.Close? && o.id in Ids(s.users, o.user)
    ensures |Ids(Cancel(s, o).users, o.user)| == |Ids(s.users, o.user)| - 1
  {
    RemoveIdShrinks(Ids(s.users, o.user), o.id);
  }

  /** Cancels the user's closing orders on one side, newest first. */
  function CancelCloses(s: State, user: nat, side: Side): (r: State)
    ensures Sided(s) ==> Sided(r)
    decreases |Ids(s.users, user)|
  {
    var o := FirstClose(s, Ids(s.users, user), side);
    if o.None? then s
    else
      FirstCloseFinds(s, Ids(s.users, user), side);
      if o.value.user != user then s  // a listed order always belongs to its list
      else
        CancelShrinksList(s, o.value);
        CancelCloses(Cancel(s, o.value), user, side)
  }

  const MAINTENANCE_RATE: real := 0.0003
  const CLOSE_FEE_RATE: real := 0.0001

  predicate Underwater(side: Side, p: Pos, price: real) {
    var total := Total(p) as real;
    Equity(side, p, price) - total * CLOSE_FEE_RATE - total * MAINTENANCE_RATE <= 0.0
  }

  /** initOrder of me_liquidation.c: a market close of the whole position. */
  function BlastOrder(id: nat, k: PKey, p: Pos): Order {
    Order(id, Market, k.side, Close, k.user, p.pattern, true, 0.0, p.leverage, CLOSE_FEE_RATE, CLOSE_FEE_RATE,
          Total(p), Total(p), 0.0, 0.0, 0.0, 0.0, 0.0)
  }

  function Liquidate(s: State, k: PKey): (r: State)
    requires Sided(s)
    ensures Sided(r)
  {
    if k !in s.pos || !s.pos[k].pattern.Isolated? || s.latest <= 0.0
       || !Underwater(k.side, s.pos[k], s.latest) then s
    else
      var s1 := CancelCloses(s, k.user, k.side);
      if k !in s1.pos then s1.(fault := true)
      else
        var s2 := s1.(orderId := s1.orderId + 1);
        Execute(FreezePosition(s2, k, s2.pos[k].position), BlastOrder(s2.orderId, k, s1.pos[k]))
  }
}
