/** Open interest and the backing of closing orders: what every step of the
    futures machine keeps about positions. */
module FuturesBacking {
  import opened Common
  import opened Futures
  import opened FuturesSums
  import opened FuturesPositions

  // ----- one fill on one position

  function FrozenOf(p: Option<Pos>): int {
    if p.Some? then p.value.frozen else 0
  }

  function TotalOf(p: Option<Pos>): int {
    if p.Some? then Total(p.value) else 0
  }

  lemma TradeKeeps(before: Option<Pos>, id: nat, o: Order, amount: int, price: real, fee: real, pri: real)
    requires before.Some? ==> PosOk(before.value)
    requires amount > 0 && price > 0.0
    requires o.oper.Close? ==> FrozenOf(before) >= amount
    ensures var t := TradeOn(before, id, o, amount, price, fee, pri);
            && !t.fault
            && (t.after.Some? ==> PosOk(t.after.value))
            && FrozenOf(t.after) == FrozenOf(before) - (if o.oper.Close? then amount else 0)
            && TotalOf(t.after) == TotalOf(before) + (if o.oper.Open? then amount else -amount)
            && (t.after.None? ==> o.oper.Close? && FrozenOf(before) == amount == TotalOf(before))
  {
    if before.Some? {
      var p := before.value;
      if o.oper.Open? {
        OpenIsWeightedMean(p, amount, price, fee, pri);
      } else if amount < Total(p) {
        CloseKeepsUnit(o.side, p, amount, price);
      }
    }
  }

  // ----- one party of a trade

  ghost predicate AllOk(pos: map<PKey, Pos>) {
    forall k :: k in pos ==> PosOk(pos[k])
  }

  function FrozenAt(pos: map<PKey, Pos>, k: PKey): real {
    FrozenOf(PosAt(pos, k)) as real
  }

  /** How much a fill of `o` takes out of the frozen part of position `k`. */
  function Taken(o: Order, k: PKey, amount: int): real {
    if o.oper.Close? && k == KeyOf(o) then amount as real else 0.0
  }

  /** What a fill of `o` adds to the long interest minus the short interest. */
  function Tilt(o: Order, amount: int): int {
    if Sells(o) then -amount else amount
  }

  ghost function Imbalance(pos: map<PKey, Pos>): int {
    Interest(pos, Bull) - Interest(pos, Bear)
  }

  lemma PartyKeeps(s: State, o: Order, amount: int, price: real, fee: real)
    requires AllOk(s.pos) && !s.fault
    requires amount > 0 && price > 0.0
    requires o.oper.Close? ==> FrozenAt(s.pos, KeyOf(o)) >= amount as real
    ensures var r := TradeParty(s, o, amount, price, fee).s;
            && AllOk(r.pos) && !r.fault
            && (forall k :: FrozenAt(r.pos, k) == FrozenAt(s.pos, k) - Taken(o, k, amount))
            && Imbalance(r.pos) == Imbalance(s.pos) + Tilt(o, amount)
            && r.pos.Keys <= s.pos.Keys + {KeyOf(o)}
  {
    hide TradeOn, Interest, PosOk;
    var k := KeyOf(o);
    var t := TradeOn(PosAt(s.pos, k), s.posId + 1, o, amount, price, fee, Margin(o, amount));
    TradeKeeps(PosAt(s.pos, k), s.posId + 1, o, amount, price, fee, Margin(o, amount));
    InterestAfterSet(s.pos, Bull, k, t.after);
    InterestAfterSet(s.pos, Bear, k, t.after);
  }

  // ----- the invariant

  ghost predicate Resting(o: Order) {
    o.kind.Limit? && o.left > 0 && o.price > 0.0
  }

  /** An order on its way through the matcher. */
  ghost predicate InFlight(o: Order) {
    o.left >= 0 && (o.kind.Limit? ==> o.price > 0.0)
  }

  /** The open closing amount on position `k`, resting and in flight. */
  function Closing(s: State, flight: Book, k: PKey): real {
    Sum(s.asks, CloseOf(k)) + Sum(s.bids, CloseOf(k)) + Sum(flight, CloseOf(k))
  }

  ghost predicate AllModes(s: State, flight: Book) {
    && (forall o :: o in s.asks || o in s.bids || o in flight ==> o.user in s.modes)
    && (forall k :: k in s.pos ==> k.user in s.modes)
  }

  /** Open interest balances, closing orders are backed by frozen volume exactly, and
      no null pointer was followed. */
  ghost predicate Backed(s: State, flight: Book) {
    && Sided(s) && !s.fault
    && (forall o :: o in s.asks || o in s.bids ==> Resting(o))
    && (forall o :: o in flight ==> InFlight(o))
    && AllOk(s.pos)
    && (forall k :: FrozenAt(s.pos, k) == Closing(s, flight, k))
    && Imbalance(s.pos) == 0
    && AllModes(s, flight)
  }

  lemma WeightsNonNegative(book: Book, k: PKey)
    requires forall o :: o in book ==> o.left >= 0
    ensures forall o :: o in book ==> Weigh(CloseOf(k), o) >= 0.0
    ensures Sum(book, CloseOf(k)) >= 0.0
  {
    if book != [] { SumBoundsMember(book, book[0], CloseOf(k)); }
  }

  /** A live closing order never exceeds the frozen part of its position. */
  lemma CloseIsBacked(s: State, flight: Book, o: Order)
    requires Backed(s, flight) && o.oper.Close? && (o in s.asks || o in s.bids || o in flight)
    ensures FrozenAt(s.pos, KeyOf(o)) >= o.left as real
    ensures o.left > 0 ==> KeyOf(o) in s.pos
  {
    var k := KeyOf(o);
    WeightsNonNegative(s.asks, k);
    WeightsNonNegative(s.bids, k);
    WeightsNonNegative(flight, k);
    SumBoundsMember(s.asks, o, CloseOf(k));
    SumBoundsMember(s.bids, o, CloseOf(k));
    SumBoundsMember(flight, o, CloseOf(k));
  }

  // ----- one fill between a taker and the best maker

  lemma ExchangeKeepsPositions(s: State, t: Order, m: Order, amount: int, price: real)
    requires AllOk(s.pos) && !s.fault && amount > 0 && price > 0.0
    requires Sells(t) != Sells(m)
    requires t.oper.Close? ==> FrozenAt(s.pos, KeyOf(t)) >= amount as real
    requires m.oper.Close? ==> FrozenAt(s.pos, KeyOf(m)) >= amount as real
    ensures var f := Exchange(s, t, m, amount, price);
            && AllOk(f.s.pos) && !f.s.fault
            && (forall k :: FrozenAt(f.s.pos, k)
                            == FrozenAt(s.pos, k) - Taken(t, k, amount) - Taken(m, k, amount))
            && Imbalance(f.s.pos) == Imbalance(s.pos)
            && f.s.pos.Keys <= s.pos.Keys + {KeyOf(t), KeyOf(m)}
  {
    hide TradeParty, Imbalance, PosOk, FrozenAt;
    var tFee, mFee := Fee(amount, t.takerFee), Fee(amount, m.makerFee);
    var t1, m1 := FillOrder(t, amount, price, tFee), FillOrder(m, amount, price, mFee);
    PartyKeeps(s, t1, amount, price, tFee);
    var s2 := TradeParty(s, t1, amount, price, tFee).s;
    assert t.oper.Close? && m.oper.Close? ==> KeyOf(t) != KeyOf(m);
    PartyKeeps(s2, m1, amount, price, mFee);
  }

  lemma FillKeepsPositions(s: State, t: Order, m: Order, amount: int)
    requires AllOk(s.pos) && !s.fault && amount > 0 && m.price > 0.0
    requires Sells(t) != Sells(m)
    requires t.oper.Close? ==> FrozenAt(s.pos, KeyOf(t)) >= amount as real
    requires m.oper.Close? ==> FrozenAt(s.pos, KeyOf(m)) >= amount as real
    ensures var f := Fill(s, t, m, amount, m.price);
            && AllOk(f.s.pos) && !f.s.fault
            && (forall k :: FrozenAt(f.s.pos, k)
                            == FrozenAt(s.pos, k) - Taken(t, k, amount) - Taken(m, k, amount))
            && Imbalance(f.s.pos) == Imbalance(s.pos)
            && f.s.pos.Keys <= s.pos.Keys + {KeyOf(t), KeyOf(m)}
  {
    hide Exchange, Pay, Imbalance, PosOk, FrozenAt, Taken;
    ExchangeKeepsPositions(s.(latest := m.price), t, m, amount, m.price);
  }

  /** What a round leaves of the state: the fill, and the book without the spent volume. */
  lemma StepIsFill(s: State, t: Order)
    requires Sided(s) && Opposite(s, t) != []
    ensures var m := Opposite(s, t)[0];
            var f := Fill(s, t, m, Min(t.left, m.left), m.price); var r := Step(s, t);
            && r.0.pos == f.s.pos && r.0.fault == f.s.fault && r.0.modes == s.modes && r.1 == f.taker
            && r.0.bal == f.s.bal && r.0.denied == f.s.denied && r.0.assets == s.assets && r.0.money == s.money
            && r.0.deals == f.s.deals && r.0.orderId == s.orderId && r.0.latest == f.s.latest
            && (if Sells(t) then r.0.asks == s.asks else r.0.bids == s.bids)
            && Opposite(r.0, t) == (if f.maker.left == 0 then [] else [f.maker]) + Opposite(s, t)[1..]
  {
    hide Fill;
    var book := Opposite(s, t);
    var m := book[0];
    var f := Fill(s, t, m, Min(t.left, m.left), m.price);
    assert Sells(f.maker) == Sells(m) != Sells(t);
    if f.maker.left == 0 {
      assert Remove([f.maker] + book[1..], f.maker.id) == book[1..];
    }
  }

  lemma StepClosing(s: State, t: Order, k: PKey)
    requires Sided(s) && Opposite(s, t) != []
    ensures var m := Opposite(s, t)[0]; var a := Min(t.left, m.left); var r := Step(s, t);
            Closing(r.0, [r.1], k) == Closing(s, [t], k) - Taken(t, k, a) - Taken(m, k, a)
  {
    hide Fill, Step, Sum, SameBooks;
    var w := CloseOf(k);
    var book, rest := Opposite(s, t), Opposite(s, t)[1..];
    var m := book[0];
    var f := Fill(s, t, m, Min(t.left, m.left), m.price);
    StepIsFill(s, t);
    assert book == [m] + rest && [] + rest == rest;
    SumHead(m, rest, w);
    SumHead(f.maker, rest, w);
    SumHead(t, [], w);
    SumHead(f.taker, [], w);
  }

  lemma StepKeepsBacked(s: State, t: Order)
    requires Backed(s, [t]) && Opposite(s, t) != [] && t.left > 0
    ensures var r := Step(s, t); Backed(r.0, [r.1])
  {
    hide Fill, Step, PosOk, Interest;
    var m := Opposite(s, t)[0];
    var amount := Min(t.left, m.left);
    assert t in [t] && (m in s.asks || m in s.bids);
    if t.oper.Close? { CloseIsBacked(s, [t], t); }
    if m.oper.Close? { CloseIsBacked(s, [t], m); }
    FillKeepsPositions(s, t, m, amount);
    StepIsFill(s, t);
    var f, r := Fill(s, t, m, amount, m.price), Step(s, t);
    forall k ensures FrozenAt(r.0.pos, k) == Closing(r.0, [r.1], k) {
      StepClosing(s, t, k);
    }
    BooksStayGood(s, t);
  }

  lemma BooksStayGood(s: State, t: Order)
    requires Backed(s, [t]) && Opposite(s, t) != [] && t.left > 0
    ensures var r := Step(s, t);
            && InFlight(r.1) && r.1.user == t.user
            && (forall o :: o in r.0.asks || o in r.0.bids ==> Resting(o) && o.user in s.modes)
  {
    hide Fill, Step;
    var book := Opposite(s, t);
    assert t in [t] && book[0] in book;
    StepIsFill(s, t);
    assert forall o :: o in Opposite(Step(s, t).0, t) ==> o in book[1..] || (SameTerms(o, book[0]) && o.left > 0);
  }
}
