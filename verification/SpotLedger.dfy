/** The spot ledger: frozen money and stock are exactly what the resting orders hold,
    no ignored ledger call is ever refused, and the totals shrink by the fees only. */
module SpotLedger {
  import opened Ledger
  import opened LedgerTotals
  import opened Spot

  // ----- scales

  ghost predicate MarketOk(m: Market, assets: Assets) {
    && m.stock != m.money
    && m.stock in assets && assets[m.stock].Down? && m.money in assets && assets[m.money].Down?
    && m.feeUnit > 0 && m.moneyScale > 0 && m.feeScale > 0
  }

  lemma {:induction false} Pow10Splits(a: nat, b: nat)
    ensures Pow10(a + b) == Pow10(a) * Pow10(b) && Pow10(a) > 0
  {
    if a > 0 {
      Pow10Splits(a - 1, b);
      assert Pow10(a + b) == 10 * Pow10((a - 1) + b);
      assert 10 * (Pow10(a - 1) * Pow10(b)) == (10 * Pow10(a - 1)) * Pow10(b);
    }
  }

  /** The precision checks of market_create make the scales fit: lots, and prices times lots, are
      whole numbers at the save precision of their assets, a lot even of the smallest stock fees, and
      a fee rate counts fractions of a power of ten. */
  lemma CreatedMarketIsOk(c: Config, stock: nat, money: nat, minAmount: int, assets: Assets, lots: int)
    requires Creatable(c) && stock != money
    requires stock in assets && assets[stock].Down? && money in assets && assets[money].Down?
    ensures var m := CreateMarket(c, stock, money, minAmount);
            && MarketOk(m, assets) && m.minAmount == minAmount && m.feeScale == Pow10(c.feePrec)
            && StockVal(m, lots) == (lots * Pow10(c.stockSave - c.stockPrec)) as real
            && MoneyVal(m, lots) == (lots * Pow10(c.moneySave - c.stockPrec - c.moneyPrec)) as real
  {
    hide Pow10;
    var rest := c.stockSave - c.stockPrec - c.feePrec;
    Pow10Splits(rest, c.feePrec);
    Pow10Splits(c.feePrec, 0);
    Pow10Splits(c.moneySave - c.stockPrec - c.moneyPrec, 0);
    assert rest + c.feePrec == c.stockSave - c.stockPrec;
    Assoc(lots, Pow10(rest), Pow10(c.feePrec));
  }

  lemma ScaleIsLinear(a: int, b: int, k: int)
    requires k > 0
    ensures (a + b) * k == a * k + b * k && (a - b) * k == a * k - b * k
    ensures a > 0 ==> a * k > 0
    ensures a >= 0 ==> a * k >= 0
    ensures a <= b ==> a * k <= b * k
  {
    if a <= b { assert (b - a) * k >= 0; }
  }

  lemma RatioBelow(a: real, b: real, f: real)
    requires f > 0.0 && 0.0 <= a <= b * f
    ensures 0.0 <= a / f <= b
  {
    assert (a / f) * f == a;
    assert (b - a / f) * f == b * f - a;
  }

  lemma ProductGrows(a: real, b: real, c: real)
    requires a >= 0.0 && b <= c
    ensures a * b <= a * c
  {
    assert a * (c - b) >= 0.0;
    assert a * (c - b) == a * c - a * b;
  }

  lemma FeeIsPart(m: Market, value: real, rate: int)
    requires m.feeScale > 0 && 0 <= rate < m.feeScale && value >= 0.0
    ensures 0.0 <= FeeOn(m, value, rate) <= value
  {
    var f, r := m.feeScale as real, rate as real;
    ProductGrows(value, r, f);
    ProductGrows(value, 0.0, r);
    RatioBelow(value * r, value, f);
  }

  lemma StockFeeIsWhole(m: Market, lots: int, rate: int)
    requires m.feeScale > 0
    ensures FeeOn(m, StockVal(m, lots), rate) == (lots * m.feeUnit * rate) as real
    ensures Whole(FeeOn(m, StockVal(m, lots), rate))
  {
    var u, f := lots * m.feeUnit, m.feeScale;
    assert (u * f) as real * rate as real == ((u * f) * rate) as real;
    assert (u * f) * rate == (u * rate) * f;
    assert ((u * rate) * f) as real == (u * rate) as real * f as real;
    QuotientOfProduct((u * rate) as real, f as real);
    IntIsWhole(u * rate);
  }

  lemma QuotientOfProduct(a: real, f: real)
    requires f != 0.0
    ensures a * f / f == a
  {
  }

  // ----- one party's payment

  ghost predicate Sound(bal: Balances) {
    NonNegative(bal) && WholeLedger(bal)
  }

  ghost predicate Payable(assets: Assets, p: Payment) {
    && p.out.asset != p.into.asset
    && p.out.asset in assets && assets[p.out.asset].Down? && p.into.asset in assets && assets[p.into.asset].Down?
    && p.give > 0.0 && Whole(p.give) && p.get > 0.0 && Whole(p.get) && 0.0 <= p.fee <= p.get
  }

  /** When the payer has what it gives, nothing is refused; the receiving entry gains what
      was received less the fee, rounded down once, and no other entry changes. */
  lemma PayMeans(assets: Assets, bal: Balances, p: Payment)
    requires Sound(bal) && Payable(assets, p) && Val(bal, p.out) >= p.give
    ensures var r := Pay(assets, bal, p);
            && r.ok && Sound(r.bal) && OnlyChanges(bal, r.bal, {p.out, p.into})
            && Val(r.bal, p.out) == Val(bal, p.out) - p.give
            && Val(r.bal, p.into) == Rescale(Down, Val(bal, p.into) + p.get - p.fee)
            && Holdings(r.bal, p.out.asset) == Holdings(bal, p.out.asset) - p.give
            && Holdings(r.bal, p.into.asset) == Holdings(bal, p.into.asset) + Val(r.bal, p.into) - Val(bal, p.into)
  {
    hide Holdings, Sub, Add;
    var b1, b2 := Sub(assets, bal, p.out, p.give).bal, Add(assets, Sub(assets, bal, p.out, p.give).bal, p.into, p.get).bal;
    var other := p.into.(kind := if p.into.kind.Freeze? then Available else Freeze);
    var other2 := p.out.(kind := if p.out.kind.Freeze? then Available else Freeze);
    SubMeans(assets, bal, p.out, p.give);
    AddMeans(assets, b1, p.into, p.get);
    StaysWhole(assets, bal, p.out, other2, p.give);
    StaysNonNegative(assets, bal, p.out, other2, p.give);
    StaysWhole(assets, b1, p.into, other, p.get);
    StaysNonNegative(assets, b1, p.into, other, p.get);
    WholeVal(bal, p.out);
    WholeVal(bal, p.into);
    WholeSum(Val(bal, p.out), p.give);
    WholeSum(Val(bal, p.into), p.get);
    RescaleMeans(Down, Val(bal, p.out) - p.give);
    RescaleMeans(Down, Val(bal, p.into) + p.get);
    SubTouchesOne(assets, bal, p.out, p.give);
    AddTouchesOne(assets, b1, p.into, p.get);
    HoldingsFollowEntry(bal, b1, p.out, p.out.asset);
    HoldingsFollowEntry(bal, b1, p.out, p.into.asset);
    HoldingsFollowEntry(b1, b2, p.into, p.out.asset);
    HoldingsFollowEntry(b1, b2, p.into, p.into.asset);
    assert Val(b2, p.into) == Val(bal, p.into) + p.get && p.into in b2;
    if p.fee > 0.0 {
      var b3 := Sub(assets, b2, p.into, p.fee).bal;
      SubMeans(assets, b2, p.into, p.fee);
      StaysWhole(assets, b2, p.into, other, p.fee);
      StaysNonNegative(assets, b2, p.into, other, p.fee);
      SubTouchesOne(assets, b2, p.into, p.fee);
      HoldingsFollowEntry(b2, b3, p.into, p.out.asset);
      HoldingsFollowEntry(b2, b3, p.into, p.into.asset);
    }
  }

  lemma WholeVal(bal: Balances, k: Key)
    requires Sound(bal)
    ensures Whole(Val(bal, k)) && Val(bal, k) >= 0.0
  {
    IntIsWhole(0);
  }

  // ----- the invariant

  ghost predicate Terms(m: Market, o: Order) {
    0 <= o.takerFee < m.feeScale && 0 <= o.makerFee < m.feeScale
  }

  /** A resting order freezes its lots, or the money its lots can cost. */
  ghost predicate Held(o: Order) {
    o.price > 0 && o.freeze == if o.ask then o.left else o.price * o.left
  }

  ghost predicate Resting(m: Market, o: Order) {
    o.left > 0 && o.kind.Limit? && Terms(m, o) && Held(o)
  }

  function HeldBy(o: Order, user: nat, ask: bool): int {
    if o.user == user && o.ask == ask then o.freeze else 0
  }

  function Sum(book: Book, user: nat, ask: bool): int {
    if book == [] then 0 else HeldBy(book[0], user, ask) + Sum(book[1..], user, ask)
  }

  function HeldLive(s: Spot, flight: Book, user: nat, ask: bool): int {
    Sum(s.asks, user, ask) + Sum(s.bids, user, ask) + Sum(flight, user, ask)
  }

  /** What the ledger held before: frozen elsewhere per user, and in total. */
  datatype Origin = Origin(stock: nat -> real, money: nat -> real, stockTotal: real, moneyTotal: real, deals: nat)

  ghost predicate FrozenMatches(s: Spot, flight: Book, c: Origin) {
    && (forall u :: Frozen(s.bal, u, s.m.stock) == c.stock(u) + StockVal(s.m, HeldLive(s, flight, u, true)))
    && (forall u :: Frozen(s.bal, u, s.m.money) == c.money(u) + MoneyVal(s.m, HeldLive(s, flight, u, false)))
    && (forall u :: c.stock(u) >= 0.0 && c.money(u) >= 0.0)
  }

  /** Stock only falls by the stock fees; money falls by the money fees and by less than
      one ledger unit of rounding per deal, or none where all fees are whole. */
  ghost predicate Conserved(s: Spot, c: Origin) {
    && Holdings(s.bal, s.m.stock) + s.stockFees == c.stockTotal
    && c.deals <= s.dealId
    && c.moneyTotal - (s.dealId - c.deals) as real <= Holdings(s.bal, s.m.money) + s.moneyFees <= c.moneyTotal
    && (FeesFit(s.m) ==> Holdings(s.bal, s.m.money) + s.moneyFees == c.moneyTotal)
  }

  ghost predicate Good(s: Spot, flight: Book, c: Origin) {
    && MarketOk(s.m, s.assets) && Sided(s) && Sound(s.bal) && !s.denied
    && (forall o :: o in s.asks || o in s.bids ==> Resting(s.m, o))
    && FrozenMatches(s, flight, c) && Conserved(s, c)
  }

  /** What a taker may still have to give. */
  function Need(m: Market, t: Order): (nat, real) {
    if t.ask then (m.stock, StockVal(m, t.left))
    else if t.kind.Limit? then (m.money, MoneyVal(m, t.price * t.left))
    else (m.money, MoneyVal(m, t.left))
  }

  ghost predicate Able(s: Spot, t: Order) {
    && t.left >= 0 && t.freeze == 0 && Terms(s.m, t) && (t.kind.Limit? ==> t.price > 0)
    && Avail(s.bal, t.user, Need(s.m, t).0) >= Need(s.m, t).1
  }

  lemma SumHead(o: Order, rest: Book, user: nat, ask: bool)
    ensures Sum([o] + rest, user, ask) == HeldBy(o, user, ask) + Sum(rest, user, ask)
    ensures Sum([o], user, ask) == HeldBy(o, user, ask) && Sum([], user, ask) == 0
  {
    assert ([o] + rest)[1..] == rest && [o][1..] == [];
  }

  lemma {:induction false} SumInsert(book: Book, o: Order, user: nat, ask: bool)
    ensures Sum(Insert(book, o), user, ask) == Sum(book, user, ask) + HeldBy(o, user, ask)
  {
    if book == [] || Before(o, book[0]) {
      assert ([o] + book)[1..] == book;
    } else {
      SumInsert(book[1..], o, user, ask);
      assert ([book[0]] + Insert(book[1..], o))[1..] == Insert(book[1..], o);
    }
  }

  lemma {:induction false} SumNonNegative(book: Book, user: nat, ask: bool)
    requires forall o :: o in book ==> o.freeze >= 0
    ensures Sum(book, user, ask) >= 0
    ensures forall o :: o in book ==> Sum(book, user, ask) >= HeldBy(o, user, ask)
  {
    if book != [] { SumNonNegative(book[1..], user, ask); }
  }

  // ----- thawing what an order in flight still holds

  lemma ValuesAreLinear(m: Market, assets: Assets, a: int, b: int)
    requires MarketOk(m, assets)
    ensures StockVal(m, a + b) == StockVal(m, a) + StockVal(m, b) && MoneyVal(m, a + b) == MoneyVal(m, a) + MoneyVal(m, b)
    ensures StockVal(m, a - b) == StockVal(m, a) - StockVal(m, b) && MoneyVal(m, a - b) == MoneyVal(m, a) - MoneyVal(m, b)
    ensures Whole(StockVal(m, a)) && Whole(MoneyVal(m, a)) && StockVal(m, 0) == 0.0 && MoneyVal(m, 0) == 0.0
    ensures a > 0 ==> StockVal(m, a) > 0.0 && MoneyVal(m, a) > 0.0
    ensures a >= 0 ==> StockVal(m, a) >= 0.0 && MoneyVal(m, a) >= 0.0
    ensures a <= b ==> StockVal(m, a) <= StockVal(m, b) && MoneyVal(m, a) <= MoneyVal(m, b)
  {
    var k := m.feeUnit * m.feeScale;
    ScaleIsLinear(m.feeUnit, 0, m.feeScale);
    assert k > 0;
    forall x: int ensures x * m.feeUnit * m.feeScale == x * k { Assoc(x, m.feeUnit, m.feeScale); }
    ScaleIsLinear(a, b, k);
    ScaleIsLinear(a, b, m.moneyScale);
    IntIsWhole(a * m.feeUnit * m.feeScale);
    IntIsWhole(a * m.moneyScale);
  }

  lemma Assoc(x: int, y: int, z: int)
    ensures x * y * z == x * (y * z)
  {
  }

  lemma HeldIsFrozen(s: Spot, o: Order, c: Origin)
    requires Good(s, [o], c) && o.freeze >= 0
    ensures var p := Pledge(s.m, o); Frozen(s.bal, o.user, p.0) >= p.1 >= 0.0
  {
    RestingHolds(s, o.user, o.ask, c);
    SumHead(o, [], o.user, o.ask);
    var n := HeldLive(s, [o], o.user, o.ask);
    ValuesAreLinear(s.m, s.assets, o.freeze, n);
  }

  lemma RestingHolds(s: Spot, user: nat, ask: bool, c: Origin)
    requires forall o :: o in s.asks || o in s.bids ==> Resting(s.m, o)
    ensures Sum(s.asks, user, ask) >= 0 && Sum(s.bids, user, ask) >= 0
  {
    forall o | o in s.asks || o in s.bids ensures o.freeze >= 0 {
      if !o.ask { assert o.price * o.left >= 0; }
    }
    SumNonNegative(s.asks, user, ask);
    SumNonNegative(s.bids, user, ask);
  }

  lemma ThawMoves(s: Spot, o: Order, c: Origin)
    requires Good(s, [o], c) && o.freeze > 0
    ensures var r := Thaw(s, o); var p := Pledge(s.m, o);
            && !r.denied && Sound(r.bal)
            && (forall u, a :: Frozen(r.bal, u, a) == Frozen(s.bal, u, a) - (if u == o.user && a == p.0 then p.1 else 0.0))
            && (forall u, a :: Avail(r.bal, u, a) == Avail(s.bal, u, a) + (if u == o.user && a == p.0 then p.1 else 0.0))
            && Holdings(r.bal, s.m.stock) == Holdings(s.bal, s.m.stock)
            && Holdings(r.bal, s.m.money) == Holdings(s.bal, s.m.money)
  {
    hide Holdings, Good, Move, Pledge;
    PledgeIsSound(s, o, c);
    var p := Pledge(s.m, o);
    var f, a := Key(o.user, Freeze, p.0), Key(o.user, Available, p.0);
    HeldIsFrozen(s, o, c);
    MoveMeans(s.assets, s.bal, f, a, p.1);
    MoveKeepsSum(s.assets, s.bal, f, a, p.1);
    MoveConserves(s.assets, s.bal, f, a, p.1, s.m.stock);
    MoveConserves(s.assets, s.bal, f, a, p.1, s.m.money);
    StaysWhole(s.assets, s.bal, f, a, p.1);
    StaysNonNegative(s.assets, s.bal, f, a, p.1);
  }

  lemma PledgeIsSound(s: Spot, o: Order, c: Origin)
    requires Good(s, [o], c) && o.freeze > 0
    ensures var p := Pledge(s.m, o);
            Whole(p.1) && p.1 > 0.0 && p.0 in s.assets && s.assets[p.0].Down? && Sound(s.bal) && !s.denied
  {
    ValuesAreLinear(s.m, s.assets, o.freeze, 0);
  }

  lemma ThawKeeps(s: Spot, o: Order, c: Origin)
    requires Good(s, [o], c) && o.freeze >= 0
    ensures Good(Thaw(s, o), [], c)
    ensures forall u, a :: Avail(Thaw(s, o).bal, u, a) >= Avail(s.bal, u, a)
  {
    hide Holdings, Sum;
    var r := Thaw(s, o);
    if o.freeze > 0 {
      ThawMoves(s, o, c);
      hide Thaw;
      var p := Pledge(s.m, o);
      PledgeIsSound(s, o, c);
    }
    forall u, ask ensures HeldLive(s, [o], u, ask) == HeldLive(s, [], u, ask) + HeldBy(o, u, ask) {
      SumHead(o, [], u, ask);
    }
    forall u ensures Frozen(r.bal, u, s.m.stock) == c.stock(u) + StockVal(s.m, HeldLive(r, [], u, true)) {
      ValuesAreLinear(s.m, s.assets, HeldLive(s, [], u, true), o.freeze);
    }
    forall u ensures Frozen(r.bal, u, s.m.money) == c.money(u) + MoneyVal(s.m, HeldLive(r, [], u, false)) {
      ValuesAreLinear(s.m, s.assets, HeldLive(s, [], u, false), o.freeze);
    }
  }

  // ----- taking the best maker out of the book, and putting it back

  lemma PopKeeps(s: Spot, t: Order, c: Origin)
    requires Good(s, [], c) && Opposite(s, t) != []
    ensures var k := Opposite(s, t)[0];
            && Good(WithOpposite(s, t, Opposite(s, t)[1..]), [k], c) && Resting(s.m, k) && k.ask != t.ask
  {
    hide Holdings, Sum, Frozen;
    var book := Opposite(s, t);
    var k, rest := book[0], book[1..];
    var r := WithOpposite(s, t, rest);
    assert k in book && book == [k] + rest;
    forall u, ask ensures HeldLive(r, [k], u, ask) == HeldLive(s, [], u, ask) {
      SumHead(k, rest, u, ask);
      SumHead(k, [], u, ask);
    }
  }

  lemma PushKeeps(s: Spot, t: Order, k: Order, c: Origin)
    requires Good(s, [k], c) && Resting(s.m, k) && k.ask != t.ask
    ensures Good(WithOpposite(s, t, [k] + Opposite(s, t)), [], c)
  {
    hide Holdings, Sum, Frozen;
    var book := Opposite(s, t);
    var r := WithOpposite(s, t, [k] + book);
    forall u, ask ensures HeldLive(r, [], u, ask) == HeldLive(s, [k], u, ask) {
      SumHead(k, book, u, ask);
      SumHead(k, [], u, ask);
    }
    assert forall o :: o in [k] + book ==> o == k || o in book;
  }

  // ----- one deal

  /** A deal that both parties agree to. */
  ghost predicate Dealable(s: Spot, t: Order, k: Order, lots: int) {
    && k.ask != t.ask && Resting(s.m, k) && Crosses(t, k)
    && 0 < lots <= k.left
    && (if t.kind.MarketOrder? && !t.ask then k.price * lots <= t.left else lots <= t.left)
  }

  lemma PaymentsArePayable(s: Spot, t: Order, k: Order, lots: int, c: Origin)
    requires Good(s, [k], c) && Able(s, t) && Dealable(s, t, k, lots)
    ensures var cash := k.price * lots;
            var tp, kp := PaymentOf(s.m, t, false, lots, cash), PaymentOf(s.m, k, true, lots, cash);
            && cash > 0 && Payable(s.assets, tp) && Payable(s.assets, kp)
            && tp.out.asset == Need(s.m, t).0 == kp.into.asset && tp.into.asset == kp.out.asset
            && tp.give == kp.get && tp.get == kp.give
            && (if t.ask then Whole(kp.fee) else Whole(tp.fee))
  {
    var cash := k.price * lots;
    assert cash > 0;
    ValuesAreLinear(s.m, s.assets, cash, 0);
    ValuesAreLinear(s.m, s.assets, lots, 0);
    FeeIsPart(s.m, StockVal(s.m, lots), if t.ask then k.makerFee else t.takerFee);
    FeeIsPart(s.m, MoneyVal(s.m, cash), if t.ask then t.takerFee else k.makerFee);
    StockFeeIsWhole(s.m, lots, if t.ask then k.makerFee else t.takerFee);
  }

  /** The taker's rest still fits what it will not have given. */
  lemma TakerHasEnough(m: Market, assets: Assets, t: Order, k: Order, lots: int, fee: real)
    requires MarketOk(m, assets) && t.ask != k.ask && k.price > 0 && 0 < lots && Crosses(t, k)
    requires if t.kind.MarketOrder? && !t.ask then k.price * lots <= t.left else lots <= t.left
    ensures var cash := k.price * lots; var t1 := FillTaker(t, lots, cash, fee);
            var give := if t.ask then StockVal(m, lots) else MoneyVal(m, cash);
            && Need(m, t1).0 == Need(m, t).0 && 0.0 <= Need(m, t1).1 <= Need(m, t).1 - give
  {
    hide StockVal, MoneyVal;
    var cash := k.price * lots;
    if !t.ask && t.kind.Limit? {
      CheaperThanLimit(t.price, k.price, lots, t.left);
      ValuesAreLinear(m, assets, t.price * (t.left - lots), t.price * t.left - cash);
      ValuesAreLinear(m, assets, t.price * t.left, cash);
    } else if !t.ask {
      ValuesAreLinear(m, assets, t.left, cash);
      ValuesAreLinear(m, assets, t.left - cash, 0);
    } else {
      ValuesAreLinear(m, assets, t.left, lots);
      ValuesAreLinear(m, assets, t.left - lots, 0);
    }
  }

  lemma MakerHasEnough(s: Spot, k: Order, lots: int, c: Origin)
    requires Good(s, [k], c) && Resting(s.m, k) && 0 < lots <= k.left
    ensures var cash := k.price * lots; var give := if k.ask then StockVal(s.m, lots) else MoneyVal(s.m, cash);
            && Frozen(s.bal, k.user, if k.ask then s.m.stock else s.m.money) >= give
            && 0 <= (if k.ask then lots else cash) <= k.freeze
  {
    hide StockVal, MoneyVal, Conserved, FrozenMatches, Sound, Terms;
    var cash := k.price * lots;
    ScaleIsLinear(lots, k.left, k.price);
    HeldIsFrozen(s, k, c);
    ValuesAreLinear(s.m, s.assets, if k.ask then lots else cash, k.freeze);
  }

  lemma PartiesHaveEnough(s: Spot, t: Order, k: Order, lots: int, c: Origin)
    requires Good(s, [k], c) && Able(s, t) && Dealable(s, t, k, lots)
    ensures var cash := k.price * lots;
            var tp, kp := PaymentOf(s.m, t, false, lots, cash), PaymentOf(s.m, k, true, lots, cash);
            && Val(s.bal, tp.out) >= tp.give && Val(s.bal, kp.out) >= kp.give
            && Need(s.m, FillTaker(t, lots, cash, tp.fee)).0 == Need(s.m, t).0
            && Need(s.m, FillTaker(t, lots, cash, tp.fee)).1 <= Need(s.m, t).1 - tp.give
            && 0.0 <= Need(s.m, FillTaker(t, lots, cash, tp.fee)).1
            && 0 <= (if k.ask then lots else cash) <= k.freeze
  {
    hide StockVal, MoneyVal, Conserved, FrozenMatches, Sound, Terms, FillTaker, FeeOn;
    var cash := k.price * lots;
    TakerHasEnough(s.m, s.assets, t, k, lots, PaymentOf(s.m, t, false, lots, cash).fee);
    MakerHasEnough(s, k, lots, c);
  }

  lemma CheaperThanLimit(limit: int, price: int, lots: int, left: int)
    requires limit >= price > 0 && 0 < lots <= left
    ensures limit * (left - lots) <= limit * left - price * lots
    ensures 0 <= limit * (left - lots) && price * lots <= limit * left
  {
    assert limit * (left - lots) == limit * left - limit * lots;
    assert price * lots <= limit * lots;
    assert limit * (left - lots) >= 0;
  }

  lemma GainIsRounded(v: real, x: real)
    requires Whole(v) && v >= 0.0 && x >= 0.0
    ensures var r := Rescale(Down, v + x);
            v <= r <= v + x && r - v > x - 1.0 && (Whole(x) <==> r == v + x)
  {
    RescaleMeans(Down, v + x);
    FloorAtLeast(v + x, v.Floor);
    if Whole(x) { WholeSum(v, x); }
    if Rescale(Down, v + x) == v + x { WholeSum(v + x, v); }
  }

  lemma FloorAtLeast(x: real, n: int)
    requires x >= n as real
    ensures x.Floor >= n
  {
  }

  /** Taker and maker settle one deal: nothing is refused, only the maker's frozen entry
      shrinks, the taker keeps at least what it did not give, and each asset loses exactly
      the receiver's fee, but for less than a unit where that fee is not whole. */
  lemma DealSettles(assets: Assets, bal: Balances, tp: Payment, kp: Payment)
    requires Sound(bal) && Payable(assets, tp) && Payable(assets, kp)
    requires tp.out.kind.Available? && tp.into.kind.Available? && kp.out.kind.Freeze? && kp.into.kind.Available?
    requires tp.out.asset == kp.into.asset && tp.into.asset == kp.out.asset
    requires tp.give == kp.get && tp.get == kp.give
    requires tp.out.user == tp.into.user && kp.out.user == kp.into.user
    requires Val(bal, tp.out) >= tp.give && Val(bal, kp.out) >= kp.give
    ensures var r1 := Pay(assets, bal, tp); var r2 := Pay(assets, r1.bal, kp);
            && r1.ok && r2.ok && Sound(r2.bal)
            && (forall u, a :: Frozen(r2.bal, u, a)
                  == Frozen(bal, u, a) - (if u == kp.out.user && a == kp.out.asset then kp.give else 0.0))
            && Val(r2.bal, tp.out) >= Val(bal, tp.out) - tp.give
            && LosesFee(Holdings(bal, tp.out.asset), Holdings(r2.bal, tp.out.asset), kp.fee)
            && LosesFee(Holdings(bal, tp.into.asset), Holdings(r2.bal, tp.into.asset), tp.fee)
  {
    hide Pay, Holdings, Rescale, Whole;
    var b1 := Pay(assets, bal, tp).bal;
    PayMeans(assets, bal, tp);
    WholeVal(bal, tp.into);
    GainIsRounded(Val(bal, tp.into), tp.get - tp.fee);
    WholeRest(tp.get, tp.fee);
    assert Val(b1, kp.out) == Val(bal, kp.out);
    PayMeans(assets, b1, kp);
    WholeVal(b1, kp.into);
    GainIsRounded(Val(b1, kp.into), kp.get - kp.fee);
    WholeRest(kp.get, kp.fee);
  }

  /** An asset loses the fee, and less than a unit more if and only if the fee is not whole. */
  ghost predicate LosesFee(before: real, after: real, fee: real) {
    before - fee - 1.0 < after <= before - fee && (Whole(fee) <==> after == before - fee)
  }

  lemma WholeRest(x: real, y: real)
    requires Whole(x)
    ensures Whole(x - y) <==> Whole(y)
  {
    if Whole(y) { WholeSum(x, y); }
    if Whole(x - y) { WholeSum(x, x - y); }
  }

  // ----- when money fees are whole

  /** Every money fee of such a market is a whole number of save units. */
  predicate FeesFit(m: Market) {
    m.feeScale > 0 && m.moneyScale % m.feeScale == 0
  }

  function MoneyFee(m: Market, cash: int, rate: int): real {
    FeeOn(m, MoneyVal(m, cash), rate)
  }

  lemma FittingFeeIsWhole(m: Market, cash: int, rate: int)
    requires FeesFit(m)
    ensures Whole(MoneyFee(m, cash, rate))
  {
    var f, q := m.feeScale, m.moneyScale / m.feeScale;
    assert m.moneyScale == q * f;
    var n := cash * q * rate;
    assert cash * m.moneyScale * rate == n * f by { Shuffle(cash, q, f, rate); }
    RealProduct(cash * m.moneyScale, rate);
    RealProduct(n, f);
    QuotientOfProduct(n as real, f as real);
    assert (cash * m.moneyScale) as real * rate as real == n as real * f as real;
    assert MoneyFee(m, cash, rate) == n as real;
    IntIsWhole(n);
  }

  lemma RealProduct(a: int, b: int)
    ensures (a * b) as real == a as real * b as real
  {
  }

  lemma Shuffle(a: int, q: int, f: int, r: int)
    ensures a * (q * f) * r == (a * q * r) * f
  {
    assert a * (q * f) == (a * q) * f;
    assert (a * q) * f * r == (a * q) * r * f;
  }

  lemma SmallestFeeIsWhole(m: Market)
    requires m.feeScale > 0 && Whole(MoneyFee(m, 1, 1))
    ensures FeesFit(m)
  {
    var x := MoneyFee(m, 1, 1);
    assert x * m.feeScale as real == m.moneyScale as real;
    assert (x.Floor * m.feeScale) as real == m.moneyScale as real;
    MultipleMod(x.Floor, m.feeScale);
  }

  lemma MultipleMod(q: int, f: int)
    requires f > 0
    ensures (q * f) % f == 0
  {
    var r, p := (q * f) % f, (q * f) / f;
    assert (q - p) * f == r;
    if q - p > 0 { ScaleIsLinear(1, q - p, f); }
    if q - p < 0 { ScaleIsLinear(q - p, -1, f); }
  }

  lemma Pow10Divides(a: nat, b: nat)
    ensures Pow10(b) > 0 && (Pow10(a) % Pow10(b) == 0 <==> b <= a)
  {
    Pow10Splits(a, 0);
    Pow10Splits(b, 0);
    if b <= a {
      Pow10Splits(a - b, b);
      MultipleMod(Pow10(a - b), Pow10(b));
    } else {
      Pow10Splits(b - a, a);
      Pow10Splits(b - a - 1, 0);
      ScaleIsLinear(2, Pow10(b - a), Pow10(a));
      SmallMod(Pow10(a), Pow10(b));
    }
  }

  lemma SmallMod(x: int, f: int)
    requires 0 < x < f
    ensures x % f == x
  {
  }

  /** With fee rates from zero to less than one, no deal of a market can lose money to rounding if
      and only if money is saved with as many decimals as lots, ticks and fee rates have together.
      market_create does not ask for that much. */
  lemma NoDealLosesIff(c: Config, stock: nat, money: nat, minAmount: int)
    requires Creatable(c)
    ensures var m := CreateMarket(c, stock, money, minAmount);
            (forall cash: int, rate: int :: cash > 0 && 0 <= rate < m.feeScale ==> Whole(MoneyFee(m, cash, rate)))
            <==> c.stockPrec + c.moneyPrec + c.feePrec <= c.moneySave
  {
    hide MoneyFee;
    var m := CreateMarket(c, stock, money, minAmount);
    Pow10Divides(c.moneySave - c.stockPrec - c.moneyPrec, c.feePrec);
    if FeesFit(m) {
      forall cash: int, rate: int ensures Whole(MoneyFee(m, cash, rate)) { FittingFeeIsWhole(m, cash, rate); }
    } else {
      assert c.feePrec > 0 && m.feeScale == 10 * Pow10(c.feePrec - 1);
      Pow10Splits(c.feePrec - 1, 0);
      if Whole(MoneyFee(m, 1, 1)) { SmallestFeeIsWhole(m); }
    }
  }

  /** What one deal does to the ledger, in the terms of the invariant. */
  lemma FillSettles(s: Spot, t: Order, k: Order, lots: int, c: Origin)
    requires Good(s, [k], c) && Able(s, t) && Dealable(s, t, k, lots)
    ensures var f := Fill(s, t, k, lots);
            && !f.s.denied && Sound(f.s.bal) && Conserved(f.s, c)
            && (forall u, a :: Frozen(f.s.bal, u, a)
                  == Frozen(s.bal, u, a) - (if u == k.user && a == Pledge(s.m, k).0 then Given(s.m, k, lots) else 0.0))
            && Able(f.s, f.taker)
  {
    hide Holdings, Sum, Pay, Frozen, FeeOn;
    var cash := k.price * lots;
    var tp, kp := PaymentOf(s.m, t, false, lots, cash), PaymentOf(s.m, k, true, lots, cash);
    PaymentsArePayable(s, t, k, lots, c);
    PartiesHaveEnough(s, t, k, lots, c);
    DealSettles(s.assets, s.bal, tp, kp);
    if FeesFit(s.m) { FittingFeeIsWhole(s.m, cash, if t.ask then t.takerFee else k.makerFee); }
    var f := Fill(s, t, k, lots);
    assert f.s.bal == Pay(s.assets, Pay(s.assets, s.bal, tp).bal, kp).bal;
    assert kp.give == Given(s.m, k, lots) && kp.out.asset == Pledge(s.m, k).0;
  }

  /** The amount, in ledger units, that a maker gives in a deal. */
  function Given(m: Market, k: Order, lots: int): real {
    if k.ask then StockVal(m, lots) else MoneyVal(m, k.price * lots)
  }

  lemma FillKeeps(s: Spot, t: Order, k: Order, lots: int, c: Origin)
    requires Good(s, [k], c) && Able(s, t) && Dealable(s, t, k, lots)
    ensures var f := Fill(s, t, k, lots);
            && Good(f.s, [f.maker], c) && Able(f.s, f.taker)
            && Held(f.maker) && f.maker.left == k.left - lots
  {
    hide Holdings, Sum, Pay, Frozen, Avail, FeeOn, Conserved, Sound, Able;
    FillSettles(s, t, k, lots, c);
    var f := Fill(s, t, k, lots);
    var given := if k.ask then lots else k.price * lots;
    assert k.price * (k.left - lots) == k.price * k.left - k.price * lots;
    forall u, ask ensures HeldLive(f.s, [f.maker], u, ask)
                          == HeldLive(s, [k], u, ask) - (if u == k.user && ask == k.ask then given else 0) {
      SumHead(k, [], u, ask);
      SumHead(f.maker, [], u, ask);
    }
    FrozenFollows(s, f.s, [k], [f.maker], k, given, c);
  }

  lemma FrozenFollows(s: Spot, s2: Spot, flight: Book, flight2: Book, k: Order, given: int, c: Origin)
    requires MarketOk(s.m, s.assets) && FrozenMatches(s, flight, c) && s2.m == s.m
    requires forall u, a :: Frozen(s2.bal, u, a) == Frozen(s.bal, u, a)
               - (if u == k.user && a == Pledge(s.m, k).0
                  then (if k.ask then StockVal(s.m, given) else MoneyVal(s.m, given)) else 0.0)
    requires forall u, ask :: HeldLive(s2, flight2, u, ask)
               == HeldLive(s, flight, u, ask) - (if u == k.user && ask == k.ask then given else 0)
    ensures FrozenMatches(s2, flight2, c)
  {
    hide HeldLive, Frozen, StockVal, MoneyVal;
    forall u ensures Frozen(s2.bal, u, s.m.stock) == c.stock(u) + StockVal(s.m, HeldLive(s2, flight2, u, true)) {
      ValuesAreLinear(s.m, s.assets, HeldLive(s, flight, u, true), given);
    }
    forall u ensures Frozen(s2.bal, u, s.m.money) == c.money(u) + MoneyVal(s.m, HeldLive(s2, flight2, u, false)) {
      ValuesAreLinear(s.m, s.assets, HeldLive(s, flight, u, false), given);
    }
  }

  // ----- one round of matching

  lemma FillIgnoresBooks(s: Spot, t: Order, k: Order, lots: int, book: Book)
    ensures var a, b := Fill(s, t, k, lots), Fill(WithOpposite(s, t, book), t, k, lots);
            a.taker == b.taker && a.maker == b.maker && WithOpposite(a.s, t, book) == b.s
  {
    hide Pay;
  }

  lemma StepKeeps(s: Spot, t: Order, c: Origin)
    requires Good(s, [], c) && Able(s, t) && !Stops(s, t)
    ensures var r := Step(s, t); Good(r.0, [], c) && Able(r.0, r.1)
  {
    hide Good, Thaw, Fill, Held, Frozen, Avail;
    var book := Opposite(s, t);
    var k, rest := book[0], book[1..];
    var s1 := WithOpposite(s, t, rest);
    PopKeeps(s, t, c);
    RestingIsHeld(s.m, k);
    if Sweeps(t, k) {
      ThawKeeps(s1, k, c);
      StaysAble(s1, Thaw(s1, k), t);
    } else {
      var lots := LotsWith(t, k);
      LotsAreDealable(s1, t, k);
      FillIgnoresBooks(s, t, k, lots, rest);
      FillKeeps(s1, t, k, lots, c);
      var f := Fill(s1, t, k, lots);
      if f.maker.left == 0 {
        HeldIsNonNegative(f.maker);
        ThawKeeps(f.s, f.maker, c);
        StaysAble(f.s, Thaw(f.s, f.maker), f.taker);
      } else {
        FilledRests(s, t, k, lots, rest);
        PushKeeps(f.s, f.taker, f.maker, c);
        assert Opposite(f.s, f.taker) == rest;
      }
    }
  }

  lemma RestingIsHeld(m: Market, k: Order)
    requires Resting(m, k)
    ensures k.freeze >= 0 && Held(k)
  {
    if !k.ask { assert k.price * k.left >= 0; }
  }

  lemma HeldIsNonNegative(o: Order)
    requires Held(o) && o.left == 0
    ensures o.freeze >= 0
  {
  }

  lemma StaysAble(s: Spot, s2: Spot, t: Order)
    requires Able(s, t) && s2.m == s.m && forall u, a :: Avail(s2.bal, u, a) >= Avail(s.bal, u, a)
    ensures Able(s2, t)
  {
  }

  lemma LotsAreDealable(s: Spot, t: Order, k: Order)
    requires Able(s, t) && k.ask != t.ask && Resting(s.m, k) && Crosses(t, k) && t.left != 0
    requires t.kind.MarketOrder? && !t.ask ==> LotsWith(t, k) != 0
    ensures Dealable(s, t, k, LotsWith(t, k))
  {
    if t.kind.MarketOrder? && !t.ask {
      var q := t.left / k.price;
      RestBuysNothing(t.left, k.price);
      assert k.price * q <= t.left;
      assert q >= 0;
      ScaleIsLinear(LotsWith(t, k), q, k.price);
    }
  }

  lemma FilledRests(s: Spot, t: Order, k: Order, lots: int, rest: Book)
    requires Resting(s.m, k) && 0 < lots < k.left
    ensures var f := Fill(WithOpposite(s, t, rest), t, k, lots);
            (Held(f.maker) ==> Resting(s.m, f.maker)) && f.maker.ask == k.ask && f.taker.ask == t.ask && f.s.m == s.m
            && f.maker.left == k.left - lots && Opposite(f.s, f.taker) == rest
  {
    hide Pay;
  }

  lemma {:induction false} MatchKeeps(s: Spot, t: Order, c: Origin)
    requires Good(s, [], c) && Able(s, t)
    ensures var r := Match(s, t);
            && Good(r.0, [], c) && Able(r.0, r.1) && Stops(r.0, r.1)
            && r.1.ask == t.ask && r.1.kind == t.kind && r.1.user == t.user && r.1.price == t.price
    decreases |Opposite(s, t)|, if Stops(s, t) then 0 else 1
  {
    hide Step, Good, Able;
    if !Stops(s, t) {
      StepKeeps(s, t, c);
      StepShrinks(s, t);
      MatchKeeps(Step(s, t).0, Step(s, t).1, c);
    }
  }

  // ----- resting what is left

  lemma HoldingIsPositive(s: Spot, o: Order)
    requires MarketOk(s.m, s.assets) && o.left > 0 && (o.kind.Limit? ==> o.price > 0) && o.kind.Limit?
    ensures var p := Pledge(s.m, Holding(o));
            && Holding(o).freeze > 0 && p == Need(s.m, o) && p.1 > 0.0 && Whole(p.1)
            && p.0 in s.assets && s.assets[p.0].Down?
  {
    ValuesAreLinear(s.m, s.assets, Holding(o).freeze, 0);
  }

  lemma PutMoves(s: Spot, o: Order, c: Origin)
    requires Good(s, [], c) && Able(s, o) && o.left > 0 && o.kind.Limit?
    ensures var r := Put(s, o); var p := Pledge(s.m, Holding(o));
            && !r.denied && Sound(r.bal)
            && (forall u, a :: Frozen(r.bal, u, a) == Frozen(s.bal, u, a) + (if u == o.user && a == p.0 then p.1 else 0.0))
            && Holdings(r.bal, s.m.stock) == Holdings(s.bal, s.m.stock)
            && Holdings(r.bal, s.m.money) == Holdings(s.bal, s.m.money)
  {
    hide Holdings, Sum, Move, Insert, Pledge, Conserved, FrozenMatches;
    HoldingIsPositive(s, o);
    var p := Pledge(s.m, Holding(o));
    var a, f := Key(o.user, Available, p.0), Key(o.user, Freeze, p.0);
    MoveMeans(s.assets, s.bal, a, f, p.1);
    MoveKeepsSum(s.assets, s.bal, a, f, p.1);
    MoveConserves(s.assets, s.bal, a, f, p.1, s.m.stock);
    MoveConserves(s.assets, s.bal, a, f, p.1, s.m.money);
    StaysWhole(s.assets, s.bal, a, f, p.1);
    StaysNonNegative(s.assets, s.bal, a, f, p.1);
  }

  lemma PutHolds(s: Spot, o: Order, user: nat, ask: bool)
    ensures HeldLive(Put(s, o), [], user, ask) == HeldLive(s, [], user, ask) + HeldBy(Holding(o), user, ask)
  {
    hide Sum, Insert, Move;
    SumInsert(s.asks, Holding(o), user, ask);
    SumInsert(s.bids, Holding(o), user, ask);
  }

  lemma PutKeeps(s: Spot, o: Order, c: Origin)
    requires Good(s, [], c) && Able(s, o) && o.left > 0 && o.kind.Limit?
    ensures Good(Put(s, o), [], c)
  {
    hide Holdings, Sum, DoFreeze, Insert, Frozen, HeldLive, Sound;
    PutMoves(s, o, c);
    HoldingIsPositive(s, o);
    var r, h := Put(s, o), Holding(o);
    forall u ensures Frozen(r.bal, u, s.m.stock) == c.stock(u) + StockVal(s.m, HeldLive(r, [], u, true)) {
      PutHolds(s, o, u, true);
      ValuesAreLinear(s.m, s.assets, HeldLive(s, [], u, true), h.freeze);
    }
    forall u ensures Frozen(r.bal, u, s.m.money) == c.money(u) + MoneyVal(s.m, HeldLive(r, [], u, false)) {
      PutHolds(s, o, u, false);
      ValuesAreLinear(s.m, s.assets, HeldLive(s, [], u, false), h.freeze);
    }
  }
}
