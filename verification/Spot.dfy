/** The spot matchers of matchengine/src/me_market.c as a state machine on values:
    limit and market orders, market-maker auto-cancel, and cancelling everything.

    Amounts are counted in lots (10^-stock_prec), prices in ticks (10^-money_prec) and
    money in ticks times lots; the market's scales turn them into ledger units. */
module Spot {
  import opened Common
  import opened Ledger
  import opened LedgerTotals

  function Pow10(n: nat): nat {
    if n == 0 then 1 else 10 * Pow10(n - 1)
  }

  /** The precisions a market is configured with, and the save precisions of its assets. */
  datatype Config = Config(stockPrec: nat, moneyPrec: nat, feePrec: nat, stockSave: nat, moneySave: nat)

  /** The checks of market_create. */
  predicate Creatable(c: Config) {
    && c.stockPrec + c.moneyPrec <= c.moneySave
    && c.stockPrec + c.feePrec <= c.stockSave
    && c.moneyPrec + c.feePrec <= c.moneySave
  }

  /** `feeUnit` is what one lot is worth in the smallest stock fee, `moneyScale` what one
      tick times lot is worth in ledger units, and fee rates count 1/feeScale. */
  datatype Market = Market(stock: nat, money: nat, feeUnit: int, moneyScale: int, feeScale: int, minAmount: int)

  function CreateMarket(c: Config, stock: nat, money: nat, minAmount: int): Market
    requires Creatable(c)
  {
    Market(stock, money, Pow10(c.stockSave - c.stockPrec - c.feePrec), Pow10(c.moneySave - c.stockPrec - c.moneyPrec),
           Pow10(c.feePrec), minAmount)
  }

  datatype MM = NotMM | MMNormal | MMCancel
  datatype Kind = Limit | MarketOrder

  datatype Order = Order(
    id: nat, user: nat, ask: bool, kind: Kind, mm: MM, price: int, amount: int, takerFee: int, makerFee: int,
    left: int, freeze: int, dealStock: int, dealMoney: int, dealFee: real)

  type Book = seq<Order>

  /** What a deal says of one of its orders: its number, its user and the fee rate that counted. */
  datatype Party = Party(order: nat, user: nat, rate: int)

  /** The message about a deal. */
  datatype Deal = Deal(id: nat, takerSells: bool, seller: Party, buyer: Party, price: int, lots: int, cash: int,
                       askFee: real, bidFee: real)

  datatype Spot = Spot(
    m: Market, assets: Assets, asks: Book, bids: Book, bal: Balances, orderId: nat, dealId: nat,
    deals: seq<Deal>,
    stockFees: real, moneyFees: real,   // fees charged so far
    denied: bool)                       // an ignored ledger call was refused

  // ----- amounts in ledger units

  function StockVal(m: Market, lots: int): real {
    (lots * m.feeUnit * m.feeScale) as real
  }

  function MoneyVal(m: Market, cash: int): real {
    (cash * m.moneyScale) as real
  }

  function FeeOn(m: Market, value: real, rate: int): real {
    if m.feeScale == 0 then 0.0 else value * rate as real / m.feeScale as real
  }

  /** The asset and the amount that a resting order keeps frozen. */
  function Pledge(m: Market, o: Order): (nat, real) {
    if o.ask then (m.stock, StockVal(m, o.freeze)) else (m.money, MoneyVal(m, o.freeze))
  }

  // ----- the order book

  predicate Before(a: Order, b: Order) {
    if a.price != b.price then (if a.ask then a.price < b.price else a.price > b.price) else a.id < b.id
  }

  function Insert(book: Book, o: Order): (r: Book)
    ensures forall x :: x in r <==> x == o || x in book
  {
    if book == [] || Before(o, book[0]) then [o] + book else [book[0]] + Insert(book[1..], o)
  }

  function Opposite(s: Spot, t: Order): Book {
    if t.ask then s.bids else s.asks
  }

  function WithOpposite(s: Spot, t: Order, book: Book): Spot {
    s.(bids := if t.ask then book else s.bids, asks := if t.ask then s.asks else book)
  }

  // ----- what one party of a deal does to the ledger

  datatype Payment = Payment(out: Key, give: real, into: Key, get: real, fee: real)

  /** Give from one entry, receive into another, and pay a fee out of what was received. */
  function Pay(assets: Assets, bal: Balances, p: Payment): Outcome {
    var gave := Sub(assets, bal, p.out, p.give);
    var got := Add(assets, gave.bal, p.into, p.get);
    if p.fee > 0.0 then
      var charged := Sub(assets, got.bal, p.into, p.fee);
      Outcome(gave.ok && got.ok && charged.ok, charged.bal)
    else Outcome(gave.ok && got.ok, got.bal)
  }

  /** The two sides of a deal; a maker pays out of what it froze. */
  function AskPayment(m: Market, o: Order, maker: bool, lots: int, cash: int, rate: int): Payment {
    Payment(Key(o.user, if maker then Freeze else Available, m.stock), StockVal(m, lots),
            Key(o.user, Available, m.money), MoneyVal(m, cash), FeeOn(m, MoneyVal(m, cash), rate))
  }

  function BidPayment(m: Market, o: Order, maker: bool, lots: int, cash: int, rate: int): Payment {
    Payment(Key(o.user, if maker then Freeze else Available, m.money), MoneyVal(m, cash),
            Key(o.user, Available, m.stock), StockVal(m, lots), FeeOn(m, StockVal(m, lots), rate))
  }

  function PaymentOf(m: Market, o: Order, maker: bool, lots: int, cash: int): Payment {
    var rate := if maker then o.makerFee else o.takerFee;
    if o.ask then AskPayment(m, o, maker, lots, cash, rate) else BidPayment(m, o, maker, lots, cash, rate)
  }

  // ----- one deal

  /** A market bid counts what is left in money, every other order in lots. */
  function FillTaker(t: Order, lots: int, cash: int, fee: real): Order {
    t.(left := t.left - (if t.kind.MarketOrder? && !t.ask then cash else lots),
       dealStock := t.dealStock + lots, dealMoney := t.dealMoney + cash, dealFee := t.dealFee + fee)
  }

  function FillMaker(k: Order, lots: int, cash: int, fee: real): Order {
    k.(left := k.left - lots, freeze := k.freeze - (if k.ask then lots else cash),
       dealStock := k.dealStock + lots, dealMoney := k.dealMoney + cash, dealFee := k.dealFee + fee)
  }

  function PartyOf(o: Order, maker: bool): Party {
    Party(o.id, o.user, if maker then o.makerFee else o.takerFee)
  }

  function DealOf(id: nat, t: Order, k: Order, lots: int, takerFee: real, makerFee: real): Deal {
    if t.ask then Deal(id, true, PartyOf(t, false), PartyOf(k, true), k.price, lots, k.price * lots, takerFee, makerFee)
    else Deal(id, false, PartyOf(k, true), PartyOf(t, false), k.price, lots, k.price * lots, makerFee, takerFee)
  }

  datatype Filled = Filled(s: Spot, taker: Order, maker: Order)

  function Fill(s: Spot, t: Order, k: Order, lots: int): (r: Filled)
    ensures r.s == s.(bal := r.s.bal, dealId := s.dealId + 1, deals := r.s.deals, stockFees := r.s.stockFees,
                      moneyFees := r.s.moneyFees, denied := r.s.denied)
  {
    var cash := k.price * lots;
    var tp, kp := PaymentOf(s.m, t, false, lots, cash), PaymentOf(s.m, k, true, lots, cash);
    var paid := Pay(s.assets, s.bal, tp);
    var paid2 := Pay(s.assets, paid.bal, kp);
    Filled(s.(bal := paid2.bal, dealId := s.dealId + 1,
              deals := s.deals + [DealOf(s.dealId + 1, t, k, lots, tp.fee, kp.fee)],
              stockFees := s.stockFees + (if t.ask then kp.fee else tp.fee),
              moneyFees := s.moneyFees + (if t.ask then tp.fee else kp.fee),
              denied := s.denied || !paid.ok || !paid2.ok),
           FillTaker(t, lots, cash, tp.fee), FillMaker(k, lots, cash, kp.fee))
  }

  /** order_finish for the best order of a book side: it leaves the book, and what it
      still holds is thawed. */
  function Thaw(s: Spot, o: Order): (r: Spot)
    ensures r == s.(bal := r.bal, denied := r.denied)
  {
    if o.freeze <= 0 then s
    else
      var p := Pledge(s.m, o);
      var t := DoUnfreeze(s.assets, s.bal, o.user, p.0, p.1);
      s.(bal := t.bal, denied := s.denied || !t.ok)
  }

  // ----- matching

  predicate Crosses(t: Order, k: Order) {
    t.kind.MarketOrder? || (if t.ask then t.price <= k.price else t.price >= k.price)
  }

  /** How many lots the taker trades with a maker; a market bid buys what it can afford. */
  function LotsWith(t: Order, k: Order): int {
    if t.kind.MarketOrder? && !t.ask then
      if k.price <= 0 then 0 else Min(t.left / k.price, k.left)
    else Min(t.left, k.left)
  }

  predicate Sided(s: Spot) {
    && (forall o :: o in s.asks ==> o.ask)
    && (forall o :: o in s.bids ==> !o.ask)
  }

  /** A taker that makes markets sweeps auto-cancel makers away instead of trading. */
  predicate Sweeps(t: Order, k: Order) {
    t.mm != NotMM && k.mm == MMCancel
  }

  function Step(s: Spot, t: Order): (r: (Spot, Order))
    requires Opposite(s, t) != []
  {
    var k, rest := Opposite(s, t)[0], Opposite(s, t)[1..];
    if Sweeps(t, k) then (Thaw(WithOpposite(s, t, rest), k), t)
    else
      var f := Fill(s, t, k, LotsWith(t, k));
      if f.maker.left == 0 then (Thaw(WithOpposite(f.s, t, rest), f.maker), f.taker)
      else (WithOpposite(f.s, t, [f.maker] + rest), f.taker)
  }

  predicate Stops(s: Spot, t: Order) {
    || Opposite(s, t) == [] || t.left == 0
    || !Crosses(t, Opposite(s, t)[0])
    || (t.kind.MarketOrder? && !t.ask && !Sweeps(t, Opposite(s, t)[0]) && LotsWith(t, Opposite(s, t)[0]) == 0)
  }

  lemma StepShrinks(s: Spot, t: Order)
    requires !Stops(s, t)
    ensures var r := Step(s, t);
            && r.1.ask == t.ask && r.1.kind == t.kind && r.1.mm == t.mm && r.1.user == t.user && r.1.price == t.price
            && r.1.id == t.id && r.1.takerFee == t.takerFee && r.1.makerFee == t.makerFee
            && |Opposite(r.0, r.1)| <= |Opposite(s, t)|
            && (|Opposite(r.0, r.1)| == |Opposite(s, t)| ==> Stops(r.0, r.1))
  {
    hide Thaw, Pay;
    var k, rest := Opposite(s, t)[0], Opposite(s, t)[1..];
    if !Sweeps(t, k) {
      var lots := LotsWith(t, k);
      var f := Fill(s, t, k, lots);
      if f.maker.left != 0 {
        assert Opposite(Step(s, t).0, Step(s, t).1) == [f.maker] + rest;
        if t.kind.MarketOrder? && !t.ask && k.price > 0 { RestBuysNothing(t.left, k.price); }
      }
    }
  }

  /** What is left after buying all that is affordable does not buy one more lot. */
  lemma RestBuysNothing(left: int, price: int)
    requires price > 0
    ensures (left - price * (left / price)) / price == 0
    ensures 0 <= left - price * (left / price) < price
  {
    var q, r := left / price, left % price;
    assert left == price * q + r;
    assert 0 <= r < price;
    assert r / price == 0;
  }

  /** The matching loop. */
  function Match(s: Spot, t: Order): (r: (Spot, Order))
    decreases |Opposite(s, t)|, if Stops(s, t) then 0 else 1
  {
    if Stops(s, t) then (s, t)
    else
      StepShrinks(s, t);
      Match(Step(s, t).0, Step(s, t).1)
  }

  /** The order as it rests, holding what it may need. */
  function Holding(o: Order): Order {
    o.(freeze := if o.ask then o.left else o.price * o.left)
  }

  /** order_put: the order rests, and what it may need is frozen. */
  function Put(s: Spot, o: Order): Spot {
    var o1 := Holding(o);
    var p := Pledge(s.m, o1);
    var z := DoFreeze(s.assets, s.bal, o.user, p.0, p.1);
    s.(asks := if o.ask then Insert(s.asks, o1) else s.asks,
       bids := if o.ask then s.bids else Insert(s.bids, o1),
       bal := z.bal, denied := s.denied || !z.ok)
  }

  // ----- market_put_limit_order, market_put_market_order, market_cancel_all_order

  datatype Reply = Accepted | Rejected(code: int)

  datatype Args = Args(user: nat, ask: bool, amount: int, price: int, takerFee: int, makerFee: int, mm: MM)

  function NewOrder(id: nat, a: Args, kind: Kind): Order {
    Order(id, a.user, a.ask, kind, a.mm, if kind.Limit? then a.price else 0, a.amount, a.takerFee,
          if kind.Limit? then a.makerFee else 0, a.amount, 0, 0, 0, 0.0)
  }

  /** `!balance || balance < amount` does not hold. */
  predicate Has(bal: Balances, k: Key, amount: real) {
    k in bal && bal[k] >= amount
  }

  function PutLimit(s: Spot, a: Args): (Spot, Reply) {
    var enough := if a.ask then Has(s.bal, Key(a.user, Available, s.m.stock), StockVal(s.m, a.amount))
                  else Has(s.bal, Key(a.user, Available, s.m.money), MoneyVal(s.m, a.price * a.amount));
    if !enough then (s, Rejected(-1))
    else if a.amount < s.m.minAmount then (s, Rejected(-2))
    else
      var r := Match(s.(orderId := s.orderId + 1), NewOrder(s.orderId + 1, a, Limit));
      (if r.1.left == 0 then r.0 else Put(r.0, r.1), Accepted)
  }

  function PutMarket(s: Spot, a: Args): (Spot, Reply) {
    var enough := if a.ask then Has(s.bal, Key(a.user, Available, s.m.stock), StockVal(s.m, a.amount))
                  else Has(s.bal, Key(a.user, Available, s.m.money), MoneyVal(s.m, a.amount));
    var book := if a.ask then s.bids else s.asks;
    if !enough then (s, Rejected(-1))
    else if book == [] then (s, Rejected(-3))
    else if a.amount < (if a.ask then s.m.minAmount else book[0].price * s.m.minAmount) then (s, Rejected(-2))
    else (Match(s.(orderId := s.orderId + 1), NewOrder(s.orderId + 1, a, MarketOrder)).0, Accepted)
  }

  function FinishAsks(s: Spot): Spot
    decreases |s.asks|
  {
    if s.asks == [] then s else FinishAsks(Thaw(s.(asks := s.asks[1..]), s.asks[0]))
  }

  function FinishBids(s: Spot): Spot
    decreases |s.bids|
  {
    if s.bids == [] then s else FinishBids(Thaw(s.(bids := s.bids[1..]), s.bids[0]))
  }

  function CancelAll(s: Spot): Spot {
    FinishBids(FinishAsks(s))
  }
}
