/** The arithmetic of one position: what opening and closing do to the entry
    price, the principal and the money paid out. */
module FuturesPositions {
  import opened Common
  import opened Futures

  ghost predicate PosOk(p: Pos) {
    p.position >= 0 && p.frozen >= 0 && Total(p) > 0 && p.price > 0.0
  }

  /** The signed change of one unit between the entry price and `price`. */
  function Gain(side: Side, p: Pos, price: real): real
    requires p.price > 0.0
  {
    if side.Bull? then (price - p.price) / p.price else (p.price - price) / p.price
  }

  /** The equity carried by one unit of the position. */
  function UnitEquity(side: Side, p: Pos, price: real): real
    requires p.price > 0.0 && Total(p) > 0
  {
    p.principal / Total(p) as real + Gain(side, p, price)
  }

  lemma MulDiv(a: real, b: real)
    requires b != 0.0
    ensures a / b * b == a && a * b / b == a
  {
  }

  lemma NegDiv(a: real, b: real)
    requires b != 0.0
    ensures (-a) / b == -(a / b)
  {
    MulDiv(a, b);
    MulDiv(-a, b);
    assert ((-a) / b + a / b) * b == 0.0;
  }

  /** Both branches of the equity computation are principal plus gain. */
  lemma EquityIsPrincipalPlusGain(side: Side, p: Pos, price: real)
    requires PosOk(p)
    ensures Equity(side, p, price) == p.principal + Gain(side, p, price) * Total(p) as real
  {
    NegDiv(price - p.price, p.price);
    assert -(price - p.price) == p.price - price;
  }

  lemma DivOfSum(a: real, b: real, t: real)
    requires t != 0.0
    ensures (a + b * t) / t == a / t + b
  {
    MulDiv(a, t);
    assert (a / t + b) * t == a + b * t;
    MulDiv(a / t + b, t);
  }

  lemma DivOfProduct(a: real, c: real, t: real)
    requires t != 0.0
    ensures (a * c) / t == (a / t) * c && (c * a) / t == (a / t) * c
  {
    MulDiv(a, t);
    assert ((a / t) * c) * t == ((a / t) * t) * c;
    MulDiv((a / t) * c, t);
    assert c * a == a * c;
  }

  lemma ReleaseUnfolds(p: Pos, a: int, x: real, t: real)
    requires x == p.principal && t == Total(p) as real
    ensures ReleasedPrincipal(p, a) == Div(a as real * x, t)
  {
  }

  lemma ReleasedIsShare(p: Pos, amount: int)
    requires PosOk(p)
    ensures ReleasedPrincipal(p, amount) == p.principal / Total(p) as real * amount as real
  {
    DivOfProduct(p.principal, amount as real, Total(p) as real);
  }

  /** A closing fill pays its share of the equity: the principal it releases plus
      the profit on the closed amount. */
  lemma PayoutIsShare(side: Side, p: Pos, amount: int, price: real)
    requires PosOk(p)
    ensures Payout(side, p, amount, price) == UnitEquity(side, p, price) * amount as real
    ensures Payout(side, p, amount, price) == ReleasedPrincipal(p, amount) + PartProfit(side, p, amount, price)
  {
    var t, a, g, u := Total(p) as real, amount as real, Gain(side, p, price), p.principal / Total(p) as real;
    var e := Equity(side, p, price);
    EquityIsPrincipalPlusGain(side, p, price);
    DivOfSum(p.principal, g, t);
    DivOfProduct(e, a, t);
    assert Payout(side, p, amount, price) == (u + g) * a;
    ReleasedIsShare(p, amount);
    Distribute(u, g, a);
  }

  lemma Distribute(x: real, y: real, a: real)
    ensures (x + y) * a == x * a + y * a
  {
  }

  /** A partial close keeps the entry price and the principal per unit. */
  lemma CloseKeepsUnit(side: Side, p: Pos, amount: int, price: real)
    requires PosOk(p) && 0 < amount <= p.frozen && amount < Total(p)
    ensures var q := ClosePos(p, amount);
            && PosOk(q) && q.price == p.price && q.leverage == p.leverage
            && Total(q) == Total(p) - amount && q.frozen == p.frozen - amount && q.position == p.position
            && q.principal / Total(q) as real == p.principal / Total(p) as real
            && UnitEquity(side, q, price) == UnitEquity(side, p, price)
  {
    var q := ClosePos(p, amount);
    var t, a, u := Total(p) as real, amount as real, p.principal / Total(p) as real;
    ReleasedIsShare(p, amount);
    MulDiv(p.principal, t);
    assert q.principal == u * t - u * a == u * (t - a);
    assert Total(q) as real == t - a;
    MulDiv(u, t - a);
  }

  predicate AllPositive(amounts: seq<int>) {
    forall i :: 0 <= i < |amounts| ==> amounts[i] > 0
  }

  function SumOf(amounts: seq<int>): int {
    if amounts == [] then 0 else amounts[0] + SumOf(amounts[1..])
  }

  /** The money paid out by closing the given amounts one after the other at one price. */
  function PayoutsOf(side: Side, p: Pos, amounts: seq<int>, price: real): real
    decreases |amounts|
  {
    if amounts == [] then 0.0
    else Payout(side, p, amounts[0], price) + PayoutsOf(side, ClosePos(p, amounts[0]), amounts[1..], price)
  }

  lemma {:induction false} SumOfPositive(amounts: seq<int>)
    requires AllPositive(amounts)
    ensures SumOf(amounts) >= |amounts|
  {
    if amounts != [] { SumOfPositive(amounts[1..]); }
  }

  lemma SharesAdd(unit: real, a: int, b: int)
    ensures unit * (a + b) as real == unit * a as real + unit * b as real
  {
    assert (a + b) as real == a as real + b as real;
    Distribute(a as real, b as real, unit);
  }

  lemma {:induction false} PayoutsAreShares(side: Side, p: Pos, amounts: seq<int>, price: real)
    requires PosOk(p) && AllPositive(amounts) && SumOf(amounts) <= p.frozen
    ensures PayoutsOf(side, p, amounts, price) == UnitEquity(side, p, price) * SumOf(amounts) as real
    decreases |amounts|
  {
    hide Payout, UnitEquity, ClosePos;
    if amounts != [] {
      var a, rest := amounts[0], amounts[1..];
      var unit := UnitEquity(side, p, price);
      PayoutIsShare(side, p, a, price);
      SumOfPositive(rest);
      SharesAdd(unit, a, SumOf(rest));
      if rest != [] {
        CloseKeepsUnit(side, p, a, price);
        PayoutsAreShares(side, ClosePos(p, a), rest, price);
      }
    }
  }

  /** However a close is split into partial fills at one price, it pays the same in total. */
  lemma PayoutIgnoresSplit(side: Side, p: Pos, amounts: seq<int>, price: real)
    requires PosOk(p) && AllPositive(amounts) && SumOf(amounts) <= p.frozen
    ensures PayoutsOf(side, p, amounts, price) == UnitEquity(side, p, price) * SumOf(amounts) as real
    ensures PayoutsOf(side, p, amounts, price) == Payout(side, p, SumOf(amounts), price)
  {
    hide Payout, UnitEquity, PayoutsOf, SumOf;
    PayoutIsShare(side, p, SumOf(amounts), price);
    PayoutsAreShares(side, p, amounts, price);
  }

  /** The entry price after an opening fill is the amount-weighted mean. */
  lemma OpenIsWeightedMean(p: Pos, amount: int, price: real, fee: real, pri: real)
    requires PosOk(p) && amount > 0 && price > 0.0
    ensures var q := OpenPos(p, amount, price, fee, pri);
            && PosOk(q) && Total(q) == Total(p) + amount && q.frozen == p.frozen
            && q.leverage == p.leverage
            && q.price * Total(q) as real == p.price * Total(p) as real + price * amount as real
  {
    var q := OpenPos(p, amount, price, fee, pri);
    var a, t := amount as real, Total(p) as real;
    var n := price * a + p.price * t;
    MulDiv(n, a + t);
    assert n > 0.0 by { assert price * a > 0.0; assert p.price * t > 0.0; }
    LeqOfProducts(0.0, q.price, a + t);
  }

  lemma LeqOfProducts(x: real, y: real, c: real)
    requires c > 0.0 && x * c <= y * c
    ensures x <= y && (x * c < y * c ==> x < y)
  {
    MulDiv(x, c);
    MulDiv(y, c);
    assert (y - x) * c >= 0.0;
  }

  lemma MeanIsBetween(x: real, a: real, y: real, b: real, m: real, lo: real, hi: real)
    requires a > 0.0 && b > 0.0 && m * (a + b) == x * a + y * b
    requires lo <= x <= hi && lo <= y <= hi
    ensures lo <= m <= hi
  {
    assert lo * a <= x * a <= hi * a && lo * b <= y * b <= hi * b;
    assert lo * (a + b) <= m * (a + b) <= hi * (a + b);
    LeqOfProducts(lo, m, a + b);
    LeqOfProducts(m, hi, a + b);
  }
}
