/** Price candles of marketprice: mp_kline.c, and the buckets of mp_message.c against a fold
    over the deals themselves. */
module Kline {
  import opened Common

  datatype Deal = Deal(time: nat, price: real, amount: real)

  /** struct kline_info */
  datatype Info = Info(open: real, close: real, high: real, low: real, volume: real, deal: real)

  function New(open: real): Info {
    Info(open, open, open, open, 0.0, 0.0)
  }

  function Higher(x: real, y: real): real {
    if y > x then y else x
  }

  function Lower(x: real, y: real): real {
    if y < x then y else x
  }

  /** kline_info_update */
  function Update(k: Info, price: real, amount: real): Info {
    Info(k.open, price, Higher(k.high, price), Lower(k.low, price), k.volume + amount, k.deal + price * amount)
  }

  /** kline_info_merge */
  function Merge(k: Info, u: Info): Info {
    Info(k.open, u.close, Higher(k.high, u.high), Lower(k.low, u.low), k.volume + u.volume, k.deal + u.deal)
  }

  predicate Shaped(k: Info) {
    k.low <= k.open <= k.high && k.low <= k.close <= k.high
  }

  /** The structure as it runs: both operations write its fields. */
  class KlineInfo {
    var open: real
    var close: real
    var high: real
    var low: real
    var volume: real
    var deal: real

    ghost function View(): Info
      reads this
    {
      Info(open, close, high, low, volume, deal)
    }

    constructor (price: real)
      ensures View() == New(price)
    {
      open, close, high, low := price, price, price, price;
      volume, deal := 0.0, 0.0;
    }

    method UpdateWith(price: real, amount: real)
      modifies this
      ensures View() == Update(old(View()), price, amount)
      ensures old(Shaped(View())) ==> Shaped(View())
    {
      var turnover := price * amount;
      close := price;
      volume := volume + amount;
      deal := deal + turnover;
      if price > high {
        high := price;
      }
      if price < low {
        low := price;
      }
    }

    method MergeWith(update: Info)
      modifies this
      ensures View() == Merge(old(View()), update)
      ensures old(Shaped(View())) && Shaped(update) ==> Shaped(View())
    {
      close := update.close;
      volume := volume + update.volume;
      deal := deal + update.deal;
      if update.high > high {
        high := update.high;
      }
      if update.low < low {
        low := update.low;
      }
    }

    method Load(k: Info)
      modifies this
      ensures View() == k
    {
      open, close, high, low, volume, deal := k.open, k.close, k.high, k.low, k.volume, k.deal;
    }

    method Read() returns (k: Info)
      ensures k == View()
    {
      return Info(open, close, high, low, volume, deal);
    }
  }

  // ----- the reference: folding deals in order

  function Add(k: Option<Info>, d: Deal): Info {
    Update(if k.None? then New(d.price) else k.value, d.price, d.amount)
  }

  function Fold(deals: seq<Deal>): Option<Info> {
    if deals == [] then None
    else Some(Add(Fold(deals[..|deals| - 1]), deals[|deals| - 1]))
  }

  function Amounts(deals: seq<Deal>): real {
    if deals == [] then 0.0 else Amounts(deals[..|deals| - 1]) + deals[|deals| - 1].amount
  }

  function Turnover(deals: seq<Deal>): real {
    if deals == [] then 0.0
    else Turnover(deals[..|deals| - 1]) + deals[|deals| - 1].price * deals[|deals| - 1].amount
  }

  /** The prices of a candle mean what their names say. */
  lemma {:induction false} FoldMeans(deals: seq<Deal>)
    requires deals != []
    ensures var k := Fold(deals).value;
            && Shaped(k)
            && k.open == deals[0].price && k.close == deals[|deals| - 1].price
            && (forall d :: d in deals ==> k.low <= d.price <= k.high)
            && (exists d :: d in deals && d.price == k.high)
            && (exists d :: d in deals && d.price == k.low)
    decreases |deals|
  {
    var d, before := deals[|deals| - 1], deals[..|deals| - 1];
    assert deals == before + [d];
    assert d in deals;
    if before != [] {
      FoldMeans(before);
      var k := Fold(before).value;
      var h :| h in before && h.price == k.high;
      var l :| l in before && l.price == k.low;
      assert h in deals && l in deals;
    }
  }

  lemma {:induction false} FoldTotals(deals: seq<Deal>)
    requires deals != []
    ensures Fold(deals).value.volume == Amounts(deals) && Fold(deals).value.deal == Turnover(deals)
    decreases |deals|
  {
    var before := deals[..|deals| - 1];
    if before != [] {
      FoldTotals(before);
    } else {
      assert Amounts(before) == 0.0 && Turnover(before) == 0.0;
    }
  }

  /** Combining bucket `u` into what has been collected (a query starts from the open price). */
  function Join(k: Option<Info>, u: Option<Info>): Option<Info> {
    if u.None? then k
    else Some(Merge(if k.None? then New(u.value.open) else k.value, u.value))
  }

  lemma MergeUpdates(k: Info, u: Info, price: real, amount: real)
    ensures Merge(k, Update(u, price, amount)) == Update(Merge(k, u), price, amount)
  {
  }

  lemma MergeIntoNew(u: Info)
    requires Shaped(u)
    ensures Merge(New(u.open), u) == u
  {
  }

  /** Merging the candles of two stretches is the candle of both. */
  lemma {:induction false} FoldJoins(xs: seq<Deal>, ys: seq<Deal>)
    ensures Fold(xs + ys) == Join(Fold(xs), Fold(ys))
    decreases |ys|
  {
    hide Update, Merge;
    if ys == [] {
      assert xs + ys == xs;
    } else {
      var d, before := ys[|ys| - 1], ys[..|ys| - 1];
      assert (xs + ys)[..|xs + ys| - 1] == xs + before;
      FoldJoins(xs, before);
      if xs == [] {
        assert xs + ys == ys;
        FoldMeans(ys);
        MergeIntoNew(Fold(ys).value);
      } else if before == [] {
        MergeFirst(Fold(xs).value, d);
      } else {
        MergeUpdates(Fold(xs).value, Fold(before).value, d.price, d.amount);
      }
    }
  }

  lemma MergeFirst(k: Info, d: Deal)
    ensures Merge(k, Update(New(d.price), d.price, d.amount)) == Update(k, d.price, d.amount)
  {
  }

  // ----- selecting deals by time

  /** The deals of the seconds [from, to), in order of arrival. */
  function Select(deals: seq<Deal>, from: int, to: int): seq<Deal> {
    if deals == [] then []
    else
      var d := deals[|deals| - 1];
      Select(deals[..|deals| - 1], from, to) + if from <= d.time < to then [d] else []
  }

  /** Deals arrive in time order. */
  ghost predicate Ordered(deals: seq<Deal>) {
    deals == [] ||
    (Ordered(deals[..|deals| - 1]) && (|deals| > 1 ==> deals[|deals| - 2].time <= deals[|deals| - 1].time))
  }

  lemma SelectMore(deals: seq<Deal>, d: Deal, from: int, to: int)
    ensures Select(deals + [d], from, to) == Select(deals, from, to) + if from <= d.time < to then [d] else []
  {
    assert (deals + [d])[..|deals|] == deals;
  }

  lemma {:induction false} SelectPast(deals: seq<Deal>, from: int, to: int)
    requires Ordered(deals) && (deals != [] ==> deals[|deals| - 1].time < from)
    ensures Select(deals, from, to) == []
    decreases |deals|
  {
    if deals != [] { SelectPast(deals[..|deals| - 1], from, to); }
  }

  lemma {:induction false} SelectSplits(deals: seq<Deal>, a: int, b: int, c: int)
    requires Ordered(deals) && a <= b <= c
    ensures Select(deals, a, c) == Select(deals, a, b) + Select(deals, b, c)
    decreases |deals|
  {
    if deals != [] {
      var d, before := deals[|deals| - 1], deals[..|deals| - 1];
      SelectSplits(before, a, b, c);
      if d.time < b {
        SelectPast(before, b, c);
      }
    }
  }

  lemma {:induction false} SelectNone(deals: seq<Deal>, a: int)
    ensures Select(deals, a, a) == []
    decreases |deals|
  {
    if deals != [] { SelectNone(deals[..|deals| - 1], a); }
  }

  lemma {:induction false} SelectIn(deals: seq<Deal>, from: int, to: int, d: Deal)
    ensures d in Select(deals, from, to) <==> d in deals && from <= d.time < to
    decreases |deals|
  {
    if deals != [] {
      var last, before := deals[|deals| - 1], deals[..|deals| - 1];
      SelectIn(before, from, to, d);
      assert deals == before + [last];
    }
  }

  // ----- buckets

  type Buckets = map<int, Info>

  function BucketStart(time: int, width: nat): int
    requires width > 0
  {
    time / width * width
  }

  /** One of the four stanzas of market_update. */
  function Store(m: Buckets, d: Deal, width: nat): Buckets
    requires width > 0
  {
    var key := BucketStart(d.time, width);
    m[key := Add(if key in m then Some(m[key]) else None, d)]
  }

  /** clear_dict */
  function Clear(m: Buckets, start: int): Buckets {
    map key | key in m && key >= start :: m[key]
  }

  function Bucket(deals: seq<Deal>, key: int, width: nat): Option<Info> {
    Fold(Select(deals, key, key + width))
  }

  /** Every bucket present is the fold of its deals, and none is missing from `kept` on. */
  ghost predicate Accurate(m: Buckets, deals: seq<Deal>, width: nat, kept: int) {
    && width > 0
    && (forall key :: key in m ==> key % width == 0 && Bucket(deals, key, width) == Some(m[key]))
    && (forall key :: kept <= key && key % width == 0 && Bucket(deals, key, width).Some? ==> key in m)
  }

  lemma AlignedStart(time: int, width: nat, key: int)
    requires width > 0 && key % width == 0
    ensures BucketStart(time, width) % width == 0
    ensures key <= time < key + width <==> key == BucketStart(time, width)
  {
    var q, p := time / width, key / width;
    assert time == q * width + time % width;
    assert key == p * width;
    ProductMod(q, width);
    if p < q { ProductLess(p + 1, q, width); }
    if p > q { ProductLess(q + 1, p, width); }
  }

  lemma ProductMod(q: int, width: nat)
    requires width > 0
    ensures (q * width) % width == 0
  {
    var r := (q * width) % width;
    var s := (q * width) / width;
    assert q * width == s * width + r;
    assert (q - s) * width == r;
    if q - s > 0 { ProductLess(1, q - s, width); }
    if q - s < 0 { ProductLess(q - s, -1, width); }
  }

  lemma ProductLess(p: int, q: int, width: nat)
    requires p <= q
    ensures p * width <= q * width
  {
  }

  lemma BucketMore(deals: seq<Deal>, d: Deal, key: int, width: nat)
    requires width > 0 && key % width == 0
    ensures Bucket(deals + [d], key, width)
            == if key == BucketStart(d.time, width) then Some(Add(Bucket(deals, key, width), d))
               else Bucket(deals, key, width)
  {
    hide Update;
    AlignedStart(d.time, width, key);
    SelectMore(deals, d, key, key + width);
    var s := Select(deals, key, key + width);
    assert (s + [d])[..|s|] == s;
    assert s + [] == s;
  }

  /** market_update keeps every bucket the fold of its deals. */
  lemma StoreIsAccurate(m: Buckets, deals: seq<Deal>, d: Deal, width: nat, kept: int)
    requires Accurate(m, deals, width, kept) && kept <= BucketStart(d.time, width)
    ensures Accurate(Store(m, d, width), deals + [d], width, kept)
  {
    hide Bucket, Add;
    var t := Store(m, d, width);
    AlignedStart(d.time, width, 0);
    forall key | key in t
      ensures key % width == 0 && Bucket(deals + [d], key, width) == Some(t[key])
    {
      BucketMore(deals, d, key, width);
    }
    forall key | kept <= key && key % width == 0 && Bucket(deals + [d], key, width).Some?
      ensures key in t
    {
      BucketMore(deals, d, key, width);
    }
  }

  lemma ClearIsAccurate(m: Buckets, deals: seq<Deal>, width: nat, kept: int, start: int)
    requires Accurate(m, deals, width, kept)
    ensures Accurate(Clear(m, start), deals, width, if start > kept then start else kept)
  {
    hide Bucket;
  }

  // ----- merging a range of buckets

  function Lookup(m: Buckets, key: int): Option<Info> {
    if key in m then Some(m[key]) else None
  }

  /** `count` buckets from `from` on, merged onto `k` as the queries do. */
  function MergeRange(k: Option<Info>, m: Buckets, from: int, width: nat, count: nat): Option<Info> {
    if count == 0 then k
    else Join(MergeRange(k, m, from, width, count - 1), Lookup(m, from + (count - 1) * width))
  }

  /** Over aligned buckets, merging goes on with the fold of the deals since `a`. */
  lemma {:induction false} MergeRangeIsFold(m: Buckets, deals: seq<Deal>, width: nat, kept: int,
                                            a: int, from: int, count: nat)
    requires Accurate(m, deals, width, kept) && Ordered(deals) && from % width == 0 && from >= kept && a <= from
    ensures MergeRange(Fold(Select(deals, a, from)), m, from, width, count)
            == Fold(Select(deals, a, from + count * width))
    decreases count
  {
    hide Accurate, Fold, Select, Join, Lookup;
    if count != 0 {
      MergeRangeIsFold(m, deals, width, kept, a, from, count - 1);
      var key := from + (count - 1) * width;
      assert key + width == from + count * width;
      BucketLookup(m, deals, width, kept, from, count - 1);
      SelectSplits(deals, a, key, key + width);
      FoldJoins(Select(deals, a, key), Select(deals, key, key + width));
    }
  }

  lemma BucketLookup(m: Buckets, deals: seq<Deal>, width: nat, kept: int, from: int, i: nat)
    requires Accurate(m, deals, width, kept) && from % width == 0 && from >= kept
    ensures var key := from + i * width;
            && Lookup(m, key) == Fold(Select(deals, key, key + width)) && key >= from
  {
    hide Fold, Select;
    var key := from + i * width;
    ProductMod(i, width);
    SumMod(from, i * width, width);
    ProductLess(0, i, width);
    assert Bucket(deals, key, width) == Fold(Select(deals, key, key + width));
  }

  lemma SumMod(a: int, b: int, width: nat)
    requires width > 0 && a % width == 0 && b % width == 0
    ensures (a + b) % width == 0
  {
    var p, q := a / width, b / width;
    assert a + b == (p + q) * width;
    ProductMod(p + q, width);
  }
}
