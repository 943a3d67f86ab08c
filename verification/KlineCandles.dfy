/** The candle lists of mp_message.c: merging a run of buckets per window, carrying the last
    close over empty windows, and what is lost where buckets have been cleared. */
module KlineCandles {
  import opened Common
  import opened Kline
  import opened KlineQueries

  const HOUR: nat := 3600

  datatype Candle = Candle(time: int, info: Info)

  /** get_last_kline: the newest bucket from `key` down to `bound`. */
  function LastBucket(m: Buckets, key: int, bound: int, width: nat): Option<Info>
    requires width > 0
    decreases key - bound
  {
    if key < bound then None
    else if key in m then Some(m[key])
    else LastBucket(m, key - width, bound, width)
  }

  /** The loop of the candle queries from `start` on; `last` is the close carried along. */
  function Candles(m: Buckets, start: int, end: int, width: nat, count: nat, last: Option<real>): seq<Candle>
    requires width > 0 && count > 0
    decreases end - start
  {
    if start > end then []
    else
      var k := MergeRange(None, m, start, width, count);
      StepForward(width, count);
      if k.None? && last.None? then Candles(m, start + count * width, end, width, count, last)
      else
        var c := if k.None? then New(last.value) else k.value;
        [Candle(start, c)] + Candles(m, start + count * width, end, width, count, Some(c.close))
  }

  lemma StepForward(width: nat, count: nat)
    requires width > 0 && count > 0
    ensures count * width > 0
  {
  }

  function CloseOf(k: Option<Info>): Option<real> {
    if k.None? then None else Some(k.value.close)
  }

  /** The reference: each window on its own, from the deals since `bound`. */
  function Expected(deals: seq<Deal>, bound: int, start: int, end: int, interval: nat): seq<Candle>
    requires interval > 0
    decreases end - start
  {
    if start > end then []
    else
      var inside := Fold(Select(deals, start, start + interval));
      var before := CloseOf(Fold(Select(deals, bound, start)));
      var rest := Expected(deals, bound, start + interval, end, interval);
      if inside.Some? then [Candle(start, inside.value)] + rest
      else if before.Some? then [Candle(start, New(before.value))] + rest
      else rest
  }

  /** What a window leaves as the close to carry: its own last deal or else the one before. */
  lemma CloseMoves(deals: seq<Deal>, bound: int, start: int, next: int)
    requires Ordered(deals) && bound <= start <= next
    ensures var inside := Fold(Select(deals, start, next));
            CloseOf(Fold(Select(deals, bound, next)))
            == if inside.Some? then CloseOf(inside) else CloseOf(Fold(Select(deals, bound, start)))
  {
    hide Fold, Select;
    SelectSplits(deals, bound, start, next);
    FoldJoins(Select(deals, bound, start), Select(deals, start, next));
  }

  /** Each candle is the fold of its own window's deals; a window without deals repeats the
      price of the last deal before it, and is left out when there is none. */
  lemma {:induction false} CandlesAreExpected(m: Buckets, deals: seq<Deal>, bound: int, start: int, end: int,
                                              width: nat, count: nat, kept: int, last: Option<real>)
    requires Accurate(m, deals, width, kept) && Ordered(deals) && count > 0 && count * width > 0
    requires start % width == 0 && kept <= start && bound <= start
    requires last == CloseOf(Fold(Select(deals, bound, start)))
    ensures Candles(m, start, end, width, count, last) == Expected(deals, bound, start, end, count * width)
    decreases end - start
  {
    hide Accurate, Fold, Select, MergeRange, CloseOf;
    if start <= end {
      var next := start + count * width;
      NoneFolds(deals, start);
      MergeRangeIsFold(m, deals, width, kept, start, start, count);
      CloseMoves(deals, bound, start, next);
      ProductMod(count, width);
      SumMod(start, count * width, width);
      CloseOfSome(MergeRange(None, m, start, width, count));
      CandlesAreExpected(m, deals, bound, next, end, width, count, kept, CloseOf(Fold(Select(deals, bound, next))));
    }
  }

  lemma CloseOfSome(k: Option<Info>)
    ensures k.Some? ==> CloseOf(k) == Some(k.value.close)
    ensures k.None? ==> CloseOf(k) == None
  {
  }

  /** The bucket found by looking back has the price of the last deal before `start`. */
  lemma {:induction false} LastBucketCloses(m: Buckets, deals: seq<Deal>, start: int, bound: int, width: nat, kept: int)
    requires Accurate(m, deals, width, kept) && Ordered(deals)
    requires start % width == 0 && bound % width == 0 && kept <= bound
    ensures CloseOf(LastBucket(m, start - width, bound, width))
            == CloseOf(Fold(Select(deals, bound, if bound <= start then start else bound)))
    decreases start - bound
  {
    hide Accurate, Fold, Select, CloseOf;
    if start <= bound {
      NoneFolds(deals, bound);
      AccurateIsPositive(m, deals, width, kept);
    } else {
      var key := start - width;
      AccurateIsPositive(m, deals, width, kept);
      SumMod(start, 0 - width, width);
      AlignedGap(bound, start, width);
      BucketLookup(m, deals, width, kept, key, 0);
      CloseMoves(deals, bound, key, start);
      CloseOfSome(Lookup(m, key));
      LastBucketCloses(m, deals, key, bound, width, kept);
    }
  }

  lemma AccurateIsPositive(m: Buckets, deals: seq<Deal>, width: nat, kept: int)
    requires Accurate(m, deals, width, kept)
    ensures width > 0
  {
  }

  lemma AlignedGap(a: int, b: int, width: nat)
    requires width > 0 && a % width == 0 && b % width == 0 && a < b
    ensures (0 - width) % width == 0 && a <= b - width
  {
    ProductMod(-1, width);
    var p, q := a / width, b / width;
    if q < p + 1 { ProductLess(q, p, width); }
    ProductLess(p + 1, q, width);
  }

  /** The answer of a query whose first window begins at `first`; the close before it is looked
      for down to `bound`. */
  function KlineFrom(m: Buckets, first: int, end: int, interval: nat, width: nat, bound: int): seq<Candle>
    requires width > 0 && interval >= width
  {
    Quotient(interval, width);
    Candles(m, first, end, width, interval / width, CloseOf(LastBucket(m, first - width, bound, width)))
  }

  lemma Quotient(interval: nat, width: nat)
    requires width > 0 && interval >= width
    ensures interval / width > 0
  {
  }

  /** The start asked for, or else the oldest second that is kept. */
  function Clipped(start: int, bound: int): int {
    if start < bound then bound else start
  }

  /** get_market_kline_sec and get_market_kline_min align the clipped start to the interval. */
  function KlineQuery(m: Buckets, start: int, end: int, interval: nat, width: nat, bound: int): seq<Candle>
    requires width > 0 && interval >= width
  {
    KlineFrom(m, Clipped(start, bound) / interval * interval, end, interval, width, bound)
  }

  /** get_market_kline_hour counts the intervals from the start of the local day instead. */
  function HourStart(day: int, start: int, interval: nat): int
    requires interval > 0
    decreases start - day
  {
    if day + interval <= start then HourStart(day + interval, start, interval) else day
  }

  function KlineHourQuery(m: Buckets, start: int, end: int, interval: nat, day: int, bound: int): seq<Candle>
    requires interval >= HOUR
  {
    KlineFrom(m, HourStart(day, Clipped(start, bound), interval), end, interval, HOUR, bound)
  }

  // ----- where buckets have been cleared

  ghost predicate Present(m: Buckets, d: Deal, width: nat)
    requires width > 0
  {
    BucketStart(d.time, width) in m
  }

  /** No deal of the seconds [a, b) lies in a bucket that has been cleared. */
  ghost predicate Complete(m: Buckets, deals: seq<Deal>, width: nat, a: int, b: int)
    requires width > 0
  {
    forall d :: d in deals && a <= d.time < b ==> Present(m, d, width)
  }

  ghost predicate Positive(deals: seq<Deal>) {
    forall d :: d in deals ==> d.amount > 0.0
  }

  lemma VolumeJoins(k: Option<Info>, u: Option<Info>)
    ensures Volume(Join(k, u)) == Volume(k) + Volume(u)
  {
  }

  lemma {:induction false} FoldHasVolume(deals: seq<Deal>)
    requires Positive(deals)
    ensures Volume(Fold(deals)) >= 0.0 && (deals != [] ==> Volume(Fold(deals)) > 0.0)
    decreases |deals|
  {
    if deals != [] {
      assert deals[|deals| - 1] in deals;
      FoldHasVolume(deals[..|deals| - 1]);
    }
  }

  /** One bucket holds all of its deals, or is missing and holds none of them. */
  lemma BucketIsWhole(m: Buckets, deals: seq<Deal>, width: nat, kept: int, key: int)
    requires Accurate(m, deals, width, kept) && key % width == 0 && Positive(deals)
    ensures var inside := Fold(Select(deals, key, key + width));
            if Complete(m, deals, width, key, key + width) then Lookup(m, key) == inside
            else Lookup(m, key) == None && Volume(inside) > 0.0
  {
    hide Fold, Select, BucketStart, Positive;
    var xs := Select(deals, key, key + width);
    assert Bucket(deals, key, width) == Fold(xs);
    forall d | d in deals && key <= d.time < key + width ensures BucketStart(d.time, width) == key && d in xs {
      AlignedStart(d.time, width, key);
      SelectIn(deals, key, key + width, d);
    }
    if key !in m {
      SelectIsPositive(deals, key, key + width);
      FoldHasVolume(xs);
      if Complete(m, deals, width, key, key + width) && xs != [] { SelectIn(deals, key, key + width, xs[0]); }
      FoldOfNone();
    }
  }

  lemma FoldOfNone()
    ensures Fold([]) == None
  {
  }

  lemma SelectIsPositive(deals: seq<Deal>, from: int, to: int)
    requires Positive(deals)
    ensures Positive(Select(deals, from, to))
  {
    forall d | d in Select(deals, from, to) ensures d.amount > 0.0 { SelectIn(deals, from, to, d); }
  }

  /** Merging a window whose buckets may be missing is the fold of its deals exactly when none of
      them lies in a missing bucket, and has less volume otherwise. */
  lemma {:induction false} MergeMisses(m: Buckets, deals: seq<Deal>, width: nat, kept: int, from: int, count: nat)
    requires Accurate(m, deals, width, kept) && Ordered(deals) && Positive(deals) && from % width == 0
    ensures var to := from + count * width;
            var k, inside := MergeRange(None, m, from, width, count), Fold(Select(deals, from, to));
            if Complete(m, deals, width, from, to) then k == inside else Volume(k) < Volume(inside)
    decreases count
  {
    hide Accurate, Fold, Select, Join, Lookup, Positive, Volume, Present;
    if count == 0 {
      NoneFolds(deals, from);
    } else {
      var key := from + (count - 1) * width;
      var to := from + count * width;
      assert key + width == to;
      AccurateIsPositive(m, deals, width, kept);
      ProductMod(count - 1, width);
      SumMod(from, (count - 1) * width, width);
      ProductLess(0, count - 1, width);
      MergeMisses(m, deals, width, kept, from, count - 1);
      BucketIsWhole(m, deals, width, kept, key);
      SelectSplits(deals, from, key, to);
      FoldJoins(Select(deals, from, key), Select(deals, key, to));
      VolumeJoins(MergeRange(None, m, from, width, count - 1), Lookup(m, key));
      VolumeJoins(Fold(Select(deals, from, key)), Fold(Select(deals, key, to)));
      VolumeOfNone();
      CompleteSplits(m, deals, width, from, key, to);
    }
  }

  lemma VolumeOfNone()
    ensures Volume(None) == 0.0
  {
  }

  lemma CompleteSplits(m: Buckets, deals: seq<Deal>, width: nat, a: int, b: int, c: int)
    requires width > 0 && a <= b <= c
    ensures Complete(m, deals, width, a, c)
            <==> Complete(m, deals, width, a, b) && Complete(m, deals, width, b, c)
  {
  }

  // ----- the whole query

  lemma {:induction false} CandlesComeLater(m: Buckets, start: int, end: int, width: nat, count: nat, last: Option<real>)
    requires width > 0 && count > 0
    ensures var cs := Candles(m, start, end, width, count, last); cs != [] ==> cs[0].time >= start
    decreases end - start
  {
    hide MergeRange;
    if start <= end {
      StepForward(width, count);
      CandlesComeLater(m, start + count * width, end, width, count, last);
    }
  }

  /** The seconds from which a window that starts at `first` takes the price before it. */
  function LooksBack(first: int, bound: int): int {
    if first < bound then first else bound
  }

  /** From the second window on everything is kept, so the list is the expected one as soon as the
      first window is. */
  lemma AfterFirst(m: Buckets, deals: seq<Deal>, first: int, end: int, width: nat, count: nat, bound: int, kept: int,
                   last: Option<real>)
    requires Accurate(m, deals, width, kept) && Ordered(deals) && count > 0 && count * width > 0
    requires first % width == 0 && kept <= first + count * width && first <= end
    requires bound <= first && last == CloseOf(Fold(Select(deals, bound, first)))
    requires MergeRange(None, m, first, width, count) == Fold(Select(deals, first, first + count * width))
    ensures Candles(m, first, end, width, count, last) == Expected(deals, bound, first, end, count * width)
  {
    hide Accurate, Fold, Select, MergeRange, CloseOf;
    var next := first + count * width;
    CloseMoves(deals, bound, first, next);
    ProductMod(count, width);
    SumMod(first, count * width, width);
    CloseOfSome(MergeRange(None, m, first, width, count));
    CandlesAreExpected(m, deals, bound, next, end, width, count, kept, CloseOf(Fold(Select(deals, bound, next))));
  }

  /** A first window with less volume than its deals spoils the list. */
  lemma SpoiltFirst(m: Buckets, deals: seq<Deal>, first: int, end: int, width: nat, count: nat, bound: int,
                    last: Option<real>)
    requires width > 0 && count > 0 && count * width > 0 && first <= end && Positive(deals)
    requires Volume(MergeRange(None, m, first, width, count))
             < Volume(Fold(Select(deals, first, first + count * width)))
    requires Volume(MergeRange(None, m, first, width, count)) >= 0.0
    ensures Candles(m, first, end, width, count, last) != Expected(deals, bound, first, end, count * width)
  {
    hide Fold, Select, MergeRange, Candles;
    var k, inside := MergeRange(None, m, first, width, count), Fold(Select(deals, first, first + count * width));
    assert inside.Some?;
    assert Expected(deals, bound, first, end, count * width)[0] == Candle(first, inside.value);
    FirstCandle(m, first, end, width, count, last);
  }

  lemma FirstCandle(m: Buckets, first: int, end: int, width: nat, count: nat, last: Option<real>)
    requires width > 0 && count > 0 && first <= end
    ensures var cs := Candles(m, first, end, width, count, last);
            cs != [] && cs[0].time == first ==> cs[0].info.volume == Volume(MergeRange(None, m, first, width, count))
  {
    hide MergeRange;
    StepForward(width, count);
    CandlesComeLater(m, first + count * width, end, width, count, last);
  }

  lemma {:induction false} MergeHasVolume(m: Buckets, deals: seq<Deal>, width: nat, kept: int, from: int, count: nat)
    requires Accurate(m, deals, width, kept) && Positive(deals) && from % width == 0
    ensures Volume(MergeRange(None, m, from, width, count)) >= 0.0
    decreases count
  {
    hide Accurate, Fold, Select, Join, Lookup, Positive, Volume, Present;
    VolumeOfNone();
    if count != 0 {
      var key := from + (count - 1) * width;
      AccurateIsPositive(m, deals, width, kept);
      ProductMod(count - 1, width);
      SumMod(from, (count - 1) * width, width);
      MergeHasVolume(m, deals, width, kept, from, count - 1);
      BucketIsWhole(m, deals, width, kept, key);
      SelectIsPositive(deals, key, key + width);
      FoldHasVolume(Select(deals, key, key + width));
      VolumeJoins(MergeRange(None, m, from, width, count - 1), Lookup(m, key));
    }
  }

  /** The answer is the expected one if and only if no deal of the first window lies in a bucket
      that has been cleared. */
  lemma FromIsExpectedIff(m: Buckets, deals: seq<Deal>, first: int, end: int, interval: nat, width: nat,
                          bound: int, kept: int)
    requires Accurate(m, deals, width, kept) && Ordered(deals) && Positive(deals)
    requires width > 0 && interval >= width && interval % width == 0 && first % width == 0
    requires bound % width == 0 && kept <= bound <= first + interval
    ensures KlineFrom(m, first, end, interval, width, bound)
            == Expected(deals, LooksBack(first, bound), first, end, interval)
            <==> first > end || Complete(m, deals, width, first, first + interval)
  {
    hide Accurate, Fold, Select, MergeRange, CloseOf, Candles, Expected, Complete, Positive, LastBucket;
    var count := interval / width;
    assert count * width == interval;
    Quotient(interval, width);
    var last := CloseOf(LastBucket(m, first - width, bound, width));
    if first > end {
      NothingAsked(m, deals, LooksBack(first, bound), first, end, width, count, last);
    } else {
      LookBackCloses(m, deals, first, bound, width, kept);
      MergeMisses(m, deals, width, kept, first, count);
      if Complete(m, deals, width, first, first + interval) {
        AfterFirst(m, deals, first, end, width, count, LooksBack(first, bound), kept, last);
      } else {
        MergeHasVolume(m, deals, width, kept, first, count);
        SpoiltFirst(m, deals, first, end, width, count, LooksBack(first, bound), last);
      }
    }
  }

  lemma NothingAsked(m: Buckets, deals: seq<Deal>, bound: int, start: int, end: int, width: nat, count: nat,
                     last: Option<real>)
    requires width > 0 && count > 0 && count * width > 0 && start > end
    ensures Candles(m, start, end, width, count, last) == [] == Expected(deals, bound, start, end, count * width)
  {
  }

  lemma LookBackCloses(m: Buckets, deals: seq<Deal>, first: int, bound: int, width: nat, kept: int)
    requires Accurate(m, deals, width, kept) && Ordered(deals)
    requires first % width == 0 && bound % width == 0 && kept <= bound
    ensures CloseOf(LastBucket(m, first - width, bound, width))
            == CloseOf(Fold(Select(deals, LooksBack(first, bound), first)))
  {
    hide Accurate, Fold, Select, CloseOf;
    LastBucketCloses(m, deals, first, bound, width, kept);
    NoneFolds(deals, first);
    NoneFolds(deals, bound);
  }

  /** Whatever is kept is complete, so a window that begins where buckets are kept is right. */
  lemma KeptIsComplete(m: Buckets, deals: seq<Deal>, width: nat, kept: int, a: int, b: int)
    requires Accurate(m, deals, width, kept) && Positive(deals) && kept <= a && a % width == 0
    ensures Complete(m, deals, width, a, b)
  {
    hide Fold, Select, Positive;
    forall d | d in deals && a <= d.time < b ensures Present(m, d, width) {
      var key := BucketStart(d.time, width);
      AlignedStart(d.time, width, key) by { ProductMod(d.time / width, width); }
      ProductMod(d.time / width, width);
      StartStays(d.time, a, width);
      BucketIsWhole(m, deals, width, kept, key);
      SelectIn(deals, key, key + width, d);
      assert Bucket(deals, key, width) == Fold(Select(deals, key, key + width));
      FoldOfSome(Select(deals, key, key + width));
    }
  }

  lemma FoldOfSome(deals: seq<Deal>)
    requires deals != []
    ensures Fold(deals).Some?
  {
  }

  lemma StartStays(time: int, a: int, width: nat)
    requires width > 0 && a % width == 0 && a <= time
    ensures BucketStart(time, width) >= a
  {
    var q, p := time / width, a / width;
    assert time == q * width + time % width;
    assert a == p * width;
    if q < p { ProductLess(q + 1, p, width); }
    ProductLess(p, if q < p then p else q, width);
  }

  lemma AlignedTo(x: int, interval: nat, width: nat)
    requires width > 0 && interval > 0 && interval % width == 0
    ensures (x / interval * interval) % width == 0 && x / interval * interval <= x < x / interval * interval + interval
  {
    var q, count := x / interval, interval / width;
    assert q * interval == (q * count) * width by { assert q * (count * width) == (q * count) * width; }
    ProductMod(q * count, width);
  }

  /** The whole query by seconds or minutes: each candle is that of its own window's deals, if and
      only if the first window, which may begin before what is kept, has lost no deal. */
  lemma QueryIsExpectedIff(m: Buckets, deals: seq<Deal>, start: int, end: int, interval: nat, width: nat,
                           bound: int, kept: int)
    requires Accurate(m, deals, width, kept) && Ordered(deals) && Positive(deals)
    requires width > 0 && interval >= width && interval % width == 0
    requires bound % width == 0 && kept <= bound
    ensures var first := Clipped(start, bound) / interval * interval;
            && (KlineQuery(m, start, end, interval, width, bound)
                == Expected(deals, LooksBack(first, bound), first, end, interval)
                <==> first > end || Complete(m, deals, width, first, first + interval))
            && (kept <= first ==> Complete(m, deals, width, first, first + interval))
  {
    hide Accurate, KlineFrom, Expected, Complete, Positive;
    var first := Clipped(start, bound) / interval * interval;
    AlignedTo(Clipped(start, bound), interval, width);
    FromIsExpectedIff(m, deals, first, end, interval, width, bound, kept);
    if kept <= first { KeptIsComplete(m, deals, width, kept, first, first + interval); }
  }

  lemma {:induction false} HourStartMeans(day: int, start: int, interval: nat)
    requires interval > 0 && interval % HOUR == 0 && day <= start
    ensures var first := HourStart(day, start, interval);
            day <= first <= start < first + interval && first % HOUR == day % HOUR
    decreases start - day
  {
    if day + interval <= start { HourStartMeans(day + interval, start, interval); }
  }

  /** The same by hours, when the local day starts on a full hour. */
  lemma HourQueryIsExpectedIff(m: Buckets, deals: seq<Deal>, start: int, end: int, interval: nat, day: int,
                               bound: int, kept: int)
    requires Accurate(m, deals, HOUR, kept) && Ordered(deals) && Positive(deals)
    requires interval >= HOUR && interval % HOUR == 0
    requires bound % HOUR == 0 && kept <= bound && day <= Clipped(start, bound) && day % HOUR == 0
    ensures var first := HourStart(day, Clipped(start, bound), interval);
            && (KlineHourQuery(m, start, end, interval, day, bound)
                == Expected(deals, LooksBack(first, bound), first, end, interval)
                <==> first > end || Complete(m, deals, HOUR, first, first + interval))
            && (kept <= first ==> Complete(m, deals, HOUR, first, first + interval))
  {
    hide Accurate, KlineFrom, Expected, Complete, Positive;
    var first := HourStart(day, Clipped(start, bound), interval);
    HourStartMeans(day, Clipped(start, bound), interval);
    FromIsExpectedIff(m, deals, first, end, interval, HOUR, bound, kept);
    if kept <= first { KeptIsComplete(m, deals, HOUR, kept, first, first + interval); }
  }

  /** Where the windows of a list end that begins at `start`. */
  function CoveredUntil(start: int, end: int, interval: nat): int
    requires interval > 0
    decreases end - start
  {
    if start > end then start else CoveredUntil(start + interval, end, interval)
  }

  ghost predicate Quiet(deals: seq<Deal>, a: int, b: int) {
    forall d :: d in deals ==> !(a <= d.time < b)
  }

  lemma QuietSelects(deals: seq<Deal>, a: int, b: int)
    ensures Fold(Select(deals, a, b)) == None <==> Quiet(deals, a, b)
  {
    var xs := Select(deals, a, b);
    forall d ensures d in xs <==> d in deals && a <= d.time < b { SelectIn(deals, a, b, d); }
    if xs != [] { assert xs[0] in xs; }
  }

  /** A list is expected to be empty when no deal lies in its windows or in its look-back. */
  lemma {:induction false} ExpectsNothingIff(deals: seq<Deal>, bound: int, start: int, end: int, interval: nat)
    requires interval > 0 && bound <= start
    ensures Expected(deals, bound, start, end, interval) == []
            <==> start > end || Quiet(deals, bound, CoveredUntil(start, end, interval))
    decreases end - start
  {
    hide Fold, Select;
    if start <= end {
      var next := start + interval;
      QuietSelects(deals, start, next);
      QuietSelects(deals, bound, start);
      CloseOfSome(Fold(Select(deals, bound, start)));
      ExpectsNothingIff(deals, bound, next, end, interval);
      CoveredGrows(next, end, interval);
    }
  }

  lemma {:induction false} CoveredGrows(start: int, end: int, interval: nat)
    requires interval > 0
    ensures CoveredUntil(start, end, interval) >= start
    decreases end - start
  {
    if start <= end { CoveredGrows(start + interval, end, interval); }
  }

  /** Where the local day does not start on a full hour, no hour bucket is ever found and the query
      answers with nothing; that is right if and only if no deal lies in the windows asked for or
      in the look-back. */
  lemma HalfHourZoneAnswersNothing(m: Buckets, deals: seq<Deal>, start: int, end: int, interval: nat, day: int,
                                   bound: int, kept: int)
    requires Accurate(m, deals, HOUR, kept) && interval >= HOUR && interval % HOUR == 0
    requires day <= Clipped(start, bound) && day % HOUR != 0
    ensures KlineHourQuery(m, start, end, interval, day, bound) == []
    ensures var first := HourStart(day, Clipped(start, bound), interval);
            var since := LooksBack(first, bound);
            KlineHourQuery(m, start, end, interval, day, bound) == Expected(deals, since, first, end, interval)
            <==> first > end || Quiet(deals, since, CoveredUntil(first, end, interval))
  {
    hide MergeRange, Candles, LastBucket, Expected, Quiet;
    var first := HourStart(day, Clipped(start, bound), interval);
    HourStartMeans(day, Clipped(start, bound), interval);
    Quotient(interval, HOUR);
    NoBucketBefore(m, deals, first - HOUR, bound, kept);
    NoCandles(m, deals, first, end, interval / HOUR, kept);
    ExpectsNothingIff(deals, LooksBack(first, bound), first, end, interval);
  }

  lemma {:induction false} NoBucketBefore(m: Buckets, deals: seq<Deal>, key: int, bound: int, kept: int)
    requires Accurate(m, deals, HOUR, kept) && key % HOUR != 0
    ensures LastBucket(m, key, bound, HOUR) == None
    decreases key - bound
  {
    hide Bucket;
    if key >= bound { NoBucketBefore(m, deals, key - HOUR, bound, kept); }
  }

  lemma {:induction false} NoBucketsIn(m: Buckets, deals: seq<Deal>, from: int, count: nat, kept: int)
    requires Accurate(m, deals, HOUR, kept) && from % HOUR != 0
    ensures MergeRange(None, m, from, HOUR, count) == None
    decreases count
  {
    hide Bucket;
    if count != 0 { NoBucketsIn(m, deals, from, count - 1, kept); }
  }

  lemma {:induction false} NoCandles(m: Buckets, deals: seq<Deal>, start: int, end: int, count: nat, kept: int)
    requires Accurate(m, deals, HOUR, kept) && start % HOUR != 0 && count > 0
    ensures Candles(m, start, end, HOUR, count, None) == []
    decreases end - start
  {
    hide Accurate, MergeRange;
    if start <= end {
      NoBucketsIn(m, deals, start, count, kept);
      StepForward(HOUR, count);
      NoCandles(m, deals, start + count * HOUR, end, count, kept);
    }
  }

  // ----- a clipped query that loses a deal

  const EARLY := Deal(7, 1.0, 1.0)
  const LATE := Deal(11, 2.0, 1.0)
  const LATE_CANDLE := Info(2.0, 2.0, 2.0, 2.0, 1.0, 2.0)
  const BOTH_CANDLE := Info(1.0, 2.0, 2.0, 1.0, 2.0, 3.0)

  lemma SelectOfTwo(a: int, b: int)
    ensures Select([EARLY, LATE], a, b)
            == (if a <= 7 < b then [EARLY] else []) + (if a <= 11 < b then [LATE] else [])
  {
    assert [EARLY, LATE][..1] == [EARLY];
    assert [EARLY][..0] == [];
    assert Select([EARLY], a, b) == if a <= 7 < b then [EARLY] else [];
  }

  lemma FoldOfTwo()
    ensures Fold([EARLY]) == Some(Info(1.0, 1.0, 1.0, 1.0, 1.0, 1.0))
    ensures Fold([LATE]) == Some(LATE_CANDLE)
    ensures Fold([EARLY, LATE]) == Some(BOTH_CANDLE)
  {
    assert [EARLY][..0] == [] && [LATE][..0] == [] && [EARLY, LATE][..1] == [EARLY];
  }

  lemma LateIsAccurate()
    ensures Accurate(map[11 := LATE_CANDLE], [EARLY, LATE], 1, 10)
  {
    hide Select, Fold;
    FoldOfTwo();
    FoldOfNone();
    forall key: int
      ensures key >= 10 ==> Bucket([EARLY, LATE], key, 1) == if key == 11 then Some(LATE_CANDLE) else None
    {
      SelectOfTwo(key, key + 1);
      var none: seq<Deal> := [];
      assert none + [LATE] == [LATE] && none + none == none;
    }
  }

  lemma {:induction false} NothingUntil(n: nat)
    requires n <= 5
    ensures MergeRange(None, map[11 := LATE_CANDLE], 6, 1, n) == None
  {
    if n != 0 { NothingUntil(n - 1); }
  }

  lemma LateMerges()
    ensures MergeRange(None, map[11 := LATE_CANDLE], 6, 1, 6) == Some(LATE_CANDLE)
  {
    NothingUntil(5);
    assert Lookup(map[11 := LATE_CANDLE], 11) == Some(LATE_CANDLE);
  }

  /** Two deals, at seconds 7 and 11, with the buckets before second 10 cleared.  Asked for all that
      is kept in candles of 6 seconds, the query answers a candle for the seconds 6 to 11 that
      holds the second deal only. */
  lemma ClippedQueryLosesADeal()
    ensures var m, deals := map[11 := LATE_CANDLE], [EARLY, LATE];
            && Accurate(m, deals, 1, 10) && Ordered(deals) && Positive(deals)
            && KlineQuery(m, 0, 11, 6, 1, 10) == [Candle(6, LATE_CANDLE)]
            && Expected(deals, 6, 6, 11, 6) == [Candle(6, BOTH_CANDLE)]
  {
    hide Select, Fold, MergeRange, Accurate;
    var m, deals := map[11 := LATE_CANDLE], [EARLY, LATE];
    LateIsAccurate();
    LateMerges();
    FoldOfTwo();
    SelectOfTwo(6, 12);
    assert [EARLY] + [LATE] == deals;
    EarlyThenLate();
    assert LastBucket(m, 5, 10, 1) == None;
    assert Candles(m, 12, 11, 1, 6, Some(2.0)) == [];
  }

  lemma EarlyThenLate()
    ensures Ordered([EARLY, LATE])
  {
    assert [EARLY, LATE][..1] == [EARLY] && [EARLY][..0] == [];
  }
}
