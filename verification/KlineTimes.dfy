/** Which windows the candle queries answer for: their times, without gaps, and a candle for every
    deal that is kept. */
module KlineTimes {
  import opened Common
  import opened Kline
  import opened KlineQueries
  import opened KlineCandles

  /** One candle after the other, from some window on to the last that begins by `end`. */
  ghost predicate Consecutive(cs: seq<Candle>, end: int, interval: nat) {
    && (forall i :: 0 <= i < |cs| ==> cs[i].time == cs[0].time + i * interval)
    && (cs != [] ==> cs[|cs| - 1].time <= end < cs[|cs| - 1].time + interval)
  }

  lemma {:induction false} CandleTimes(m: Buckets, first: int, end: int, width: nat, count: nat, last: Option<real>,
                                       interval: nat) returns (k: nat)
    requires width > 0 && count > 0 && interval == count * width && interval > 0
    ensures var cs := Candles(m, first, end, width, count, last);
            && Consecutive(cs, end, interval)
            && (cs != [] ==> cs[0].time == first + k * interval)
            && (last.Some? && first <= end ==> cs != [] && k == 0)
    decreases end - first
  {
    hide MergeRange, Consecutive;
    k := 0;
    var cs := Candles(m, first, end, width, count, last);
    if first <= end {
      var u := MergeRange(None, m, first, width, count);
      if u.None? && last.None? {
        var k1 := CandleTimes(m, first + interval, end, width, count, last, interval);
        k := k1 + 1;
        NextMultiple(k1, interval);
      } else {
        var c := if u.None? then New(last.value) else u.value;
        var rest := Candles(m, first + interval, end, width, count, Some(c.close));
        var k1 := CandleTimes(m, first + interval, end, width, count, Some(c.close), interval);
        assert cs == [Candle(first, c)] + rest;
        NextMultiple(0, interval);
        OneMoreTime(Candle(first, c), rest, end, interval);
      }
    } else {
      NoTimes(cs, end, interval);
    }
  }

  lemma NoTimes(cs: seq<Candle>, end: int, interval: nat)
    requires cs == []
    ensures Consecutive(cs, end, interval)
  {
  }

  lemma NextMultiple(k: nat, n: nat)
    ensures (k + 1) * n == k * n + n && 0 * n == 0
  {
  }

  lemma OneMoreTime(c: Candle, rest: seq<Candle>, end: int, interval: nat)
    requires Consecutive(rest, end, interval) && interval > 0 && c.time <= end
    requires if c.time + interval <= end then rest != [] && rest[0].time == c.time + interval else rest == []
    ensures Consecutive([c] + rest, end, interval)
  {
    var cs := [c] + rest;
    forall i | 0 <= i < |cs| ensures cs[i].time == cs[0].time + i * interval {
      if i > 0 {
        assert cs[i] == rest[i - 1] && rest[i - 1].time == rest[0].time + (i - 1) * interval;
        assert (i - 1) * interval + interval == i * interval;
      }
    }
  }

  /** The answer of a query whose first window begins at `first`: whole intervals from there, one after
      the other, up to the last that begins by `end`. */
  lemma FromTimes(m: Buckets, first: int, end: int, interval: nat, width: nat, bound: int)
    requires width > 0 && interval >= width && interval % width == 0
    ensures var cs := KlineFrom(m, first, end, interval, width, bound);
            && Consecutive(cs, end, interval)
            && (forall i :: 0 <= i < |cs| ==> first <= cs[i].time && (cs[i].time - first) % interval == 0)
  {
    hide Candles, LastBucket, Consecutive;
    var count := interval / width;
    Quotient(interval, width);
    assert count * width == interval;
    var k := CandleTimes(m, first, end, width, count, CloseOf(LastBucket(m, first - width, bound, width)), interval);
    var cs := KlineFrom(m, first, end, interval, width, bound);
    WholeIntervals(cs, first, end, interval, k);
  }

  lemma WholeIntervals(cs: seq<Candle>, first: int, end: int, interval: nat, k: nat)
    requires Consecutive(cs, end, interval) && interval > 0 && (cs != [] ==> cs[0].time == first + k * interval)
    ensures forall i :: 0 <= i < |cs| ==> first <= cs[i].time && (cs[i].time - first) % interval == 0
  {
    forall i | 0 <= i < |cs| ensures first <= cs[i].time && (cs[i].time - first) % interval == 0 {
      assert cs[i].time - first == (k + i) * interval by { assert k * interval + i * interval == (k + i) * interval; }
      ProductMod(k + i, interval);
      ProductLess(0, k + i, interval);
    }
  }

  /** The windows of a query by seconds or minutes are whole intervals since the epoch, the first of
      them the one that holds the start asked for, or the oldest second that is kept. */
  lemma QueryTimes(m: Buckets, start: int, end: int, interval: nat, width: nat, bound: int)
    requires width > 0 && interval >= width && interval % width == 0
    ensures var cs := KlineQuery(m, start, end, interval, width, bound);
            var since := if start < bound then bound else start;
            && Consecutive(cs, end, interval)
            && (forall i :: 0 <= i < |cs| ==> cs[i].time % interval == 0 && since < cs[i].time + interval)
  {
    hide KlineFrom, Consecutive;
    var since := if start < bound then bound else start;
    var first := since / interval * interval;
    AlignedTo(since, interval, width);
    ProductMod(since / interval, interval);
    FromTimes(m, first, end, interval, width, bound);
    var cs := KlineQuery(m, start, end, interval, width, bound);
    forall i | 0 <= i < |cs| ensures cs[i].time % interval == 0 && since < cs[i].time + interval {
      SumMod(cs[i].time - first, first, interval);
    }
  }

  lemma {:induction false} HourStartIsWhole(day: int, start: int, interval: nat)
    requires interval > 0 && day <= start
    ensures var first := HourStart(day, start, interval);
            day <= first <= start < first + interval && (first - day) % interval == 0
    decreases start - day
  {
    if day + interval <= start {
      HourStartIsWhole(day + interval, start, interval);
      var first := HourStart(day, start, interval);
      assert first - day == (first - (day + interval)) + interval;
      ProductMod(1, interval);
      SumMod(first - (day + interval), interval, interval);
    }
  }

  /** The windows of a query by hours are whole intervals since the start of the local day. */
  lemma HourQueryTimes(m: Buckets, start: int, end: int, interval: nat, day: int, bound: int)
    requires interval >= 3600 && interval % 3600 == 0 && day <= start && day <= bound
    ensures var cs := KlineHourQuery(m, start, end, interval, day, bound);
            var since := if start < bound then bound else start;
            && Consecutive(cs, end, interval)
            && (forall i :: 0 <= i < |cs| ==> (cs[i].time - day) % interval == 0 && since < cs[i].time + interval)
  {
    hide KlineFrom, Consecutive;
    var since := if start < bound then bound else start;
    HourStartIsWhole(day, since, interval);
    var first := HourStart(day, since, interval);
    FromTimes(m, first, end, interval, HOUR, bound);
    var cs := KlineHourQuery(m, start, end, interval, day, bound);
    forall i | 0 <= i < |cs| ensures (cs[i].time - day) % interval == 0 && since < cs[i].time + interval {
      SumMod(cs[i].time - first, first - day, interval);
    }
  }

  // ----- no deal is left out

  lemma {:induction false} MergeFinds(m: Buckets, from: int, width: nat, count: nat, i: nat)
    requires i < count && from + i * width in m
    ensures MergeRange(None, m, from, width, count).Some?
    decreases count
  {
    hide Merge;
    if i < count - 1 { MergeFinds(m, from, width, count - 1, i); }
  }

  lemma {:induction false} WindowHasCandle(m: Buckets, first: int, end: int, width: nat, count: nat, last: Option<real>,
                                           k: nat) returns (i: nat)
    requires width > 0 && count > 0
    requires var t := first + k * (count * width); t <= end && MergeRange(None, m, t, width, count).Some?
    ensures var cs := Candles(m, first, end, width, count, last);
            i < |cs| && cs[i].time == first + k * (count * width)
    decreases end - first
  {
    hide MergeRange;
    var interval := count * width;
    StepForward(width, count);
    ProductLess(0, k, interval);
    assert 0 * interval == 0;
    var u := MergeRange(None, m, first, width, count);
    if k == 0 {
      i := 0;
    } else {
      assert first + interval + (k - 1) * interval == first + k * interval;
      var next := if u.Some? then Some(u.value.close) else last;
      i := WindowHasCandle(m, first + interval, end, width, count, next, k - 1);
      if u.Some? || last.Some? {
        var c := if u.None? then New(last.value) else u.value;
        var rest := Candles(m, first + interval, end, width, count, Some(c.close));
        assert Candles(m, first, end, width, count, last) == [Candle(first, c)] + rest;
        i := i + 1;
      }
    }
  }

  lemma LessOfProducts(p: int, q: int, width: nat)
    requires p * width < q * width
    ensures p < q
  {
    if p >= q { ProductLess(q, p, width); }
  }

  lemma ZeroProduct(n: int, width: nat)
    requires width > 0 && n * width == 0
    ensures n == 0
  {
    if n > 0 { ProductLess(1, n, width); }
    if n < 0 { ProductLess(n, -1, width); }
  }

  lemma QuotientOf(n: int, width: nat)
    requires width > 0
    ensures n * width / width == n
  {
    var q := n * width / width;
    ProductMod(n, width);
    assert n * width == q * width;
    assert (n - q) * width == n * width - q * width;
    ZeroProduct(n - q, width);
  }

  lemma Within(time: int, width: nat)
    requires width > 0
    ensures time / width * width <= time < (time / width + 1) * width
  {
    var q := time / width;
    assert time == q * width + time % width;
    assert (q + 1) * width == q * width + width;
  }

  lemma IndexInWindow(time: int, q: int, b: int, count: nat, width: nat)
    requires q * width <= time < (q + 1) * width && b * width <= time < (b + count) * width
    ensures b <= q < b + count
  {
    LessOfProducts(b, q + 1, width);
    LessOfProducts(q, b + count, width);
  }

  /** The bucket of a second within its window, which is the a-th of the day or of all time. */
  lemma BucketInWindow(time: int, a: int, interval: nat, width: nat, count: nat)
    requires width > 0 && count * width == interval && a * interval <= time < (a + 1) * interval
    ensures var i := (BucketStart(time, width) - a * interval) / width;
            0 <= i < count && a * interval + i * width == BucketStart(time, width)
  {
    var q, b := time / width, a * count;
    Within(time, width);
    assert b * width == a * interval by { Assoc(a, count, width); }
    assert (b + count) * width == (a + 1) * interval by {
      assert (b + count) * width == b * width + count * width;
      assert (a + 1) * interval == a * interval + interval;
    }
    IndexInWindow(time, q, b, count, width);
    assert q * width - b * width == (q - b) * width;
    QuotientOf(q - b, width);
  }

  lemma Assoc(a: int, b: int, c: int)
    ensures (a * b) * c == a * (b * c)
  {
  }

  lemma QuotientGrows(a: int, b: int, n: nat)
    requires n > 0 && a <= b
    ensures a / n <= b / n
  {
    Within(a, n);
    Within(b, n);
    LessOfProducts(a / n, b / n + 1, n);
  }

  /** The window of a second that is `k` windows after the first one. */
  lemma SecondHasCandle(m: Buckets, first: int, end: int, interval: nat, width: nat, bound: int, time: int,
                        p: int, k: nat) returns (i: nat)
    requires width > 0 && interval >= width && interval % width == 0 && first == p * interval
    requires (p + k) * interval <= time < (p + k + 1) * interval && time <= end && BucketStart(time, width) in m
    ensures var cs := KlineFrom(m, first, end, interval, width, bound);
            i < |cs| && cs[i].time <= time < cs[i].time + interval
  {
    hide Candles, LastBucket, MergeRange, BucketStart;
    var count := interval / width;
    assert count * width == interval;
    Quotient(interval, width);
    var t := (p + k) * interval;
    assert t == first + k * interval && (p + k + 1) * interval == t + interval by {
      assert (p + k) * interval == p * interval + k * interval;
      assert (p + k + 1) * interval == (p + k) * interval + interval;
    }
    BucketInWindow(time, p + k, interval, width, count);
    MergeFinds(m, t, width, count, (BucketStart(time, width) - t) / width);
    i := WindowHasCandle(m, first, end, width, count, CloseOf(LastBucket(m, first - width, bound, width)), k);
  }

  /** Every deal whose bucket is kept lies in a window with a candle: one from the start asked for, or
      the oldest second that is kept, to the end. */
  lemma DealHasCandle(m: Buckets, start: int, end: int, interval: nat, width: nat, bound: int, d: Deal)
      returns (i: nat)
    requires width > 0 && interval >= width && interval % width == 0
    requires Present(m, d, width) && start <= d.time <= end && bound <= d.time
    ensures var cs := KlineQuery(m, start, end, interval, width, bound);
            i < |cs| && cs[i].time <= d.time < cs[i].time + interval
  {
    hide KlineFrom, BucketStart;
    var since := if start < bound then bound else start;
    QuotientGrows(since, d.time, interval);
    Within(d.time, interval);
    var p, q := since / interval, d.time / interval;
    i := SecondHasCandle(m, p * interval, end, interval, width, bound, d.time, p, q - p);
  }
}
