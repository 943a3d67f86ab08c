/** A market of marketprice as it runs: buckets updated by each deal, and the queries as loops
    over them. The local-time day bucket is not part of this model. */
module KlineMarket {
  import opened Common
  import opened Kline
  import opened KlineCandles
  import opened KlineQueries

  class MarketInfo {
    var sec: Buckets
    var min: Buckets
    var hour: Buckets
    var last: real

    /** Every deal so far; the source keeps only the newest ones. */
    ghost var deals: seq<Deal>

    ghost predicate Valid(keptSec: int, keptMin: int, keptHour: int)
      reads this
    {
      && Ordered(deals)
      && Accurate(sec, deals, 1, keptSec) && Accurate(min, deals, 60, keptMin) && Accurate(hour, deals, 3600, keptHour)
    }

    constructor (price: real)
      ensures sec == map[] && min == map[] && hour == map[] && deals == []
      ensures forall s, m, h :: Valid(s, m, h)
    {
      sec, min, hour, last := map[], map[], map[], price;
      deals := [];
    }

    /** One stanza of market_update. */
    static method UpdateBucket(m: Buckets, d: Deal, width: nat) returns (r: Buckets)
      requires width > 0
      ensures r == Store(m, d, width)
    {
      var key := BucketStart(d.time, width);
      var kinfo := new KlineInfo(d.price);
      if key in m {
        kinfo.Load(m[key]);
      }
      kinfo.UpdateWith(d.price, d.amount);
      var k := kinfo.Read();
      r := m[key := k];
    }

    method MarketUpdate(d: Deal, ghost keptSec: int, ghost keptMin: int, ghost keptHour: int)
      requires Valid(keptSec, keptMin, keptHour)
      requires deals != [] ==> deals[|deals| - 1].time <= d.time
      requires keptSec <= BucketStart(d.time, 1) && keptMin <= BucketStart(d.time, 60)
      requires keptHour <= BucketStart(d.time, 3600)
      modifies this
      ensures deals == old(deals) + [d] && Valid(keptSec, keptMin, keptHour) && last == d.price
      ensures sec == Store(old(sec), d, 1) && min == Store(old(min), d, 60) && hour == Store(old(hour), d, 3600)
    {
      hide Accurate, Store;
      StoreIsAccurate(sec, deals, d, 1, keptSec);
      StoreIsAccurate(min, deals, d, 60, keptMin);
      StoreIsAccurate(hour, deals, d, 3600, keptHour);
      sec := UpdateBucket(sec, d, 1);
      min := UpdateBucket(min, d, 60);
      hour := UpdateBucket(hour, d, 3600);
      last := d.price;
      assert (deals + [d])[..|deals|] == deals;
      deals := deals + [d];
    }

    /** clear_kline for this market. */
    method ClearKline(secFrom: int, minFrom: int, hourFrom: int,
                      ghost keptSec: int, ghost keptMin: int, ghost keptHour: int)
      requires Valid(keptSec, keptMin, keptHour)
      modifies this
      ensures deals == old(deals) && last == old(last)
      ensures sec == Clear(old(sec), secFrom) && min == Clear(old(min), minFrom) && hour == Clear(old(hour), hourFrom)
      ensures Valid(if secFrom > keptSec then secFrom else keptSec, if minFrom > keptMin then minFrom else keptMin,
                    if hourFrom > keptHour then hourFrom else keptHour)
    {
      hide Accurate, Clear;
      ClearIsAccurate(sec, deals, 1, keptSec, secFrom);
      ClearIsAccurate(min, deals, 60, keptMin, minFrom);
      ClearIsAccurate(hour, deals, 3600, keptHour, hourFrom);
      sec := ClearDict(sec, secFrom);
      min := ClearDict(min, minFrom);
      hour := ClearDict(hour, hourFrom);
    }

    static lemma SomeMember(s: set<int>)
      ensures s == {} || exists key :: key in s
    {
      if forall key :: key !in s { assert s == {}; }
    }

    static method ClearDict(m: Buckets, start: int) returns (r: Buckets)
      ensures r == Clear(m, start)
    {
      r := m;
      var left: set<int> := m.Keys;
      while left != {}
        invariant left <= m.Keys
        invariant r == map key | key in m && (key in left || key >= start) :: m[key]
        decreases left
      {
        SomeMember(left);
        var key :| key in left;
        left := left - {key};
        if key < start {
          r := r - {key};
        }
      }
    }

    /** The body of every accumulation loop: look the bucket up and merge it. */
    static method MergeBucket(k: Option<Info>, m: Buckets, timestamp: int) returns (r: Option<Info>)
      ensures r == Join(k, Lookup(m, timestamp))
    {
      if timestamp !in m {
        return k;
      }
      var sinfo := m[timestamp];
      var kinfo := new KlineInfo(sinfo.open);
      if k.Some? {
        kinfo.Load(k.value);
      }
      kinfo.MergeWith(sinfo);
      var merged := kinfo.Read();
      return Some(merged);
    }

    /** get_market_status: what it answers besides `last`. */
    method GetMarketStatus(now: int, period: nat) returns (k: Info)
      ensures k == Status(sec, min, now, period)
    {
      hide Join, Lookup;
      var start := now - period;
      var startMin := start / 60 * 60 + 60;
      var kinfo := None;
      var timestamp := start;
      while timestamp < startMin
        invariant start <= timestamp <= startMin
        invariant kinfo == MergeRange(None, sec, start, 1, timestamp - start)
      {
        kinfo := MergeBucket(kinfo, sec, timestamp);
        timestamp := timestamp + 1;
      }
      ghost var seconds := kinfo;
      ghost var i := 0;
      timestamp := startMin;
      while timestamp < now
        invariant timestamp == startMin + i * 60 && 0 <= i <= Minutes(startMin, now)
        invariant timestamp >= now ==> i == Minutes(startMin, now)
        invariant kinfo == MergeRange(seconds, min, startMin, 60, i)
      {
        kinfo := MergeBucket(kinfo, min, timestamp);
        timestamp := timestamp + 60;
        i := i + 1;
      }
      return if kinfo.None? then New(0.0) else kinfo.value;
    }

    /** get_last_kline */
    static method GetLastKline(m: Buckets, start: int, end: int, width: nat) returns (r: Option<Info>)
      requires width > 0
      ensures r == LastBucket(m, start, end, width)
    {
      var key := start;
      while key >= end
        invariant LastBucket(m, key, end, width) == LastBucket(m, start, end, width)
        decreases key - end
      {
        if key in m {
          return Some(m[key]);
        }
        key := key - width;
      }
      return None;
    }

    /** get_market_kline_sec (`width` 1) and get_market_kline_min (`width` 60). */
    static method GetMarketKline(m: Buckets, start: int, end: int, interval: nat, width: nat, bound: int)
      returns (result: seq<Candle>)
      requires width > 0 && interval >= width && interval % width == 0
      ensures result == KlineQuery(m, start, end, interval, width, bound)
    {
      var from := if start < bound then bound else start;
      from := from / interval * interval;
      result := Collect(m, from, end, interval, width, bound);
    }

    /** get_market_kline_hour; `day` is where the local day of the clipped start begins. */
    static method GetMarketKlineHour(m: Buckets, start: int, end: int, interval: nat, day: int, bound: int)
      returns (result: seq<Candle>)
      requires interval >= HOUR && interval % HOUR == 0
      ensures result == KlineHourQuery(m, start, end, interval, day, bound)
    {
      var from := if start < bound then bound else start;
      var base := day;
      while base + interval <= from
        invariant HourStart(base, from, interval) == HourStart(day, from, interval)
        decreases from - base
      {
        base := base + interval;
      }
      result := Collect(m, base, end, interval, HOUR, bound);
    }

    /** The loop that the three queries share. */
    static method Collect(m: Buckets, first: int, end: int, interval: nat, width: nat, bound: int)
      returns (result: seq<Candle>)
      requires width > 0 && interval >= width && interval % width == 0
      ensures result == KlineFrom(m, first, end, interval, width, bound)
    {
      hide Join, Lookup, LastBucket;
      var from := first;
      Quotient(interval, width);
      var klast := GetLastKline(m, from - width, bound, width);
      var last := CloseOf(klast);
      ghost var whole := Candles(m, from, end, width, interval / width, last);
      result := [];
      while from <= end
        invariant result + Candles(m, from, end, width, interval / width, last) == whole
        decreases end - from
      {
        var kinfo := None;
        var i := 0;
        while i < interval / width
          invariant 0 <= i <= interval / width
          invariant kinfo == MergeRange(None, m, from, width, i)
        {
          kinfo := MergeBucket(kinfo, m, from + i * width);
          i := i + 1;
        }
        ghost var before := result;
        if kinfo.Some? || last.Some? {
          var c := if kinfo.None? then New(last.value) else kinfo.value;
          result := result + [Candle(from, c)];
          last := Some(c.close);
          assert forall rest: seq<Candle> :: before + ([Candle(from, c)] + rest) == result + rest;
        }
        assert interval / width * width == interval;
        from := from + interval;
      }
      assert result + [] == result;
    }
  }
}
