/** The rolling status of mp_message.c, summed over second and minute buckets. */
module KlineQueries {
  import opened Common
  import opened Kline

  const MINUTE: nat := 60

  // ----- get_market_status

  function StartMinute(start: int): int {
    start / MINUTE * MINUTE + MINUTE
  }

  /** How many minutes of the second loop begin before `now`. */
  function Minutes(startMin: int, now: int): nat {
    if now <= startMin then 0 else (now - startMin + 59) / MINUTE
  }

  function WindowEnd(start: int, now: int): int {
    StartMinute(start) + Minutes(StartMinute(start), now) * MINUTE
  }

  /** Seconds up to the next minute, then whole minutes. */
  function Collected(sec: Buckets, min: Buckets, now: int, period: nat): Option<Info> {
    var start := now - period;
    var startMin := StartMinute(start);
    MergeRange(MergeRange(None, sec, start, 1, startMin - start), min, startMin, MINUTE, Minutes(startMin, now))
  }

  function Status(sec: Buckets, min: Buckets, now: int, period: nat): Info {
    var k := Collected(sec, min, now, period);
    if k.None? then New(0.0) else k.value
  }

  /** The two loops together cover [start, end) without gap or overlap; `end` is `now` itself
      exactly when a minute begins at `now`, and lies beyond it otherwise. */
  lemma WindowMeans(start: int, now: int)
    requires start < now
    ensures start < StartMinute(start) <= WindowEnd(start, now) && StartMinute(start) <= start + MINUTE
    ensures now <= WindowEnd(start, now)
    ensures WindowEnd(start, now) == now <==> now % MINUTE == 0 && StartMinute(start) <= now
  {
  }

  lemma CollectedIsFold(sec: Buckets, min: Buckets, deals: seq<Deal>, keptSec: int, keptMin: int, now: int, period: nat)
    requires Ordered(deals) && Accurate(sec, deals, 1, keptSec) && Accurate(min, deals, MINUTE, keptMin)
    requires period > 0 && now - period >= keptSec && StartMinute(now - period) >= keptMin
    ensures Collected(sec, min, now, period) == Fold(Select(deals, now - period, WindowEnd(now - period, now)))
  {
    hide Accurate, Fold, Select, MergeRange;
    var start := now - period;
    var startMin := StartMinute(start);
    WindowMeans(start, now);
    NoneFolds(deals, start);
    MergeRangeIsFold(sec, deals, 1, keptSec, start, start, startMin - start);
    MergeRangeIsFold(min, deals, MINUTE, keptMin, start, startMin, Minutes(startMin, now));
  }

  lemma NoneFolds(deals: seq<Deal>, a: int)
    ensures Fold(Select(deals, a, a)) == None
  {
    SelectNone(deals, a);
  }

  predicate OnMinute(start: int, now: int) {
    now % MINUTE == 0 && StartMinute(start) <= now
  }

  ghost predicate Known(deals: seq<Deal>, now: int) {
    forall d :: d in deals ==> d.time <= now && d.amount > 0.0
  }

  /** The status is the candle of all deals of the last `period` seconds and of the current one, all
      zeros if there are none, unless a minute begins right now: then it misses the deals of the
      current second, and it is right exactly when there are none. */
  lemma StatusCovers(sec: Buckets, min: Buckets, deals: seq<Deal>, keptSec: int, keptMin: int, now: int, period: nat)
    requires Ordered(deals) && Accurate(sec, deals, 1, keptSec) && Accurate(min, deals, MINUTE, keptMin)
    requires period > 0 && now - period >= keptSec && StartMinute(now - period) >= keptMin
    requires Known(deals, now)
    ensures Collected(sec, min, now, period) == Fold(Select(deals, now - period, now + 1))
            <==> !OnMinute(now - period, now) || Select(deals, now, now + 1) == []
    ensures var k := Collected(sec, min, now, period);
            Status(sec, min, now, period) == if k.Some? then k.value else Info(0.0, 0.0, 0.0, 0.0, 0.0, 0.0)
  {
    hide Accurate, Fold, Collected;
    var start := now - period;
    var end := WindowEnd(start, now);
    CollectedIsFold(sec, min, deals, keptSec, keptMin, now, period);
    WindowMeans(start, now);
    if end > now {
      NoneLater(deals, now, end);
      SelectSplits(deals, start, now + 1, end);
      assert Select(deals, start, now + 1) + [] == Select(deals, start, now + 1);
    } else {
      SelectSplits(deals, start, now, now + 1);
      var xs, ys := Select(deals, start, now), Select(deals, now, now + 1);
      if ys == [] {
        assert xs + [] == xs;
      } else {
        forall d | d in ys ensures d.amount > 0.0 { SelectIn(deals, now, now + 1, d); }
        MoreVolume(xs, ys);
      }
    }
  }

  lemma NoneLater(deals: seq<Deal>, now: int, end: int)
    requires Known(deals, now)
    ensures Select(deals, now + 1, end) == []
  {
    var late := Select(deals, now + 1, end);
    if late != [] { SelectIn(deals, now + 1, end, late[0]); }
  }

  function Volume(k: Option<Info>): real {
    if k.None? then 0.0 else k.value.volume
  }

  lemma {:induction false} MoreVolume(xs: seq<Deal>, ys: seq<Deal>)
    requires ys != [] && forall d :: d in ys ==> d.amount > 0.0
    ensures Volume(Fold(xs + ys)) > Volume(Fold(xs))
    decreases |ys|
  {
    var d, before := ys[|ys| - 1], ys[..|ys| - 1];
    assert (xs + ys)[..|xs + ys| - 1] == xs + before;
    assert d in ys;
    if before == [] {
      assert xs + before == xs;
    } else {
      assert forall e :: e in before ==> e in ys;
      MoreVolume(xs, before);
    }
  }
}
