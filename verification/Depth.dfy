/** The depth differ of accessws/src/aw_depth.c and what a client does with its output. */
module Depth {
  import opened Common

  datatype Level = Level(price: real, amount: real)
  datatype Side = Asks | Bids
  type Levels = seq<Level>

  /** `p` comes before `q` in a list of this side (mpd_cmp times the side's sign). */
  predicate Better(p: real, q: real, side: Side) {
    if side.Asks? then p < q else p > q
  }

  /** Best level first, one level a price, nothing empty. */
  predicate Sorted(l: Levels, side: Side) {
    l == [] || (l[0].amount > 0.0 && AllWorse(l[0].price, l[1..], side) && Sorted(l[1..], side))
  }

  predicate AllWorse(p: real, l: Levels, side: Side) {
    l == [] || (Better(p, l[0].price, side) && AllWorse(p, l[1..], side))
  }

  predicate ProperList(l: Levels, side: Side, limit: nat) {
    Sorted(l, side) && |l| <= limit
  }

  // ----- the diff as a function

  function Deleted(u: Level): Level {
    u.(amount := 0.0)
  }

  function Deletes(l: Levels): Levels {
    if l == [] then [] else [Deleted(l[0])] + Deletes(l[1..])
  }

  /** get_list_diff before the test for emptiness; `full` says the new list fills the limit. */
  function ListDiff(old_: Levels, new_: Levels, side: Side, full: bool): Levels
    decreases |old_| + |new_|
  {
    if old_ == [] then new_
    else if new_ == [] then if full then [] else Deletes(old_)
    else
      var u, v := old_[0], new_[0];
      if u.price == v.price then
        (if u.amount != v.amount then [v] else []) + ListDiff(old_[1..], new_[1..], side, full)
      else if Better(v.price, u.price, side) then [v] + ListDiff(old_, new_[1..], side, full)
      else [Deleted(u)] + ListDiff(old_[1..], new_, side, full)
  }

  lemma DiffSteps(old_: Levels, new_: Levels, i: nat, j: nat, side: Side, full: bool)
    requires i < |old_| && j < |new_|
    ensures var u, v := old_[i], new_[j];
            ListDiff(old_[i..], new_[j..], side, full)
            == if u.price == v.price then
                 (if u.amount != v.amount then [v] else []) + ListDiff(old_[i + 1..], new_[j + 1..], side, full)
               else if Better(v.price, u.price, side) then [v] + ListDiff(old_[i..], new_[j + 1..], side, full)
               else [Deleted(u)] + ListDiff(old_[i + 1..], new_[j..], side, full)
  {
    assert old_[i..][1..] == old_[i + 1..] && new_[j..][1..] == new_[j + 1..];
  }

  /** The first loop of get_list_diff: two cursors walk the lists as their prices compare,
      until one list is exhausted. */
  method Walk(old_: Levels, new_: Levels, side: Side, ghost full: bool) returns (diff: Levels, i: nat, j: nat)
    ensures i <= |old_| && j <= |new_| && (i == |old_| || j == |new_|)
    ensures diff + ListDiff(old_[i..], new_[j..], side, full) == ListDiff(old_, new_, side, full)
  {
    hide ListDiff, Better;
    diff, i, j := [], 0, 0;
    while i < |old_| && j < |new_|
      invariant i <= |old_| && j <= |new_|
      invariant diff + ListDiff(old_[i..], new_[j..], side, full) == ListDiff(old_, new_, side, full)
    {
      var u, v := old_[i], new_[j];
      DiffSteps(old_, new_, i, j, side, full);
      if u.price == v.price {
        i, j := i + 1, j + 1;
        if u.amount != v.amount {
          diff := diff + [v];
        }
      } else if Better(v.price, u.price, side) {
        j := j + 1;
        diff := diff + [v];
      } else {
        i := i + 1;
        diff := diff + [Level(u.price, 0.0)];
      }
    }
  }

  /** The second loop of get_list_diff: what is left of the old list is deleted. */
  method DeleteRest(diff: Levels, old_: Levels, i: nat) returns (r: Levels)
    requires i <= |old_|
    ensures r == diff + Deletes(old_[i..])
  {
    r := diff;
    var k := i;
    while k < |old_|
      invariant i <= k <= |old_|
      invariant r + Deletes(old_[k..]) == diff + Deletes(old_[i..])
    {
      assert old_[k..][1..] == old_[k + 1..];
      r := r + [Level(old_[k].price, 0.0)];
      k := k + 1;
    }
    assert r + [] == r;
  }

  /** The third loop: what is left of the new list is appended. */
  method AppendRest(diff: Levels, new_: Levels, j: nat) returns (r: Levels)
    requires j <= |new_|
    ensures r == diff + new_[j..]
  {
    r := diff;
    var k := j;
    while k < |new_|
      invariant j <= k <= |new_|
      invariant r + new_[k..] == diff + new_[j..]
    {
      r := r + [new_[k]];
      k := k + 1;
    }
    assert r + [] == r;
  }

  /** get_list_diff: what the walk leaves of the old list is deleted only when the new list is
      short of the limit; what it leaves of the new list is appended. */
  method GetListDiff(list1: Option<Levels>, list2: Option<Levels>, limit: nat, side: Side)
    returns (r: Option<Levels>)
    ensures r == if list1.None? || list2.None? then None
                 else NonEmpty(ListDiff(list1.value, list2.value, side, |list2.value| >= limit))
  {
    if list1.None? || list2.None? {
      return None;
    }
    var old_, new_ := list1.value, list2.value;
    var diff, i, j := Walk(old_, new_, side, |new_| >= limit);
    assert diff + [] == diff;
    assert i == |old_| || new_[j..] == [];
    if |new_| < limit {
      diff := DeleteRest(diff, old_, i);
      assert diff + [] == diff;
    }
    diff := AppendRest(diff, new_, j);
    return if |diff| == 0 then None else Some(diff);
  }

  function NonEmpty(d: Levels): Option<Levels> {
    if d == [] then None else Some(d)
  }

  // ----- the client

  /** A client's list after one update: an amount of zero removes the level. */
  function Put(l: Levels, u: Level, side: Side): Levels {
    if l == [] then if u.amount == 0.0 then [] else [u]
    else if l[0].price == u.price then (if u.amount == 0.0 then [] else [u]) + l[1..]
    else if Better(l[0].price, u.price, side) then [l[0]] + Put(l[1..], u, side)
    else (if u.amount == 0.0 then [] else [u]) + l
  }

  function PutAll(l: Levels, d: Levels, side: Side): Levels
    decreases |d|
  {
    if d == [] then l else PutAll(Put(l, d[0], side), d[1..], side)
  }

  /** The client keeps the best `limit` levels. */
  function Best(l: Levels, limit: nat): Levels {
    if |l| <= limit then l else l[..limit]
  }

  function Updated(l: Levels, d: Option<Levels>, side: Side, limit: nat): Levels {
    if d.None? then l else Best(PutAll(l, d.value, side), limit)
  }

  // ----- applying the diff to the old list gives the new one

  /** The old levels past the end of a full new list: the diff does not mention them. */
  function Leftover(old_: Levels, new_: Levels, side: Side, full: bool): Levels
    decreases |old_| + |new_|
  {
    if old_ == [] then []
    else if new_ == [] then if full then old_ else []
    else if old_[0].price == new_[0].price then Leftover(old_[1..], new_[1..], side, full)
    else if Better(new_[0].price, old_[0].price, side) then Leftover(old_, new_[1..], side, full)
    else Leftover(old_[1..], new_, side, full)
  }

  lemma {:induction false} WorseStill(p: real, q: real, l: Levels, side: Side)
    requires Better(p, q, side) && AllWorse(q, l, side)
    ensures AllWorse(p, l, side)
    decreases |l|
  {
    if l != [] { WorseStill(p, q, l[1..], side); }
  }

  lemma {:induction false} DeletesWorse(p: real, l: Levels, side: Side)
    requires AllWorse(p, l, side)
    ensures AllWorse(p, Deletes(l), side)
    decreases |l|
  {
    if l != [] {
      DeletesWorse(p, l[1..], side);
      assert ([Deleted(l[0])] + Deletes(l[1..]))[1..] == Deletes(l[1..]);
    }
  }

  lemma ConsWorse(p: real, u: Level, l: Levels, side: Side)
    requires Better(p, u.price, side) && AllWorse(p, l, side)
    ensures AllWorse(p, [u] + l, side)
  {
    assert ([u] + l)[1..] == l;
  }

  lemma {:induction false} DiffWorse(p: real, old_: Levels, new_: Levels, side: Side, full: bool)
    requires AllWorse(p, old_, side) && AllWorse(p, new_, side)
    ensures AllWorse(p, ListDiff(old_, new_, side, full), side)
    decreases |old_| + |new_|
  {
    if old_ != [] && new_ == [] {
      DeletesWorse(p, old_, side);
    } else if old_ != [] {
      var u, v := old_[0], new_[0];
      if u.price == v.price {
        DiffWorse(p, old_[1..], new_[1..], side, full);
        var rest := ListDiff(old_[1..], new_[1..], side, full);
        ConsWorse(p, v, rest, side);
        assert [] + rest == rest;
      } else if Better(v.price, u.price, side) {
        DiffWorse(p, old_, new_[1..], side, full);
        ConsWorse(p, v, ListDiff(old_, new_[1..], side, full), side);
      } else {
        DiffWorse(p, old_[1..], new_, side, full);
        ConsWorse(p, Deleted(u), ListDiff(old_[1..], new_, side, full), side);
      }
    }
  }

  /** Updates behind the first level leave it alone. */
  lemma {:induction false} PutAllBehind(x: Level, l: Levels, d: Levels, side: Side)
    requires AllWorse(x.price, d, side)
    ensures PutAll([x] + l, d, side) == [x] + PutAll(l, d, side)
    decreases |d|
  {
    if d != [] {
      assert ([x] + l)[1..] == l;
      PutAllBehind(x, Put(l, d[0], side), d[1..], side);
    }
  }

  lemma {:induction false} PutAllFresh(new_: Levels, side: Side)
    requires Sorted(new_, side)
    ensures PutAll([], new_, side) == new_
    decreases |new_|
  {
    if new_ != [] {
      PutAllBehind(new_[0], [], new_[1..], side);
      assert [new_[0]] + [] == [new_[0]];
      PutAllFresh(new_[1..], side);
    }
  }

  lemma {:induction false} PutAllDeletes(old_: Levels, side: Side)
    ensures PutAll(old_, Deletes(old_), side) == []
    decreases |old_|
  {
    if old_ != [] {
      var d := Deletes(old_);
      assert d[1..] == Deletes(old_[1..]);
      assert Put(old_, d[0], side) == old_[1..];
      PutAllDeletes(old_[1..], side);
    }
  }

  lemma PutAllCons(l: Levels, u: Level, d: Levels, side: Side)
    ensures PutAll(l, [u] + d, side) == PutAll(Put(l, u, side), d, side)
  {
    assert ([u] + d)[1..] == d;
  }

  /** The diff turns the old list into the new one followed by what it left over. */
  lemma {:induction false} DiffGives(old_: Levels, new_: Levels, side: Side, full: bool)
    requires Sorted(old_, side) && Sorted(new_, side)
    ensures PutAll(old_, ListDiff(old_, new_, side, full), side) == new_ + Leftover(old_, new_, side, full)
    decreases |old_| + |new_|
  {
    hide Put;
    if old_ == [] {
      PutAllFresh(new_, side);
    } else if new_ == [] {
      PutAllDeletes(old_, side);
    } else if old_[0].price == new_[0].price {
      SamePrice(old_, new_, side, full);
    } else if Better(new_[0].price, old_[0].price, side) {
      NewIsBetter(old_, new_, side, full);
    } else {
      OldIsBetter(old_, new_, side, full);
    }
  }

  lemma SamePrice(old_: Levels, new_: Levels, side: Side, full: bool)
    requires Sorted(old_, side) && Sorted(new_, side)
    requires old_ != [] && new_ != [] && old_[0].price == new_[0].price
    ensures PutAll(old_, ListDiff(old_, new_, side, full), side) == new_ + Leftover(old_, new_, side, full)
    decreases |old_| + |new_|, 0
  {
    hide PutAll, AllWorse, Leftover, ListDiff;
    var v, d := new_[0], ListDiff(old_[1..], new_[1..], side, full);
    DiffGives(old_[1..], new_[1..], side, full);
    DiffWorse(v.price, old_[1..], new_[1..], side, full);
    PutAllBehind(v, old_[1..], d, side);
    SamePriceSteps(old_, new_, side, full);
    if old_[0].amount != v.amount {
      PutAllCons(old_, v, d, side);
    } else {
      assert old_[0] == v && [v] + old_[1..] == old_;
    }
    assert [v] + (new_[1..] + Leftover(old_, new_, side, full)) == new_ + Leftover(old_, new_, side, full);
  }

  lemma SamePriceSteps(old_: Levels, new_: Levels, side: Side, full: bool)
    requires old_ != [] && new_ != [] && old_[0].price == new_[0].price
    ensures var d := ListDiff(old_[1..], new_[1..], side, full);
            ListDiff(old_, new_, side, full) == if old_[0].amount != new_[0].amount then [new_[0]] + d else d
    ensures Leftover(old_, new_, side, full) == Leftover(old_[1..], new_[1..], side, full)
  {
    assert [] + ListDiff(old_[1..], new_[1..], side, full) == ListDiff(old_[1..], new_[1..], side, full);
  }

  lemma NewIsBetter(old_: Levels, new_: Levels, side: Side, full: bool)
    requires Sorted(old_, side) && Sorted(new_, side)
    requires old_ != [] && new_ != [] && Better(new_[0].price, old_[0].price, side)
    ensures PutAll(old_, ListDiff(old_, new_, side, full), side) == new_ + Leftover(old_, new_, side, full)
    decreases |old_| + |new_|, 0
  {
    var v, d := new_[0], ListDiff(old_, new_[1..], side, full);
    DiffGives(old_, new_[1..], side, full);
    WorseStill(v.price, old_[0].price, old_[1..], side);
    DiffWorse(v.price, old_, new_[1..], side, full);
    PutAllCons(old_, v, d, side);
    PutAllBehind(v, old_, d, side);
    assert [v] + (new_[1..] + Leftover(old_, new_, side, full)) == new_ + Leftover(old_, new_, side, full);
  }

  lemma OldIsBetter(old_: Levels, new_: Levels, side: Side, full: bool)
    requires Sorted(old_, side) && Sorted(new_, side)
    requires old_ != [] && new_ != [] && Better(old_[0].price, new_[0].price, side)
    ensures PutAll(old_, ListDiff(old_, new_, side, full), side) == new_ + Leftover(old_, new_, side, full)
    decreases |old_| + |new_|, 0
  {
    DiffGives(old_[1..], new_, side, full);
    PutAllCons(old_, Deleted(old_[0]), ListDiff(old_[1..], new_, side, full), side);
    assert [] + old_[1..] == old_[1..];
  }

  lemma {:induction false} NothingLeft(old_: Levels, new_: Levels, side: Side)
    ensures Leftover(old_, new_, side, false) == []
    decreases |old_| + |new_|
  {
    if old_ != [] && new_ != [] {
      if old_[0].price == new_[0].price { NothingLeft(old_[1..], new_[1..], side); }
      else if Better(new_[0].price, old_[0].price, side) { NothingLeft(old_, new_[1..], side); }
      else { NothingLeft(old_[1..], new_, side); }
    }
  }

  /** A client that keeps the best `limit` levels gets exactly the new list from the diff; and
      there is no diff exactly when nothing changed. */
  lemma DiffUpdates(old_: Levels, new_: Levels, side: Side, limit: nat)
    requires ProperList(old_, side, limit) && ProperList(new_, side, limit)
    ensures var d := NonEmpty(ListDiff(old_, new_, side, |new_| >= limit));
            && Updated(old_, d, side, limit) == new_
            && (d.None? <==> old_ == new_)
  {
    var full := |new_| >= limit;
    DiffGives(old_, new_, side, full);
    if !full {
      NothingLeft(old_, new_, side);
      assert new_ + [] == new_;
    } else {
      assert (new_ + Leftover(old_, new_, side, full))[..limit] == new_;
    }
    if old_ == new_ { NoChangeNoDiff(old_, side, full); }
  }

  lemma {:induction false} NoChangeNoDiff(l: Levels, side: Side, full: bool)
    ensures ListDiff(l, l, side, full) == []
    decreases |l|
  {
    if l != [] { NoChangeNoDiff(l[1..], side, full); }
  }

  // ----- the diff mentions only what changed

  /** `u` is a level of the new list that the old one lacks, or removes one of the old list
      whose price the new one lacks. */
  ghost predicate IsChange(u: Level, old_: Levels, new_: Levels) {
    || (u in new_ && u !in old_)
    || (u.amount == 0.0 && (exists w :: w in old_ && w.price == u.price)
        && forall w :: w in new_ ==> w.price != u.price)
  }

  lemma {:induction false} WorseNotIn(p: real, l: Levels, side: Side)
    requires AllWorse(p, l, side)
    ensures forall w :: w in l ==> Better(p, w.price, side)
    decreases |l|
  {
    if l != [] { WorseNotIn(p, l[1..], side); }
  }

  lemma {:induction false} DeletesAreChanges(old_: Levels, u: Level)
    requires u in Deletes(old_)
    ensures u.amount == 0.0 && exists w :: w in old_ && w.price == u.price
    decreases |old_|
  {
    if u == Deleted(old_[0]) {
      assert old_[0] in old_;
    } else {
      DeletesAreChanges(old_[1..], u);
    }
  }

  lemma {:induction false} DiffOnlyChanges(old_: Levels, new_: Levels, side: Side, full: bool, u: Level)
    requires Sorted(old_, side) && Sorted(new_, side)
    requires u in ListDiff(old_, new_, side, full)
    ensures IsChange(u, old_, new_)
    decreases |old_| + |new_|
  {
    if old_ == [] {
    } else if new_ == [] {
      DeletesAreChanges(old_, u);
    } else {
      var o, n := old_[0], new_[0];
      WorseNotIn(o.price, old_[1..], side);
      WorseNotIn(n.price, new_[1..], side);
      if o.price == n.price {
        if u != n || o.amount == n.amount { DiffOnlyChanges(old_[1..], new_[1..], side, full, u); }
      } else if Better(n.price, o.price, side) {
        if u != n { DiffOnlyChanges(old_, new_[1..], side, full, u); }
      } else if u == Deleted(o) {
        assert o in old_;
      } else {
        DiffOnlyChanges(old_[1..], new_, side, full, u);
      }
    }
  }
}
