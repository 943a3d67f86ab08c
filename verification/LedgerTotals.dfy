/** The total of one asset over all users and both kinds, and how the ledger
    operations change it. */
module LedgerTotals {
  import opened Ledger

  ghost function Holdings(bal: Balances, asset: nat): real
    decreases |bal|
  {
    if bal == map[] then 0.0
    else
      var k :| k in bal;
      (if k.asset == asset then bal[k] else 0.0) + Holdings(bal - {k}, asset)
  }

  lemma {:induction false} HoldingsSplits(bal: Balances, asset: nat, k: Key)
    requires k in bal
    ensures Holdings(bal, asset) == (if k.asset == asset then bal[k] else 0.0) + Holdings(bal - {k}, asset)
    decreases |bal|
  {
    var c :| c in bal && Holdings(bal, asset) == (if c.asset == asset then bal[c] else 0.0) + Holdings(bal - {c}, asset);
    if c != k {
      HoldingsSplits(bal - {c}, asset, k);
      HoldingsSplits(bal - {k}, asset, c);
      assert (bal - {c}) - {k} == (bal - {k}) - {c};
    }
  }

  /** A change of one entry changes the total of its asset by the same amount. */
  lemma HoldingsFollowEntry(bal: Balances, bal2: Balances, k: Key, asset: nat)
    requires bal2 - {k} == bal - {k}
    ensures Holdings(bal2, asset)
            == Holdings(bal, asset) + (if k.asset == asset then Val(bal2, k) - Val(bal, k) else 0.0)
  {
    if k in bal { HoldingsSplits(bal, asset, k); } else { assert bal - {k} == bal; }
    if k in bal2 { HoldingsSplits(bal2, asset, k); } else { assert bal2 - {k} == bal2; }
  }

  lemma AddTouchesOne(assets: Assets, bal: Balances, k: Key, amount: real)
    ensures Add(assets, bal, k, amount).bal - {k} == bal - {k}
  {
  }

  lemma SubTouchesOne(assets: Assets, bal: Balances, k: Key, amount: real)
    ensures Sub(assets, bal, k, amount).bal - {k} == bal - {k}
  {
  }

  // ----- whole amounts

  predicate Whole(x: real) {
    x == x.Floor as real
  }

  ghost predicate WholeLedger(bal: Balances) {
    forall k :: k in bal ==> Whole(bal[k])
  }

  lemma RescaleMeans(r: Rounding, x: real)
    ensures Rescale(r, x) <= x && x - Rescale(r, x) < 1.0
    ensures Whole(x) ==> Rescale(r, x) == x
    ensures r.Down? ==> Whole(Rescale(r, x))
    ensures x >= 0.0 ==> Rescale(r, x) >= 0.0
  {
  }

  lemma StaysWhole(assets: Assets, bal: Balances, k: Key, to: Key, amount: real)
    requires WholeLedger(bal) && k != to && k.asset == to.asset
    requires k.asset in assets && assets[k.asset].Down?
    ensures WholeLedger(Add(assets, bal, k, amount).bal)
    ensures WholeLedger(Sub(assets, bal, k, amount).bal)
    ensures WholeLedger(Move(assets, bal, k, to, amount).bal)
  {
  }

  lemma IntIsWhole(n: int)
    ensures Whole(n as real)
  {
  }

  lemma WholeSum(x: real, y: real)
    requires Whole(x) && Whole(y)
    ensures Whole(x + y) && Whole(x - y)
  {
    var n, m := x.Floor, y.Floor;
    IntIsWhole(n + m);
    IntIsWhole(n - m);
    assert x + y == (n + m) as real && x - y == (n - m) as real;
  }

  lemma MoveKeepsSum(assets: Assets, bal: Balances, from: Key, to: Key, amount: real)
    requires from != to && from.asset == to.asset && WholeLedger(bal) && Whole(amount)
    ensures var b := Move(assets, bal, from, to, amount).bal;
            && Val(b, from) + Val(b, to) == Val(bal, from) + Val(bal, to)
            && b - {from, to} == bal - {from, to}
            && (CanTake(assets, bal, from, amount) ==>
                  Val(b, from) == Val(bal, from) - amount && Val(b, to) == Val(bal, to) + amount)
  {
    MoveMeans(assets, bal, from, to, amount);
    if CanTake(assets, bal, from, amount) {
      WholeSum(Val(bal, from), amount);
      WholeSum(Val(bal, to), amount);
      RescaleMeans(assets[from.asset], Val(bal, from) - amount);
      RescaleMeans(assets[from.asset], Val(bal, to) + amount);
    }
  }

  lemma HoldingsFollowPair(bal: Balances, bal2: Balances, k: Key, j: Key, asset: nat)
    requires k != j && k.asset == j.asset && bal2 - {k, j} == bal - {k, j}
    ensures Holdings(bal2, asset)
            == Holdings(bal, asset)
               + (if k.asset == asset then Val(bal2, k) + Val(bal2, j) - Val(bal, k) - Val(bal, j) else 0.0)
  {
    hide Holdings;
    var mid := (bal - {k}) + (if k in bal2 then map[k := bal2[k]] else map[]);
    assert mid - {k} == bal - {k};
    forall x | x != k && x != j ensures (x in bal <==> x in bal2) && (x in bal ==> bal[x] == bal2[x]) {
      assert x in bal <==> x in bal - {k, j};
      assert x in bal2 <==> x in bal2 - {k, j};
      assert x in bal ==> (bal - {k, j})[x] == bal[x] && (bal2 - {k, j})[x] == bal2[x];
    }
    assert mid - {j} == bal2 - {j};
    HoldingsFollowEntry(bal, mid, k, asset);
    HoldingsFollowEntry(mid, bal2, j, asset);
  }

  /** Moving between available and frozen keeps the user's sum, for whole amounts. */
  lemma MoveConserves(assets: Assets, bal: Balances, from: Key, to: Key, amount: real, asset: nat)
    requires from != to && from.asset == to.asset && WholeLedger(bal) && Whole(amount)
    ensures Holdings(Move(assets, bal, from, to, amount).bal, asset) == Holdings(bal, asset)
  {
    hide Holdings, Move;
    MoveKeepsSum(assets, bal, from, to, amount);
    HoldingsFollowPair(bal, Move(assets, bal, from, to, amount).bal, from, to, asset);
  }
}
