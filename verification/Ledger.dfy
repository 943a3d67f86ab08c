/** The balance ledger of the matching engine (matchengine/src/me_balance.c).

    Every (user, kind, asset) has at most one entry; a missing entry stands for
    zero.  Amounts are scaled by the asset's save precision, so one ledger unit
    is the smallest amount that is stored, and `Rescale` is truncation to a whole
    unit.  `Exact` is the idealisation without rounding that the futures margin
    (which divides) is studied under. */
module Ledger {

  datatype Kind = Available | Freeze
  datatype Key = Key(user: nat, kind: Kind, asset: nat)
  type Balances = map<Key, real>

  datatype Rounding = Exact | Down
  type Assets = map<nat, Rounding>

  /** What a ledger call leaves behind: whether it returned a value, and the new entries. */
  datatype Outcome = Outcome(ok: bool, bal: Balances)

  function Rescale(r: Rounding, x: real): real {
    if r.Exact? then x else x.Floor as real
  }

  /** The amount a key stands for. */
  function Val(bal: Balances, k: Key): real {
    if k in bal then bal[k] else 0.0
  }

  function Avail(bal: Balances, user: nat, asset: nat): real {
    Val(bal, Key(user, Available, asset))
  }

  function Frozen(bal: Balances, user: nat, asset: nat): real {
    Val(bal, Key(user, Freeze, asset))
  }

  // ----- the five operations as functions on the entries

  function SetTo(assets: Assets, bal: Balances, k: Key, amount: real): Outcome {
    if k.asset !in assets || amount < 0.0 then Outcome(false, bal)
    else if amount == 0.0 then Outcome(true, bal - {k})
    else Outcome(true, bal[k := Rescale(assets[k.asset], amount)])
  }

  function Add(assets: Assets, bal: Balances, k: Key, amount: real): Outcome {
    if k.asset !in assets || amount < 0.0 then Outcome(false, bal)
    else if k in bal then Outcome(true, bal[k := Rescale(assets[k.asset], bal[k] + amount)])
    else SetTo(assets, bal, k, amount)
  }

  /** The shared tail of sub, freeze and unfreeze: take `amount` out of entry `k`. */
  function TakeOut(assets: Assets, bal: Balances, k: Key, amount: real): Balances
    requires k in bal && k.asset in assets
  {
    var rest := bal[k] - amount;
    if rest == 0.0 then bal - {k} else bal[k := Rescale(assets[k.asset], rest)]
  }

  predicate CanTake(assets: Assets, bal: Balances, k: Key, amount: real) {
    k.asset in assets && amount >= 0.0 && k in bal && bal[k] >= amount
  }

  function Sub(assets: Assets, bal: Balances, k: Key, amount: real): Outcome {
    if !CanTake(assets, bal, k, amount) then Outcome(false, bal)
    else Outcome(true, TakeOut(assets, bal, k, amount))
  }

  /** Freeze and unfreeze move an amount between the two kinds of one user. */
  function Move(assets: Assets, bal: Balances, from: Key, to: Key, amount: real): Outcome
    requires from != to && from.asset == to.asset
  {
    if !CanTake(assets, bal, from, amount) then Outcome(false, bal)
    else
      var added := Add(assets, bal, to, amount);
      Outcome(true, TakeOut(assets, added.bal, from, amount))
  }

  function DoFreeze(assets: Assets, bal: Balances, user: nat, asset: nat, amount: real): (r: Outcome)
    ensures !r.ok ==> r.bal == bal
  {
    Move(assets, bal, Key(user, Available, asset), Key(user, Freeze, asset), amount)
  }

  function DoUnfreeze(assets: Assets, bal: Balances, user: nat, asset: nat, amount: real): Outcome {
    Move(assets, bal, Key(user, Freeze, asset), Key(user, Available, asset), amount)
  }

  // ----- what the operations mean for the amounts

  /** `bal2` differs from `bal` in the amount of `k` only. */
  ghost predicate OnlyChanges(bal: Balances, bal2: Balances, ks: set<Key>) {
    forall k :: k !in ks ==> Val(bal2, k) == Val(bal, k)
  }

  lemma AddMeans(assets: Assets, bal: Balances, k: Key, amount: real)
    ensures var r := Add(assets, bal, k, amount);
            && (r.ok <==> k.asset in assets && amount >= 0.0)
            && (!r.ok ==> r.bal == bal)
            && OnlyChanges(bal, r.bal, {k})
            && (r.ok ==> (k !in bal && amount == 0.0 && Val(r.bal, k) == 0.0)
                         || Val(r.bal, k) == Rescale(assets[k.asset], Val(bal, k) + amount))
  {
  }

  lemma SubMeans(assets: Assets, bal: Balances, k: Key, amount: real)
    ensures var r := Sub(assets, bal, k, amount);
            && (r.ok <==> CanTake(assets, bal, k, amount))
            && (!r.ok ==> r.bal == bal)
            && OnlyChanges(bal, r.bal, {k})
            && (r.ok ==> Val(r.bal, k) == Rescale(assets[k.asset], Val(bal, k) - amount))
  {
  }

  lemma MoveMeans(assets: Assets, bal: Balances, from: Key, to: Key, amount: real)
    requires from != to && from.asset == to.asset
    ensures var r := Move(assets, bal, from, to, amount);
            && (r.ok <==> CanTake(assets, bal, from, amount))
            && (!r.ok ==> r.bal == bal)
            && OnlyChanges(bal, r.bal, {from, to})
            && (r.ok ==> Val(r.bal, from) == Rescale(assets[from.asset], Val(bal, from) - amount)
                         && ((to !in bal && amount == 0.0 && Val(r.bal, to) == 0.0)
                             || Val(r.bal, to) == Rescale(assets[to.asset], Val(bal, to) + amount)))
  {
    if CanTake(assets, bal, from, amount) {
      AddMeans(assets, bal, to, amount);
      var added := Add(assets, bal, to, amount).bal;
      assert Val(added, from) == Val(bal, from);
      assert from in added;
    }
  }

  // ----- no entry is ever negative

  ghost predicate NonNegative(bal: Balances) {
    forall k :: k in bal ==> bal[k] >= 0.0
  }

  lemma StaysNonNegative(assets: Assets, bal: Balances, k: Key, to: Key, amount: real)
    requires NonNegative(bal) && k != to && k.asset == to.asset
    ensures NonNegative(SetTo(assets, bal, k, amount).bal)
    ensures NonNegative(Add(assets, bal, k, amount).bal)
    ensures NonNegative(Sub(assets, bal, k, amount).bal)
    ensures NonNegative(Move(assets, bal, k, to, amount).bal)
  {
  }

  // ----- the dictionary that the operations update in place

  class Accounts {
    const assets: Assets
    var dict: Balances

    constructor (assets: Assets)
      ensures dict == map[] && this.assets == assets
    {
      this.assets := assets;
      dict := map[];
    }

    method Set(k: Key, amount: real) returns (ok: bool)
      modifies this
      ensures Outcome(ok, dict) == SetTo(assets, old(dict), k, amount)
    {
      if k.asset !in assets {
        return false;
      }
      if amount < 0.0 {
        return false;
      } else if amount == 0.0 {
        dict := dict - {k};
        return true;
      }
      if k !in dict {
        dict := dict[k := amount];
      }
      dict := dict[k := Rescale(assets[k.asset], amount)];
      return true;
    }

    method AddTo(k: Key, amount: real) returns (ok: bool)
      modifies this
      ensures Outcome(ok, dict) == Add(assets, old(dict), k, amount)
    {
      if k.asset !in assets || amount < 0.0 {
        return false;
      }
      if k in dict {
        dict := dict[k := dict[k] + amount];
        dict := dict[k := Rescale(assets[k.asset], dict[k])];
        return true;
      }
      ok := Set(k, amount);
    }

    method SubFrom(k: Key, amount: real) returns (ok: bool)
      modifies this
      ensures Outcome(ok, dict) == Sub(assets, old(dict), k, amount)
    {
      if k.asset !in assets || amount < 0.0 || k !in dict || dict[k] < amount {
        return false;
      }
      Take(k, amount);
      return true;
    }

    method Take(k: Key, amount: real)
      requires k in dict && k.asset in assets
      modifies this
      ensures dict == TakeOut(assets, old(dict), k, amount)
    {
      dict := dict[k := dict[k] - amount];
      if dict[k] == 0.0 {
        dict := dict - {k};
      } else {
        dict := dict[k := Rescale(assets[k.asset], dict[k])];
      }
    }

    method FreezeAmount(user: nat, asset: nat, amount: real) returns (ok: bool)
      modifies this
      ensures Outcome(ok, dict) == DoFreeze(assets, old(dict), user, asset, amount)
    {
      var available := Key(user, Available, asset);
      if asset !in assets || amount < 0.0 || available !in dict || dict[available] < amount {
        return false;
      }
      var added := AddTo(Key(user, Freeze, asset), amount);
      if !added {
        return false;
      }
      Take(available, amount);
      return true;
    }

    method UnfreezeAmount(user: nat, asset: nat, amount: real) returns (ok: bool)
      modifies this
      ensures Outcome(ok, dict) == DoUnfreeze(assets, old(dict), user, asset, amount)
    {
      var freeze := Key(user, Freeze, asset);
      if asset !in assets || amount < 0.0 || freeze !in dict || dict[freeze] < amount {
        return false;
      }
      var added := AddTo(Key(user, Available, asset), amount);
      if !added {
        return false;
      }
      Take(freeze, amount);
      return true;
    }
  }
}
