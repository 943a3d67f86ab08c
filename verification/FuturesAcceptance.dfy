/** Which opens and closes are accepted, in the terms of the request and of the user's account. */
module FuturesAcceptance {
  import opened Common
  import opened Ledger
  import opened Futures
  import opened FuturesPositions
  import opened FuturesIndex
  import opened FuturesBacking
  import opened FuturesRun
  import opened FuturesOps
  import opened FuturesTheorems

  /** A whole number of units, at least one. */
  ghost predicate WholeUnits(v: real) {
    v >= 1.0 && v - v.Floor as real == 0.0
  }

  lemma WholeUnitsMean(v: real)
    ensures GoodVolume(v) <==> WholeUnits(v)
  {
  }

  /** The user has no position here and no order resting. */
  ghost predicate Free(s: State, user: nat) {
    && PKey(user, Bull) !in s.pos && PKey(user, Bear) !in s.pos
    && (forall o :: o in s.asks || o in s.bids ==> o.user != user)
  }

  /** The leverage that an open is charged with: the long position's, else the short one's, else
      the mode's while it is in use, else the one named. */
  ghost function Charged(s: State, a: Args): real {
    if PKey(a.user, Bull) in s.pos then s.pos[PKey(a.user, Bull)].leverage
    else if PKey(a.user, Bear) in s.pos then s.pos[PKey(a.user, Bear)].leverage
    else if a.user in s.modes && !Free(s, a.user) then s.modes[a.user].leverage
    else a.leverage
  }

  /** A user who is not free may only go on with the pattern in use. */
  ghost predicate PatternFits(s: State, a: Args) {
    a.user in s.modes && !Free(s, a.user) ==> s.modes[a.user].pattern == a.pattern
  }

  /** The equity of a cross position at the latest price. */
  ghost function CrossEquity(s: State, k: PKey): real
    requires AllOk(s.pos)
  {
    if k in s.pos && s.pos[k].pattern.Cross?
    then s.pos[k].principal + Gain(k.side, s.pos[k], s.latest) * (s.pos[k].position + s.pos[k].frozen) as real
    else 0.0
  }

  /** The available money, reduced by the losses of all cross positions for a cross order. */
  ghost function Spendable(s: State, a: Args): real
    requires AllOk(s.pos)
  {
    var equity := CrossEquity(s, PKey(a.user, Bull)) + CrossEquity(s, PKey(a.user, Bear)) + a.otherPnl;
    var any := a.otherCross > 0
               || (PKey(a.user, Bull) in s.pos && s.pos[PKey(a.user, Bull)].pattern.Cross?)
               || (PKey(a.user, Bear) in s.pos && s.pos[PKey(a.user, Bear)].pattern.Cross?);
    Avail(s.bal, a.user, s.money) + (if a.pattern.Cross? && any && equity < 0.0 then equity else 0.0)
  }

  lemma FreeMeans(s: State, user: nat)
    requires Indexed(s)
    ensures Idle(s, user) <==> Free(s, user)
    ensures AnyPosition(s, user).None? <==> PKey(user, Bull) !in s.pos && PKey(user, Bear) !in s.pos
  {
    var ids := Ids(s.users, user);
    assert ListAgrees(s, user, ids);
    if AnyPosition(s, user).None? {
      if ids == [] {
        forall o | o in s.asks || o in s.bids ensures o.user != user {
          RestingIsListed(s, o);
          assert o.user == user ==> Owns(s, user, o.id);
          assert o.id !in ids;
        }
      } else {
        assert ids[0] in ids;
        FindFinds(s.asks, ids[0]);
        FindFinds(s.bids, ids[0]);
      }
    }
  }

  lemma ChargedMeans(s: State, a: Args)
    requires Indexed(s)
    ensures MarginLeverage(s, a) == Charged(s, a)
  {
    hide Free, Idle;
    FreeMeans(s, a.user);
  }

  lemma PatternMeans(s: State, a: Args)
    requires Indexed(s) && (PKey(a.user, Bull) in s.pos || PKey(a.user, Bear) in s.pos ==> a.user in s.modes)
    ensures a.user in ModeAfter(s, a)
    ensures ModeAfter(s, a)[a.user].pattern == a.pattern <==> PatternFits(s, a)
  {
    FreeMeans(s, a.user);
  }

  lemma EquityOfCross(s: State, k: PKey)
    requires AllOk(s.pos)
    ensures CrossOf(s, k).1 == CrossEquity(s, k)
    ensures CrossOf(s, k).0 == if k in s.pos && s.pos[k].pattern.Cross? then 1 else 0
  {
    if k in s.pos { EquityIsPrincipalPlusGain(k.side, s.pos[k], s.latest); }
    hide Equity, Gain;
  }

  lemma AffordMeans(s: State, s1: State, a: Args, pri: real)
    requires AllOk(s.pos) && s1 == s.(modes := s1.modes)
    ensures CanAfford(s1, a, Avail(s.bal, a.user, s.money), pri) <==> Spendable(s, a) >= pri
  {
    hide CrossEquity, CrossOf;
    EquityOfCross(s1, PKey(a.user, Bull));
    EquityOfCross(s1, PKey(a.user, Bear));
    SameCross(s, s1, PKey(a.user, Bull));
    SameCross(s, s1, PKey(a.user, Bear));
  }

  lemma SameCross(s: State, s1: State, k: PKey)
    requires AllOk(s.pos) && s1 == s.(modes := s1.modes)
    ensures CrossEquity(s1, k) == CrossEquity(s, k)
  {
  }

  lemma FreezesMeans(s: State, user: nat, amount: real)
    requires s.money in s.assets
    ensures DoFreeze(s.assets, s.bal, user, s.money, amount).ok
            <==> amount >= 0.0 && Key(user, Available, s.money) in s.bal && Avail(s.bal, user, s.money) >= amount
  {
    MoveMeans(s.assets, s.bal, Key(user, Available, s.money), Key(user, Freeze, s.money), amount);
  }

  lemma FreezesPositive(s: State, user: nat, amount: real)
    requires s.money in s.assets && Avail(s.bal, user, s.money) > 0.0
    ensures DoFreeze(s.assets, s.bal, user, s.money, amount).ok
            <==> 0.0 <= amount <= Avail(s.bal, user, s.money)
  {
    FreezesMeans(s, user, amount);
  }

  /** What an open needs so that its margin is asked for. */
  ghost predicate Sound(s: State, a: Args)
    requires AllOk(s.pos)
  {
    && (a.kind.Limit? ==> a.price > 0.0)
    && Avail(s.bal, a.user, s.money) > 0.0 && WholeUnits(a.volume)
    && PatternFits(s, a) && Charged(s, a) != 0.0
    && Spendable(s, a) >= a.volume / Charged(s, a)
  }

  /** A limit order's margin is not negative, and available. */
  ghost predicate Freezable(s: State, a: Args)
    requires Charged(s, a) != 0.0
  {
    a.kind.Limit? ==> 0.0 <= a.volume / Charged(s, a) <= Avail(s.bal, a.user, s.money)
  }

  lemma PositionsAreOk(s: State, c: Scope)
    requires Good(s, [], c)
    ensures AllOk(s.pos) && Indexed(s)
    ensures forall k :: k in s.pos ==> k.user in s.modes
  {
  }

  /** An open is accepted if and only if its price and volume are sound, its pattern is the one in
      use, and the money that the user may spend covers the margin at the leverage in use; a limit
      order must also have that margin available, and not a negative one, or the answer is -2. */
  lemma OpenAcceptedIff(s: State, a: Args, c: Scope)
    requires Sided(s) && Good(s, [], c) && s.money in s.assets
    ensures AllOk(s.pos) && (PutOpen(s, a).1.Accepted? <==> Sound(s, a) && Freezable(s, a))
    ensures PutOpen(s, a).1 == Rejected(-2) <==> Sound(s, a) && !Freezable(s, a)
  {
    hide Good, Execute, ModeAfter, MarginLeverage, OrderLeverage, CanAfford, DoFreeze, GoodVolume, Charged, Spendable,
         PatternFits, WholeUnits, AllOk;
    PositionsAreOk(s, c);
    WholeUnitsMean(a.volume);
    PatternMeans(s, a);
    ChargedMeans(s, a);
    var pri := Div(a.volume, MarginLeverage(s, a));
    var s1 := s.(modes := ModeAfter(s, a));
    AffordMeans(s, s1, a, pri);
    if Avail(s.bal, a.user, s.money) > 0.0 { FreezesPositive(s1.(orderId := s.orderId + 1), a.user, pri); }
  }

  /** A refused open trades nothing and touches no order, position or balance. */
  lemma RefusedOpenChangesNothing(s: State, a: Args, c: Scope)
    requires Sided(s) && Good(s, [], c) && !PutOpen(s, a).1.Accepted?
    ensures var (r, reply) := PutOpen(s, a);
            && reply.code in {-1, -2}
            && r.asks == s.asks && r.bids == s.bids && r.pos == s.pos && r.bal == s.bal
            && r.deals == s.deals && r.users == s.users && r.latest == s.latest
  {
    hide Good, Execute, ModeAfter, MarginLeverage, OrderLeverage, CanAfford, DoFreeze, GoodVolume;
    UserHasMode(s, a, c);
  }

  /** A close is accepted if and only if its price and volume are sound and the position has that
      much unfrozen; the answer names what is missing, and then nothing changes. */
  lemma CloseAcceptedIff(s: State, a: Args)
    requires Sided(s)
    ensures var (r, reply) := PutClose(s, a); var k := PKey(a.user, a.side);
            && (reply.Accepted? <==>
                  (a.kind.Limit? ==> a.price > 0.0) && WholeUnits(a.volume)
                  && k in s.pos && s.pos[k].position as real >= a.volume)
            && (!reply.Accepted? ==> r == s)
            && (reply == Rejected(-1) <==> a.kind.Limit? && a.price <= 0.0)
            && (reply == Rejected(-3) <==> (a.kind.Limit? ==> a.price > 0.0) && !WholeUnits(a.volume))
            && (reply == Rejected(-4) <==> (a.kind.Limit? ==> a.price > 0.0) && WholeUnits(a.volume) && k !in s.pos)
  {
    hide Execute, FreezePosition, GoodVolume, WholeUnits;
    WholeUnitsMean(a.volume);
  }
}
