/** Exactly when the margin ledger stays right: an accepted open breaks it if and only if it
    fails the guard that its caller could have checked. */
module FuturesExact {
  import opened Common
  import opened Ledger
  import opened Futures
  import opened FuturesSums
  import opened FuturesPositions
  import opened FuturesIndex
  import opened FuturesBacking
  import opened FuturesMatching
  import opened FuturesMargin
  import opened FuturesSweep
  import opened FuturesRun
  import opened FuturesOps
  import opened FuturesTheorems

  // ----- a refusal is never forgotten

  lemma FillKeepsDenied(s: State, t: Order, m: Order, amount: int, price: real)
    ensures s.denied ==> Fill(s, t, m, amount, price).s.denied
  {
    hide TradeParty;
    PayKeepsDenied(Exchange(s.(latest := price), t, m, amount, price), amount);
    hide Exchange, Pay;
  }

  lemma PayKeepsDenied(f: Flow, amount: int)
    ensures f.s.denied ==> Pay(f, amount).s.denied
  {
    hide Sub, Add, DoUnfreeze;
  }

  lemma {:induction false} MatchKeepsDenied(s: State, t: Order)
    requires Sided(s)
    ensures s.denied ==> Match(s, t).0.denied
    decreases |Opposite(s, t)|
  {
    hide Step, Fill;
    if Opposite(s, t) != [] && t.left != 0 && Crosses(t, Opposite(s, t)[0]) {
      var m := Opposite(s, t)[0];
      StepIsFill(s, t);
      FillKeepsDenied(s, t, m, Min(t.left, m.left), m.price);
      StepShrinksBook(s, t);
      var r := Step(s, t);
      if r.1.left != 0 { MatchKeepsDenied(r.0, r.1); }
    }
  }

  lemma SettleKeepsDenied(s: State, t: Order)
    ensures s.denied ==> Settle(s, t).denied
  {
    hide DropFromList, AddToList, ThawMargin;
  }

  // ----- matching a taker whose margin is off

  lemma {:induction false} MatchDrifts(s: State, t: Order, base: nat -> real, drift: real)
    requires Good(s, [t], Scope(false, base)) && Drifting(s, t, base, drift)
    ensures var r := Match(s, t); r.0.denied || Drifting(r.0, r.1, base, drift)
    decreases |Opposite(s, t)|
  {
    hide Step, Drifting, Indexed, Backed, RoundPays, CanPay;
    var c := Scope(false, base);
    GoodFlight(s, t, c);
    if Opposite(s, t) != [] && t.left != 0 && Crosses(t, Opposite(s, t)[0]) {
      StepDrifts(s, t, base, drift);
      StepKeepsGood(s, t, c);
      StepShrinksBook(s, t);
      var r := Step(s, t);
      if r.1.left != 0 {
        if r.0.denied { MatchKeepsDenied(r.0, r.1); } else { MatchDrifts(r.0, r.1, base, drift); }
      }
    }
  }

  /** A limit open whose frozen margin is off leaves a ledger that is off: the order rests with
      the wrong margin, or is gone and has left the difference, or the ledger has refused. */
  lemma DriftBreaksLedger(s: State, t: Order, base: nat -> real, drift: real)
    requires Good(s, [t], Scope(false, base)) && Drifting(s, t, base, drift) && Sided(s)
    requires t.oper.Open? && t.kind.Limit? && drift != 0.0
    ensures !Funded(Execute(s, t), [], base)
  {
    hide Match, Drifting, Good, Settle;
    var c := Scope(false, base);
    MatchDrifts(s, t, base, drift);
    MatchKeepsGood(s, t, c);
    var r := Match(s, t);
    if r.0.denied {
      SettleKeepsDenied(r.0, r.1);
    } else {
      TermsMean(r.1, t);
      GoodFlight(r.0, r.1, c);
      if r.1.left == 0 { SpentDrift(r.0, r.1, base, drift); } else { RestingDrift(r.0, r.1, base, drift); }
    }
  }

  lemma TermsMean(t2: Order, t: Order)
    requires SameTerms(t2, t)
    ensures t2.oper == t.oper && t2.kind == t.kind && t2.user == t.user && t2.id == t.id
  {
  }

  lemma SpentDrift(s: State, t: Order, base: nat -> real, drift: real)
    requires Good(s, [t], Scope(false, base)) && Drifting(s, t, base, drift)
    requires t.oper.Open? && t.kind.Limit? && t.left == 0 && drift != 0.0
    ensures !Funded(Settle(s, t), [], base)
  {
    hide Frozen, Sum, Finish;
    assert t in [t];
    FinishAbsent(s, t);
    MarginIsLinear(t, 0);
    SumHead(t, [], FreezeOf(t.user));
    SumEmpty(FreezeOf(t.user));
    assert Pledged(s, [t], t.user) == Pledged(s, [], t.user) + t.freeze;
    assert Frozen(s.bal, t.user, s.money) == base(t.user) + Pledged(s, [t], t.user);
  }

  lemma RestingDrift(s: State, t: Order, base: nat -> real, drift: real)
    requires Good(s, [t], Scope(false, base)) && Drifting(s, t, base, drift)
    requires t.oper.Open? && t.kind.Limit? && t.left > 0 && drift != 0.0
    ensures !Funded(Settle(s, t), [], base)
  {
    hide Frozen, Sum, Pledged, Margin, AddToList;
    assert t in [t];
    var r := Settle(s, t);
    assert t in r.asks || t in r.bids;
    assert !Margined(t);
  }

  // ----- matching a market order that opens

  /** The ledger lets a market open pay for all its fills exactly when it was covered. */
  lemma {:induction false} MatchPaysIff(s: State, t: Order, base: nat -> real)
    requires Good(s, [t], Scope(false, base)) && Drifting(s, t, base, 0.0)
    requires t.oper.Open? && t.kind.Market?
    ensures !Match(s, t).0.denied <==> Covered(s, t)
    decreases |Opposite(s, t)|
  {
    hide Step, Drifting, Indexed, Backed, RoundPays, CanPay, Covered;
    var c := Scope(false, base);
    GoodFlight(s, t, c);
    var book := Opposite(s, t);
    if book != [] && t.left != 0 {
      StepDrifts(s, t, base, 0.0);
      CoverLasts(s, t, base, 0.0);
      RoundTerms(s, t);
      StepKeepsGood(s, t, c);
      StepShrinksBook(s, t);
      var r := Step(s, t);
      if r.0.denied {
        MatchKeepsDenied(r.0, r.1);
      } else if r.1.left == 0 {
        NothingToCover(r.0, r.1, base);
      } else {
        MatchPaysIff(r.0, r.1, base);
      }
    } else {
      NothingToCover(s, t, base);
    }
  }

  lemma NothingToCover(s: State, t: Order, base: nat -> real)
    requires Good(s, [t], Scope(false, base)) && Drifting(s, t, base, 0.0)
    requires t.left == 0 || Opposite(s, t) == []
    ensures Covered(s, t) && !s.denied
  {
    hide Sum, Frozen;
  }

  lemma UncoveredBreaksLedger(s: State, t: Order, base: nat -> real)
    requires Good(s, [t], Scope(false, base)) && Drifting(s, t, base, 0.0) && Sided(s)
    requires t.oper.Open? && t.kind.Market? && !Covered(s, t)
    ensures !Funded(Execute(s, t), [], base)
  {
    hide Match, Drifting, Good, Settle, Covered;
    MatchPaysIff(s, t, base);
    SettleKeepsDenied(Match(s, t).0, Match(s, t).1);
  }

  // ----- one open

  /** How far the frozen margin of an accepted limit open is off its own leverage. */
  function DriftOf(s: State, a: Args): real {
    if a.kind.Limit? then Div(a.volume, MarginLeverage(s, a)) - Div(a.volume, OrderLeverage(s, a)) else 0.0
  }

  lemma OpenedDrifts(s: State, a: Args, base: nat -> real)
    requires Sided(s) && Good(s, [], Scope(true, base)) && PutOpen(s, a).1.Accepted?
    ensures var (bal, freeze) := Funding(s, a); var (s1, t) := Opened(s, a, bal, freeze);
            && Good(s1, [t], Scope(false, base)) && Drifting(s1, t, base, DriftOf(s, a))
  {
    hide ModeAfter, CanAfford, DoFreeze, OrderLeverage, MarginLeverage, Frozen, PutOpen, GoodVolume, Indexed, Backed, Sum;
    var c := Scope(false, base);
    UserHasMode(s, a, Scope(true, base));
    OpenOutcome(s, a);
    var (bal, freeze) := Funding(s, a);
    var (s1, t) := Opened(s, a, bal, freeze);
    AcceptedIsGood(s, a, c);
    if a.kind.Limit? { FreezeOfMargin(s, a, freeze); }
    WholeVolume(a.volume);
    forall u ensures Pledged(s1, [t], u) == Pledged(s, [], u) + Weigh(FreezeOf(u), t) {
      SumHead(t, [], FreezeOf(u));
      SumEmpty(FreezeOf(u));
    }
  }

  lemma WholeVolume(v: real)
    requires GoodVolume(v)
    ensures v.Floor as real == v
  {
  }

  /** From a right ledger, an accepted open leaves a right ledger if and only if it pays its
      margin: for a limit order, that its two leverages agree; for a market order, that the walk
      of the book finds each fill's margin there. */
  lemma OpenPaysIff(s: State, a: Args, base: nat -> real)
    requires Sided(s) && Good(s, [], Scope(true, base)) && PutOpen(s, a).1.Accepted?
    ensures Good(PutOpen(s, a).0, [], Scope(true, base)) <==> PaysMargin(s, a)
  {
    hide Good, PutOpen, ModeAfter, Funding, OrderLeverage, MarginLeverage, Execute, Drifting, LeverageAgrees, Covered;
    var c := Scope(true, base);
    if PaysMargin(s, a) {
      PutOpenKeepsGood(s, a, c);
    } else {
      UserHasMode(s, a, c);
      OpenOutcome(s, a);
      OpenedDrifts(s, a, base);
      var (bal, freeze) := Funding(s, a);
      var (s1, t) := Opened(s, a, bal, freeze);
      if a.kind.Limit? {
        DisagreeingDrifts(s, a);
        DriftBreaksLedger(s1, t, base, DriftOf(s, a));
      } else {
        MarketFreezesNothing(s, a);
        StillUncovered(s, a);
        UncoveredBreaksLedger(s1, t, base);
      }
      GoodIsFunded(PutOpen(s, a).0, base);
    }
  }

  lemma DisagreeingDrifts(s: State, a: Args)
    requires GoodVolume(a.volume) && a.kind.Limit? && !LeverageAgrees(s, a) && MarginLeverage(s, a) != 0.0
    ensures DriftOf(s, a) != 0.0
  {
    LeverageAgreesMeans(s, a);
    DifferentShares(a.volume, OrderLeverage(s, a), MarginLeverage(s, a));
  }

  lemma DifferentShares(v: real, l: real, m: real)
    requires v > 0.0 && m != 0.0 && l != m
    ensures Div(v, m) != Div(v, l)
  {
    MulDiv(v, m);
    if l != 0.0 {
      MulDiv(v, l);
      if v / l == v / m { SameFactor(v / l, l, m); }
    } else {
      assert v / m != 0.0;
    }
  }

  lemma StillUncovered(s: State, a: Args)
    requires a.kind.Market? && !Covered(s, TakerOf(s, a))
    ensures var (s1, t) := Opened(s, a, s.bal, 0.0); !Covered(s1, t)
  {
  }

  lemma GoodIsFunded(s: State, base: nat -> real)
    ensures Good(s, [], Scope(true, base)) ==> Funded(s, [], base)
  {
    hide Indexed, Backed;
  }

  // ----- whole runs

  /** The ledger is right in every state of the run. */
  ghost predicate AlwaysFunded(s: State, ops: seq<Op>, base: nat -> real)
    requires Sided(s)
    decreases |ops|
  {
    Funded(s, [], base) && (ops == [] || AlwaysFunded(Do(s, ops[0]), ops[1..], base))
  }

  lemma {:induction false} RunPaysIff(s: State, ops: seq<Op>, base: nat -> real)
    requires Sided(s) && Good(s, [], Scope(true, base))
    ensures AlwaysFunded(s, ops, base) <==> Agreeing(s, ops)
    decreases |ops|
  {
    hide Good, PutOpen, PaysMargin, Funded, Do;
    GoodIsFunded(s, base);
    if ops != [] {
      var c := Scope(true, base);
      var r := Do(s, ops[0]);
      if OpPays(s, ops[0]) {
        DoKeepsGood(s, ops[0], c);
        RunPaysIff(r, ops[1..], base);
      } else {
        OpenPaysIff(s, ops[0].a, base);
        DoOpens(s, ops[0]);
        GoodWhenFunded(s, ops[0], base);
        NotAlways(r, ops[1..], base);
      }
    }
  }

  lemma DoOpens(s: State, op: Op)
    requires Sided(s) && op.OpenOrder?
    ensures Do(s, op) == PutOpen(s, op.a).0
  {
  }

  /** The other layers of the invariant never fail, so only the ledger can. */
  lemma GoodWhenFunded(s: State, op: Op, base: nat -> real)
    requires Sided(s) && Good(s, [], Scope(true, base))
    ensures Funded(Do(s, op), [], base) ==> Good(Do(s, op), [], Scope(true, base))
  {
    hide Do, Indexed, Backed, Funded;
    DoKeepsGood(s, op, Scope(false, base));
  }

  lemma NotAlways(s: State, ops: seq<Op>, base: nat -> real)
    requires Sided(s) && !Funded(s, [], base)
    ensures !AlwaysFunded(s, ops, base)
  {
  }

  /** Over every run, the margin ledger is right in every state if and only if every accepted
      open passes the guard. */
  lemma MarginLedgerBalancesIff(s0: State, ops: seq<Op>)
    requires Untouched(s0)
    ensures AlwaysFunded(s0, ops, Base(s0)) <==> Agreeing(s0, ops)
  {
    UntouchedIsGood(s0, Scope(true, Base(s0)));
    RunPaysIff(s0, ops, Base(s0));
  }
}
