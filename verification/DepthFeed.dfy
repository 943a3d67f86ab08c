/** The depth subscription service of accessws: the per-market record of the last depth, the
    sessions that follow it, and what every session has been sent. */
module DepthFeed {
  import opened Common
  import opened Depth

  const CLEAN_INTERVAL := 60

  type Session = nat

  datatype Key = Key(market: string, interval: string, limit: nat)
  datatype Book = Book(asks: Levels, bids: Levels)

  /** A depth result of the matching engine; the JSON object may lack a side. */
  datatype Depths = Depths(asks: Option<Levels>, bids: Option<Levels>)

  /** struct depth_val */
  datatype Val = Val(sessions: set<Session>, last: Option<Depths>, lastClean: int)

  /** What a session can hear: that its subscription stands, and "depth.update" notices. */
  datatype Msg =
    | Subscribed(limit: nat)
    | Clean(depths: Depths)
    | Change(depths: Depths)

  datatype State = State(depth: map<Key, Val>, wire: map<Session, seq<Msg>>)

  // ----- sending

  function Heard(wire: map<Session, seq<Msg>>, ses: Session): seq<Msg> {
    if ses in wire then wire[ses] else []
  }

  function Tell(wire: map<Session, seq<Msg>>, ses: Session, m: Msg): map<Session, seq<Msg>> {
    wire[ses := Heard(wire, ses) + [m]]
  }

  /** broadcast_update: the notice goes to every session of the record, once. */
  function Broadcast(wire: map<Session, seq<Msg>>, to: set<Session>, m: Msg): map<Session, seq<Msg>> {
    map ses | ses in wire.Keys + to :: if ses in to then Heard(wire, ses) + [m] else wire[ses]
  }

  // ----- the handlers

  /** get_depth_diff: nothing when neither side changed. */
  function DepthDiff(old_: Depths, new_: Depths, limit: nat): Option<Depths> {
    var asks := SideDiff(old_.asks, new_.asks, limit, Asks);
    var bids := SideDiff(old_.bids, new_.bids, limit, Bids);
    if asks.None? && bids.None? then None else Some(Depths(asks, bids))
  }

  function SideDiff(l1: Option<Levels>, l2: Option<Levels>, limit: nat, side: Side): Option<Levels> {
    if l1.None? || l2.None? then None else NonEmpty(ListDiff(l1.value, l2.value, side, |l2.value| >= limit))
  }

  /** on_market_depth_reply */
  function OnDepth(s: State, key: Key, result: Depths, now: int): State {
    if key !in s.depth then s
    else
      var val := s.depth[key];
      if val.last.None? then
        State(s.depth[key := val.(last := Some(result), lastClean := now)],
              Broadcast(s.wire, val.sessions, Clean(result)))
      else
        var diff := DepthDiff(val.last.value, result, key.limit);
        if diff.None? then s
        else
          var clean := now - val.lastClean >= CLEAN_INTERVAL;
          State(s.depth[key := val.(last := Some(result), lastClean := if clean then now else val.lastClean)],
                Broadcast(s.wire, val.sessions, if clean then Clean(result) else Change(diff.value)))
  }

  datatype Field<T> = Missing | Null | Set(value: T)

  /** on_backend_recv_pkg: an error reply drops the record; a malformed one is ignored. */
  function OnReply(s: State, key: Key, error: Field<string>, result: Option<Depths>, now: int): State {
    if error.Set? then s.(depth := s.depth - {key})
    else if error.Missing? || result.None? then s
    else OnDepth(s, key, result.value, now)
  }

  /** on_timer: records nobody follows are dropped. */
  function OnTimer(s: State): State {
    s.(depth := map key | key in s.depth && s.depth[key].sessions != {} :: s.depth[key])
  }

  function Unsubscribe(s: State, ses: Session): State {
    s.(depth := map key | key in s.depth :: s.depth[key].(sessions := s.depth[key].sessions - {ses}))
  }

  const NEW_VAL: Val := Val({}, None, 0)

  /** A "depth.subscribe" request with well-formed parameters: the old subscription goes first,
      even when the limit or the interval (`good`) is then refused. */
  function Subscribe(s: State, ses: Session, key: Key, good: bool): State {
    var t := Unsubscribe(s, ses);
    if !good then t
    else
      var val := if key in t.depth then t.depth[key] else NEW_VAL;
      var told := Tell(t.wire, ses, Subscribed(key.limit));
      State(t.depth[key := val.(sessions := val.sessions + {ses})],
            if val.last.Some? then Tell(told, ses, Clean(val.last.value)) else told)
  }

  // ----- the client

  /** What a client makes of what it heard: the limit it subscribed with and its two lists. */
  datatype Client = Client(limit: nat, asks: Option<Levels>, bids: Option<Levels>)

  const DEAF: Client := Client(0, None, None)

  function Hear(c: Client, m: Msg): Client {
    match m
    case Subscribed(limit) => c.(limit := limit)
    case Clean(d) => c.(asks := d.asks, bids := d.bids)
    case Change(d) =>
      c.(asks := if c.asks.None? then None else Some(Updated(c.asks.value, d.asks, Asks, c.limit)),
         bids := if c.bids.None? then None else Some(Updated(c.bids.value, d.bids, Bids, c.limit)))
  }

  function Listen(msgs: seq<Msg>): Client {
    if msgs == [] then DEAF else Hear(Listen(msgs[..|msgs| - 1]), msgs[|msgs| - 1])
  }

  lemma ListenMore(msgs: seq<Msg>, m: Msg)
    ensures Listen(msgs + [m]) == Hear(Listen(msgs), m)
  {
    assert (msgs + [m])[..|msgs|] == msgs;
  }

  // ----- the invariant

  /** What the matching engine answers for a request with this limit. */
  predicate Proper(d: Depths, limit: nat) {
    && d.asks.Some? && ProperList(d.asks.value, Asks, limit)
    && d.bids.Some? && ProperList(d.bids.value, Bids, limit)
  }

  /** A session that follows `key` knows its limit and, once there is a last depth, holds it. */
  ghost predicate Synced(key: Key, val: Val, c: Client) {
    && c.limit == key.limit
    && (val.last.Some? ==> c.asks == val.last.value.asks && c.bids == val.last.value.bids)
  }

  ghost predicate ProperLast(s: State) {
    forall key :: key in s.depth && s.depth[key].last.Some? ==> Proper(s.depth[key].last.value, key.limit)
  }

  ghost predicate Follows(s: State, key: Key, ses: Session) {
    key in s.depth && ses in s.depth[key].sessions
  }

  ghost predicate OneHome(s: State) {
    forall k1, k2, ses :: Follows(s, k1, ses) && Follows(s, k2, ses) ==> k1 == k2
  }

  ghost predicate AllSynced(s: State) {
    forall key, ses :: Follows(s, key, ses) ==>
      Synced(key, s.depth[key], Listen(Heard(s.wire, ses)))
  }

  ghost predicate Good(s: State) {
    ProperLast(s) && OneHome(s) && AllSynced(s)
  }

  // ----- one message

  /** A proper result has no diff exactly when it is the last one; otherwise the diff takes a
      client from the last one to it. */
  lemma ChangeMeans(old_: Depths, new_: Depths, limit: nat)
    requires Proper(old_, limit) && Proper(new_, limit)
    ensures DepthDiff(old_, new_, limit).None? <==> old_ == new_
    ensures DepthDiff(old_, new_, limit).Some? ==>
              Hear(Client(limit, old_.asks, old_.bids), Change(DepthDiff(old_, new_, limit).value))
              == Client(limit, new_.asks, new_.bids)
  {
    hide Sorted, ListDiff, Updated;
    DiffUpdates(old_.asks.value, new_.asks.value, Asks, limit);
    DiffUpdates(old_.bids.value, new_.bids.value, Bids, limit);
  }

  // ----- every handler keeps the invariant

  lemma OnDepthKeepsGood(s: State, key: Key, result: Depths, now: int)
    requires Good(s) && Proper(result, key.limit)
    ensures Good(OnDepth(s, key, result, now))
    ensures key in s.depth ==> OnDepth(s, key, result, now).depth[key].last == Some(result)
  {
    hide Proper, DepthDiff, Listen;
    if key in s.depth {
      var val, t := s.depth[key], OnDepth(s, key, result, now);
      assert Proper(Depths(result.asks, result.bids), key.limit);
      if val.last.Some? { ChangeMeans(val.last.value, result, key.limit); }
      assert forall k, ses :: Follows(t, k, ses) ==> Follows(s, k, ses);
      if t != s {
        forall k, ses | Follows(t, k, ses)
          ensures Synced(k, t.depth[k], Listen(Heard(t.wire, ses)))
        {
          if k == key {
            BroadcastSyncs(s, key, result, now, ses);
          } else {
            assert Follows(s, k, ses) && !Follows(s, key, ses);
            assert Synced(k, s.depth[k], Listen(Heard(s.wire, ses)));
            assert Heard(t.wire, ses) == Heard(s.wire, ses);
          }
        }
      }
    }
  }

  lemma BroadcastSyncs(s: State, key: Key, result: Depths, now: int, ses: Session)
    requires Good(s) && Proper(result, key.limit) && key in s.depth && ses in s.depth[key].sessions
    ensures var t := OnDepth(s, key, result, now);
            key in t.depth && Synced(key, t.depth[key], Listen(Heard(t.wire, ses)))
  {
    hide Proper, DepthDiff, Listen;
    var val, before := s.depth[key], Listen(Heard(s.wire, ses));
    assert Synced(key, val, before);
    ListenMore(Heard(s.wire, ses), Clean(result));
    if val.last.Some? {
      ChangeMeans(val.last.value, result, key.limit);
      var diff := DepthDiff(val.last.value, result, key.limit);
      if diff.Some? {
        ListenMore(Heard(s.wire, ses), Change(diff.value));
        assert before == Client(key.limit, val.last.value.asks, val.last.value.bids);
      }
    }
  }

  lemma SubscribeKeepsGood(s: State, ses: Session, key: Key, good: bool)
    requires Good(s)
    ensures Good(Subscribe(s, ses, key, good))
  {
    hide Proper, Listen;
    var t, u := Unsubscribe(s, ses), Subscribe(s, ses, key, good);
    UnsubscribeKeepsGood(s, ses);
    if good {
      var told := Tell(t.wire, ses, Subscribed(key.limit));
      ListenMore(Heard(t.wire, ses), Subscribed(key.limit));
      var val := if key in t.depth then t.depth[key] else NEW_VAL;
      assert forall k, other :: Follows(u, k, other) ==> Follows(t, k, other) || (k == key && other == ses);
      assert forall k :: !Follows(t, k, ses);
      if val.last.Some? { ListenMore(Heard(told, ses), Clean(val.last.value)); }
      forall k, other | Follows(u, k, other)
        ensures Synced(k, u.depth[k], Listen(Heard(u.wire, other)))
      {
        if other != ses {
          assert Heard(u.wire, other) == Heard(s.wire, other);
        } else {
          assert k == key;
        }
      }
    }
  }

  lemma UnsubscribeKeepsGood(s: State, ses: Session)
    requires Good(s)
    ensures Good(Unsubscribe(s, ses))
    ensures forall key :: key in Unsubscribe(s, ses).depth ==> ses !in Unsubscribe(s, ses).depth[key].sessions
  {
    hide Proper, Listen;
    var t := Unsubscribe(s, ses);
    assert forall k, other :: Follows(t, k, other) ==> Follows(s, k, other);
    forall k, other | Follows(t, k, other)
      ensures Synced(k, t.depth[k], Listen(Heard(t.wire, other)))
    {
      assert Synced(k, s.depth[k], Listen(Heard(s.wire, other)));
    }
  }

  // ----- runs

  datatype Event =
    | Subscription(ses: Session, key: Key, good: bool)
    | Unsubscription(ses: Session)
    | Reply(key: Key, error: Field<string>, result: Option<Depths>, now: int)
    | Tick

  function Step(s: State, e: Event): State {
    match e
    case Subscription(ses, key, good) => Subscribe(s, ses, key, good)
    case Unsubscription(ses) => Unsubscribe(s, ses)
    case Reply(key, error, result, now) => OnReply(s, key, error, result, now)
    case Tick => OnTimer(s)
  }

  const START: State := State(map[], map[])

  function Run(events: seq<Event>): State {
    if events == [] then START else Step(Run(events[..|events| - 1]), events[|events| - 1])
  }

  ghost predicate Honest(e: Event) {
    e.Reply? && e.result.Some? ==> Proper(e.result.value, e.key.limit)
  }

  lemma StartIsGood()
    ensures Good(START)
  {
  }

  /** Dropping records keeps the invariant. */
  lemma ForgetKeepsGood(s: State, t: State)
    requires Good(s) && t.wire == s.wire
    requires forall key :: key in t.depth ==> key in s.depth && t.depth[key] == s.depth[key]
    ensures Good(t)
  {
    hide Proper, Synced, Listen;
    assert forall k, ses :: Follows(t, k, ses) ==> Follows(s, k, ses);
  }

  lemma {:induction false} RunIsGood(events: seq<Event>)
    requires forall e :: e in events ==> Honest(e)
    ensures Good(Run(events))
    decreases |events|
  {
    hide Proper, Good, OnDepth, Subscribe, Unsubscribe;
    if events == [] {
      StartIsGood();
    } else {
      var s, e := Run(events[..|events| - 1]), events[|events| - 1];
      RunIsGood(events[..|events| - 1]);
      assert Honest(e);
      match e
      case Subscription(ses, key, good) => SubscribeKeepsGood(s, ses, key, good);
      case Unsubscription(ses) => UnsubscribeKeepsGood(s, ses);
      case Reply(key, error, result, now) =>
        if error.Set? { ForgetKeepsGood(s, OnReply(s, key, error, result, now)); }
        else if result.Some? { OnDepthKeepsGood(s, key, result.value, now); }
      case Tick => ForgetKeepsGood(s, OnTimer(s));
    }
  }

  /** After any sequence of subscribes, replies, errors and timer ticks, a subscribed session
      holds exactly the last depth on record. */
  lemma ReplicaHoldsLast(events: seq<Event>, key: Key, ses: Session)
    requires forall e :: e in events ==> Honest(e)
    requires var s := Run(events);
             key in s.depth && ses in s.depth[key].sessions && s.depth[key].last.Some?
    ensures var s := Run(events);
            var c, last := Listen(Heard(s.wire, ses)), s.depth[key].last.value;
            c == Client(key.limit, last.asks, last.bids)
  {
    hide Run, Listen;
    RunIsGood(events);
    var s := Run(events);
    assert Follows(s, key, ses);
    assert Synced(key, s.depth[key], Listen(Heard(s.wire, ses)));
  }

  /** The record is the newest proper reply, whether or not anything was sent for it, and a
      reply that changes nothing sends nothing. */
  lemma RecordIsNewest(events: seq<Event>, key: Key, result: Depths, now: int)
    requires forall e :: e in events ==> Honest(e)
    requires key in Run(events).depth && Proper(result, key.limit)
    ensures var s := Run(events);
            var t := OnReply(s, key, Null, Some(result), now);
            && t.depth[key].last == Some(result)
            && (t.wire == s.wire <== s.depth[key].last == Some(result))
  {
    hide Run, Proper, DepthDiff;
    RunIsGood(events);
    var s := Run(events);
    OnDepthKeepsGood(s, key, result, now);
    if s.depth[key].last == Some(result) { ChangeMeans(result, result, key.limit); }
  }

  // ----- who follows what, and who hears nothing

  /** What ends a session's subscription to `key`: a new request of its own, even a refused one, or
      an error reply for the key. */
  predicate Ends(e: Event, key: Key, ses: Session) {
    match e
    case Subscription(other, _, _) => other == ses
    case Unsubscription(other) => other == ses
    case Reply(k, error, _, _) => k == key && error.Set?
    case Tick => false
  }

  ghost predicate SubscribedAt(events: seq<Event>, i: nat, key: Key, ses: Session) {
    && i < |events| && events[i] == Subscription(ses, key, true)
    && (forall j :: i < j < |events| ==> !Ends(events[j], key, ses))
  }

  lemma StepFollows(s: State, e: Event, key: Key, ses: Session)
    ensures Follows(Step(s, e), key, ses)
            <==> e == Subscription(ses, key, true) || (Follows(s, key, ses) && !Ends(e, key, ses))
  {
    hide DepthDiff;
  }

  lemma SubscribedMore(events: seq<Event>, e: Event, key: Key, ses: Session)
    ensures (exists i: nat :: SubscribedAt(events + [e], i, key, ses))
            <==> e == Subscription(ses, key, true)
                 || ((exists i: nat :: SubscribedAt(events, i, key, ses)) && !Ends(e, key, ses))
  {
    var all := events + [e];
    if e == Subscription(ses, key, true) { assert SubscribedAt(all, |events|, key, ses); }
    if i: nat :| SubscribedAt(events, i, key, ses) && !Ends(e, key, ses) { assert SubscribedAt(all, i, key, ses); }
    if i: nat :| SubscribedAt(all, i, key, ses) && i < |events| {
      assert all[|events|] == e;
      assert SubscribedAt(events, i, key, ses) by {
        assert events[i] == all[i];
        forall j | i < j < |events| ensures !Ends(events[j], key, ses) { assert events[j] == all[j]; }
      }
    }
  }

  /** In every run, a session follows a key exactly when it asked for it, the request was good, and
      since then it has neither asked for anything else nor left, and no error came for the key. */
  lemma {:induction false} FollowsIff(events: seq<Event>, key: Key, ses: Session)
    ensures Follows(Run(events), key, ses) <==> exists i: nat :: SubscribedAt(events, i, key, ses)
    decreases |events|
  {
    hide Step, SubscribedAt;
    if events == [] {
      NothingFollowed(key, ses);
    } else {
      var before, e := events[..|events| - 1], events[|events| - 1];
      assert events == before + [e];
      FollowsIff(before, key, ses);
      StepFollows(Run(before), e, key, ses);
      SubscribedMore(before, e, key, ses);
    }
  }

  lemma NothingFollowed(key: Key, ses: Session)
    ensures !Follows(Run([]), key, ses) && !(exists i: nat :: SubscribedAt([], i, key, ses))
  {
  }

  ghost predicate FollowsNothing(s: State, ses: Session) {
    forall key :: !Follows(s, key, ses)
  }

  predicate Requests(e: Event, ses: Session) {
    e.Subscription? && e.ses == ses && e.good
  }

  lemma StepIsSilent(s: State, e: Event, ses: Session)
    requires FollowsNothing(s, ses) && !Requests(e, ses)
    ensures FollowsNothing(Step(s, e), ses) && Heard(Step(s, e).wire, ses) == Heard(s.wire, ses)
  {
    forall key ensures !Follows(Step(s, e), key, ses) { StepFollows(s, e, key, ses); }
    hide DepthDiff;
    if e.Reply? { assert !Follows(s, e.key, ses); }
  }

  /** A session that follows nothing hears nothing until a good request of its own. */
  lemma {:induction false} SilentUntilAsked(events: seq<Event>, more: seq<Event>, ses: Session)
    requires FollowsNothing(Run(events), ses)
    requires forall e :: e in more ==> !Requests(e, ses)
    ensures FollowsNothing(Run(events + more), ses)
    ensures Heard(Run(events + more).wire, ses) == Heard(Run(events).wire, ses)
    decreases |more|
  {
    hide Step, FollowsNothing;
    if more == [] {
      assert events + more == events;
    } else {
      var some, e := more[..|more| - 1], more[|more| - 1];
      assert (events + more)[..|events + more| - 1] == events + some;
      SilentUntilAsked(events, some, ses);
      assert e in more;
      StepIsSilent(Run(events + some), e, ses);
    }
  }

  /** An error reply silences every session of its record: whatever happens afterwards, they hear
      nothing more until a good request of their own. */
  lemma ErrorSilences(events: seq<Event>, key: Key, error: string, now: int, more: seq<Event>, ses: Session)
    requires forall e :: e in events ==> Honest(e)
    requires Follows(Run(events), key, ses)
    requires forall e :: e in more ==> !Requests(e, ses)
    ensures Heard(Run(events + [Reply(key, Field.Set(error), None, now)] + more).wire, ses)
            == Heard(Run(events).wire, ses)
  {
    hide Run, ProperLast, AllSynced;
    var e := Reply(key, Field.Set(error), None, now);
    RunIsGood(events);
    RunMore(events, e);
    forall k ensures !Follows(Run(events + [e]), k, ses) { StepFollows(Run(events), e, k, ses); }
    SilentUntilAsked(events + [e], more, ses);
  }

  lemma RunMore(events: seq<Event>, e: Event)
    ensures Run(events + [e]) == Step(Run(events), e)
  {
    assert (events + [e])[..|events|] == events;
  }
}
