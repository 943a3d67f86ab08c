/** Which notices the depth service sends, to whom and when: one for every reply that changes
    something, to each follower of its key, the whole depth at least once a minute. */
module DepthNotices {
  import opened Common
  import opened Depth
  import opened DepthFeed

  /** Those and nobody else hear one more message. */
  ghost predicate OnlyTheyHear(s: State, t: State, key: Key, m: Msg) {
    forall ses :: Heard(t.wire, ses) == Heard(s.wire, ses) + if Follows(s, key, ses) then [m] else []
  }

  /** The reply in which the depth on record was last sent whole, to all that followed the key then. */
  ghost predicate SentWhole(events: seq<Event>, i: nat, key: Key, time: int) {
    && i < |events| && events[i].Reply? && events[i].key == key && events[i].now == time
    && events[i].error.Null? && events[i].result.Some?
    && OnlyTheyHear(Run(events[..i]), Run(events[..i + 1]), key, Clean(events[i].result.value))
  }

  lemma BroadcastIsHeard(s: State, wire: map<Session, seq<Msg>>, key: Key, m: Msg)
    requires key in s.depth && wire == Broadcast(s.wire, s.depth[key].sessions, m)
    ensures forall ses :: Heard(wire, ses) == Heard(s.wire, ses) + if Follows(s, key, ses) then [m] else []
  {
    forall ses ensures Heard(wire, ses) == Heard(s.wire, ses) + if Follows(s, key, ses) then [m] else [] {
      assert Heard(s.wire, ses) + [] == Heard(s.wire, ses);
    }
  }

  /** A reply that repeats the depth on record changes nothing.  Any other becomes the record, and each
      follower of its key hears one notice, nobody else any: the whole depth, if it is the first or a
      minute has passed since the last whole one, and otherwise what has changed. */
  lemma ReplyMeans(events: seq<Event>, key: Key, result: Depths, now: int)
    requires forall e :: e in events ==> Honest(e)
    requires key in Run(events).depth && Proper(result, key.limit)
    ensures var s := Run(events); var t := OnReply(s, key, Null, Some(result), now); var val := s.depth[key];
            if val.last == Some(result) then t == s
            else
              var whole := val.last.None? || now - val.lastClean >= 60;
              && t.depth == s.depth[key := Val(val.sessions, Some(result), if whole then now else val.lastClean)]
              && exists m :: OnlyTheyHear(s, t, key, m) && (if whole then m == Clean(result) else m.Change?)
  {
    hide Run, Proper, DepthDiff, OnlyTheyHear;
    RunIsGood(events);
    var s := Run(events);
    var t, val := OnReply(s, key, Null, Some(result), now), s.depth[key];
    if val.last.None? {
      Notified(s, t, key, Clean(result));
    } else {
      ChangeMeans(val.last.value, result, key.limit);
      var diff := DepthDiff(val.last.value, result, key.limit);
      if diff.Some? {
        Notified(s, t, key, if now - val.lastClean >= 60 then Clean(result) else Change(diff.value));
      }
    }
  }

  lemma Notified(s: State, t: State, key: Key, m: Msg)
    requires key in s.depth && t.wire == Broadcast(s.wire, s.depth[key].sessions, m)
    ensures OnlyTheyHear(s, t, key, m)
  {
    BroadcastIsHeard(s, t.wire, key, m);
  }

  lemma PrefixSent(events: seq<Event>, e: Event, i: nat, key: Key, time: int)
    requires SentWhole(events, i, key, time)
    ensures SentWhole(events + [e], i, key, time)
  {
    hide Run, OnlyTheyHear;
    assert (events + [e])[..i] == events[..i] && (events + [e])[..i + 1] == events[..i + 1];
  }

  /** What `lastClean` means in every run: with a depth on record, there is a reply at that time whose
      depth was sent whole to all that followed the key. */
  lemma {:induction false} CleanWasSent(events: seq<Event>, key: Key) returns (i: nat)
    requires key in Run(events).depth && Run(events).depth[key].last.Some?
    ensures SentWhole(events, i, key, Run(events).depth[key].lastClean)
    decreases |events|
  {
    hide DepthDiff, Broadcast, SentWhole;
    var before, e := events[..|events| - 1], events[|events| - 1];
    var s, t := Run(before), Run(events);
    assert events == before + [e];
    if key in s.depth && s.depth[key].last.Some? && t.depth[key].lastClean == s.depth[key].lastClean {
      i := CleanWasSent(before, key);
      PrefixSent(before, e, i, key, s.depth[key].lastClean);
    } else {
      i := |before|;
      CleanIsNow(s, e, key);
      JustSent(before, e, key);
    }
  }

  lemma CleanIsNow(s: State, e: Event, key: Key)
    requires key in Step(s, e).depth && Step(s, e).depth[key].last.Some?
    requires !(key in s.depth && s.depth[key].last.Some? && Step(s, e).depth[key].lastClean == s.depth[key].lastClean)
    ensures e.Reply? && e.key == key && e.error.Null? && e.result.Some? && key in s.depth
    ensures Step(s, e).depth[key].lastClean == e.now
    ensures Step(s, e).wire == Broadcast(s.wire, s.depth[key].sessions, Clean(e.result.value))
  {
    hide DepthDiff, Broadcast;
  }

  lemma JustSent(before: seq<Event>, e: Event, key: Key)
    requires var s := Run(before);
             && e.Reply? && e.key == key && e.error.Null? && e.result.Some? && key in s.depth
             && Step(s, e).wire == Broadcast(s.wire, s.depth[key].sessions, Clean(e.result.value))
    ensures SentWhole(before + [e], |before|, key, e.now)
  {
    hide Run, Step, Broadcast, OnlyTheyHear;
    var all := before + [e];
    RunMore(before, e);
    assert all[..|before|] == before && all[..|before| + 1] == all;
    Notified(Run(before), Run(all), key, Clean(e.result.value));
  }

  // ----- the other events

  /** A good request is answered with its limit and then the depth on record, if there is one; nobody
      else hears anything, and the session follows that key only. */
  lemma SubscribeMeans(s: State, ses: Session, key: Key)
    ensures var t := Step(s, Subscription(ses, key, true));
            var last := if key in s.depth then s.depth[key].last else None;
            && Heard(t.wire, ses) == Heard(s.wire, ses) + [Subscribed(key.limit)]
                                     + (if last.Some? then [Clean(last.value)] else [])
            && (forall other :: other != ses ==> Heard(t.wire, other) == Heard(s.wire, other))
            && (forall k :: Follows(t, k, ses) <==> k == key)
            && (forall k, other :: other != ses ==> (Follows(t, k, other) <==> Follows(s, k, other)))
            && t.depth.Keys == s.depth.Keys + {key}
            && (forall k :: k in s.depth ==>
                  t.depth[k].last == s.depth[k].last && t.depth[k].lastClean == s.depth[k].lastClean)
  {
    var t := Step(s, Subscription(ses, key, true));
    forall k, other
      ensures Follows(t, k, other) <==> (k == key && other == ses) || (other != ses && Follows(s, k, other)) {
      StepFollows(s, Subscription(ses, key, true), k, other);
    }
  }

  /** A refused request and a departure only end what the session followed; an error reply ends the
      record; a malformed reply does nothing; a tick ends the records that nobody follows.  None of
      them is heard by anybody. */
  lemma OthersMean(s: State, ses: Session, key: Key, error: Field<string>, result: Option<Depths>, now: int)
    ensures var t := Step(s, Subscription(ses, key, false));
            && t == Step(s, Unsubscription(ses)) && t.wire == s.wire && t.depth.Keys == s.depth.Keys
            && (forall k :: k in s.depth ==> t.depth[k] == s.depth[k].(sessions := s.depth[k].sessions - {ses}))
    ensures var t := Step(s, Reply(key, error, result, now));
            && (error.Set? ==> t.wire == s.wire && t.depth.Keys == s.depth.Keys - {key})
            && (!error.Set? && (error.Missing? || result.None? || key !in s.depth) ==> t == s)
            && (forall k :: k != key && k in s.depth ==> k in t.depth && t.depth[k] == s.depth[k])
    ensures var t := Step(s, Tick);
            && t.wire == s.wire
            && (forall k :: k in t.depth <==> exists other :: Follows(s, k, other))
            && (forall k :: k in t.depth ==> t.depth[k] == s.depth[k])
  {
    hide DepthDiff, Broadcast;
    var t := Step(s, Tick);
    forall k ensures k in t.depth <==> exists other :: Follows(s, k, other) {
      if k in s.depth && s.depth[k].sessions != {} {
        var other :| other in s.depth[k].sessions;
        assert Follows(s, k, other);
      }
    }
  }
}
