/** The depth service as it runs: the dictionary of records and the outgoing notices are
    changed in place by each handler. */
module DepthServer {
  import opened Common
  import opened Depth
  import opened DepthFeed

  class Server {
    var depth: map<Key, Val>
    var wire: map<Session, seq<Msg>>

    ghost function View(): State
      reads this
    {
      State(depth, wire)
    }

    constructor ()
      ensures View() == START
    {
      depth, wire := map[], map[];
    }

    method SendNotify(ses: Session, m: Msg)
      modifies `wire
      ensures wire == Tell(old(wire), ses, m)
    {
      wire := wire[ses := Heard(wire, ses) + [m]];
    }

    method BroadcastUpdate(sessions: set<Session>, m: Msg)
      modifies `wire
      ensures wire == Broadcast(old(wire), sessions, m)
    {
      var left := sessions;
      while left != {}
        invariant left <= sessions
        invariant wire == Broadcast(old(wire), sessions - left, m)
        decreases left
      {
        var ses :| ses in left;
        SendNotify(ses, m);
        assert sessions - (left - {ses}) == (sessions - left) + {ses};
        left := left - {ses};
      }
      assert sessions - {} == sessions;
    }

    method GetDepthDiff(first: Depths, second: Depths, limit: nat) returns (diff: Option<Depths>)
      ensures diff == DepthDiff(first, second, limit)
    {
      hide ListDiff;
      var asks := GetListDiff(first.asks, second.asks, limit, Asks);
      var bids := GetListDiff(first.bids, second.bids, limit, Bids);
      return if asks.None? && bids.None? then None else Some(Depths(asks, bids));
    }

    method OnMarketDepthReply(key: Key, result: Depths, now: int) returns (ok: bool)
      modifies this
      ensures ok == (key in old(depth)) && View() == OnDepth(old(View()), key, result, now)
    {
      hide DepthDiff, Broadcast;
      if key !in depth {
        return false;
      }
      var val := depth[key];
      if val.last.None? {
        depth := depth[key := val.(last := Some(result), lastClean := now)];
        BroadcastUpdate(val.sessions, Clean(result));
        return true;
      }
      var diff := GetDepthDiff(val.last.value, result, key.limit);
      if diff.None? {
        return true;
      }
      val := val.(last := Some(result));
      if now - val.lastClean >= CLEAN_INTERVAL {
        depth := depth[key := val.(lastClean := now)];
        BroadcastUpdate(val.sessions, Clean(result));
      } else {
        depth := depth[key := val];
        BroadcastUpdate(val.sessions, Change(diff.value));
      }
      return true;
    }

    method OnBackendRecvPkg(key: Key, error: Field<string>, result: Option<Depths>, now: int)
      modifies this
      ensures View() == OnReply(old(View()), key, error, result, now)
    {
      hide OnDepth;
      if error.Set? {
        depth := depth - {key};
      }
      if error.Missing? || !error.Null? || result.None? {
        return;
      }
      var ok := OnMarketDepthReply(key, result.value, now);
    }

    /** on_timer: one request for every record that is followed; the others are dropped. */
    method OnTimerTick() returns (requests: set<Key>)
      modifies `depth
      ensures View() == OnTimer(old(View()))
      ensures requests == depth.Keys
    {
      requests := {};
      var left := depth.Keys;
      while left != {}
        invariant left <= old(depth).Keys
        invariant requests == set k | k in old(depth) && k !in left && old(depth)[k].sessions != {}
        invariant depth == map k | k in old(depth) && (k in left || old(depth)[k].sessions != {}) :: old(depth)[k]
        decreases left
      {
        var key :| key in left;
        left := left - {key};
        if depth[key].sessions == {} {
          depth := depth - {key};
        } else {
          requests := requests + {key};
        }
      }
    }

    method DepthUnsubscribe(ses: Session)
      modifies `depth
      ensures View() == Unsubscribe(old(View()), ses)
    {
      var left := depth.Keys;
      while left != {}
        invariant left <= old(depth).Keys && depth.Keys == old(depth).Keys
        invariant forall k :: k in left ==> depth[k] == old(depth)[k]
        invariant forall k :: k in depth && k !in left ==>
                    depth[k] == old(depth)[k].(sessions := old(depth)[k].sessions - {ses})
        decreases left
      {
        var key :| key in left;
        left := left - {key};
        depth := depth[key := depth[key].(sessions := depth[key].sessions - {ses})];
      }
    }

    /** depth_subscribe; `good` is what is_good_limit and is_good_interval say. */
    method DepthSubscribe(ses: Session, key: Key, good: bool) returns (ok: bool)
      modifies `depth
      ensures ok == good
      ensures depth == if !good then old(depth)
                       else var val := if key in old(depth) then old(depth)[key] else NEW_VAL;
                            old(depth)[key := val.(sessions := val.sessions + {ses})]
    {
      if !good {
        return false;
      }
      if key !in depth {
        depth := depth[key := NEW_VAL];
      }
      depth := depth[key := depth[key].(sessions := depth[key].sessions + {ses})];
      return true;
    }

    method DepthSendClean(ses: Session, key: Key)
      modifies `wire
      ensures wire == if key in depth && depth[key].last.Some?
                      then Tell(old(wire), ses, Clean(depth[key].last.value)) else old(wire)
    {
      if key in depth && depth[key].last.Some? {
        SendNotify(ses, Clean(depth[key].last.value));
      }
    }

    method OnMethodDepthSubscribe(ses: Session, key: Key, good: bool)
      modifies this
      ensures View() == Subscribe(old(View()), ses, key, good)
    {
      hide Tell;
      DepthUnsubscribe(ses);
      ghost var t := View();
      assert t == Unsubscribe(old(View()), ses);
      hide Unsubscribe;
      var ok := DepthSubscribe(ses, key, good);
      if !ok {
        return;
      }
      SendNotify(ses, Subscribed(key.limit));
      DepthSendClean(ses, key);
    }
  }
}
