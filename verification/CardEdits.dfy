/**
  The card editor as it runs: a table of lanes, one a channel, updated in place by requests,
  timers and finished flushes. Each method is proved against the function of module CardLane,
  and touches no other channel's lane.
 */
module CardEdits {
  import opened Options
  import L = CardLane

  class CardEditor {
    const intervalMs: nat
    var lanes: map<nat, L.Lane>

    constructor (intervalMs: nat)
      ensures this.intervalMs == intervalMs && lanes == map[]
    {
      this.intervalMs := intervalMs;
      lanes := map[];
    }

    function Lane(channel: nat): L.Lane
      reads this
    {
      if channel in lanes then lanes[channel] else L.EMPTY
    }

    /** Only this channel's lane changed. */
    twostate predicate OnlyLane(channel: nat)
      reads this
    {
      forall c :: c != channel ==> Lane(c) == old(Lane(c))
    }

    method Arm(channel: nat, now: int)
      modifies this
      ensures Lane(channel) == L.Arm(old(Lane(channel)), intervalMs, now) && OnlyLane(channel)
    {
      var lane := Lane(channel);
      if lane.timer.Some? || lane.inFlight.Some? || lane.pending == [] {
        return;
      }
      var due := L.Larger(0, lane.lastFlushAt + intervalMs - now);
      lanes := lanes[channel := lane.(timer := Some(now + due))];
    }

    /** Queues a body, in place of the one its card may already have queued. */
    method Schedule(channel: nat, id: nat, body: nat, now: int)
      modifies this
      ensures Lane(channel) == L.Schedule(old(Lane(channel)), intervalMs, now, id, body) && OnlyLane(channel)
    {
      var lane := Lane(channel);
      var i := L.Find(lane.pending, id);
      var pending := lane.pending;
      if i == |pending| {
        pending := pending + [L.Pending(id, body, [])];
      } else {
        pending := pending[i := pending[i].(body := body)];
      }
      lanes := lanes[channel := lane.(pending := pending, log := lane.log + [L.Asked(id, body)])];
      Arm(channel, now);
    }

    /** Queues a body if one is given, and waits until the card's queued body is out. */
    method Settle(channel: nat, id: nat, body: Option<nat>, waiter: nat, now: int)
      modifies this
      ensures Lane(channel) == L.Settle(old(Lane(channel)), intervalMs, now, id, body, waiter) && OnlyLane(channel)
    {
      if body.Some? {
        Schedule(channel, id, body.value, now);
      }
      var lane := Lane(channel);
      var i := L.Find(lane.pending, id);
      if i == |lane.pending| {
        lanes := lanes[channel := lane.(log := lane.log
            + [L.Waits(waiter, id, None), L.Released(waiter, L.NothingQueued)])];
        return;
      }
      var p := lane.pending[i];
      lanes := lanes[channel := lane.(pending := lane.pending[i := p.(waiters := p.waiters + [waiter])],
                                      log := lane.log + [L.Waits(waiter, id, Some(p.body))])];
      Arm(channel, now);
    }

    /** Drops whatever is queued for a card that can no longer be edited. */
    method Forget(channel: nat, id: nat)
      modifies this
      ensures Lane(channel) == L.Forget(old(Lane(channel)), id) && OnlyLane(channel)
    {
      var lane := Lane(channel);
      var i := L.Find(lane.pending, id);
      if i == |lane.pending| {
        lanes := lanes[channel := lane.(log := lane.log + [L.Forgot(id)])];
        return;
      }
      var p := lane.pending[i];
      lanes := lanes[channel := lane.(pending := lane.pending[..i] + lane.pending[i + 1..])];
      ReleaseAll(channel, p.waiters, L.Dropped, [L.Forgot(id)]);
    }

    /** Resolves waiters, in order, after some other acts. */
    method ReleaseAll(channel: nat, waiters: seq<nat>, why: L.Why, first: seq<L.Act>)
      requires channel in lanes
      modifies this
      ensures Lane(channel) == L.Log(old(Lane(channel)), first + L.Release(waiters, why)) && OnlyLane(channel)
    {
      var lane := Lane(channel);
      var log := lane.log + first;
      for i := 0 to |waiters|
        invariant log + L.Release(waiters[i..], why) == lane.log + (first + L.Release(waiters, why))
      {
        assert waiters[i..][0] == waiters[i] && waiters[i..][1..] == waiters[i + 1..];
        log := log + [L.Released(waiters[i], why)];
      }
      lanes := lanes[channel := lane.(log := log)];
    }

    /** The lane's timer fires: the card first in line is flushed, if there is one. */
    method Tick(channel: nat, now: int)
      requires L.Possible(Lane(channel), now, L.TimerFires)
      modifies this
      ensures Lane(channel) == L.Fire(old(Lane(channel)), now) && OnlyLane(channel)
    {
      var lane := Lane(channel).(timer := None);
      if lane.pending == [] {
        lanes := lanes[channel := lane];
        return;
      }
      var p := lane.pending[0];
      lanes := lanes[channel := lane.(pending := lane.pending[1..], inFlight := Some(p), lastFlushAt := now,
                                      log := lane.log + [L.Started(now, p.id, p.body)])];
    }

    /** The flush in progress is over: its waiters are resolved and the next is armed. */
    method FlushFinished(channel: nat, now: int)
      requires L.Possible(Lane(channel), now, L.FlushFinishes)
      modifies this
      ensures Lane(channel) == L.FlushOver(old(Lane(channel)), intervalMs, now) && OnlyLane(channel)
    {
      var lane := Lane(channel);
      var p := lane.inFlight.value;
      lanes := lanes[channel := lane.(inFlight := None)];
      ReleaseAll(channel, p.waiters, L.Flushed(p.id, p.body), [L.Landed(p.id, p.body)]);
      Arm(channel, now);
    }
  }
}
