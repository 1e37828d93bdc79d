/**
  The coalescing card editor, one channel's lane of it: a card has one body queued at most,
  the newest; flushes keep an interval apart; a settle waits for its card.

  A lane is a scheduler with a timer and one flush in flight; its steps are a request, the
  timer firing, and a flush finishing. Module CardEdits runs them in place.
 */
module CardLane {
  import opened Options

  /** A card waiting to be flushed: its latest body, and who waits for it. A body is its serial number. */
  datatype Pending = Pending(id: nat, body: nat, waiters: seq<nat>)

  /** Why a waiter was released. */
  datatype Why = Flushed(id: nat, body: nat) | Dropped | NothingQueued

  /** What happened on the lane, in order. A waiter waits for a card, which has this body queued, if any. */
  datatype Act =
    | Asked(id: nat, body: nat)
    | Forgot(id: nat)
    | Waits(waiter: nat, card: nat, queued: Option<nat>)
    | Started(at: int, id: nat, body: nat)
    | Landed(id: nat, body: nat)
    | Released(waiter: nat, why: Why)

  /** `timer` is when it is due; `inFlight` is the flush in progress. */
  datatype Lane = Lane(
    pending: seq<Pending>,
    timer: Option<int>,
    lastFlushAt: int,
    inFlight: Option<Pending>,
    log: seq<Act>)

  const EMPTY := Lane([], None, 0, None, [])

  function Log(l: Lane, acts: seq<Act>): Lane { l.(log := l.log + acts) }

  /** Where a card is in line, or the length of the line. */
  function Find(pending: seq<Pending>, id: nat): (i: nat)
    ensures i <= |pending|
    ensures i < |pending| ==> pending[i].id == id
    ensures forall j :: 0 <= j < i ==> pending[j].id != id
  {
    if pending == [] then 0 else if pending[0].id == id then 0 else 1 + Find(pending[1..], id)
  }

  function Larger(a: int, b: int): int { if a < b then b else a }

  /** The timer is armed when there is work, no timer and no flush. */
  function Arm(l: Lane, interval: nat, now: int): Lane {
    if l.timer.Some? || l.inFlight.Some? || l.pending == [] then l
    else l.(timer := Some(now + Larger(0, l.lastFlushAt + interval - now)))
  }

  /** The latest body of a card; one not flushed yet is replaced where it stands. */
  function Queue(pending: seq<Pending>, id: nat, body: nat): seq<Pending> {
    var i := Find(pending, id);
    if i == |pending| then pending + [Pending(id, body, [])] else pending[i := pending[i].(body := body)]
  }

  function Schedule(l: Lane, interval: nat, now: int, id: nat, body: nat): Lane {
    Arm(Log(l.(pending := Queue(l.pending, id, body)), [Asked(id, body)]), interval, now)
  }

  /** Waits for a card's latest body to be flushed; with nothing queued there is nothing to wait for. */
  function Wait(l: Lane, interval: nat, now: int, id: nat, waiter: nat): Lane {
    var i := Find(l.pending, id);
    if i == |l.pending| then Log(l, [Waits(waiter, id, None), Released(waiter, NothingQueued)])
    else
      var p := l.pending[i];
      Arm(Log(l.(pending := l.pending[i := p.(waiters := p.waiters + [waiter])]), [Waits(waiter, id, Some(p.body))]),
          interval, now)
  }

  function Settle(l: Lane, interval: nat, now: int, id: nat, body: Option<nat>, waiter: nat): Lane {
    Wait(if body.Some? then Schedule(l, interval, now, id, body.value) else l, interval, now, id, waiter)
  }

  function Release(waiters: seq<nat>, why: Why): seq<Act> {
    if waiters == [] then [] else [Released(waiters[0], why)] + Release(waiters[1..], why)
  }

  /** Drops what is queued for a card. */
  function Forget(l: Lane, id: nat): Lane {
    var i := Find(l.pending, id);
    if i == |l.pending| then Log(l, [Forgot(id)])
    else Log(l.(pending := l.pending[..i] + l.pending[i + 1..]), [Forgot(id)] + Release(l.pending[i].waiters, Dropped))
  }

  /** The timer fires: the card first in line is flushed. */
  function Fire(l: Lane, now: int): Lane {
    if l.pending == [] then l.(timer := None)
    else
      var p := l.pending[0];
      Log(l.(timer := None, pending := l.pending[1..], inFlight := Some(p), lastFlushAt := now),
          [Started(now, p.id, p.body)])
  }

  /** The body in flight has landed, whatever came of it, and its waiters are released. */
  function Land(l: Lane): Lane
    requires l.inFlight.Some?
  {
    var p := l.inFlight.value;
    Log(l.(inFlight := None), [Landed(p.id, p.body)] + Release(p.waiters, Flushed(p.id, p.body)))
  }

  /** The flush is over: the next is armed. */
  function FlushOver(l: Lane, interval: nat, now: int): Lane
    requires l.inFlight.Some?
  {
    Arm(Land(l), interval, now)
  }

  datatype Event =
    | Scheduled(id: nat, body: nat)
    | Settled(id: nat, edit: Option<nat>, waiter: nat)
    | Forgotten(id: nat)
    | TimerFires
    | FlushFinishes

  /** The timer fires when it is due, not before; a flush finishes when there is one. */
  predicate Possible(l: Lane, now: int, e: Event) {
    match e
    case TimerFires => l.timer.Some? && l.timer.value <= now
    case FlushFinishes => l.inFlight.Some?
    case _ => true
  }

  function Handle(l: Lane, interval: nat, now: int, e: Event): Lane {
    if !Possible(l, now, e) then l
    else
      match e
      case Scheduled(id, body) => Schedule(l, interval, now, id, body)
      case Settled(id, edit, waiter) => Settle(l, interval, now, id, edit, waiter)
      case Forgotten(id) => Forget(l, id)
      case TimerFires => Fire(l, now)
      case FlushFinishes => FlushOver(l, interval, now)
  }

  /** An event and when it happens. */
  datatype Tick = Tick(now: int, event: Event)

  function Run(l: Lane, interval: nat, ticks: seq<Tick>): Lane
    decreases |ticks|
  {
    if ticks == [] then l else Run(Handle(l, interval, ticks[0].now, ticks[0].event), interval, ticks[1..])
  }
}
