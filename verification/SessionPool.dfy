/** The pool of Claude Code subprocesses: who is hot, who is busy, who goes when the pool is full. */
module SessionPool {
  import opened Options

  /**
    One session. `home` is where its subprocess runs when it has one, `cwd` where the next would;
    `timer` is when its idle timer is due.
   */
  datatype Session = Session(
    id: string, cwd: string, home: Option<string>, pending: nat, spawning: bool,
    lastActivity: nat, timer: Option<nat>)
  {
    predicate Hot() { home.Some? }
    predicate Busy() { pending > 0 }
    predicate IdleHot() { Hot() && !Busy() }
  }

  /** The sessions in the map's own order: each touch moves one to the end. */
  datatype Pool = Pool(sessions: seq<Session>, now: nat)

  datatype Config = Config(cap: nat, ttl: nat)

  datatype Event =
    | SessionFor(id: string, cwd: string)
    | EnsureGeneration(id: string)
    | Spawned(id: string)
    | Send(id: string, query: bool)
    | Frame(id: string, queued: Option<nat>)
    | Interrupt(id: string)
    | PumpEnds(id: string)
    | TimerFires(id: string)
    | Wait(ms: nat)

  // ------------------------------------------------------------- counting

  function HotCount(s: seq<Session>): nat {
    if s == [] then 0 else (if s[0].Hot() then 1 else 0) + HotCount(s[1..])
  }

  function IdleHotCount(s: seq<Session>): nat {
    if s == [] then 0 else (if s[0].IdleHot() then 1 else 0) + IdleHotCount(s[1..])
  }

  function IndexOf(s: seq<Session>, id: string): (i: nat)
    ensures i <= |s|
    ensures i < |s| ==> s[i].id == id
    ensures forall j | 0 <= j < i :: s[j].id != id
  {
    if s == [] || s[0].id == id then 0 else 1 + IndexOf(s[1..], id)
  }

  predicate Has(p: Pool, id: string) {
    IndexOf(p.sessions, id) < |p.sessions|
  }

  function Get(p: Pool, id: string): Session
    requires Has(p, id)
  {
    p.sessions[IndexOf(p.sessions, id)]
  }

  // ------------------------------------------------------------- operations

  function Evicted(s: Session): Session {
    if s.Hot() then s.(home := None, timer := None) else s
  }

  function Armed(s: Session, now: nat, ttl: nat): Session {
    s.(timer := if s.Hot() then Some(now + ttl) else None)
  }

  /** Put back where it was. */
  function Update(p: Pool, s: Session): Pool
    requires Has(p, s.id)
  {
    p.(sessions := p.sessions[IndexOf(p.sessions, s.id) := s])
  }

  /** Put back at the end, as the most recently used. */
  function Touched(p: Pool, s: Session, ttl: nat): Pool
    requires Has(p, s.id)
  {
    var i := IndexOf(p.sessions, s.id);
    p.(sessions := p.sessions[..i] + p.sessions[i + 1..] + [Armed(s.(lastActivity := p.now), p.now, ttl)])
  }

  /** The first `k` idle hot sessions made cold. */
  function EvictFirst(s: seq<Session>, k: nat): seq<Session> {
    if s == [] || k == 0 then s
    else if s[0].IdleHot() then [Evicted(s[0])] + EvictFirst(s[1..], k - 1)
    else [s[0]] + EvictFirst(s[1..], k)
  }

  /** How many must go for one more to fit, as far as there are idle ones. */
  function Quota(s: seq<Session>, cap: nat): nat {
    var excess := if HotCount(s) < cap then 0 else HotCount(s) - cap + 1;
    if IdleHotCount(s) < excess then IdleHotCount(s) else excess
  }

  function Enforced(p: Pool, cap: nat): Pool {
    p.(sessions := EvictFirst(p.sessions, Quota(p.sessions, cap)))
  }

  /** Re-homed while idle: let the process go. */
  function Rehomed(s: Session): Session {
    if s.Hot() && s.home.value != s.cwd && !s.Busy() then Evicted(s) else s
  }

  function Ensured(p: Pool, id: string, c: Config): Pool
    requires Has(p, id)
  {
    var s := Rehomed(Get(p, id));
    var p' := Update(p, s);
    if s.Hot() || s.spawning then p' else Enforced(Update(p, s.(spawning := true)), c.cap)
  }

  predicate Enabled(p: Pool, e: Event) {
    match e
    case SessionFor(_, _) => true
    case Wait(_) => true
    case Spawned(id) => Has(p, id) && Get(p, id).spawning
    case TimerFires(id) => Has(p, id) && Get(p, id).timer.Some? && Get(p, id).timer.value <= p.now
    case _ => Has(p, e.id)
  }

  function Next(p: Pool, e: Event, c: Config): Pool {
    if !Enabled(p, e) then p else
    match e
    case SessionFor(id, cwd) =>
      if Has(p, id) then Update(p, Get(p, id).(cwd := cwd))
      else p.(sessions := p.sessions + [Session(id, cwd, None, 0, false, p.now, None)])
    case EnsureGeneration(id) => Ensured(p, id, c)
    case Spawned(id) => Touched(p, Get(p, id).(home := Some(Get(p, id).cwd), spawning := false), c.ttl)
    case Send(id, query) =>
      Touched(p, Get(p, id).(pending := Get(p, id).pending + (if query then 1 else 0)), c.ttl)
    case Frame(id, queued) => Touched(p, Get(p, id).(pending := queued.GetOr(Get(p, id).pending)), c.ttl)
    case Interrupt(id) => if Get(p, id).Hot() then Touched(p, Get(p, id), c.ttl) else p
    case PumpEnds(id) => Update(p, Get(p, id).(home := None, pending := 0))
    case TimerFires(id) =>
      var s := Get(p, id).(timer := None);
      Update(p, if !s.Hot() then s else if s.Busy() then Armed(s, p.now, c.ttl) else Evicted(s))
    case Wait(ms) => p.(now := p.now + ms)
  }

  function RunFrom(p: Pool, events: seq<Event>, c: Config): Pool
    decreases |events|
  {
    if events == [] then p else RunFrom(Next(p, events[0], c), events[1..], c)
  }
}
