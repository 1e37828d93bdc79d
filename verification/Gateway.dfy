/**
  Delivery over the Discord Gateway: what the server numbered, what each connection has queued,
  the sequence a resume replays from, and the message ids already acted on.
 */
module Gateway {
  import opened Options

  /** A numbered dispatch carrying a message. */
  datatype Dispatch = Dispatch(number: nat, id: string)

  /** How far the handler is with the head of a queue: `Acting` once the id was new and is recorded. */
  datatype Stage = Waiting | Acting | Dropping

  /** One connection's chain. The last sequence seen is what it would beat with. */
  datatype Connection = Connection(last: nat, queue: seq<Dispatch>, stage: Stage)

  /**
    `log` is every dispatch of the session in order and `top` the last number given out.
    `stored` and `handled` survive a crash. The last connection is the live one and has been
    sent `log[..got]`; the others only drain. `done`, `acted`, `interrupted` and `forgotten`
    are history: dispatches whose handler returned, ids acted on to the end, ids whose handler
    was cut short after recording them, ids pruned.
   */
  datatype World = World(
    log: seq<Dispatch>, top: nat, stored: nat, handled: set<string>,
    connections: seq<Connection>, got: nat,
    done: set<nat>, acted: multiset<string>, interrupted: multiset<string>, forgotten: multiset<string>)

  datatype Event =
    | Post(id: string)
    | Receive
    | Resumed(numbered: bool)
    | Begin(chain: nat)
    | End(chain: nat, ok: bool)
    | Connect
    | Crash
    | Prune(id: string)

  const Start: World :=
    World([], 1, 1, {}, [Connection(1, [], Waiting)], 0, {}, multiset{}, multiset{}, multiset{})

  // ------------------------------------------------------------- one connection

  function Enqueued(c: Connection, d: Dispatch): Connection {
    c.(last := d.number, queue := c.queue + [d])
  }

  /** The engine asks before acting; a repeat is dropped. */
  function Begun(c: Connection, handled: set<string>): Connection
    requires c.queue != []
  {
    c.(stage := if c.queue[0].id in handled then Dropping else Acting)
  }

  function Settled(c: Connection): Connection
    requires c.queue != []
  {
    c.(queue := c.queue[1..], stage := Waiting)
  }

  /** The id being acted on, if any. */
  function ActingOn(c: Connection): multiset<string> {
    if c.stage == Acting && c.queue != [] then multiset{c.queue[0].id} else multiset{}
  }

  function AllActingOn(cs: seq<Connection>): multiset<string> {
    if cs == [] then multiset{} else ActingOn(cs[0]) + AllActingOn(cs[1..])
  }

  // ------------------------------------------------------------- the whole

  /** Where a resume from `stored` starts replaying. */
  function ReplayFrom(log: seq<Dispatch>, stored: nat): (n: nat)
    ensures n <= |log|
  {
    if log == [] || log[0].number > stored then 0 else 1 + ReplayFrom(log[1..], stored)
  }

  predicate Live(w: World) {
    w.connections != [] && w.got <= |w.log|
  }

  function LiveOne(w: World): Connection
    requires Live(w)
  {
    w.connections[|w.connections| - 1]
  }

  function WithLive(w: World, c: Connection): seq<Connection>
    requires Live(w)
  {
    w.connections[|w.connections| - 1 := c]
  }

  predicate HasHead(w: World, k: nat) {
    k < |w.connections| && w.connections[k].queue != []
  }

  /** Whether the event can happen now; what cannot happen changes nothing. */
  predicate Enabled(w: World, e: Event) {
    match e
    case Receive => Live(w) && w.got < |w.log|
    case Resumed(_) => Live(w) && w.got == |w.log|
    case Begin(k) => HasHead(w, k) && w.connections[k].stage == Waiting
    case End(k, ok) => HasHead(w, k) && (ok ==> w.connections[k].stage != Waiting)
    case _ => true
  }

  function Next(w: World, e: Event): World {
    if !Enabled(w, e) then w else
    match e
    case Post(id) => w.(log := w.log + [Dispatch(w.top + 1, id)], top := w.top + 1)
    case Receive => w.(connections := WithLive(w, Enqueued(LiveOne(w), w.log[w.got])), got := w.got + 1)
    case Resumed(numbered) =>
      var c := if numbered then LiveOne(w).(last := w.top + 1) else LiveOne(w);
      w.(top := if numbered then w.top + 1 else w.top, connections := WithLive(w, c), stored := c.last)
    case Begin(k) =>
      var c := w.connections[k];
      w.(connections := w.connections[k := Begun(c, w.handled)], handled := w.handled + {c.queue[0].id})
    case End(k, ok) =>
      var c := w.connections[k];
      var w' := w.(connections := w.connections[k := Settled(c)]);
      if ok then
        w'.(stored := c.queue[0].number, done := w.done + {c.queue[0].number}, acted := w.acted + ActingOn(c))
      else w'.(interrupted := w.interrupted + ActingOn(c))
    case Connect =>
      w.(connections := w.connections + [Connection(w.stored, [], Waiting)], got := ReplayFrom(w.log, w.stored))
    case Crash => w.(connections := [], interrupted := w.interrupted + AllActingOn(w.connections))
    case Prune(id) =>
      if id in w.handled then w.(handled := w.handled - {id}, forgotten := w.forgotten + multiset{id}) else w
  }

  function RunFrom(w: World, events: seq<Event>): World
    decreases |events|
  {
    if events == [] then w else RunFrom(Next(w, events[0]), events[1..])
  }

  // ------------------------------------------------------------- what is claimed

  /** The stored sequence passes no dispatch whose handler has not returned. */
  ghost predicate Safe(w: World) {
    forall i | 0 <= i < |w.log| && w.log[i].number <= w.stored :: w.log[i].number in w.done
  }

  /** No handler fails, and a RESUMED finds nothing queued. */
  predicate Careful(w: World, e: Event) {
    match e
    case End(_, ok) => ok
    case Resumed(_) => Live(w) ==> LiveOne(w).queue == []
    case _ => true
  }

  predicate CarefulRun(w: World, events: seq<Event>)
    decreases |events|
  {
    events == [] || (Careful(w, events[0]) && CarefulRun(Next(w, events[0]), events[1..]))
  }
}
