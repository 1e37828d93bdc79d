/** How often a message is acted on, over any run: failures, crashes and overlapping connections included. */
module GatewayOnce {
  import opened Gateway
  import opened GatewayDelivery

  /**
    The ledger: every id ever recorded was acted on, is being acted on, or was cut short, once
    for each time it was recorded.
   */
  ghost predicate Ledger(w: World) {
    w.acted + w.interrupted + AllActingOn(w.connections) == multiset(w.handled) + w.forgotten
  }

  lemma {:induction false} ActingSet(cs: seq<Connection>, k: nat, c: Connection)
    requires k < |cs|
    ensures AllActingOn(cs[k := c]) + ActingOn(cs[k]) == AllActingOn(cs) + ActingOn(c)
    decreases |cs|
  {
    hide ActingOn;
    if k == 0 {
      assert cs[0 := c][1..] == cs[1..];
    } else {
      assert cs[k := c][1..] == cs[1..][k - 1 := c];
      ActingSet(cs[1..], k - 1, c);
      Rebalance(ActingOn(cs[0]), AllActingOn(cs[1..]), AllActingOn(cs[1..][k - 1 := c]), ActingOn(cs[k]), ActingOn(c));
    }
  }

  lemma Rebalance(
      rest: multiset<string>, all: multiset<string>, all': multiset<string>, out: multiset<string>,
      come: multiset<string>)
    requires all' + out == all + come
    ensures (rest + all') + out == (rest + all) + come
  {
    assert (rest + all') + out == rest + (all' + out);
    assert (rest + all) + come == rest + (all + come);
  }

  lemma Cancel(a: multiset<string>, b: multiset<string>, x: multiset<string>)
    requires a + x == b + x
    ensures a == b
  {
    assert (a + x) - x == a && (b + x) - x == b;
  }

  lemma {:induction false} ActingAppend(cs: seq<Connection>, c: Connection)
    ensures AllActingOn(cs + [c]) == AllActingOn(cs) + ActingOn(c)
    decreases |cs|
  {
    hide ActingOn;
    if cs == [] {
      assert cs + [c] == [c] && [c][1..] == [];
    } else {
      assert (cs + [c])[0] == cs[0] && (cs + [c])[1..] == cs[1..] + [c];
      ActingAppend(cs[1..], c);
    }
  }

  lemma SameActing(w: World, c: Connection)
    requires Live(w) && ActingOn(c) == ActingOn(LiveOne(w))
    ensures AllActingOn(WithLive(w, c)) == AllActingOn(w.connections)
  {
    ActingSet(w.connections, |w.connections| - 1, c);
    Cancel(AllActingOn(WithLive(w, c)), AllActingOn(w.connections), ActingOn(c));
  }

  /** Nothing acts on an empty queue. */
  ghost predicate Stages(cs: seq<Connection>) {
    forall k | 0 <= k < |cs| :: cs[k].stage != Waiting ==> cs[k].queue != []
  }

  lemma LedgerReceive(w: World)
    requires Ledger(w) && Stages(w.connections) && Enabled(w, Receive)
    ensures Ledger(Next(w, Receive)) && Stages(Next(w, Receive).connections)
  {
    SameActing(w, Enqueued(LiveOne(w), w.log[w.got]));
  }

  lemma LedgerBegin(w: World, k: nat)
    requires Ledger(w) && Stages(w.connections) && Enabled(w, Begin(k))
    ensures Ledger(Next(w, Begin(k))) && Stages(Next(w, Begin(k)).connections)
  {
    hide AllActingOn;
    var c := w.connections[k];
    var id := c.queue[0].id;
    ActingSet(w.connections, k, Begun(c, w.handled));
    Recording(w.handled, w.forgotten, id);
    Rebalance(w.acted + w.interrupted, AllActingOn(w.connections),
              AllActingOn(w.connections[k := Begun(c, w.handled)]), multiset{}, ActingOn(Begun(c, w.handled)));
  }

  lemma Recording(handled: set<string>, forgotten: multiset<string>, id: string)
    ensures multiset(handled + {id}) + forgotten
         == multiset(handled) + forgotten + (if id in handled then multiset{} else multiset{id})
  {
    if id in handled {
      assert handled + {id} == handled;
    } else {
      assert multiset(handled + {id}) == multiset(handled) + multiset{id};
    }
  }

  lemma LedgerEnd(w: World, k: nat, ok: bool)
    requires Ledger(w) && Stages(w.connections) && Enabled(w, End(k, ok))
    ensures Ledger(Next(w, End(k, ok))) && Stages(Next(w, End(k, ok)).connections)
  {
    hide AllActingOn;
    var c := w.connections[k];
    ActingSet(w.connections, k, Settled(c));
    assert ActingOn(Settled(c)) == multiset{};
    Moved(w.acted, w.interrupted, AllActingOn(w.connections[k := Settled(c)]), ActingOn(c));
  }

  /** What is no longer being acted on was acted on, or was cut short. */
  lemma Moved(acted: multiset<string>, interrupted: multiset<string>, all: multiset<string>, id: multiset<string>)
    ensures (acted + id) + interrupted + all == acted + interrupted + (all + id)
    ensures acted + (interrupted + id) + all == acted + interrupted + (all + id)
  {
  }

  lemma LedgerConnect(w: World)
    requires Ledger(w) && Stages(w.connections)
    ensures Ledger(Next(w, Connect)) && Stages(Next(w, Connect).connections)
  {
    hide AllActingOn, ReplayFrom;
    ActingAppend(w.connections, Connection(w.stored, [], Waiting));
  }

  lemma LedgerResumed(w: World, numbered: bool)
    requires Ledger(w) && Stages(w.connections) && Enabled(w, Resumed(numbered))
    ensures Ledger(Next(w, Resumed(numbered))) && Stages(Next(w, Resumed(numbered)).connections)
  {
    hide AllActingOn;
    SameActing(w, if numbered then LiveOne(w).(last := w.top + 1) else LiveOne(w));
  }

  lemma LedgerPrune(w: World, id: string)
    requires Ledger(w)
    ensures Ledger(Next(w, Prune(id)))
  {
    if id in w.handled {
      assert w.handled == (w.handled - {id}) + {id};
      assert multiset(w.handled) == multiset(w.handled - {id}) + multiset{id};
      assert multiset(w.handled) + w.forgotten == multiset(w.handled - {id}) + (w.forgotten + multiset{id});
    }
  }

  lemma LedgerCrash(w: World)
    requires Ledger(w)
    ensures Ledger(Next(w, Crash))
  {
    assert w.acted + (w.interrupted + AllActingOn(w.connections))
        == w.acted + w.interrupted + AllActingOn(w.connections);
  }

  lemma LedgerStep(w: World, e: Event)
    requires Ledger(w) && Stages(w.connections)
    ensures Ledger(Next(w, e)) && Stages(Next(w, e).connections)
  {
    hide Ledger, Stages;
    if Enabled(w, e) {
      match e
      case Receive => LedgerReceive(w);
      case Begin(k) => LedgerBegin(w, k);
      case End(k, ok) => LedgerEnd(w, k, ok);
      case Connect => LedgerConnect(w);
      case Resumed(numbered) => LedgerResumed(w, numbered);
      case Prune(id) => LedgerPrune(w, id); assert Next(w, e).connections == w.connections;
      case Crash => LedgerCrash(w); NothingStaged();
      case Post(id) => PostLedger(w, id);
    }
  }

  lemma NothingStaged()
    ensures Stages([])
  {
  }

  lemma PostLedger(w: World, id: string)
    requires Ledger(w)
    ensures Ledger(Next(w, Post(id))) && Next(w, Post(id)).connections == w.connections
  {
  }

  lemma {:induction false} LedgerRun(w: World, events: seq<Event>)
    requires Ledger(w) && Stages(w.connections)
    ensures Ledger(RunFrom(w, events))
    decreases |events|
  {
    hide Ledger, Stages, Next;
    if events != [] {
      LedgerStep(w, events[0]);
      LedgerRun(Next(w, events[0]), events[1..]);
    }
  }

  /** In any run at all, no id is acted on more often than it was forgotten, plus once. */
  lemma ActedOnAtMostOnce(events: seq<Event>, id: string)
    ensures var w := RunFrom(Start, events);
            w.acted[id] + w.interrupted[id] <= 1 + w.forgotten[id]
  {
    LedgerRun(Start, events);
    var w := RunFrom(Start, events);
    assert (w.acted + w.interrupted + AllActingOn(w.connections))[id] == (multiset(w.handled) + w.forgotten)[id];
  }

  /** No handler is in the middle of it. */
  predicate Unattended(w: World, id: string) {
    AllActingOn(w.connections)[id] == 0
  }

  /**
    In any run at all, failures included: a message recorded and not forgotten since, with no
    handler in the middle of it, was acted on exactly once, unless its handler was cut short by a
    failure or a crash; then it never was, whatever was redelivered.
   */
  lemma RecordedIsActedOnIff(events: seq<Event>, id: string)
    requires var w := RunFrom(Start, events); id in w.handled && w.forgotten[id] == 0 && Unattended(w, id)
    ensures var w := RunFrom(Start, events); w.acted[id] == (if id in w.interrupted then 0 else 1)
  {
    StartLedger();
    LedgerRun(Start, events);
    var w := RunFrom(Start, events);
    assert (w.acted + w.interrupted + AllActingOn(w.connections))[id] == (multiset(w.handled) + w.forgotten)[id];
  }

  // ------------------------------------------------------------- what is done was recorded

  ghost predicate Recorded(w: World, id: string) {
    id in w.handled || w.forgotten[id] > 0
  }

  ghost predicate Known(w: World) {
    && (forall i | 0 <= i < |w.log| && w.log[i].number in w.done :: Recorded(w, w.log[i].id))
    && (forall k | 0 <= k < |w.connections| && w.connections[k].stage != Waiting && w.connections[k].queue != [] ::
          Recorded(w, w.connections[k].queue[0].id))
  }

  /** Numbers done were given out before. */
  ghost predicate DoneGiven(w: World) {
    && w.stored <= w.top
    && (forall n | n in w.done :: n <= w.top)
  }

  lemma UniqueNumber(log: seq<Dispatch>, top: nat, a: Dispatch, b: Dispatch)
    requires Numbered(log, top) && a in log && b in log && a.number == b.number
    ensures a == b
  {
  }

  lemma KnownEnd(w: World, k: nat)
    requires Inv(w) && Known(w) && DoneGiven(w) && Enabled(w, End(k, true))
    ensures Known(Next(w, End(k, true))) && DoneGiven(Next(w, End(k, true)))
  {
    hide Safe, InOrder, Received;
    var w' := Next(w, End(k, true));
    var head := w.connections[k].queue[0];
    assert From(w.log, w.connections[k].queue);
    assert head in w.log && Recorded(w, head.id);
    forall i | 0 <= i < |w.log| && w.log[i].number in w'.done ensures Recorded(w', w.log[i].id) {
      if w.log[i].number == head.number { UniqueNumber(w.log, w.top, w.log[i], head); }
    }
  }

  lemma KnownPost(w: World, id: string)
    requires Inv(w) && Known(w) && DoneGiven(w)
    ensures Known(Next(w, Post(id))) && DoneGiven(Next(w, Post(id)))
  {
    hide Safe, Chains, Received, From;
    var w' := Next(w, Post(id));
    forall i | 0 <= i < |w'.log| && w'.log[i].number in w'.done ensures Recorded(w', w'.log[i].id) {
      assert w'.log[i].number <= w.top;
      assert i < |w.log| && Recorded(w, w.log[i].id);
    }
  }

  lemma KnownMoves(w: World, e: Event)
    requires Known(w) && DoneGiven(w) && Enabled(w, e)
    requires e.Receive? || e.Resumed? || e.Begin? || e.Prune? || e.Crash? || e.Connect?
    requires w.connections != [] ==> w.connections[|w.connections| - 1].last <= w.top
    requires Stages(w.connections)
    ensures Known(Next(w, e)) && DoneGiven(Next(w, e))
  {
    var w' := Next(w, e);
    forall id | Recorded(w, id) ensures Recorded(w', id) {
    }
  }

  lemma KnownStep(w: World, e: Event)
    requires Inv(w) && Known(w) && DoneGiven(w) && Stages(w.connections) && Careful(w, e)
    ensures Known(Next(w, e)) && DoneGiven(Next(w, e))
  {
    if Enabled(w, e) {
      hide Safe, InOrder, Received, From, Known, DoneGiven;
      match e
      case End(k, ok) => KnownEnd(w, k);
      case Post(id) => KnownPost(w, id);
      case _ => KnownMoves(w, e);
    }
  }

  lemma {:induction false} KnownRun(w: World, events: seq<Event>)
    requires Inv(w) && Known(w) && DoneGiven(w) && Ledger(w) && Stages(w.connections) && CarefulRun(w, events)
    ensures Inv(RunFrom(w, events)) && Known(RunFrom(w, events))
    decreases |events|
  {
    hide Inv, Known, DoneGiven, Ledger, Stages, Next, Careful;
    if events != [] {
      LedgerStep(w, events[0]);
      KnownStep(w, events[0]);
      KeepsInv(w, events[0]);
      KnownRun(Next(w, events[0]), events[1..]);
    }
  }

  /** Everything was delivered on the live connection and every queue is empty. */
  ghost predicate AtRest(w: World) {
    && Live(w) && w.got == |w.log|
    && (forall k | 0 <= k < |w.connections| :: w.connections[k].queue == [])
  }

  lemma {:induction false} NoneActing(cs: seq<Connection>)
    requires forall k | 0 <= k < |cs| :: cs[k].queue == []
    ensures AllActingOn(cs) == multiset{}
    decreases |cs|
  {
    if cs != [] {
      forall k | 0 <= k < |cs[1..]| ensures cs[1..][k].queue == [] {
        assert cs[1..][k] == cs[k + 1];
      }
      NoneActing(cs[1..]);
    }
  }

  /**
    Once a careful run is at rest, a message still remembered was acted on exactly once, unless
    a crash came inside its handler: then it is never acted on, and no redelivery will help.
   */
  lemma ExactlyOnceIff(events: seq<Event>, i: nat)
    requires CarefulRun(Start, events) && AtRest(RunFrom(Start, events)) && i < |RunFrom(Start, events).log|
    requires RunFrom(Start, events).forgotten[RunFrom(Start, events).log[i].id] == 0
    ensures var w := RunFrom(Start, events); var id := w.log[i].id;
            w.acted[id] == (if id in w.interrupted then 0 else 1)
  {
    hide Inv, Ledger, Known, Stages, Next, CarefulRun, RunFrom;
    assert Inv(Start) && Known(Start) by { StartInv(); StartKnown(); }
    assert DoneGiven(Start);
    StartLedger();
    KnownRun(Start, events);
    LedgerRun(Start, events);
    RestIsExact(RunFrom(Start, events), i);
  }

  lemma StartKnown()
    ensures Known(Start)
  {
  }

  lemma StartLedger()
    ensures Ledger(Start) && Stages(Start.connections)
  {
    NoneActing(Start.connections);
  }

  lemma RestIsExact(w: World, i: nat)
    requires Inv(w) && Known(w) && Ledger(w) && AtRest(w) && i < |w.log| && w.forgotten[w.log[i].id] == 0
    ensures w.acted[w.log[i].id] == (if w.log[i].id in w.interrupted then 0 else 1)
  {
    hide Chains, Safe;
    var id := w.log[i].id;
    assert LiveOne(w).queue == [] && !Queued([], w.log[i].number);
    assert Received(w.log, w.done, LiveOne(w).queue, w.got);
    assert w.log[i].number in w.done && Recorded(w, id);
    NoneActing(w.connections);
    assert (w.acted + w.interrupted)[id] == (multiset(w.handled) + w.forgotten)[id];
    assert multiset(w.handled)[id] == 1;
  }
}
