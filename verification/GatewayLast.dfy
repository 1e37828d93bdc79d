/** The last sequence a connection has seen, which it beats with and may store: exactly what it was sent. */
module GatewayLast {
  import opened Gateway
  import opened GatewayDelivery

  /** No number is beyond those given out. */
  predicate Within(c: Connection, top: nat) {
    c.last <= top && forall j | 0 <= j < |c.queue| :: c.queue[j].number <= top
  }

  predicate AllWithin(w: World) {
    && w.stored <= w.top
    && forall k | 0 <= k < |w.connections| :: Within(w.connections[k], w.top)
  }

  /** The live connection's last number is that of all it was sent, and of nothing it was not. */
  predicate Exact(w: World) {
    Live(w) ==> forall i | 0 <= i < |w.log| :: i < w.got <==> w.log[i].number <= LiveOne(w).last
  }

  ghost predicate LastInv(w: World) {
    Numbered(w.log, w.top) && AllWithin(w) && Exact(w) && w.got <= |w.log|
  }

  lemma WithinMore(c: Connection, top: nat, top': nat)
    requires Within(c, top) && top <= top'
    ensures Within(c, top')
  {
  }

  lemma PostKeeps(w: World, id: string)
    requires LastInv(w)
    ensures LastInv(Next(w, Post(id)))
  {
    hide Within;
    var w' := Next(w, Post(id));
    forall k | 0 <= k < |w'.connections| ensures Within(w'.connections[k], w'.top) {
      WithinMore(w.connections[k], w.top, w'.top);
    }
    if Live(w) { LiveWithin(w); }
  }

  lemma LiveWithin(w: World)
    requires AllWithin(w) && Live(w)
    ensures LiveOne(w).last <= w.top
  {
  }

  lemma ReceiveKeeps(w: World)
    requires LastInv(w) && Enabled(w, Receive)
    ensures LastInv(Next(w, Receive))
  {
    var w', c := Next(w, Receive), LiveOne(w);
    assert Within(Enqueued(c, w.log[w.got]), w.top) by {
      assert Within(c, w.top);
      assert forall j | 0 <= j < |c.queue| :: (c.queue + [w.log[w.got]])[j] == c.queue[j];
    }
    hide Within;
    assert LiveOne(w') == Enqueued(c, w.log[w.got]);
  }

  lemma ResumedKeeps(w: World, numbered: bool)
    requires LastInv(w) && Enabled(w, Resumed(numbered))
    ensures LastInv(Next(w, Resumed(numbered)))
  {
    var w' := Next(w, Resumed(numbered));
    forall k | 0 <= k < |w'.connections| ensures Within(w'.connections[k], w'.top) {
      WithinMore(w.connections[k], w.top, w'.top);
    }
    LiveWithin(w);
  }

  lemma ChainKeeps(w: World, e: Event)
    requires LastInv(w) && (e.Begin? || e.End?)
    ensures LastInv(Next(w, e))
  {
    if Enabled(w, e) {
      var k := e.chain;
      var c, w' := w.connections[k], Next(w, e);
      assert Within(c, w.top);
      forall j | 0 <= j < |w'.connections| ensures Within(w'.connections[j], w'.top) {
        assert Within(w.connections[j], w.top);
      }
      hide Within;
    }
  }

  lemma ConnectKeeps(w: World)
    requires LastInv(w)
    ensures LastInv(Next(w, Connect)) && LiveOne(Next(w, Connect)).last == w.stored
  {
    ReplaySplits(w.log, w.top, w.stored);
  }

  lemma {:induction false} RunKeeps(w: World, events: seq<Event>)
    requires LastInv(w)
    ensures LastInv(RunFrom(w, events))
    decreases |events|
  {
    hide LastInv, Next;
    if events != [] {
      StepKeeps(w, events[0]);
      RunKeeps(Next(w, events[0]), events[1..]);
    }
  }

  lemma StepKeeps(w: World, e: Event)
    requires LastInv(w)
    ensures LastInv(Next(w, e))
  {
    hide LastInv, Next;
    match e
    case Post(id) => PostKeeps(w, id);
    case Receive => if Enabled(w, e) { ReceiveKeeps(w); } else { DisabledKeeps(w, e); }
    case Resumed(numbered) => if Enabled(w, e) { ResumedKeeps(w, numbered); } else { DisabledKeeps(w, e); }
    case Begin(_) => ChainKeeps(w, e);
    case End(_, _) => ChainKeeps(w, e);
    case Connect => ConnectKeeps(w);
    case Crash => OtherKeeps(w, e);
    case Prune(_) => OtherKeeps(w, e);
  }

  lemma DisabledKeeps(w: World, e: Event)
    requires !Enabled(w, e)
    ensures Next(w, e) == w
  {
  }

  lemma OtherKeeps(w: World, e: Event)
    requires LastInv(w) && (e.Crash? || e.Prune?)
    ensures LastInv(Next(w, e))
  {
    hide Within;
  }

  /**
    Over every run, with failures, crashes and overlapping connections: the live connection's last
    sequence is that of just what it was sent, so a RESUMED without a number of its own stores it
    as received, and the next connection starts where the stored one says.
   */
  lemma LastIsWhatWasSent(events: seq<Event>)
    ensures var w := RunFrom(Start, events);
            && (Live(w) ==> forall i | 0 <= i < |w.log| :: i < w.got <==> w.log[i].number <= LiveOne(w).last)
            && LiveOne(Next(w, Connect)).last == w.stored && w.stored <= w.top
  {
    hide RunFrom, Next;
    StartsExact();
    RunKeeps(Start, events);
    ConnectKeeps(RunFrom(Start, events));
  }

  lemma StartsExact()
    ensures LastInv(Start)
  {
  }
}
