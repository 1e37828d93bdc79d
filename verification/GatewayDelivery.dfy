/** Nothing is lost on a resume, and nothing is acted on twice. */
module GatewayDelivery {
  import opened Gateway

  // ------------------------------------------------------------- the invariant of a careful run

  ghost predicate Numbered(log: seq<Dispatch>, top: nat) {
    && (forall i, j | 0 <= i < j < |log| :: log[i].number < log[j].number)
    && (forall i | 0 <= i < |log| :: log[i].number <= top)
  }

  ghost predicate Queued(q: seq<Dispatch>, n: nat) {
    exists i :: 0 <= i < |q| && q[i].number == n
  }

  /** Whatever the server numbered before a queued dispatch is done, or queued ahead of it. */
  ghost predicate InOrder(log: seq<Dispatch>, done: set<nat>, q: seq<Dispatch>) {
    forall i, j | 0 <= i < |log| && 0 <= j < |q| && log[i].number < q[j].number ::
      log[i].number in done || Queued(q[..j], log[i].number)
  }

  /** All that the live connection was sent is done or still in its queue. */
  ghost predicate Received(log: seq<Dispatch>, done: set<nat>, q: seq<Dispatch>, got: nat) {
    forall i | 0 <= i < got && i < |log| :: log[i].number in done || Queued(q, log[i].number)
  }

  ghost predicate Ascending(q: seq<Dispatch>) {
    forall i, j | 0 <= i < j < |q| :: q[i].number < q[j].number
  }

  /** A queue holds dispatches of the server's. */
  ghost predicate From(log: seq<Dispatch>, q: seq<Dispatch>) {
    forall j | 0 <= j < |q| :: q[j] in log
  }

  ghost predicate Chains(w: World) {
    forall k | 0 <= k < |w.connections| ::
      && InOrder(w.log, w.done, w.connections[k].queue)
      && w.connections[k].last <= w.top
      && Ascending(w.connections[k].queue) && From(w.log, w.connections[k].queue)
  }

  ghost predicate Inv(w: World) {
    && Numbered(w.log, w.top) && w.stored <= w.top && w.got <= |w.log|
    && Safe(w) && Chains(w)
    && (w.connections != [] ==>
          Received(w.log, w.done, LiveOne(w).queue, w.got) && From(w.log[..w.got], LiveOne(w).queue))
  }

  lemma AppendedQueued(q: seq<Dispatch>, d: Dispatch)
    ensures Queued(q + [d], d.number)
    ensures forall n :: Queued(q, n) ==> Queued(q + [d], n)
  {
    assert (q + [d])[|q|] == d;
    forall n | Queued(q, n) ensures Queued(q + [d], n) {
      var i :| 0 <= i < |q| && q[i].number == n;
      assert (q + [d])[i].number == n;
    }
  }

  lemma PoppedQueued(q: seq<Dispatch>, n: nat)
    requires Queued(q, n)
    ensures q[0].number == n || Queued(q[1..], n)
  {
    var i :| 0 <= i < |q| && q[i].number == n;
    if i > 0 { assert q[1..][i - 1].number == n; }
  }

  lemma ReplaySplits(log: seq<Dispatch>, top: nat, stored: nat)
    requires Numbered(log, top)
    ensures forall i | 0 <= i < |log| :: i < ReplayFrom(log, stored) <==> log[i].number <= stored
  {
    if log != [] && log[0].number <= stored {
      ReplaySplits(log[1..], top, stored);
      forall i | 0 <= i < |log| ensures i < ReplayFrom(log, stored) <==> log[i].number <= stored {
        if i > 0 { assert log[i] == log[1..][i - 1]; }
      }
    }
  }

  lemma KeepsPost(w: World, id: string)
    requires Inv(w)
    ensures Inv(Next(w, Post(id)))
  {
    hide Queued, Ascending;
    var w' := Next(w, Post(id));
    forall k | 0 <= k < |w'.connections|
      ensures InOrder(w'.log, w'.done, w'.connections[k].queue)
    {
      assert InOrder(w.log, w.done, w.connections[k].queue);
    }
    assert Chains(w');
  }

  lemma AppendInOrder(log: seq<Dispatch>, done: set<nat>, q: seq<Dispatch>, top: nat, got: nat)
    requires Numbered(log, top) && InOrder(log, done, q) && Received(log, done, q, got) && got < |log|
    ensures InOrder(log, done, q + [log[got]])
  {
    hide Queued;
    var d := log[got];
    forall i, j | 0 <= i < |log| && 0 <= j < |q + [d]| && log[i].number < (q + [d])[j].number
      ensures log[i].number in done || Queued((q + [d])[..j], log[i].number)
    {
      if j < |q| {
        assert (q + [d])[..j] == q[..j];
      } else {
        assert (q + [d])[..j] == q;
        assert i < got;
      }
    }
  }

  lemma AppendReceived(log: seq<Dispatch>, done: set<nat>, q: seq<Dispatch>, top: nat, got: nat)
    requires got < |log| && Numbered(log, top) && Received(log, done, q, got) && From(log[..got], q) && Ascending(q)
    ensures Received(log, done, q + [log[got]], got + 1) && From(log[..got + 1], q + [log[got]])
    ensures Ascending(q + [log[got]]) && From(log, q + [log[got]])
  {
    hide Queued;
    var d := log[got];
    AppendedQueued(q, d);
    assert log[got] in log[..got + 1] && forall x :: x in log[..got] ==> x in log[..got + 1] && x.number < d.number;
  }

  lemma KeepsReceive(w: World)
    requires Inv(w) && Enabled(w, Receive)
    ensures Inv(Next(w, Receive))
  {
    var w' := Next(w, Receive);
    var q, d := LiveOne(w).queue, w.log[w.got];
    assert LiveOne(w').queue == q + [d];
    assert InOrder(w.log, w.done, q) && Ascending(q);
    AppendInOrder(w.log, w.done, q, w.top, w.got);
    AppendReceived(w.log, w.done, q, w.top, w.got);
    hide Received, InOrder, Ascending, From, Queued;
    assert Chains(w');
  }

  lemma KeepsResumed(w: World, numbered: bool)
    requires Inv(w) && Enabled(w, Resumed(numbered)) && LiveOne(w).queue == []
    ensures Inv(Next(w, Resumed(numbered)))
  {
    var w' := Next(w, Resumed(numbered));
    forall i | 0 <= i < |w.log| ensures w.log[i].number in w.done {
      assert !Queued([], w.log[i].number);
    }
    assert Chains(w');
  }

  lemma KeepsBegin(w: World, k: nat)
    requires Inv(w) && Enabled(w, Begin(k))
    ensures Inv(Next(w, Begin(k)))
  {
    hide Received, InOrder, Ascending, From;
    assert Chains(Next(w, Begin(k)));
  }

  lemma HeadIsNext(w: World, k: nat)
    requires Inv(w) && HasHead(w, k)
    ensures forall i | 0 <= i < |w.log| && w.log[i].number < w.connections[k].queue[0].number ::
        w.log[i].number in w.done
  {
    assert InOrder(w.log, w.done, w.connections[k].queue);
    assert forall n :: !Queued(w.connections[k].queue[..0], n);
  }

  lemma PoppedInOrder(log: seq<Dispatch>, done: set<nat>, q: seq<Dispatch>)
    requires q != [] && InOrder(log, done, q)
    ensures InOrder(log, done + {q[0].number}, q[1..])
  {
    hide Queued;
    var done' := done + {q[0].number};
    forall i, j | 0 <= i < |log| && 0 <= j < |q[1..]| && log[i].number < q[1..][j].number
      ensures log[i].number in done' || Queued(q[1..][..j], log[i].number)
    {
      assert q[1..][j] == q[j + 1];
      if log[i].number !in done {
        PoppedQueued(q[..j + 1], log[i].number);
        assert q[..j + 1][1..] == q[1..][..j];
      }
    }
  }

  lemma PoppedReceived(log: seq<Dispatch>, done: set<nat>, q: seq<Dispatch>, got: nat)
    requires q != [] && Received(log, done, q, got)
    ensures Received(log, done + {q[0].number}, q[1..], got)
  {
    hide Queued;
    forall i | 0 <= i < got && i < |log|
      ensures log[i].number in done + {q[0].number} || Queued(q[1..], log[i].number)
    {
      if log[i].number !in done { PoppedQueued(q, log[i].number); }
    }
  }

  lemma KeepsEnd(w: World, k: nat)
    requires Inv(w) && Enabled(w, End(k, true))
    ensures Inv(Next(w, End(k, true)))
  {
    var w' := Next(w, End(k, true));
    var q := w.connections[k].queue;
    HeadIsNext(w, k);
    assert q[0] in w.log && w'.stored == q[0].number;
    assert Chains(w') by {
      hide Safe, Received, Queued;
      forall m | 0 <= m < |w'.connections|
        ensures InOrder(w'.log, w'.done, w'.connections[m].queue)
        ensures From(w'.log, w'.connections[m].queue)
      {
        assert InOrder(w.log, w.done, w.connections[m].queue) && From(w.log, w.connections[m].queue);
        if m == k { PoppedInOrder(w.log, w.done, q); }
      }
    }
    assert Received(w'.log, w'.done, LiveOne(w').queue, w'.got) && From(w'.log[..w'.got], LiveOne(w').queue) by {
      hide Safe, InOrder, Queued;
      if k == |w.connections| - 1 { PoppedReceived(w.log, w.done, q, w.got); }
    }
    assert Safe(w') by {
      hide Chains, Received, Queued, InOrder;
    }
  }

  lemma KeepsConnect(w: World)
    requires Inv(w)
    ensures Inv(Next(w, Connect))
  {
    var w' := Next(w, Connect);
    ReplaySplits(w.log, w.top, w.stored);
    assert Chains(w') by {
      forall k | 0 <= k < |w'.connections| ensures InOrder(w'.log, w'.done, w'.connections[k].queue) {
        if k < |w.connections| { assert w'.connections[k] == w.connections[k]; }
      }
    }
  }

  lemma KeepsInv(w: World, e: Event)
    requires Inv(w) && Careful(w, e)
    ensures Inv(Next(w, e))
  {
    hide Inv;
    if Enabled(w, e) {
      match e
      case Post(id) => KeepsPost(w, id);
      case Receive => KeepsReceive(w);
      case Resumed(numbered) => KeepsResumed(w, numbered);
      case Begin(k) => KeepsBegin(w, k);
      case End(k, ok) => KeepsEnd(w, k);
      case Connect => KeepsConnect(w);
      case _ => KeepsRest(w, e);
    }
  }

  lemma KeepsRest(w: World, e: Event)
    requires Inv(w) && (e.Crash? || e.Prune?)
    ensures Inv(Next(w, e))
  {
    assert Chains(Next(w, e));
  }

  lemma {:induction false} CarefulRunKeepsInv(w: World, events: seq<Event>)
    requires Inv(w) && CarefulRun(w, events)
    ensures Inv(RunFrom(w, events))
    decreases |events|
  {
    hide Inv, Next, Careful;
    if events != [] {
      KeepsInv(w, events[0]);
      CarefulRunKeepsInv(Next(w, events[0]), events[1..]);
    }
  }

  lemma StartInv()
    ensures Inv(Start)
  {
  }

  // ------------------------------------------------------------- replay

  ghost predicate Owed(w: World) {
    Live(w) && forall i | 0 <= i < |w.log| && w.log[i].number !in w.done :: Queued(LiveOne(w).queue, w.log[i].number)
  }

  function Receives(n: nat): seq<Event> {
    if n == 0 then [] else [Receive] + Receives(n - 1)
  }

  lemma {:induction false} ReceivesAll(w: World, n: nat)
    requires Inv(w) && w.connections != [] && n == |w.log| - w.got
    ensures Owed(RunFrom(w, Receives(n))) && RunFrom(w, Receives(n)).log == w.log
    ensures RunFrom(w, Receives(n)).done == w.done
    decreases n
  {
    if n > 0 {
      KeepsReceive(w);
      assert Receives(n)[0] == Receive && Receives(n)[1..] == Receives(n - 1);
      ReceivesAll(Next(w, Receive), n - 1);
    }
  }

  /**
    A careful run never stores a sequence that passes an unhandled dispatch, whatever overlaps:
    so crashing at any point and resuming queues every dispatch still owed.
   */
  lemma CrashLosesNothing(events: seq<Event>)
    requires CarefulRun(Start, events)
    ensures Safe(RunFrom(Start, events))
    ensures var up := Next(Next(RunFrom(Start, events), Crash), Connect);
            var again := RunFrom(up, Receives(|up.log| - up.got));
            Owed(again) && again.log == RunFrom(Start, events).log && again.done == RunFrom(Start, events).done
  {
    hide Inv, Next, CarefulRun, RunFrom, Receives;
    StartInv();
    CarefulRunKeepsInv(Start, events);
    ResumeReplays(RunFrom(Start, events));
  }

  lemma ResumeReplays(w: World)
    requires Inv(w)
    ensures Safe(w)
    ensures var up := Next(Next(w, Crash), Connect);
            var again := RunFrom(up, Receives(|up.log| - up.got));
            up.got <= |up.log| && Owed(again) && again.log == w.log && again.done == w.done
  {
    hide RunFrom, Receives, Safe, Chains;
    KeepsRest(w, Crash);
    KeepsConnect(Next(w, Crash));
    var up := Next(Next(w, Crash), Connect);
    ReceivesAll(up, |up.log| - up.got);
  }

  // ------------------------------------------------------------- exactly when care is needed

  ghost predicate AllDone(w: World, q: seq<Dispatch>) {
    forall i | 0 <= i < |q| :: q[i].number in w.done
  }

  /** A numbered RESUMED is safe exactly when no dispatch still waiting in its queue is unhandled. */
  lemma ResumedIsSafeIff(w: World)
    requires Inv(w) && Enabled(w, Resumed(true))
    ensures Safe(Next(w, Resumed(true))) <==> AllDone(w, LiveOne(w).queue)
  {
    var q := LiveOne(w).queue;
    var w' := Next(w, Resumed(true));
    if AllDone(w, q) {
      assert Received(w.log, w.done, q, w.got);
    }
    if Safe(w') {
      forall j | 0 <= j < |q| ensures q[j].number in w.done {
        assert q[j] in w.log;
        var i :| 0 <= i < |w.log| && w.log[i] == q[j];
        assert w'.log[i].number <= w'.stored;
      }
    }
  }

  /**
    A failed handler leaves the sequence where it was, but the next dispatch handled carries it
    past the failed one: that is safe exactly when the failed one was handled some other time.
   */
  lemma FailureIsPassedIff(w: World, k: nat)
    requires Inv(w) && HasHead(w, k) && |w.connections[k].queue| > 1
    ensures Safe(Next(w, End(k, false)))
    ensures Safe(RunFrom(w, [End(k, false), Begin(k), End(k, true)])) <==> w.connections[k].queue[0].number in w.done
  {
    hide Safe, Chains, RunFrom;
    ThreeSteps(w, End(k, false), Begin(k), End(k, true));
    FailedThenHandled(w, k);
    PassedIff(w, k, Next(Next(Next(w, End(k, false)), Begin(k)), End(k, true)));
    SafeKept(w, Next(w, End(k, false)));
  }

  lemma SafeKept(w: World, w': World)
    requires Safe(w) && w'.log == w.log && w'.done == w.done && w'.stored == w.stored
    ensures Safe(w')
  {
  }

  lemma FailedThenHandled(w: World, k: nat)
    requires HasHead(w, k) && |w.connections[k].queue| > 1
    ensures var w' := Next(Next(Next(w, End(k, false)), Begin(k)), End(k, true));
            var second := w.connections[k].queue[1].number;
            w'.log == w.log && w'.stored == second && w'.done == w.done + {second}
  {
    var q := w.connections[k].queue;
    var w1 := Next(w, End(k, false));
    assert w1.connections[k] == Connection(w.connections[k].last, q[1..], Waiting);
    var w2 := Next(w1, Begin(k));
    assert w2.connections[k].queue == q[1..] && w2.connections[k].stage != Waiting;
    assert q[1..][0] == q[1];
  }

  lemma PassedIff(w: World, k: nat, w': World)
    requires Inv(w) && HasHead(w, k) && |w.connections[k].queue| > 1
    requires w'.log == w.log && w'.stored == w.connections[k].queue[1].number
    requires w'.done == w.done + {w.connections[k].queue[1].number}
    ensures Safe(w') <==> w.connections[k].queue[0].number in w.done
  {
    var q := w.connections[k].queue;
    assert InOrder(w.log, w.done, q) && Ascending(q) && From(w.log, q);
    hide Chains, Received;
    assert q[0] in w.log;
    var i :| 0 <= i < |w.log| && w.log[i] == q[0];
    if q[0].number in w.done {
      forall m | 0 <= m < |w'.log| && w'.log[m].number <= w'.stored ensures w'.log[m].number in w'.done {
        if w.log[m].number < q[1].number && w.log[m].number !in w.done {
          PoppedQueued(q[..1], w.log[m].number);
        }
      }
    } else {
      assert w'.log[i].number !in w'.done;
    }
  }

  lemma ThreeSteps(w: World, a: Event, b: Event, c: Event)
    ensures RunFrom(w, [a, b, c]) == Next(Next(Next(w, a), b), c)
  {
    hide Next;
    assert [a, b, c][1..] == [b, c] && [b, c][1..] == [c] && [c][1..] == [];
    assert RunFrom(w, [a, b, c]) == RunFrom(Next(w, a), [b, c]);
    assert RunFrom(Next(w, a), [b, c]) == RunFrom(Next(Next(w, a), b), [c]);
  }

  const Skipping: seq<Event> := [Post("m"), Receive, Resumed(true)]

  /** A message queued when RESUMED arrives is lost to a crash before its handler has run. */
  lemma ResumedCanSkip()
    ensures var w := RunFrom(Start, Skipping);
            var up := Next(Next(w, Crash), Connect);
            up.got == |up.log| == 1 && LiveOne(up).queue == [] && !Safe(up) && !Owed(up)
  {
    var posted := Next(Start, Post("m"));
    var received := Next(posted, Receive);
    var w := Next(received, Resumed(true));
    ThreeSteps(Start, Post("m"), Receive, Resumed(true));
    assert w.log == [Dispatch(2, "m")] && w.stored == 3 && w.done == {};
    var up := Next(Next(w, Crash), Connect);
    assert up.log[1..] == [];
    assert up.log[0].number !in up.done && !Queued([], up.log[0].number);
  }
}
