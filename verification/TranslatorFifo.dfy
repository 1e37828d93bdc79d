/**
  The fold inference against the CLI it infers: a pipe of sends written to it and not yet
  enqueued, a FIFO queue, and the sends the running turn took from the queue's front. The
  translator sees only a turn's first frame and the length of the queue at its result.
 */
module TranslatorFifo {
  import opened Options
  import opened Translator
  import opened TranslatorSends

  // ------------------------------------------------------------- how many are left

  /** In order, the eligible sends come first. */
  lemma {:induction false} EligibleIsPrefix(sends: seq<Send>, seqOf: map<nat, nat>, openSeq: nat, low: nat)
    requires InOrder(sends, seqOf, low)
    ensures var n := |Eligible(sends, seqOf, openSeq)|;
            && Eligible(sends, seqOf, openSeq) == sends[..n]
            && (forall i :: 0 <= i < n ==> sends[i].uuid in seqOf && seqOf[sends[i].uuid] <= openSeq)
            && (forall i :: n <= i < |sends| ==> sends[i].uuid in seqOf && openSeq < seqOf[sends[i].uuid])
    decreases |sends|
  {
    if sends != [] {
      var s := sends[0];
      EligibleIsPrefix(sends[1..], seqOf, openSeq, seqOf[s.uuid]);
      var rest := Eligible(sends[1..], seqOf, openSeq);
      if seqOf[s.uuid] <= openSeq {
        assert Eligible(sends, seqOf, openSeq) == [s] + rest == sends[..1 + |rest|];
        assert forall i :: 1 <= i < |sends| ==> sends[i] == sends[1..][i - 1];
      } else {
        forall i | 0 <= i < |sends|
          ensures sends[i].uuid in seqOf && openSeq < seqOf[sends[i].uuid]
        {
          if i > 0 {
            assert sends[i] == sends[1..][i - 1] && sends[i] in sends[1..];
            InOrderAbove(sends[1..], seqOf, seqOf[s.uuid], sends[i]);
          }
        }
        assert [] + rest == rest && sends[..0] == [];
      }
    }
  }

  lemma {:induction false} EligibleAtLeast(sends: seq<Send>, seqOf: map<nat, nat>, openSeq: nat, c: nat)
    requires c <= |sends| && forall i :: 0 <= i < c ==> sends[i].uuid in seqOf && seqOf[sends[i].uuid] <= openSeq
    ensures c <= |Eligible(sends, seqOf, openSeq)|
    decreases c
  {
    if c > 0 {
      assert forall i :: 0 <= i < c - 1 ==> sends[1..][i] == sends[i + 1];
      EligibleAtLeast(sends[1..], seqOf, openSeq, c - 1);
    }
  }

  /** Dropping the sends of a prefix leaves the rest. */
  lemma {:induction false} DropPrefix(a: seq<Send>, b: seq<Send>, seqOf: map<nat, nat>, low: nat)
    requires InOrder(a + b, seqOf, low)
    ensures DropAll(a + b, Uuids(a)) == b
    decreases |a|
  {
    hide InOrder;
    InOrderNoRepeat(a + b, seqOf, low);
    NoRepeatDropPrefix(a, b);
  }

  lemma {:induction false} NoRepeatDropPrefix(a: seq<Send>, b: seq<Send>)
    requires NoRepeat(a + b)
    ensures DropAll(a + b, Uuids(a)) == b
    decreases |a|
  {
    if a == [] {
      assert a + b == b && Uuids(a) == {};
      DropAllNone(b, {});
    } else {
      assert (a + b)[1..] == a[1..] + b && a == [a[0]] + a[1..];
      NoRepeatDropPrefix(a[1..], b);
      assert Uuids(a) == {a[0].uuid} + Uuids(a[1..]);
      DropAllTwice(a + b, {a[0].uuid}, Uuids(a[1..]));
      assert DropAll(a + b, {a[0].uuid}) == DropAll(a[1..] + b, {a[0].uuid});
      forall s | s in a[1..] + b ensures s.uuid !in {a[0].uuid} {
        assert s.uuid in Uuids(a[1..] + b);
      }
      DropAllNone(a[1..] + b, {a[0].uuid});
    }
  }

  /** The turn takes its primary and the first of the other sends. */
  lemma TakesPrefix(st: State, primary: Send, rest: seq<Send>, openSeq: nat, queued: nat)
    requires InOrder(st.pending, st.seqOf, 0) && Drop(st.pending, primary.uuid) == rest
    ensures var e := |Eligible(rest, st.seqOf, openSeq)|;
            var n := FoldCount(e, |rest| - e, queued);
            && n <= e <= |rest|
            && TakeFolded(st, primary, openSeq, queued) == Fold([primary] + rest[..n], rest[n..])
            && InOrder(rest, st.seqOf, 0)
  {
    hide InOrder, DropAll, Drop, Eligible;
    DropIsDropAll(st.pending, primary.uuid);
    DropAllInOrder(st.pending, {primary.uuid}, st.seqOf, 0);
    var eligible := Eligible(rest, st.seqOf, openSeq);
    var e := |eligible|;
    EligibleIsPrefix(rest, st.seqOf, openSeq, 0);
    var n := FoldCount(e, |rest| - e, queued);
    assert eligible[..n] == rest[..n];
    assert rest == rest[..n] + rest[n..];
    DropPrefix(rest[..n], rest[n..], st.seqOf, 0);
  }

  function Larger(a: int, b: int): int { if a < b then b else a }

  function Smaller(a: int, b: int): int { if a < b then a else b }

  /**
    Whatever the queue count says: the sends left are the later ones, in order, and as many as
    the count, but never fewer than those registered after the turn opened nor more than there are.
   */
  lemma FoldLeaves(st: State, primary: Send, openSeq: nat, queued: nat)
    requires InOrder(st.pending, st.seqOf, 0) && primary in st.pending
    ensures var rest := Drop(st.pending, primary.uuid);
            var ineligible := |rest| - |Eligible(rest, st.seqOf, openSeq)|;
            var left := TakeFolded(st, primary, openSeq, queued).pending;
            && |left| == Larger(ineligible, Smaller(queued, |rest|))
            && left == rest[|rest| - |left|..]
            && (forall i :: |rest| - ineligible <= i < |rest| ==> rest[i] in left)
  {
    hide InOrder, Eligible, Drop, TakeFolded;
    var rest := Drop(st.pending, primary.uuid);
    TakesPrefix(st, primary, rest, openSeq, queued);
    var e := |Eligible(rest, st.seqOf, openSeq)|;
    var n := FoldCount(e, |rest| - e, queued);
    forall i | e <= i < |rest| ensures rest[i] in rest[n..] {
      assert rest[n..][i - n] == rest[i];
    }
  }

  // ------------------------------------------------------------- the CLI

  /** The CLI as a FIFO: sends on their way to it, its queue, and what the running turn consumed. */
  datatype Cli = Cli(pipe: seq<Send>, queue: seq<Send>, consumed: seq<Send>)

  datatype System = System(cli: Cli, st: State)

  datatype Move =
    | Write(send: Send)                // registered, and written to the CLI's input
    | Enqueue                          // the CLI reads one send
    | Dequeue(n: nat)                  // a turn starts, with the first n queued sends folded into it
    | Emit(frame: Frame)               // a frame of the running turn, other than its result
    | Conclude(outcome: Outcome)       // the turn's result, with the length of the queue

  function Stamp(sys: System): Option<nat> {
    if sys.cli.consumed == [] then None else Some(sys.cli.consumed[0].uuid)
  }

  /** Frames carry the uuid of the turn's first send, until the translator has bound the turn. */
  ghost predicate Enabled(sys: System, m: Move) {
    match m
    case Write(send) => send.uuid !in Uuids(sys.cli.consumed + sys.cli.queue + sys.cli.pipe)
    case Enqueue => sys.cli.pipe != []
    case Dequeue(n) => sys.cli.consumed == [] && 1 <= n <= |sys.cli.queue|
    case Emit(f) =>
      && sys.cli.consumed != [] && !f.Result?
      && (sys.st.turn.None? && (f.StreamEvent? || f.Assistant?) ==> f.stamp == Stamp(sys))
    case Conclude(_) => sys.cli.consumed != []
  }

  function Next(sys: System, m: Move): System {
    var Cli(pipe, queue, consumed) := sys.cli;
    match m
    case Write(send) => System(Cli(pipe + [send], queue, consumed), RegisterSend(sys.st, send))
    case Enqueue => if pipe == [] then sys else System(Cli(pipe[1..], queue + [pipe[0]], consumed), sys.st)
    case Dequeue(n) => if n > |queue| then sys else System(Cli(pipe, queue[n..], queue[..n]), sys.st)
    case Emit(f) => System(sys.cli, HandleFrame(sys.st, f))
    case Conclude(outcome) =>
      System(Cli(pipe, queue, []), HandleResult(sys.st, Stamp(sys), |queue|, outcome))
  }

  /** The translator's pending sends are exactly those the CLI has not finished with, in its order. */
  ghost predicate Sync(sys: System) {
    var Cli(pipe, queue, consumed) := sys.cli;
    var st := sys.st;
    && st.pending == consumed + queue + pipe
    && InOrder(st.pending, st.seqOf, 0)
    && (forall u :: u in st.seqOf ==> st.seqOf[u] <= st.seqCounter)
    && !st.ended
    && (st.turn.Some? ==>
        && consumed != [] && st.turn.value.send == consumed[0]
        && forall i :: 0 <= i < |consumed| ==>
            consumed[i].uuid in st.seqOf && st.seqOf[consumed[i].uuid] <= st.turn.value.openSeq)
  }

  /** Every send registered before the turn was bound was consumed by it. */
  ghost predicate OlderAllConsumed(sys: System) {
    sys.st.turn.Some? ==> forall s :: s in sys.cli.queue + sys.cli.pipe ==>
        s.uuid in sys.st.seqOf && sys.st.turn.value.openSeq < sys.st.seqOf[s.uuid]
  }

  /**
    The inference is exact, taking what the turn consumed and leaving the rest, if and only if
    nothing is in flight or every send registered before the turn was bound was consumed.
   */
  lemma FoldIsExactIff(sys: System)
    requires Sync(sys) && sys.st.turn.Some?
    ensures var t := sys.st.turn.value;
            var fold := TakeFolded(sys.st, t.send, t.openSeq, |sys.cli.queue|);
            && (fold.folded == sys.cli.consumed <==> (sys.cli.pipe == [] || OlderAllConsumed(sys)))
            && (fold.folded == sys.cli.consumed ==> fold.pending == sys.cli.queue + sys.cli.pipe)
  {
    var Cli(pipe, queue, consumed) := sys.cli;
    var st, t := sys.st, sys.st.turn.value;
    assert InOrder(st.pending, st.seqOf, 0) && st.pending == consumed + queue + pipe && consumed != [];
    var rest := consumed[1..] + queue + pipe;
    var c := |consumed| - 1;
    EligibleIff(sys, rest);
    hide InOrder, Eligible, Drop, TakeFolded, DropAll, FoldCount, Sync, OlderAllConsumed;
    DropFirst(consumed, queue, pipe, st);
    TakesPrefix(st, t.send, rest, t.openSeq, |queue|);
    var e := |Eligible(rest, st.seqOf, t.openSeq)|;
    var n := FoldCount(e, |rest| - e, |queue|);
    FoldCountIs(e, c, |queue|, |pipe|);
    var folded := [t.send] + rest[..n];
    if n == c {
      assert rest[..c] == consumed[1..];
      assert rest[c..] == queue + pipe;
    } else {
      assert |folded| != |consumed|;
    }
  }

  /** Beyond what the turn consumed nothing is eligible, exactly when all older sends were consumed. */
  lemma EligibleIff(sys: System, rest: seq<Send>)
    requires Sync(sys) && sys.st.turn.Some?
    requires rest == sys.cli.consumed[1..] + sys.cli.queue + sys.cli.pipe
    ensures var e := |Eligible(rest, sys.st.seqOf, sys.st.turn.value.openSeq)|;
            && |sys.cli.consumed| - 1 <= e <= |rest|
            && (e == |sys.cli.consumed| - 1 <==> OlderAllConsumed(sys))
            && sys.st.turn.value.send == sys.cli.consumed[0]
  {
    hide Eligible;
    var Cli(pipe, queue, consumed) := sys.cli;
    var st, t := sys.st, sys.st.turn.value;
    var c := |consumed| - 1;
    assert InOrder(rest, st.seqOf, 0) by {
      DropFirst(consumed, queue, pipe, st);
      TakesPrefix(st, consumed[0], rest, t.openSeq, 0);
    }
    EligibleIsPrefix(rest, st.seqOf, t.openSeq, 0);
    forall i | 0 <= i < c ensures rest[i].uuid in st.seqOf && st.seqOf[rest[i].uuid] <= t.openSeq {
      assert rest[i] == consumed[i + 1];
    }
    hide InOrder;
    EligibleAtLeast(rest, st.seqOf, t.openSeq, c);
    var later := queue + pipe;
    assert forall i :: 0 <= i < |later| ==> later[i] == rest[c + i];
    if |Eligible(rest, st.seqOf, t.openSeq)| > c {
      assert later[0] in later && rest[c] == later[0];
    }
  }

  lemma FoldCountIs(e: nat, c: nat, q: nat, p: nat)
    requires c <= e <= c + q + p
    ensures FoldCount(e, c + q + p - e, q) == (if e - c >= p then c + p else e)
  {
  }

  lemma DropFirst(consumed: seq<Send>, queue: seq<Send>, pipe: seq<Send>, st: State)
    requires consumed != [] && st.pending == consumed + queue + pipe && InOrder(st.pending, st.seqOf, 0)
    ensures Drop(st.pending, consumed[0].uuid) == consumed[1..] + queue + pipe
  {
    hide InOrder, DropAll, Drop;
    var rest := consumed[1..] + queue + pipe;
    assert st.pending == [consumed[0]] + rest;
    DropIsDropAll(st.pending, consumed[0].uuid);
    assert Uuids([consumed[0]]) == {consumed[0].uuid};
    DropPrefix([consumed[0]], rest, st.seqOf, 0);
  }

  // ------------------------------------------------------------- whole runs

  /** The system once the translator has bound the running turn, as its result does at the latest. */
  function Bound(sys: System): System {
    System(sys.cli, OpenIfNone(sys.st, Stamp(sys)))
  }

  lemma BindsTheFirst(sys: System, registered: set<nat>)
    requires Sync(sys) && Inv(sys.st, registered) && sys.cli.consumed != []
    ensures Sync(Bound(sys)) && Bound(sys).st.turn.Some? && Inv(Bound(sys).st, registered)
    ensures Bound(sys).st.pending == sys.st.pending && Bound(sys).st.seqOf == sys.st.seqOf
  {
    hide InOrder, Books;
    OpenKeeps(sys.st, registered, Stamp(sys));
    var Cli(pipe, queue, consumed) := sys.cli;
    assert sys.st.pending[0] == consumed[0];
    forall i | 0 <= i < |consumed|
      ensures consumed[i].uuid in sys.st.seqOf
    {
      assert sys.st.pending[i] == consumed[i] && consumed[i] in sys.st.pending;
    }
  }

  /** At a turn's result, nothing is in flight or every older send was consumed. */
  ghost predicate Settled(sys: System, m: Move) {
    m.Conclude? ==> sys.cli.pipe == [] || OlderAllConsumed(Bound(sys))
  }

  function Grown(registered: set<nat>, m: Move): set<nat> {
    if m.Write? then registered + {m.send.uuid} else registered
  }

  lemma EmitSync(sys: System, registered: set<nat>, f: Frame)
    requires Sync(sys) && Inv(sys.st, registered) && Enabled(sys, Emit(f))
    ensures Sync(Next(sys, Emit(f))) && Inv(Next(sys, Emit(f)).st, registered)
  {
    hide InOrder, Books, TurnFrame, UuidSeq, Finish;
    FrameKeeps(sys.st, registered, f);
    BindsTheFirst(sys, registered);
    var b := Bound(sys).st;
    FrameSame(b.turn.value, f);
    if sys.st.turn.Some? {
      FrameSame(sys.st.turn.value, f);
    }
  }

  lemma ConcludeSync(sys: System, registered: set<nat>, outcome: Outcome)
    requires Sync(sys) && Inv(sys.st, registered) && Enabled(sys, Conclude(outcome))
    requires Settled(sys, Conclude(outcome))
    ensures Sync(Next(sys, Conclude(outcome))) && Inv(Next(sys, Conclude(outcome)).st, registered)
  {
    hide InOrder, Books, SettleTurn, TakeFolded;
    BindsTheFirst(sys, registered);
    var b := Bound(sys);
    var t := b.st.turn.value;
    var queued := |sys.cli.queue|;
    FoldIsExactIff(b);
    SettleTurnKeeps(b.st, registered, queued, outcome);
    SettleEnded(b.st, queued, outcome);
    SettlePending(b.st, queued, outcome);
    var st' := SettleTurn(b.st, queued, outcome);
    assert Next(sys, Conclude(outcome)).st == st';
    assert st'.pending == sys.cli.queue + sys.cli.pipe;
    assert [] + sys.cli.queue + sys.cli.pipe == sys.cli.queue + sys.cli.pipe;
  }

  lemma SettlePending(st: State, queued: nat, outcome: Outcome)
    requires st.turn.Some?
    ensures SettleTurn(st, queued, outcome).pending
        == TakeFolded(st, st.turn.value.send, st.turn.value.openSeq, queued).pending
  {
    hide TakeFolded, InJournal, SettleFolded;
    SettleTurnShape(st, queued, outcome);
    InJournalSame(st, queued, outcome);
    var t := st.turn.value;
    SettleFoldedPending(InJournal(st, queued, outcome), TakeFolded(st, t.send, t.openSeq, queued).folded, t.send);
  }

  lemma {:induction false} SettleFoldedPending(st: State, folded: seq<Send>, primary: Send)
    ensures SettleFolded(st, folded, primary).pending == st.pending
    decreases |folded|
  {
    if folded != [] {
      var s := folded[0];
      var st1 := if s.uuid != primary.uuid then Log(st, [FoldedInto(s, primary.task)]) else st;
      SettleFoldedPending(ResolveWaiter(st1, s.uuid), folded[1..], primary);
    }
  }

  lemma NextSync(sys: System, registered: set<nat>, m: Move)
    requires Sync(sys) && Inv(sys.st, registered) && Enabled(sys, m)
    requires m.Write? ==> m.send.uuid !in registered
    requires Settled(sys, m)
    ensures Sync(Next(sys, m)) && Inv(Next(sys, m).st, Grown(registered, m))
  {
    match m
    case Write(send) => WriteSync(sys, registered, send);
    case Enqueue => QueueSync(sys, registered, m);
    case Dequeue(n) => QueueSync(sys, registered, m);
    case Emit(f) => hide *; EmitSync(sys, registered, f);
    case Conclude(outcome) => hide *; ConcludeSync(sys, registered, outcome);
  }

  lemma WriteSync(sys: System, registered: set<nat>, send: Send)
    requires Sync(sys) && Inv(sys.st, registered) && Enabled(sys, Write(send)) && send.uuid !in registered
    ensures Sync(Next(sys, Write(send))) && Inv(Next(sys, Write(send)).st, Grown(registered, Write(send)))
  {
    hide InOrder, Books;
    var Cli(pipe, queue, consumed) := sys.cli;
    RegisterKeeps(sys.st, registered, send);
    assert sys.st.pending + [send] == consumed + queue + (pipe + [send]);
    assert send.uuid !in sys.st.seqOf;
  }

  lemma QueueSync(sys: System, registered: set<nat>, m: Move)
    requires Sync(sys) && Inv(sys.st, registered) && Enabled(sys, m) && (m.Enqueue? || m.Dequeue?)
    ensures Sync(Next(sys, m)) && Inv(Next(sys, m).st, Grown(registered, m))
  {
    hide InOrder, Inv, Books;
    var Cli(pipe, queue, consumed) := sys.cli;
    if m.Enqueue? {
      assert consumed + (queue + [pipe[0]]) + pipe[1..] == sys.st.pending;
    } else {
      assert queue[..m.n] + queue[m.n..] + pipe == sys.st.pending;
    }
  }

  /** Every move is one the CLI and the bridge can make, and every result comes when the inference is exact. */
  ghost predicate GoodRun(sys: System, registered: set<nat>, moves: seq<Move>)
    decreases |moves|
  {
    moves != [] ==>
      var m := moves[0];
      && Enabled(sys, m) && Settled(sys, m)
      && (m.Write? ==> m.send.uuid !in registered)
      && GoodRun(Next(sys, m), Grown(registered, m), moves[1..])
  }

  function RunMoves(sys: System, moves: seq<Move>): System
    decreases |moves|
  {
    if moves == [] then sys else RunMoves(Next(sys, moves[0]), moves[1..])
  }

  lemma {:induction false} RunSync(sys: System, registered: set<nat>, moves: seq<Move>)
    requires Sync(sys) && Inv(sys.st, registered) && GoodRun(sys, registered, moves)
    ensures Sync(RunMoves(sys, moves))
    decreases |moves|
  {
    hide Sync, Inv, Enabled, Next, Settled;
    if moves != [] {
      NextSync(sys, registered, moves[0]);
      RunSync(Next(sys, moves[0]), Grown(registered, moves[0]), moves[1..]);
    }
  }

  /**
    Over every run in which each result comes with nothing in flight or every older send
    consumed, turns folding any number of sends: what the translator holds pending is exactly
    what the running turn consumed, what is queued and what is on its way, in that order.
   */
  lemma PendingMatchesTheCli(moves: seq<Move>)
    requires GoodRun(System(Cli([], [], []), FRESH), {}, moves)
    ensures var sys := RunMoves(System(Cli([], [], []), FRESH), moves);
            sys.st.pending == sys.cli.consumed + sys.cli.queue + sys.cli.pipe
    ensures Sync(RunMoves(System(Cli([], [], []), FRESH), moves))
  {
    hide GoodRun, RunMoves;
    assert Inv(FRESH, {});
    RunSync(System(Cli([], [], []), FRESH), {}, moves);
  }
}
