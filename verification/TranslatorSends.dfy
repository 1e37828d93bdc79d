/**
  Conservation of sends: over every run with distinct uuids, the waiters are the pending sends
  in registration order, and each send is resolved once and accounted for once: journaled as a
  turn's primary, folded into a turn, or failed when the stream ends.
 */
module TranslatorSends {
  import opened Options
  import opened Translator

  // ------------------------------------------------------------- counting

  predicate Resolves(o: Out, u: nat) { o == Resolved(u) }

  predicate Accounts(o: Out, u: nat) {
    (o.Journaled? && o.uuid == u) || (o.FoldedInto? && o.send.uuid == u)
  }

  function Resolutions(log: seq<Out>, u: nat): nat {
    if log == [] then 0 else (if Resolves(log[0], u) then 1 else 0) + Resolutions(log[1..], u)
  }

  function Accountings(log: seq<Out>, u: nat): nat {
    if log == [] then 0 else (if Accounts(log[0], u) then 1 else 0) + Accountings(log[1..], u)
  }

  lemma {:induction false} CountsAppend(a: seq<Out>, b: seq<Out>, u: nat)
    ensures Resolutions(a + b, u) == Resolutions(a, u) + Resolutions(b, u)
    ensures Accountings(a + b, u) == Accountings(a, u) + Accountings(b, u)
    decreases |a|
  {
    if a == [] {
      assert a + b == b;
    } else {
      assert (a + b)[1..] == a[1..] + b;
      CountsAppend(a[1..], b, u);
    }
  }

  lemma CountsOne(log: seq<Out>, o: Out, u: nat)
    ensures Resolutions(log + [o], u) == Resolutions(log, u) + (if Resolves(o, u) then 1 else 0)
    ensures Accountings(log + [o], u) == Accountings(log, u) + (if Accounts(o, u) then 1 else 0)
  {
    CountsAppend(log, [o], u);
    assert [o][1..] == [];
  }

  /** What a turn publishes of text and cards settles nothing. */
  ghost predicate Neutral(out: seq<Out>) {
    forall i :: 0 <= i < |out| ==> out[i].Working? || out[i].Chunk? || out[i].ToolCard? || out[i].Ended?
  }

  lemma {:induction false} NeutralCounts(out: seq<Out>, u: nat)
    requires Neutral(out)
    ensures Resolutions(out, u) == 0 && Accountings(out, u) == 0
    decreases |out|
  {
    if out != [] {
      NeutralCounts(out[1..], u);
    }
  }

  lemma {:induction false} CloseAllNeutral(t: Turn, status: CardStatus)
    ensures Neutral(CloseOpenActivities(t, status).out) && CloseOpenActivities(t, status).turn.send == t.send
    decreases |t.openTools|
  {
    if t.openTools != [] {
      CloseAllNeutral(EmitActivity(t.(openTools := t.openTools[1..]), t.openTools[0].id, status).turn, status);
    }
  }

  lemma FinishNeutral(t: Turn, state: TaskState)
    ensures Neutral(Finish(t, state).out)
  {
    CloseAllNeutral(t, if state == Completed || state == InputRequired then Done else FailedCard);
  }

  ghost predicate Same(t: Turn, d: Did) {
    Neutral(d.out) && d.turn.send == t.send && d.turn.openSeq == t.openSeq
        && d.turn.terminalEmitted == t.terminalEmitted
  }

  lemma {:induction false} BlocksSame(t: Turn, blocks: seq<Block>)
    ensures Same(t, OnBlocks(t, blocks))
    decreases |blocks|
  {
    if blocks != [] {
      var d := OnBlock(t, blocks[0]);
      assert Same(t, d);
      BlocksSame(d.turn, blocks[1..]);
    }
  }

  lemma {:induction false} ResultsSame(t: Turn, results: seq<ToolResult>)
    ensures Same(t, OnResults(t, results))
    decreases |results|
  {
    if results != [] {
      var d := SettleActivity(t, results[0].id, results[0].isError, results[0].redundant);
      assert Same(t, d);
      ResultsSame(d.turn, results[1..]);
    }
  }

  lemma FrameSame(t: Turn, f: Frame)
    ensures Same(t, TurnFrame(t, f))
  {
    match f
    case StreamEvent(_, delta) =>
    case Assistant(_, aborted, blocks) => BlocksSame(t.(interrupted := t.interrupted || aborted), blocks);
    case User(results) => ResultsSame(t, results);
    case Result(_, _, _) =>
    case Other =>
  }

  // ------------------------------------------------------------- pending sends and waiters

  function UuidSeq(sends: seq<Send>): seq<nat> {
    if sends == [] then [] else [sends[0].uuid] + UuidSeq(sends[1..])
  }

  /** Sends in the order they were registered, after `low`. */
  ghost predicate InOrder(sends: seq<Send>, seqOf: map<nat, nat>, low: nat)
    decreases |sends|
  {
    sends != [] ==>
      var u := sends[0].uuid;
      u in seqOf && low < seqOf[u] && InOrder(sends[1..], seqOf, seqOf[u])
  }

  lemma {:induction false} InOrderLower(sends: seq<Send>, seqOf: map<nat, nat>, low: nat, low': nat)
    requires InOrder(sends, seqOf, low) && low' <= low
    ensures InOrder(sends, seqOf, low')
    decreases |sends|
  {
  }

  lemma {:induction false} InOrderAbove(sends: seq<Send>, seqOf: map<nat, nat>, low: nat, s: Send)
    requires InOrder(sends, seqOf, low) && s in sends
    ensures s.uuid in seqOf && low < seqOf[s.uuid]
    decreases |sends|
  {
    if s != sends[0] {
      InOrderAbove(sends[1..], seqOf, seqOf[sends[0].uuid], s);
    }
  }

  lemma {:induction false} DropAllInOrder(sends: seq<Send>, uuids: set<nat>, seqOf: map<nat, nat>, low: nat)
    requires InOrder(sends, seqOf, low)
    ensures InOrder(DropAll(sends, uuids), seqOf, low) && InOrder(DropAll(sends, uuids), seqOf - uuids, low)
    decreases |sends|
  {
    if sends != [] {
      var s := sends[0];
      DropAllInOrder(sends[1..], uuids, seqOf, seqOf[s.uuid]);
      var rest := DropAll(sends[1..], uuids);
      if s.uuid in uuids {
        InOrderLower(rest, seqOf, seqOf[s.uuid], low);
        InOrderLower(rest, seqOf - uuids, seqOf[s.uuid], low);
      } else {
        assert ([s] + rest)[1..] == rest;
      }
    }
  }

  lemma {:induction false} DropAllMembers(sends: seq<Send>, uuids: set<nat>)
    ensures forall s :: s in DropAll(sends, uuids) <==> s in sends && s.uuid !in uuids
    decreases |sends|
  {
    if sends != [] {
      DropAllMembers(sends[1..], uuids);
      assert sends == [sends[0]] + sends[1..];
    }
  }

  lemma DropAllUuids(sends: seq<Send>, uuids: set<nat>)
    ensures Uuids(DropAll(sends, uuids)) == Uuids(sends) - uuids
  {
    DropAllMembers(sends, uuids);
  }

  lemma {:induction false} DropAllTwice(sends: seq<Send>, a: set<nat>, b: set<nat>)
    ensures DropAll(DropAll(sends, a), b) == DropAll(sends, a + b)
    decreases |sends|
  {
    if sends != [] {
      DropAllTwice(sends[1..], a, b);
      var rest := DropAll(sends[1..], a);
      assert sends[0].uuid !in a ==> ([sends[0]] + rest)[1..] == rest;
    }
  }

  lemma {:induction false} DropIsDropAll(sends: seq<Send>, u: nat)
    ensures Drop(sends, u) == DropAll(sends, {u})
    decreases |sends|
  {
    if sends != [] {
      DropIsDropAll(sends[1..], u);
    }
  }

  lemma {:induction false} DropAllNone(sends: seq<Send>, uuids: set<nat>)
    requires forall s :: s in sends ==> s.uuid !in uuids
    ensures DropAll(sends, uuids) == sends
    decreases |sends|
  {
    if sends != [] {
      assert sends[0] in sends;
      assert forall s :: s in sends[1..] ==> s in sends;
      DropAllNone(sends[1..], uuids);
      assert sends == [sends[0]] + sends[1..];
    }
  }

  lemma {:induction false} UuidSeqMembers(sends: seq<Send>)
    ensures forall u :: u in UuidSeq(sends) <==> u in Uuids(sends)
    ensures |UuidSeq(sends)| == |sends|
    decreases |sends|
  {
    if sends != [] {
      UuidSeqMembers(sends[1..]);
      assert sends == [sends[0]] + sends[1..];
      assert Uuids(sends) == {sends[0].uuid} + Uuids(sends[1..]);
    }
  }

  /** Resolving one waiter drops its send. */
  lemma {:induction false} WithoutWaiter(sends: seq<Send>, seqOf: map<nat, nat>, low: nat, u: nat)
    requires InOrder(sends, seqOf, low)
    ensures Without(UuidSeq(sends), u) == UuidSeq(DropAll(sends, {u}))
    decreases |sends|
  {
    if sends != [] {
      var s := sends[0];
      assert UuidSeq(sends)[1..] == UuidSeq(sends[1..]);
      WithoutWaiter(sends[1..], seqOf, seqOf[s.uuid], u);
      if s.uuid == u {
        forall s' | s' in sends[1..] ensures s'.uuid !in {u} {
          InOrderAbove(sends[1..], seqOf, seqOf[u], s');
        }
        DropAllNone(sends[1..], {u});
      } else {
        var rest := DropAll(sends[1..], {u});
        assert ([s] + rest)[1..] == rest;
      }
    }
  }

  ghost predicate NoRepeat(sends: seq<Send>)
    decreases |sends|
  {
    sends != [] ==> sends[0].uuid !in Uuids(sends[1..]) && NoRepeat(sends[1..])
  }

  lemma {:induction false} InOrderNoRepeat(sends: seq<Send>, seqOf: map<nat, nat>, low: nat)
    requires InOrder(sends, seqOf, low)
    ensures NoRepeat(sends)
    decreases |sends|
  {
    if sends != [] {
      var u := sends[0].uuid;
      forall s | s in sends[1..] ensures s.uuid != u {
        InOrderAbove(sends[1..], seqOf, seqOf[u], s);
      }
      InOrderNoRepeat(sends[1..], seqOf, seqOf[u]);
    }
  }

  lemma {:induction false} InOrderPrefix(sends: seq<Send>, seqOf: map<nat, nat>, low: nat, n: nat)
    requires InOrder(sends, seqOf, low) && n <= |sends|
    ensures InOrder(sends[..n], seqOf, low)
    decreases |sends|
  {
    if n > 0 {
      assert sends[..n][1..] == sends[1..][..n - 1];
      InOrderPrefix(sends[1..], seqOf, seqOf[sends[0].uuid], n - 1);
    }
  }

  lemma {:induction false} EligibleInOrder(sends: seq<Send>, seqOf: map<nat, nat>, openSeq: nat, low: nat)
    requires InOrder(sends, seqOf, low)
    ensures InOrder(Eligible(sends, seqOf, openSeq), seqOf, low)
    ensures forall s :: s in Eligible(sends, seqOf, openSeq) <==>
        s in sends && seqOf.Keys >= {s.uuid} && seqOf[s.uuid] <= openSeq
    decreases |sends|
  {
    if sends != [] {
      var s := sends[0];
      EligibleInOrder(sends[1..], seqOf, openSeq, seqOf[s.uuid]);
      var rest := Eligible(sends[1..], seqOf, openSeq);
      assert sends == [s] + sends[1..];
      if seqOf[s.uuid] <= openSeq {
        assert ([s] + rest)[1..] == rest;
      } else {
        assert [] + rest == rest;
        InOrderLower(rest, seqOf, seqOf[s.uuid], low);
      }
    }
  }

  // ------------------------------------------------------------- settling

  /** What settling some sends does to the waiters, the sequence numbers and the counts. */
  ghost predicate Settles(st: State, st': State, sends: seq<Send>, gone: set<nat>, accounted: set<nat>) {
    && st'.pending == st.pending && st'.seqCounter == st.seqCounter && st'.turn == st.turn
    && st'.ended == st.ended && st'.cancelRequested == st.cancelRequested
    && st'.waiters == UuidSeq(DropAll(sends, gone))
    && st'.seqOf == st.seqOf - gone
    && (forall u ::
        Resolutions(st'.log, u) == Resolutions(st.log, u) + (if u in gone && u in Uuids(sends) then 1 else 0))
    && (forall u :: Accountings(st'.log, u) == Accountings(st.log, u) + (if u in accounted then 1 else 0))
  }

  lemma ResolveSettles(st: State, sends: seq<Send>, u: nat)
    requires st.waiters == UuidSeq(sends) && InOrder(sends, st.seqOf, 0)
    ensures Settles(st, ResolveWaiter(st, u), sends, {u}, {})
  {
    WithoutWaiter(sends, st.seqOf, 0, u);
    UuidSeqMembers(sends);
    forall v
      ensures Resolutions(ResolveWaiter(st, u).log, v)
          == Resolutions(st.log, v) + (if v in {u} && v in Uuids(sends) then 1 else 0)
      ensures Accountings(ResolveWaiter(st, u).log, v) == Accountings(st.log, v)
    {
      CountsOne(st.log, Resolved(u), v);
    }
  }

  lemma SettlesThen(
      st: State, st': State, st'': State, sends: seq<Send>, a: set<nat>, x: set<nat>, b: set<nat>, y: set<nat>)
    requires Settles(st, st', sends, a, x) && Settles(st', st'', DropAll(sends, a), b, y)
    requires x !! y
    ensures Settles(st, st'', sends, a + b, x + y)
  {
    DropAllTwice(sends, a, b);
    DropAllMembers(sends, a);
    assert st.seqOf - a - b == st.seqOf - (a + b);
    forall u
      ensures Resolutions(st''.log, u) == Resolutions(st.log, u) + (if u in a + b && u in Uuids(sends) then 1 else 0)
    {
      assert u in Uuids(DropAll(sends, a)) <==> u in Uuids(sends) && u !in a;
    }
  }

  lemma LogSettles(st: State, sends: seq<Send>, o: Out, u: nat)
    requires st.waiters == UuidSeq(sends) && !o.Resolved? && Accounts(o, u)
    ensures Settles(st, Log(st, [o]), sends, {}, {u})
  {
    DropAllNone(sends, {});
    assert st.seqOf - {} == st.seqOf;
    forall v
      ensures Resolutions(st.log + [o], v) == Resolutions(st.log, v)
      ensures Accountings(st.log + [o], v) == Accountings(st.log, v) + (if v == u then 1 else 0)
    {
      CountsOne(st.log, o, v);
    }
  }

  lemma {:induction false} FoldedSettle(st: State, folded: seq<Send>, primary: Send, sends: seq<Send>)
    requires st.waiters == UuidSeq(sends) && InOrder(sends, st.seqOf, 0) && NoRepeat(folded)
    ensures Settles(st, SettleFolded(st, folded, primary), sends, Uuids(folded), Uuids(folded) - {primary.uuid})
    decreases |folded|
  {
    hide Settles;
    if folded == [] {
      SettlesNothing(st, sends);
      assert Uuids(folded) == {} && Uuids(folded) - {primary.uuid} == {};
    } else {
      var s := folded[0];
      var u := s.uuid;
      var first: set<nat> := if u != primary.uuid then {u} else {};
      var st1 := if u != primary.uuid then Log(st, [FoldedInto(s, primary.task)]) else st;
      SettlesNothing(st, sends);
      if u != primary.uuid {
        LogSettles(st, sends, FoldedInto(s, primary.task), u);
      }
      SettlesKeeps(st, st1, sends, {}, first);
      DropAllNone(sends, {});
      ResolveSettles(st1, sends, u);
      var st2 := ResolveWaiter(st1, u);
      SettlesThen(st, st1, st2, sends, {}, first, {u}, {});
      SettlesKeeps(st1, st2, sends, {u}, {});
      DropAllInOrder(sends, {u}, st1.seqOf, 0);
      FoldedSettle(st2, folded[1..], primary, DropAll(sends, {u}));
      assert {} + {u} == {u} && first + {} == first;
      SettlesThen(st, st2, SettleFolded(st2, folded[1..], primary), sends, {u}, first, Uuids(folded[1..]),
          Uuids(folded[1..]) - {primary.uuid});
      assert folded == [s] + folded[1..];
      assert Uuids(folded) == {u} + Uuids(folded[1..]);
      assert Uuids(folded) - {primary.uuid} == first + (Uuids(folded[1..]) - {primary.uuid});
    }
  }

  lemma SettlesNothing(st: State, sends: seq<Send>)
    requires st.waiters == UuidSeq(sends)
    ensures Settles(st, st, sends, {}, {})
  {
    DropAllNone(sends, {});
    assert st.seqOf - {} == st.seqOf;
  }

  lemma SettlesKeeps(st: State, st': State, sends: seq<Send>, gone: set<nat>, accounted: set<nat>)
    requires Settles(st, st', sends, gone, accounted)
    ensures st'.waiters == UuidSeq(DropAll(sends, gone)) && st'.seqOf == st.seqOf - gone
    ensures st'.pending == st.pending
    ensures st'.turn == st.turn && st'.ended == st.ended
    ensures gone == {} ==> st'.seqOf == st.seqOf
  {
  }

  // ------------------------------------------------------------- which sends a turn takes

  lemma NoRepeatCons(s: Send, rest: seq<Send>)
    requires NoRepeat(rest) && s.uuid !in Uuids(rest)
    ensures NoRepeat([s] + rest)
  {
    assert ([s] + rest)[1..] == rest;
  }

  /** The turn takes its primary and sends that were pending, once each, and leaves the others in order. */
  lemma TakeFoldedParts(st: State, primary: Send, openSeq: nat, queued: nat)
    requires InOrder(st.pending, st.seqOf, 0) && primary in st.pending
    ensures var fold := TakeFolded(st, primary, openSeq, queued);
            && fold.folded != [] && fold.folded[0] == primary && NoRepeat(fold.folded)
            && Uuids(fold.folded) <= Uuids(st.pending)
            && fold.pending == DropAll(st.pending, Uuids(fold.folded))
            && (forall s :: s in fold.folded[1..] ==>
                s in st.pending && s.uuid in st.seqOf && st.seqOf[s.uuid] <= openSeq)
  {
    hide InOrder, NoRepeat, DropAll, Drop, Eligible;
    var rest := Drop(st.pending, primary.uuid);
    DropIsDropAll(st.pending, primary.uuid);
    DropAllInOrder(st.pending, {primary.uuid}, st.seqOf, 0);
    DropAllMembers(st.pending, {primary.uuid});
    var eligible := Eligible(rest, st.seqOf, openSeq);
    EligibleInOrder(rest, st.seqOf, openSeq, 0);
    var n := Min(FoldCount(|eligible|, |rest| - |eligible|, queued), |eligible|);
    var extra := eligible[..n];
    InOrderPrefix(eligible, st.seqOf, 0, n);
    InOrderNoRepeat(extra, st.seqOf, 0);
    assert forall s :: s in extra ==> s in eligible;
    var folded := [primary] + extra;
    assert folded[1..] == extra;
    assert NoRepeat(folded) by {
      assert forall s :: s in extra ==> s.uuid != primary.uuid;
      NoRepeatCons(primary, extra);
    }
    assert Uuids(folded) == {primary.uuid} + Uuids(extra);
    DropAllTwice(st.pending, {primary.uuid}, Uuids(extra));
  }

  // ------------------------------------------------------------- the invariant

  /** `registered` are the uuids of every send accepted so far. */
  ghost predicate Inv(st: State, registered: set<nat>) {
    && st.waiters == UuidSeq(st.pending)
    && InOrder(st.pending, st.seqOf, 0)
    && st.seqOf.Keys == Uuids(st.pending) <= registered
    && (forall u :: u in st.seqOf ==> st.seqOf[u] <= st.seqCounter)
    && (st.turn.Some? && !st.ended ==> st.turn.value.send in st.pending && st.turn.value.openSeq <= st.seqCounter)
    && (st.ended ==> st.pending == [])
    && Books(st, registered)
  }

  function Due(st: State, registered: set<nat>, u: nat): nat {
    if u in registered && u !in Uuids(st.pending) then 1 else 0
  }

  /** Each send no longer pending has been resolved once and accounted for once; none else has. */
  ghost predicate Books(st: State, registered: set<nat>) {
    forall u :: Resolutions(st.log, u) == Due(st, registered, u) && Accountings(st.log, u) == Due(st, registered, u)
  }

  lemma BooksSame(st: State, st': State, registered: set<nat>, out: seq<Out>)
    requires Books(st, registered) && st'.pending == st.pending && st'.log == st.log + out && Neutral(out)
    ensures Books(st', registered)
  {
    forall u
      ensures Resolutions(st'.log, u) == Due(st', registered, u) && Accountings(st'.log, u) == Due(st', registered, u)
    {
      CountsAppend(st.log, out, u);
      NeutralCounts(out, u);
      assert Resolutions(st.log, u) == Due(st, registered, u);
    }
  }

  lemma RegisterKeeps(st: State, registered: set<nat>, send: Send)
    requires Inv(st, registered) && send.uuid !in registered
    ensures Inv(RegisterSend(st, send), if st.ended then registered else registered + {send.uuid})
  {
    if !st.ended {
      var st' := RegisterSend(st, send);
      var registered' := registered + {send.uuid};
      UuidSeqMembers(st.pending);
      UuidSeqSnoc(st.pending, send);
      InOrderSnoc(st.pending, st.seqOf, 0, send, st.seqCounter + 1);
      assert Uuids(st'.pending) == Uuids(st.pending) + {send.uuid};
      forall u ensures Resolutions(st'.log, u) == Due(st', registered', u)
          && Accountings(st'.log, u) == Due(st', registered', u) {
        assert Resolutions(st.log, u) == Due(st, registered, u);
      }
    }
  }

  lemma {:induction false} UuidSeqSnoc(sends: seq<Send>, send: Send)
    ensures UuidSeq(sends + [send]) == UuidSeq(sends) + [send.uuid]
    decreases |sends|
  {
    if sends != [] {
      assert (sends + [send])[1..] == sends[1..] + [send];
      UuidSeqSnoc(sends[1..], send);
    } else {
      assert ([] + [send])[1..] == [];
    }
  }

  lemma {:induction false} InOrderSnoc(sends: seq<Send>, seqOf: map<nat, nat>, low: nat, send: Send, n: nat)
    requires InOrder(sends, seqOf, low) && send.uuid !in Uuids(sends) && low < n
    requires forall u :: u in seqOf ==> seqOf[u] < n
    ensures InOrder(sends + [send], seqOf[send.uuid := n], low)
    decreases |sends|
  {
    if sends != [] {
      assert (sends + [send])[1..] == sends[1..] + [send];
      assert sends[0] in sends && forall s :: s in sends[1..] ==> s in sends;
      InOrderSnoc(sends[1..], seqOf, seqOf[sends[0].uuid], send, n);
    } else {
      assert ([] + [send])[1..] == [];
    }
  }

  lemma PrimaryPending(pending: seq<Send>, stamp: Option<nat>)
    ensures Primary(pending, stamp).Some? ==> Primary(pending, stamp).value in pending
    ensures Primary(pending, stamp).None? <==> pending == []
  {
  }

  lemma OpenKeeps(st: State, registered: set<nat>, stamp: Option<nat>)
    requires Inv(st, registered)
    ensures Inv(OpenIfNone(st, stamp), registered) && OpenIfNone(st, stamp).ended == st.ended
    ensures OpenIfNone(st, stamp).pending == st.pending
    ensures OpenIfNone(st, stamp).turn.None? ==> st.pending == []
  {
    PrimaryPending(st.pending, stamp);
    if st.turn.None? && st.pending != [] {
      BooksSame(st, OpenIfNone(st, stamp), registered, [Working(Primary(st.pending, stamp).value.task)]);
    }
  }

  lemma WithTurnKeeps(st: State, registered: set<nat>, f: Frame)
    requires Inv(st, registered) && st.turn.Some?
    ensures Inv(WithTurn(st, TurnFrame(st.turn.value, f)), registered)
  {
    hide TurnFrame;
    FrameSame(st.turn.value, f);
    BooksSame(st, WithTurn(st, TurnFrame(st.turn.value, f)), registered, TurnFrame(st.turn.value, f).out);
  }

  /** The turn's record and what is emitted with it: one accounting, and nobody released. */
  lemma RecordCounts(log: seq<Out>, uuid: nat, state: TaskState, more: seq<Out>)
    requires Neutral(more)
    ensures var log' := log + [Journaled(uuid, state)] + more;
            forall u :: Resolutions(log', u) == Resolutions(log, u)
                        && Accountings(log', u) == Accountings(log, u) + (if u == uuid then 1 else 0)
  {
    hide Neutral, Resolutions, Accountings;
    forall u
      ensures var log' := log + [Journaled(uuid, state)] + more;
              Resolutions(log', u) == Resolutions(log, u)
              && Accountings(log', u) == Accountings(log, u) + (if u == uuid then 1 else 0)
    {
      OneRecord(log, uuid, state, u);
      CountsAppend(log + [Journaled(uuid, state)], more, u);
      NeutralCounts(more, u);
    }
  }

  lemma OneRecord(log: seq<Out>, uuid: nat, state: TaskState, u: nat)
    ensures Resolutions(log + [Journaled(uuid, state)], u) == Resolutions(log, u)
    ensures Accountings(log + [Journaled(uuid, state)], u) == Accountings(log, u) + (if u == uuid then 1 else 0)
  {
    CountsOne(log, Journaled(uuid, state), u);
  }

  /** What a result emits once the turn is in the journal. */
  function Reported(t: Turn, state: TaskState): seq<Out> {
    Finish(t, state).out + (if t.terminalEmitted then [] else [Ended(t.send.task, state)])
  }

  lemma ReportedNeutral(t: Turn, state: TaskState)
    ensures Neutral(Reported(t, state))
  {
    hide Finish, Neutral;
    FinishNeutral(t, state);
    NeutralWith(Finish(t, state).out, Ended(t.send.task, state));
  }

  /** The state the folded sends are settled from. */
  function InJournal(st: State, queued: nat, outcome: Outcome): State
    requires st.turn.Some?
  {
    var t := st.turn.value;
    var state := TerminalState(st, t, outcome);
    Log(Log(st.(pending := TakeFolded(st, t.send, t.openSeq, queued).pending), [Journaled(t.send.uuid, state)]),
        Reported(t, state))
  }

  lemma InJournalSame(st: State, queued: nat, outcome: Outcome)
    requires st.turn.Some?
    ensures var t, st' := st.turn.value, InJournal(st, queued, outcome);
            && st' == st.(pending := TakeFolded(st, t.send, t.openSeq, queued).pending, log := st'.log)
            && (forall u :: Resolutions(st'.log, u) == Resolutions(st.log, u)
                            && Accountings(st'.log, u)
                               == Accountings(st.log, u) + (if u == t.send.uuid then 1 else 0))
  {
    hide TakeFolded, TerminalState, Reported, Neutral, Resolutions, Accountings;
    var t := st.turn.value;
    var state := TerminalState(st, t, outcome);
    ReportedNeutral(t, state);
    RecordCounts(st.log, t.send.uuid, state, Reported(t, state));
  }

  /** A turn's result settles what the turn took, and nothing else. */
  lemma SettleTurnKeeps(st: State, registered: set<nat>, queued: nat, outcome: Outcome)
    requires Inv(st, registered) && st.turn.Some? && !st.ended
    ensures Inv(SettleTurn(st, queued, outcome), registered) && SettleTurn(st, queued, outcome).turn == None
  {
    hide TakeFolded, InOrder, Settles, SettleTurn, SettleFolded, InJournal, NoRepeat, Books, Uuids, UuidSeq, DropAll;
    var t, st3 := st.turn.value, InJournal(st, queued, outcome);
    var fold := TakeFolded(st, t.send, t.openSeq, queued);
    TakeFoldedParts(st, t.send, t.openSeq, queued);
    InJournalSame(st, queued, outcome);
    FoldedSettle(st3, fold.folded, t.send, st.pending);
    var st4 := SettleFolded(st3, fold.folded, t.send);
    SettleTurnShape(st, queued, outcome);
    var gone := Uuids(fold.folded);
    HasFirst(fold.folded);
    SettlesKeeps(st3, st4, st.pending, gone, gone - {t.send.uuid});
    SettlesCounts(st3, st4, st.pending, gone, gone - {t.send.uuid});
    DropAllInOrder(st.pending, gone, st.seqOf, 0);
    DropAllUuids(st.pending, gone);
    DropAllMembers(st.pending, gone);
    var st' := SettleTurn(st, queued, outcome);
    BooksSettled(st, st', registered, gone, t.send.uuid);
  }

  lemma HasFirst(sends: seq<Send>)
    requires sends != []
    ensures sends[0].uuid in Uuids(sends)
  {
    assert sends[0] in sends;
  }

  /** The sends gone are accounted for once each: the turn's own by its record, the others as folded into it. */
  lemma BooksSettled(st: State, st': State, registered: set<nat>, gone: set<nat>, primary: nat)
    requires Books(st, registered) && gone <= Uuids(st.pending) <= registered && primary in gone
    requires Uuids(st'.pending) == Uuids(st.pending) - gone
    requires forall u :: Resolutions(st'.log, u) == Resolutions(st.log, u) + (if u in gone then 1 else 0)
    requires forall u :: Accountings(st'.log, u) == Accountings(st.log, u) + (if u in gone then 1 else 0)
    ensures Books(st', registered)
  {
    hide Uuids, Resolutions, Accountings;
    forall u
      ensures Resolutions(st'.log, u) == Due(st', registered, u) && Accountings(st'.log, u) == Due(st', registered, u)
    {
      assert Resolutions(st.log, u) == Due(st, registered, u);
    }
  }

  lemma NeutralWith(out: seq<Out>, o: Out)
    requires Neutral(out) && o.Ended?
    ensures Neutral(out + [o]) && Neutral(out + [])
  {
  }

  lemma SettlesCounts(st: State, st': State, sends: seq<Send>, gone: set<nat>, accounted: set<nat>)
    requires Settles(st, st', sends, gone, accounted)
    ensures forall u ::
        Resolutions(st'.log, u) == Resolutions(st.log, u) + (if u in gone && u in Uuids(sends) then 1 else 0)
    ensures forall u :: Accountings(st'.log, u) == Accountings(st.log, u) + (if u in accounted then 1 else 0)
    ensures st'.seqCounter == st.seqCounter
  {
  }

  lemma SettleTurnShape(st: State, queued: nat, outcome: Outcome)
    requires st.turn.Some?
    ensures var t := st.turn.value;
            var folded := TakeFolded(st, t.send, t.openSeq, queued).folded;
            var st4 := SettleFolded(InJournal(st, queued, outcome), folded, t.send);
            SettleTurn(st, queued, outcome)
                == st4.(cancelRequested := st4.cancelRequested - {t.send.task}, turn := None)
  {
    hide Finish, TakeFolded, SettleFolded, TerminalState;
    var t := st.turn.value;
    var state := TerminalState(st, t, outcome);
    var log1 := st.log + [Journaled(t.send.uuid, state)];
    assert (log1 + Finish(t, state).out) + [Ended(t.send.task, state)]
        == log1 + (Finish(t, state).out + [Ended(t.send.task, state)]);
    assert Finish(t, state).out + [] == Finish(t, state).out;
  }

  // ------------------------------------------------------------- the end of the stream

  lemma NeverAnsweredCounts(log: seq<Out>, s: Send, u: nat)
    ensures Resolutions(log + [NeverAnswered(s)], u) == Resolutions(log, u)
    ensures Accountings(log + [NeverAnswered(s)], u) == Accountings(log, u)
  {
    CountsOne(log, NeverAnswered(s), u);
  }

  /** One pending send is failed. */
  function FailOne(st: State, s: Send, recorded: Option<nat>): State {
    var st1 := Log(st, [NeverAnswered(s)]);
    ResolveWaiter(if recorded == Some(s.uuid) then st1 else Log(st1, [Journaled(s.uuid, Failed)]), s.uuid)
  }

  lemma FailOneSettles(st: State, s: Send, recorded: Option<nat>, waiting: seq<Send>)
    requires st.waiters == UuidSeq(waiting) && InOrder(waiting, st.seqOf, 0)
    ensures Settles(st, FailOne(st, s, recorded), waiting, {s.uuid}, if recorded == Some(s.uuid) then {} else {s.uuid})
  {
    hide InOrder;
    var u := s.uuid;
    var st1 := Log(st, [NeverAnswered(s)]);
    var st2 := if recorded == Some(u) then st1 else Log(st1, [Journaled(u, Failed)]);
    ResolveSettles(st2, waiting, u);
    forall v
      ensures Resolutions(st2.log, v) == Resolutions(st.log, v)
      ensures Accountings(st2.log, v) == Accountings(st.log, v) + (if v == u && recorded != Some(u) then 1 else 0)
    {
      NeverAnsweredCounts(st.log, s, v);
      CountsOne(st1.log, Journaled(u, Failed), v);
    }
  }

  /** Every pending send is failed: resolved if it was not, and journaled unless it was. */
  lemma {:induction false} FailAllSettles(st: State, sends: seq<Send>, recorded: Option<nat>, waiting: seq<Send>)
    requires st.waiters == UuidSeq(waiting) && InOrder(waiting, st.seqOf, 0) && NoRepeat(sends)
    ensures Settles(st, FailAll(st, sends, recorded), waiting, Uuids(sends),
                    Uuids(sends) - (if recorded.Some? then {recorded.value} else {}))
    decreases |sends|
  {
    hide Settles, InOrder;
    var except: set<nat> := if recorded.Some? then {recorded.value} else {};
    SettlesNothing(st, waiting);
    if sends == [] {
      assert Uuids(sends) == {} && Uuids(sends) - except == {};
    } else {
      var s := sends[0];
      var u := s.uuid;
      var first: set<nat> := if u in except then {} else {u};
      FailOneSettles(st, s, recorded, waiting);
      var st3 := FailOne(st, s, recorded);
      SettlesKeeps(st, st3, waiting, {u}, first);
      DropAllInOrder(waiting, {u}, st.seqOf, 0);
      FailAllSettles(st3, sends[1..], recorded, DropAll(waiting, {u}));
      SettlesThen(st, st3, FailAll(st3, sends[1..], recorded), waiting, {u}, first, Uuids(sends[1..]),
          Uuids(sends[1..]) - except);
      assert sends == [s] + sends[1..];
      assert Uuids(sends) == {u} + Uuids(sends[1..]);
      assert Uuids(sends) - except == first + (Uuids(sends[1..]) - except);
    }
  }

  lemma FailTurnSettles(st: State)
    requires st.turn.Some? && st.waiters == UuidSeq(st.pending) && InOrder(st.pending, st.seqOf, 0)
    ensures var u := st.turn.value.send.uuid;
            Settles(st.(turn := None), FailTurn(st), st.pending, {u}, {u})
  {
    hide InOrder, Finish;
    var t := st.turn.value;
    var u := t.send.uuid;
    var out := Finish(t, Failed).out;
    FinishNeutral(t, Failed);
    var st1 := Log(st, out + [Ended(t.send.task, Failed), Journaled(u, Failed)]);
    ResolveSettles(st1, st.pending, u);
    forall v
      ensures Resolutions(st1.log, v) == Resolutions(st.log, v)
      ensures Accountings(st1.log, v) == Accountings(st.log, v) + (if v == u then 1 else 0)
    {
      NeutralWith(out, Ended(t.send.task, Failed));
      assert st1.log == (st.log + (out + [Ended(t.send.task, Failed)])) + [Journaled(u, Failed)];
      CountsAppend(st.log, out + [Ended(t.send.task, Failed)], v);
      NeutralCounts(out + [Ended(t.send.task, Failed)], v);
      CountsOne(st.log + (out + [Ended(t.send.task, Failed)]), Journaled(u, Failed), v);
    }
  }

  lemma NoneWaiting(seqOf: map<nat, nat>)
    ensures InOrder([], seqOf, 0) && UuidSeq([]) == [] && forall sends :: sends == [] ==> UuidSeq(sends) == []
    ensures forall m :: InOrder([], m, 0)
  {
  }

  lemma EndKeeps(st: State, registered: set<nat>)
    requires Inv(st, registered)
    ensures Inv(EndStream(st), registered) && EndStream(st).pending == []
  {
    hide Settles, FailTurn, FailAll, InOrder, UuidSeq, NoRepeat;
    NoneWaiting(st.seqOf);
    if !st.ended {
      var failing := st.turn.Some? && !st.turn.value.terminalEmitted;
      var recorded := if failing then Some(st.turn.value.send.uuid) else None;
      var st1 := st.(ended := true);
      var st2 := if failing then FailTurn(st1) else st1;
      var gone: set<nat> := if failing then {st.turn.value.send.uuid} else {};
      var st1' := if failing then st1.(turn := None) else st1;
      InOrderNoRepeat(st.pending, st.seqOf, 0);
      SettlesNothing(st1, st.pending);
      if failing {
        FailTurnSettles(st1);
      }
      assert Settles(st1', st2, st.pending, gone, gone);
      SettlesKeeps(st1', st2, st.pending, gone, gone);
      DropAllInOrder(st.pending, gone, st.seqOf, 0);
      var waiting := DropAll(st.pending, gone);
      FailAllSettles(st2, st.pending, recorded, waiting);
      var st3 := FailAll(st2, st.pending, recorded);
      SettlesThen(st1', st2, st3, st.pending, gone, gone, Uuids(st.pending), Uuids(st.pending) - gone);
      var all := gone + Uuids(st.pending);
      SettlesKeeps(st1', st3, st.pending, all, gone + (Uuids(st.pending) - gone));
      SettlesCounts(st1', st3, st.pending, all, gone + (Uuids(st.pending) - gone));
      DropAllEmpties(st.pending, all);
      var st' := EndStream(st);
      assert st' == st3.(pending := []);
      assert st'.seqOf.Keys == Uuids([]) == {};
      forall u
        ensures Resolutions(st'.log, u) == Due(st', registered, u) && Accountings(st'.log, u) == Due(st', registered, u)
      {
        assert Resolutions(st.log, u) == Due(st, registered, u);
        assert failing ==> st.turn.value.send in st.pending;
      }
    }
  }

  lemma {:induction false} DropAllEmpties(sends: seq<Send>, gone: set<nat>)
    requires Uuids(sends) <= gone
    ensures DropAll(sends, gone) == []
    decreases |sends|
  {
    if sends != [] {
      assert sends[0] in sends && forall s :: s in sends[1..] ==> s in sends;
      DropAllEmpties(sends[1..], gone);
    }
  }

  // ------------------------------------------------------------- whole runs

  lemma FrameKeeps(st: State, registered: set<nat>, f: Frame)
    requires Inv(st, registered) && !st.ended
    ensures Inv(HandleFrame(st, f), registered) && !HandleFrame(st, f).ended
  {
    hide Inv, TurnFrame, SettleTurn, OpenIfNone;
    match f
    case StreamEvent(stamp, delta) =>
      var st1 := if stamp.Some? then OpenIfNone(st, stamp) else st;
      if stamp.Some? { OpenKeeps(st, registered, stamp); }
      var st2 := if delta.Some? then OpenIfNone(st1, None) else st1;
      if delta.Some? { OpenKeeps(st1, registered, None); }
      if st2.turn.Some? { WithTurnKeeps(st2, registered, f); }
    case Assistant(stamp, _, _) =>
      OpenKeeps(st, registered, stamp);
      if OpenIfNone(st, stamp).turn.Some? { WithTurnKeeps(OpenIfNone(st, stamp), registered, f); }
    case User(_) =>
      if st.turn.Some? { WithTurnKeeps(st, registered, f); }
    case Result(stamp, queued, outcome) =>
      OpenKeeps(st, registered, stamp);
      var st1 := OpenIfNone(st, stamp);
      if st1.turn.Some? {
        SettleTurnKeeps(st1, registered, queued, outcome);
        SettleEnded(st1, queued, outcome);
      }
    case Other =>
  }

  lemma SettleEnded(st: State, queued: nat, outcome: Outcome)
    requires st.turn.Some?
    ensures SettleTurn(st, queued, outcome).ended == st.ended
  {
    hide Finish, TakeFolded, TerminalState, SettleFolded;
    SettleTurnShape(st, queued, outcome);
    var t := st.turn.value;
    var fold := TakeFolded(st, t.send, t.openSeq, queued);
    var state := TerminalState(st, t, outcome);
    var more := Finish(t, state).out + (if t.terminalEmitted then [] else [Ended(t.send.task, state)]);
    SettleFoldedKeepsEnded(Log(Log(st.(pending := fold.pending), [Journaled(t.send.uuid, state)]), more), fold.folded,
        t.send);
  }

  lemma {:induction false} SettleFoldedKeepsEnded(st: State, folded: seq<Send>, primary: Send)
    ensures SettleFolded(st, folded, primary).ended == st.ended
    decreases |folded|
  {
    if folded != [] {
      var s := folded[0];
      var st1 := if s.uuid != primary.uuid then Log(st, [FoldedInto(s, primary.task)]) else st;
      SettleFoldedKeepsEnded(ResolveWaiter(st1, s.uuid), folded[1..], primary);
    }
  }

  /** The uuids accepted by a run: registrations before the stream ended. */
  function Registered(events: seq<Event>, ended: bool): set<nat>
    decreases |events|
  {
    if events == [] then {}
    else
      (if events[0].Register? && !ended then {events[0].send.uuid} else {})
      + Registered(events[1..], ended || events[0].StreamEnds?)
  }

  /** Uuids are distinct, and no frame comes after the stream has ended. */
  ghost predicate ProperRun(events: seq<Event>, ended: bool, used: set<nat>)
    decreases |events|
  {
    events != [] ==>
      var e := events[0];
      && (e.Register? && !ended ==> e.send.uuid !in used)
      && (e.Arrives? ==> !ended)
      && ProperRun(events[1..], ended || e.StreamEnds?, used + (if e.Register? && !ended then {e.send.uuid} else {}))
  }

  lemma HandleKeeps(st: State, registered: set<nat>, e: Event)
    requires Inv(st, registered)
    requires e.Register? && !st.ended ==> e.send.uuid !in registered
    requires e.Arrives? ==> !st.ended
    ensures Inv(Handle(st, e), registered + (if e.Register? && !st.ended then {e.send.uuid} else {}))
    ensures Handle(st, e).ended == (st.ended || e.StreamEnds?)
  {
    hide HandleFrame, EndStream, InOrder, UuidSeq;
    assert registered + {} == registered;
    match e
    case Register(send) =>
      if !st.ended { RegisterKeeps(st, registered, send); }
    case CancelRequested(task) =>
      BooksSame(st, Handle(st, e), registered, []);
    case TerminalEmitted(task) =>
      BooksSame(st, Handle(st, e), registered, []);
    case Arrives(frame) =>
      FrameKeeps(st, registered, frame);
    case StreamEnds =>
      EndKeeps(st, registered);
      EndEnds(st);
  }

  lemma EndEnds(st: State)
    ensures EndStream(st).ended
  {
    hide Finish;
    if !st.ended {
      var st1 := st.(ended := true);
      var failing := st.turn.Some? && !st.turn.value.terminalEmitted;
      var st2 := if failing then FailTurn(st1) else st1;
      FailAllEnded(st2, st2.pending, if failing then Some(st.turn.value.send.uuid) else None);
    }
  }

  lemma {:induction false} FailAllEnded(st: State, sends: seq<Send>, recorded: Option<nat>)
    ensures FailAll(st, sends, recorded).ended == st.ended
    decreases |sends|
  {
    if sends != [] {
      FailAllEnded(FailOne(st, sends[0], recorded), sends[1..], recorded);
    }
  }

  lemma {:induction false} RunKeeps(st: State, registered: set<nat>, events: seq<Event>)
    requires Inv(st, registered) && ProperRun(events, st.ended, registered)
    ensures Inv(Run(st, events), registered + Registered(events, st.ended))
    ensures Run(st, events).ended == (st.ended || StreamEnds in events)
    decreases |events|
  {
    hide Inv, Handle;
    if events == [] {
      assert registered + {} == registered;
    } else {
      var e := events[0];
      var more: set<nat> := if e.Register? && !st.ended then {e.send.uuid} else {};
      HandleKeeps(st, registered, e);
      RunKeeps(Handle(st, e), registered + more, events[1..]);
      assert registered + more + Registered(events[1..], st.ended || e.StreamEnds?)
          == registered + Registered(events, st.ended);
      assert events == [e] + events[1..];
    }
  }

  /** What conservation says of a state: order, waiters, and one settlement and one accounting for each send. */
  ghost predicate Conserved(st: State, registered: set<nat>) {
    && InOrder(st.pending, st.seqOf, 0)
    && st.waiters == UuidSeq(st.pending)
    && (st.turn.Some? && !st.ended ==> st.turn.value.send in st.pending)
    && (forall u :: Resolutions(st.log, u) == (if u in registered && u !in Uuids(st.pending) then 1 else 0))
    && (forall u :: Accountings(st.log, u) == (if u in registered && u !in Uuids(st.pending) then 1 else 0))
  }

  /**
    Over every run with distinct uuids: the waiters are the pending sends in registration
    order, an open turn's send is pending, each send that is no longer pending was resolved
    once and accounted for once, and when the stream has ended nothing is pending.
   */
  lemma SendsAreConserved(events: seq<Event>)
    requires ProperRun(events, false, {})
    ensures Conserved(Run(FRESH, events), Registered(events, false))
    ensures StreamEnds in events ==> Run(FRESH, events).pending == []
  {
    hide Run, ProperRun, Registered;
    assert Inv(FRESH, {});
    RunKeeps(FRESH, {}, events);
    assert {} + Registered(events, false) == Registered(events, false);
    InvConserved(Run(FRESH, events), Registered(events, false));
  }

  lemma InvConserved(st: State, registered: set<nat>)
    requires Inv(st, registered)
    ensures Conserved(st, registered) && (st.ended ==> st.pending == [])
  {
    forall u
      ensures Resolutions(st.log, u) == Due(st, registered, u) && Accountings(st.log, u) == Due(st, registered, u)
    {
    }
  }

  // ------------------------------------------------------------- what the end of the stream publishes

  lemma {:induction false} FailAllPublishes(st: State, sends: seq<Send>, recorded: Option<nat>) returns (out: seq<Out>)
    ensures FailAll(st, sends, recorded).log == st.log + out
    ensures forall s :: s in sends ==> NeverAnswered(s) in out
    ensures forall o :: o in out ==> !o.Ended?
    decreases |sends|
  {
    if sends == [] {
      out := [];
    } else {
      var s := sends[0];
      var st1 := FailOne(st, s, recorded);
      var first := FailOneOut(st, s, recorded);
      var rest := FailAllPublishes(st1, sends[1..], recorded);
      out := first + rest;
      assert (st.log + first) + rest == st.log + out;
      assert first[0] == NeverAnswered(s);
      assert forall s' :: s' in sends ==> s' == s || s' in sends[1..];
    }
  }

  lemma FailOneOut(st: State, s: Send, recorded: Option<nat>) returns (out: seq<Out>)
    ensures FailOne(st, s, recorded).log == st.log + out
    ensures out != [] && out[0] == NeverAnswered(s) && forall o :: o in out ==> !o.Ended?
  {
    out := [NeverAnswered(s)]
           + (if recorded == Some(s.uuid) then [] else [Journaled(s.uuid, Failed)])
           + (if s.uuid in st.waiters then [Resolved(s.uuid)] else []);
  }

  /** What the end of the stream publishes of the open turn's failure. */
  ghost predicate ReportsFailure(st: State, published: seq<Out>)
    requires st.turn.Some?
  {
    var t := st.turn.value;
    && EndStream(st).log == st.log + published
    && NeverAnswered(t.send) in published
    && (Ended(t.send.task, Failed) in published <==> !t.terminalEmitted)
  }

  /**
    When the stream ends inside a turn, its task is reported failed as every pending send's is,
    and once more, by a status of its own, exactly when no terminal event was published before.
   */
  lemma OpenTurnFailsTwice(st: State, registered: set<nat>)
    requires Inv(st, registered) && !st.ended && st.turn.Some?
    ensures exists published :: ReportsFailure(st, published)
  {
    hide Finish, InOrder, Books, FailAll;
    var t := st.turn.value;
    var st1 := st.(ended := true);
    if t.terminalEmitted {
      var out := FailAllPublishes(st1, st.pending, None);
      assert ReportsFailure(st, out);
    } else {
      var st2 := FailTurn(st1);
      var failed := Finish(t, Failed).out + [Ended(t.send.task, Failed), Journaled(t.send.uuid, Failed)]
                    + (if t.send.uuid in st.waiters then [Resolved(t.send.uuid)] else []);
      assert st2.log == st.log + failed;
      var out := FailAllPublishes(st2, st.pending, Some(t.send.uuid));
      assert (st.log + failed) + out == st.log + (failed + out);
      assert (failed + out)[|Finish(t, Failed).out|] == Ended(t.send.task, Failed);
      assert ReportsFailure(st, failed + out);
    }
  }
}
