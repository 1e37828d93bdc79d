/**
  A turn in a run, whole: which send it answers, what it publishes in which order, and how it is
  reported over, whatever is registered, cancelled or reported elsewhere meanwhile.
 */
module TranslatorOutcome {
  import opened Options
  import opened Translator
  import opened TranslatorTurn
  import opened TranslatorRuns
  import opened TranslatorOrder

  // ------------------------------------------------------------- whose turn it is

  /** What a frame says of the send it belongs to. */
  function StampOf(f: Frame): Option<nat> {
    match f
    case StreamEvent(stamp, _) => stamp
    case Assistant(stamp, _, _) => stamp
    case Result(stamp, _, _) => stamp
    case _ => None
  }

  /** A stamp names its send, as long as that is pending; otherwise the oldest pending is meant. */
  ghost predicate BoundTo(pending: seq<Send>, stamp: Option<nat>, s: Send) {
    && s in pending
    && if stamp.Some? && exists p :: p in pending && p.uuid == stamp.value then s.uuid == stamp.value
       else s == pending[0]
  }

  lemma PrimaryIsBound(pending: seq<Send>, stamp: Option<nat>)
    requires pending != []
    ensures Primary(pending, stamp).Some? && BoundTo(pending, stamp, Primary(pending, stamp).value)
  {
    if stamp.Some? {
      var i := PendingAt(pending, stamp.value);
      if p :| p in pending && p.uuid == stamp.value {
        var j :| 0 <= j < |pending| && pending[j] == p;
      }
    }
  }

  // ------------------------------------------------------------- cancelled and reported

  predicate Aborts(f: Frame) {
    f.Assistant? && f.aborted
  }

  /** The session was told to stop, or says that it was. */
  predicate Interrupts(e: Event, task: nat) {
    e == CancelRequested(task) || (e.Arrives? && Aborts(e.frame))
  }

  /** What other events leave of the turn's flags, and of the cancels remembered. */
  ghost predicate FlagsAfter(st: State, events: seq<Event>, st': State) {
    && st.turn.Some? && st'.turn.Some?
    && TurnFlags(st.turn.value, events, st'.turn.value)
    && (forall task :: task in st'.cancelRequested <==> task in st.cancelRequested || CancelRequested(task) in events)
  }

  ghost predicate TurnFlags(t: Turn, events: seq<Event>, t': Turn) {
    && t'.send == t.send
    && (t'.interrupted <==> t.interrupted || Interrupted(events, t.send.task))
    && (t'.terminalEmitted <==> t.terminalEmitted || TerminalEmitted(t.send.task) in events)
  }

  predicate Interrupted(events: seq<Event>, task: nat) {
    exists i :: 0 <= i < |events| && Interrupts(events[i], task)
  }

  lemma FrameFlags(t: Turn, f: Frame)
    ensures var t' := TurnFrame(t, f).turn;
            && t'.send == t.send && t'.terminalEmitted == t.terminalEmitted
            && t'.interrupted == (t.interrupted || Aborts(f))
  {
    hide PushText, OnBlocks, OnResults;
    match f
    case StreamEvent(_, delta) => if delta.Some? { PushFlags(t.(sawStreamText := true), delta.value); }
    case Assistant(_, aborted, blocks) => BlocksFlags(t.(interrupted := t.interrupted || aborted), blocks);
    case User(results) => ResultsFlags(t, results);
    case _ =>
  }

  predicate FlagsKept(t: Turn, t': Turn) {
    t'.send == t.send && t'.terminalEmitted == t.terminalEmitted && t'.interrupted == t.interrupted
  }

  lemma PushFlags(t: Turn, text: string)
    ensures FlagsKept(t, PushText(t, text).turn)
  {
  }

  lemma ToolFlags(t: Turn, id: nat, deferred: bool, isError: bool, redundant: bool)
    ensures FlagsKept(t, OpenActivity(t, id, deferred).turn)
    ensures FlagsKept(t, SettleActivity(t, id, isError, redundant).turn)
  {
  }

  lemma {:induction false} BlocksFlags(t: Turn, blocks: seq<Block>)
    ensures FlagsKept(t, OnBlocks(t, blocks).turn)
    decreases |blocks|
  {
    hide OpenActivity, PushText;
    if blocks != [] {
      var b := blocks[0];
      if b.ToolUse? { ToolFlags(t, b.id, b.deferred, false, false); } else { PushFlags(t, b.text); }
      BlocksFlags(OnBlock(t, b).turn, blocks[1..]);
    }
  }

  lemma {:induction false} ResultsFlags(t: Turn, results: seq<ToolResult>)
    ensures FlagsKept(t, OnResults(t, results).turn)
    decreases |results|
  {
    hide SettleActivity;
    if results != [] {
      var r := results[0];
      ToolFlags(t, r.id, false, r.isError, r.redundant);
      ResultsFlags(SettleActivity(t, r.id, r.isError, r.redundant).turn, results[1..]);
    }
  }

  lemma OneEventFlags(st: State, e: Event)
    requires st.turn.Some? && Midway([e])
    ensures FlagsAfter(st, [e], Handle(st, e))
  {
    assert [e][0] == e;
    hide TurnFrame;
    assert Interrupted([e], st.turn.value.send.task) <==> Interrupts(e, st.turn.value.send.task);
    match e
    case Arrives(f) =>
      OneFrame(st, f);
      FrameFlags(st.turn.value, f);
    case Register(send) =>
    case CancelRequested(task) =>
    case TerminalEmitted(task) =>
  }

  lemma {:induction false} FlagsInRun(st: State, events: seq<Event>)
    requires st.turn.Some? && Midway(events)
    ensures FlagsAfter(st, events, Run(st, events))
    decreases |events|
  {
    if events != [] {
      hide Handle, Run, FlagsAfter;
      var e, rest := events[0], events[1..];
      MidwayParts(events);
      OneEventFlags(st, e);
      FlagsHaveTurn(st, [e], Handle(st, e));
      FlagsInRun(Handle(st, e), rest);
      FirstEvent(st, events);
      FlagsThen(st, e, Handle(st, e), rest, Run(Handle(st, e), rest));
      assert events == [e] + rest;
    }
  }

  lemma FlagsHaveTurn(st: State, events: seq<Event>, st': State)
    requires FlagsAfter(st, events, st')
    ensures st'.turn.Some?
  {
  }

  lemma FlagsThen(st: State, e: Event, st1: State, rest: seq<Event>, st2: State)
    requires FlagsAfter(st, [e], st1) && FlagsAfter(st1, rest, st2)
    ensures FlagsAfter(st, [e] + rest, st2)
  {
    hide Interrupts;
    var task := st.turn.value.send.task;
    assert forall x :: x in [e] + rest <==> x == e || x in rest;
    InterruptedThen(e, rest, task);
  }

  lemma InterruptedThen(e: Event, rest: seq<Event>, task: nat)
    ensures Interrupted([e] + rest, task) <==> Interrupted([e], task) || Interrupted(rest, task)
  {
    hide Interrupts;
    var events := [e] + rest;
    if Interrupted([e], task) { assert Interrupts(events[0], task); }
    if i :| 0 <= i < |rest| && Interrupts(rest[i], task) { assert Interrupts(events[i + 1], task); }
    if i :| 0 <= i < |events| && Interrupts(events[i], task) {
      assert i == 0 ==> Interrupts([e][0], task);
      assert i > 0 ==> Interrupts(rest[i - 1], task);
    }
  }

  // ------------------------------------------------------------- how it is reported over

  /** The state a turn is over in: cancelled if it was to stop, else as its result says. */
  function EndsAs(canceled: bool, outcome: Outcome): TaskState {
    if canceled then Canceled
    else
      match outcome
      case Success => Completed
      case SuccessWithError => Failed
      case DeferredToolUse => InputRequired
      case Error => Failed
  }

  /** What is reported and journaled of tasks as such. */
  function Reports(out: seq<Out>): seq<Out> {
    if out == [] then [] else ReportOf(out[0]) + Reports(out[1..])
  }

  function ReportOf(o: Out): seq<Out> {
    if o.Working? || o.Ended? || o.Journaled? || o.NeverAnswered? then [o] else []
  }

  lemma {:induction false} ReportsAppend(a: seq<Out>, b: seq<Out>)
    ensures Reports(a + b) == Reports(a) + Reports(b)
    decreases |a|
  {
    hide ReportOf;
    if a == [] {
      assert a + b == b;
    } else {
      assert (a + b)[0] == a[0] && (a + b)[1..] == a[1..] + b;
      ReportsAppend(a[1..], b);
    }
  }

  lemma ReportOne(o: Out)
    ensures Reports([o]) == ReportOf(o) && Reports([]) == []
  {
    assert [o][1..] == [] && ReportOf(o) + [] == ReportOf(o);
  }

  /** One send is settled, as folded into another's turn or as its own. */
  function OneFolded(st: State, s: Send, primary: Send): State {
    ResolveWaiter(if s.uuid != primary.uuid then Log(st, [FoldedInto(s, primary.task)]) else st, s.uuid)
  }

  lemma OneFoldedTells(st: State, s: Send, primary: Send) returns (more: seq<Out>)
    ensures OneFolded(st, s, primary).log == st.log + more && Items(more) == [] && Reports(more) == []
  {
    hide Items, Reports;
    var first: seq<Out> := if s.uuid != primary.uuid then [FoldedInto(s, primary.task)] else [];
    var second: seq<Out> := if s.uuid in st.waiters then [Resolved(s.uuid)] else [];
    assert st.log + [] == st.log && (st.log + first) + [] == st.log + first;
    assert (st.log + first) + second == st.log + (first + second);
    OneItem(FoldedInto(s, primary.task));
    ReportOne(FoldedInto(s, primary.task));
    OneItem(Resolved(s.uuid));
    ReportOne(Resolved(s.uuid));
    Appends(first, second);
    more := first + second;
  }

  lemma FoldedFirst(st: State, folded: seq<Send>, primary: Send)
    ensures SettleFolded(st, folded, primary) ==
              if folded == [] then st else SettleFolded(OneFolded(st, folded[0], primary), folded[1..], primary)
  {
    hide ResolveWaiter;
  }

  lemma {:induction false} FoldingTells(st: State, folded: seq<Send>, primary: Send) returns (more: seq<Out>)
    ensures SettleFolded(st, folded, primary).log == st.log + more && Items(more) == [] && Reports(more) == []
    decreases |folded|
  {
    hide *;
    FoldedFirst(st, folded, primary);
    if folded == [] {
      more := [];
      OneItem(Resolved(0));
      ReportOne(Resolved(0));
    } else {
      var st1 := OneFolded(st, folded[0], primary);
      var one := OneFoldedTells(st, folded[0], primary);
      var rest := FoldingTells(st1, folded[1..], primary);
      Appends(one, rest);
      more := one + rest;
    }
  }

  /** What a result publishes of an open turn. */
  lemma ResultTells(st: State, queued: nat, outcome: Outcome) returns (more: seq<Out>)
    requires st.turn.Some?
    ensures var t := st.turn.value;
            var state := EndsAs(t.interrupted || t.send.task in st.cancelRequested, outcome);
            && SettleTurn(st, queued, outcome).log == st.log + more
            && Items(more) == Items(Finish(t, state).out)
            && Reports(more) == [Journaled(t.send.uuid, state)] + Reports(Finish(t, state).out)
                                + (if t.terminalEmitted then [] else [Ended(t.send.task, state)])
  {
    hide TakeFolded, Finish, SettleFolded, Items, Reports;
    var t := st.turn.value;
    var fold := TakeFolded(st, t.send, t.openSeq, queued);
    var state := TerminalState(st, t, outcome);
    var journaled, fin := Journaled(t.send.uuid, state), Finish(t, state).out;
    var ended: seq<Out> := if t.terminalEmitted then [] else [Ended(t.send.task, state)];
    var st2 := Log(Log(st.(pending := fold.pending), [journaled]), fin);
    var st3 := if t.terminalEmitted then st2 else Log(st2, [Ended(t.send.task, state)]);
    assert st3.log == st.log + ([journaled] + fin + ended);
    var rest := FoldingTells(st3, fold.folded, t.send);
    more := [journaled] + fin + ended + rest;
    assert (st.log + ([journaled] + fin + ended)) + rest == st.log + more;
    OneItem(journaled);
    ReportOne(journaled);
    OneItem(Ended(t.send.task, state));
    ReportOne(Ended(t.send.task, state));
    Appends([journaled], fin);
    Appends([journaled] + fin, ended);
    Appends([journaled] + fin + ended, rest);
  }

  lemma Appends(a: seq<Out>, b: seq<Out>)
    ensures Items(a + b) == Items(a) + Items(b) && Reports(a + b) == Reports(a) + Reports(b)
  {
    ItemsAppend(a, b);
    ReportsAppend(a, b);
  }

  // ------------------------------------------------------------- a whole turn

  /** Neither text nor card is a report. */
  lemma {:induction false} NoReports(out: seq<Out>)
    requires forall i :: 0 <= i < |out| ==> out[i].Chunk? || out[i].ToolCard?
    ensures Reports(out) == []
    decreases |out|
  {
    if out != [] {
      assert forall i :: 0 <= i < |out[1..]| ==> out[1..][i] == out[i + 1];
      NoReports(out[1..]);
    }
  }

  predicate OnlyItems(out: seq<Out>) {
    forall i :: 0 <= i < |out| ==> out[i].Chunk? || out[i].ToolCard?
  }

  lemma OnlyThen(a: seq<Out>, b: seq<Out>)
    requires OnlyItems(a) && OnlyItems(b)
    ensures OnlyItems(a + b)
  {
  }

  lemma StepOnly(t: Turn, text: string, last: bool, id: nat, deferred: bool, isError: bool, redundant: bool)
    ensures OnlyItems(PushText(t, text).out) && OnlyItems(FlushText(t, last).out)
    ensures OnlyItems(OpenActivity(t, id, deferred).out) && OnlyItems(SettleActivity(t, id, isError, redundant).out)
  {
  }

  lemma {:induction false} BlocksOnly(t: Turn, blocks: seq<Block>)
    ensures OnlyItems(OnBlocks(t, blocks).out)
    decreases |blocks|
  {
    hide OpenActivity, PushText;
    if blocks != [] {
      var b := blocks[0];
      StepOnly(t, if b.TextBlock? then b.text else "", false, if b.ToolUse? then b.id else 0,
          b.ToolUse? && b.deferred, false, false);
      BlocksOnly(OnBlock(t, b).turn, blocks[1..]);
      OnlyThen(OnBlock(t, b).out, OnBlocks(OnBlock(t, b).turn, blocks[1..]).out);
    }
  }

  lemma {:induction false} ResultsOnly(t: Turn, results: seq<ToolResult>)
    ensures OnlyItems(OnResults(t, results).out)
    decreases |results|
  {
    hide SettleActivity;
    if results != [] {
      var r := results[0];
      StepOnly(t, "", false, r.id, false, r.isError, r.redundant);
      ResultsOnly(SettleActivity(t, r.id, r.isError, r.redundant).turn, results[1..]);
    }
  }

  lemma {:induction false} FramesOnly(t: Turn, frames: seq<Frame>)
    ensures OnlyItems(TurnFrames(t, frames).out)
    decreases |frames|
  {
    hide OnBlocks, OnResults, PushText;
    if frames != [] {
      var d := TurnFrame(t, frames[0]);
      match frames[0] {
        case StreamEvent(_, delta) =>
          if delta.Some? { StepOnly(t.(sawStreamText := true), delta.value, false, 0, false, false, false); }
        case Assistant(_, aborted, blocks) => BlocksOnly(t.(interrupted := t.interrupted || aborted), blocks);
        case User(results) => ResultsOnly(t, results);
        case _ =>
      }
      FramesOnly(d.turn, frames[1..]);
      OnlyThen(d.out, TurnFrames(d.turn, frames[1..]).out);
    }
  }

  lemma {:induction false} ClosingsOnly(t: Turn, status: CardStatus)
    ensures OnlyItems(CloseOpenActivities(t, status).out)
    decreases |t.openTools|
  {
    if t.openTools != [] {
      ClosingsOnly(EmitActivity(t.(openTools := t.openTools[1..]), t.openTools[0].id, status).turn, status);
    }
  }

  lemma FinishOnly(t: Turn, state: TaskState)
    ensures OnlyItems(Finish(t, state).out)
  {
    hide CloseOpenActivities, FlushText;
    var status := if state == Completed || state == InputRequired then Done else FailedCard;
    ClosingsOnly(t, status);
    StepOnly(CloseOpenActivities(t, status).turn, "", true, 0, false, false, false);
  }

  /** The turn was to stop: it was cancelled before or meanwhile, or a frame says it was aborted. */
  ghost predicate WasToStop(before: seq<Event>, f: Frame, more: seq<Event>, task: nat) {
    task in Run(FRESH, before).cancelRequested || Aborts(f) || Interrupted(more, task)
  }

  /** What a turn published is what there is to tell of it, as the turn of `s`. */
  ghost predicate ToldOf(before: seq<Event>, f: Frame, more: seq<Event>, r: Frame, s: Send, out: seq<Out>)
    requires r.Result?
  {
    var state := EndsAs(WasToStop(before, f, more, s.task), r.outcome);
    && Items(out) == InOrder(s.task, [f] + FramesIn(more), state)
    && Reports(out) == [Working(s.task), Journaled(s.uuid, state)]
                       + (if TerminalEmitted(s.task) in more then [] else [Ended(s.task, state)])
  }

  /**
    In any run, a turn from the frame that opens it to its result: it answers the send its first
    frame is stamped with, or the oldest pending; reports that task working, first; publishes its
    text and cards in the order heard; and journals and reports that task over, as its result says
    unless it was to stop, though it does not report again what was reported over already.
   */
  lemma TurnIsTold(before: seq<Event>, f: Frame, more: seq<Event>, r: Frame)
    requires OneTurn(before, f, more, r)
    ensures |Run(FRESH, before).log| <= |AfterTurn(before, f, more, r).log|
    ensures exists s :: BoundTo(Run(FRESH, before).pending, StampOf(f), s)
                        && ToldOf(before, f, more, r, s, Since(Run(FRESH, before), AfterTurn(before, f, more, r)))
  {
    hide *;
    var s, out := TellsTurn(before, f, more, r);
    Grew(Run(FRESH, before), AfterTurn(before, f, more, r), out);
  }

  lemma Grew(st: State, st': State, out: seq<Out>)
    requires st'.log == st.log + out
    ensures |st.log| <= |st'.log| && Since(st, st') == out
  {
  }

  lemma TellsTurn(before: seq<Event>, f: Frame, more: seq<Event>, r: Frame) returns (s: Send, out: seq<Out>)
    requires OneTurn(before, f, more, r)
    ensures BoundTo(Run(FRESH, before).pending, StampOf(f), s)
    ensures AfterTurn(before, f, more, r).log == Run(FRESH, before).log + out
    ensures ToldOf(before, f, more, r, s, out)
  {
    hide TurnFrame, TurnFrames, HandleFrame, Finish, Run, FramesIn, SettleTurn, Items, Reports, InOrder, FlagsAfter;
    var st := Run(FRESH, before);
    var t := Opens(st, f);
    s := t.send;
    OpensBound(st, f);
    var st1 := HandleFrame(st, f);
    TurnGoesOn(st1, more);
    FlagsInRun(st1, more);
    FirstFrame(t, f, FramesIn(more));
    var st2 := Run(st1, more);
    ResultSettles(st2, r);
    var end := ResultTells(st2, r.queued, r.outcome);
    var d1, d := TurnFrame(t, f), TurnFrames(t, [f] + FramesIn(more));
    var d2 := TurnFrames(d1.turn, FramesIn(more));
    var state := EndsAs(WasToStop(before, f, more, s.task), r.outcome);
    FrameFlags(t, f);
    FlagsMean(st, f, st1, more, st2, t);
    FinishAlike(d.turn, st2.turn.value, state);
    out := [Working(s.task)] + d.out + end;
    assert d.out == d1.out + d2.out;
    assert ((st.log + ([Working(s.task)] + d1.out)) + d2.out) + end == st.log + out;
    Told(t, [f] + FramesIn(more), state, end, st2.turn.value.terminalEmitted);
  }

  /**
    In any run, while a turn is open: what it has published and the text it holds are all that was
    heard so far, in order; and text is held only where nothing but text came after it.
   */
  lemma TurnSoFarIsTold(before: seq<Event>, f: Frame, more: seq<Event>)
    requires var st := Run(FRESH, before);
             st.turn.None? && !f.Result? && HandleFrame(st, f).turn.Some? && Midway(more)
    ensures var st, st' := Run(FRESH, before), Run(HandleFrame(Run(FRESH, before), f), more);
            && |st.log| <= |st'.log| && st'.turn.Some?
            && var t := st'.turn.value;
               var told := TellAll(t.send.task, Telling([], None, []), Inputs([f] + FramesIn(more), false));
               && Items(Since(st, st')) + HeldItem(t.send.task, t.pendingChunk, false) == told.told
               && t.pendingChunk == told.held && t.openTools == told.open
  {
    hide TurnFrame, TurnFrames, HandleFrame, Run, FramesIn, Items, TellAll, Inputs;
    var st := Run(FRESH, before);
    var t := Opens(st, f);
    var st1 := HandleFrame(st, f);
    TurnGoesOn(st1, more);
    FirstFrame(t, f, FramesIn(more));
    var frames := [f] + FramesIn(more);
    var d1, d := TurnFrame(t, f), TurnFrames(t, frames);
    var st' := Run(st1, more);
    OneItem(Working(t.send.task));
    assert Behind(t, [], Telling([], None, []));
    FramesTell(t, [], Telling([], None, []), frames);
    assert [] + d.out == d.out;
    assert st'.log == st.log + ([Working(t.send.task)] + d.out);
    Grew(st, st', [Working(t.send.task)] + d.out);
    ItemsAppend([Working(t.send.task)], d.out);
    FlagsInRun(st1, more);
  }

  /** The pieces put together. */
  lemma Told(t: Turn, frames: seq<Frame>, state: TaskState, end: seq<Out>, reported: bool)
    requires t == NewTurn(t.send, t.openSeq, t.interrupted)
    requires var fin := Finish(TurnFrames(t, frames).turn, state).out;
             && Items(end) == Items(fin)
             && Reports(end) == [Journaled(t.send.uuid, state)] + Reports(fin)
                                + (if reported then [] else [Ended(t.send.task, state)])
    ensures var out := [Working(t.send.task)] + TurnFrames(t, frames).out + end;
            && Items(out) == InOrder(t.send.task, frames, state)
            && Reports(out) == [Working(t.send.task), Journaled(t.send.uuid, state)]
                               + (if reported then [] else [Ended(t.send.task, state)])
  {
    hide TurnFrames, Finish, Items, Reports, InOrder;
    var d := TurnFrames(t, frames);
    var fin := Finish(d.turn, state).out;
    OneItem(Working(t.send.task));
    ReportOne(Working(t.send.task));
    Appends([Working(t.send.task)], d.out);
    Appends([Working(t.send.task)] + d.out, end);
    Appends(d.out, fin);
    TurnTellsInOrder(t.send, t.openSeq, t.interrupted, frames, state);
    FramesOnly(t, frames);
    NoReports(d.out);
    FinishOnly(d.turn, state);
    NoReports(fin);
  }

  /**
    With no turn open, a frame of the session's own opens one exactly if something is pending, and
    it is stamped or says something.
   */
  lemma TurnOpensIff(st: State, f: Frame)
    requires st.turn.None? && !f.Result?
    ensures HandleFrame(st, f).turn.Some? <==>
              st.pending != [] && (f.Assistant? || (f.StreamEvent? && (f.stamp.Some? || f.delta.Some?)))
  {
    hide TurnFrame, Primary;
    PrimaryNone(StampOf(f));
    PrimaryNone(None);
    if st.pending != [] {
      PrimaryIsBound(st.pending, StampOf(f));
      PrimaryIsBound(st.pending, None);
    }
  }

  lemma OpensBound(st: State, f: Frame)
    requires st.turn.None? && !f.Result? && HandleFrame(st, f).turn.Some?
    ensures BoundTo(st.pending, StampOf(f), HandleFrame(st, f).turn.value.send)
    ensures HandleFrame(st, f).turn.value.interrupted ==
              (HandleFrame(st, f).turn.value.send.task in st.cancelRequested || Aborts(f))
    ensures !HandleFrame(st, f).turn.value.terminalEmitted
    ensures HandleFrame(st, f).cancelRequested == st.cancelRequested
  {
    hide TurnFrame, Primary;
    var st1 := if f.StreamEvent? && f.stamp.None? then OpenTurn(st, None) else OpenTurn(st, StampOf(f));
    PrimaryNone(StampOf(f));
    PrimaryNone(None);
    assert st.pending != [];
    PrimaryIsBound(st.pending, StampOf(f));
    FrameFlags(st1.turn.value, f);
  }

  lemma PrimaryNone(stamp: Option<nat>)
    ensures Primary([], stamp) == None
  {
  }

  lemma FlagsMean(st: State, f: Frame, st1: State, more: seq<Event>, st2: State, t: Turn)
    requires st1.turn.Some? && FlagsAfter(st1, more, st2) && st1.cancelRequested == st.cancelRequested
    requires st1.turn.value.send == t.send && !st1.turn.value.terminalEmitted
    requires st1.turn.value.interrupted == (t.send.task in st.cancelRequested || Aborts(f))
    ensures var u, task := st2.turn.value, t.send.task;
            && u.send == t.send && u.terminalEmitted == (TerminalEmitted(task) in more)
            && (u.interrupted || task in st2.cancelRequested <==>
                  task in st.cancelRequested || Aborts(f) || Interrupted(more, task))
  {
    var task := t.send.task;
    if CancelRequested(task) in more {
      var i :| 0 <= i < |more| && more[i] == CancelRequested(task);
      assert Interrupts(more[i], task);
    }
  }

  /** In any run, a result that opens its own turn: the turn is told as working and over, and says nothing. */
  lemma ResultAloneIsTold(before: seq<Event>, r: Frame)
    requires Run(FRESH, before).turn.None? && Run(FRESH, before).pending != [] && r.Result?
    ensures |Run(FRESH, before).log| <= |HandleFrame(Run(FRESH, before), r).log|
    ensures exists s :: BoundTo(Run(FRESH, before).pending, r.stamp, s)
                        && ToldAlone(Run(FRESH, before), r, s,
                                     Since(Run(FRESH, before), HandleFrame(Run(FRESH, before), r)))
  {
    hide Run, SettleTurn, Items, Reports, Primary, Finish;
    var st := Run(FRESH, before);
    PrimaryIsBound(st.pending, r.stamp);
    var st1 := OpenTurn(st, r.stamp);
    var s := st1.turn.value.send;
    var end := ResultTells(st1, r.queued, r.outcome);
    var out := [Working(s.task)] + end;
    assert HandleFrame(st, r).log == st.log + out;
    Grew(st, HandleFrame(st, r), out);
    OneItem(Working(s.task));
    ReportOne(Working(s.task));
    Appends([Working(s.task)], end);
    NothingToFinish(st1.turn.value, EndsAs(s.task in st.cancelRequested, r.outcome));
    assert ToldAlone(st, r, s, out);
  }

  ghost predicate ToldAlone(st: State, r: Frame, s: Send, out: seq<Out>)
    requires r.Result?
  {
    var state := EndsAs(s.task in st.cancelRequested, r.outcome);
    Items(out) == [] && Reports(out) == [Working(s.task), Journaled(s.uuid, state), Ended(s.task, state)]
  }

  lemma NothingToFinish(t: Turn, state: TaskState)
    requires t.openTools == [] && t.pendingChunk == None
    ensures Finish(t, state).out == [] && Items([]) == [] && Reports([]) == []
  {
  }

  // ------------------------------------------------------------- the end of the stream

  /** Each pending send is reported never answered, and journaled as failed unless it was already. */
  function Unanswered(sends: seq<Send>, recorded: Option<nat>): seq<Out> {
    if sends == [] then []
    else
      [NeverAnswered(sends[0])] + (if recorded == Some(sends[0].uuid) then [] else [Journaled(sends[0].uuid, Failed)])
      + Unanswered(sends[1..], recorded)
  }

  /** One pending send is failed. */
  function OneFailed(st: State, s: Send, recorded: Option<nat>): State {
    var st1 := Log(st, [NeverAnswered(s)]);
    ResolveWaiter(if recorded == Some(s.uuid) then st1 else Log(st1, [Journaled(s.uuid, Failed)]), s.uuid)
  }

  lemma OneFailedTells(st: State, s: Send, recorded: Option<nat>) returns (more: seq<Out>)
    ensures OneFailed(st, s, recorded).log == st.log + more && Items(more) == []
    ensures Reports(more) == [NeverAnswered(s)] + (if recorded == Some(s.uuid) then [] else [Journaled(s.uuid, Failed)])
  {
    hide Items, Reports;
    var first: seq<Out> := [NeverAnswered(s)];
    var second: seq<Out> := if recorded == Some(s.uuid) then [] else [Journaled(s.uuid, Failed)];
    var third: seq<Out> := if s.uuid in st.waiters then [Resolved(s.uuid)] else [];
    more := (first + second) + third;
    assert ((st.log + first) + second) + third == st.log + more;
    assert (st.log + first) + [] == st.log + first && (st.log + first + second) + [] == st.log + first + second;
    OneItem(NeverAnswered(s));
    ReportOne(NeverAnswered(s));
    OneItem(Journaled(s.uuid, Failed));
    ReportOne(Journaled(s.uuid, Failed));
    OneItem(Resolved(s.uuid));
    ReportOne(Resolved(s.uuid));
    Appends(first, second);
    Appends(first + second, third);
  }

  lemma FailedFirst(st: State, sends: seq<Send>, recorded: Option<nat>)
    ensures FailAll(st, sends, recorded) ==
              if sends == [] then st else FailAll(OneFailed(st, sends[0], recorded), sends[1..], recorded)
  {
    hide ResolveWaiter;
  }

  lemma {:induction false} FailingTells(st: State, sends: seq<Send>, recorded: Option<nat>) returns (more: seq<Out>)
    ensures FailAll(st, sends, recorded).log == st.log + more
    ensures Items(more) == [] && Reports(more) == Unanswered(sends, recorded)
    decreases |sends|
  {
    hide FailAll, OneFailed, Items, Reports;
    FailedFirst(st, sends, recorded);
    if sends == [] {
      more := [];
      OneItem(Resolved(0));
      ReportOne(Resolved(0));
    } else {
      var one := OneFailedTells(st, sends[0], recorded);
      var rest := FailingTells(OneFailed(st, sends[0], recorded), sends[1..], recorded);
      Appends(one, rest);
      more := one + rest;
      assert (st.log + one) + rest == st.log + more;
    }
  }

  /**
    The open turn fails: its cards left open are closed as failed and the text held is out, before
    it is reported so.
   */
  lemma FailTurnTells(st: State) returns (more: seq<Out>)
    requires st.turn.Some?
    ensures FailTurn(st).log == st.log + more && FailTurn(st).pending == st.pending
    ensures var t := st.turn.value;
            && Items(more) == Closings(t.send.task, t.openTools, FailedCard)
                              + HeldItem(t.send.task, t.pendingChunk, true)
            && Reports(more) == [Ended(t.send.task, Failed), Journaled(t.send.uuid, Failed)]
  {
    hide Items, Reports, Finish;
    var t := st.turn.value;
    var fin := Finish(t, Failed).out;
    var told := [Ended(t.send.task, Failed), Journaled(t.send.uuid, Failed)];
    var resolved: seq<Out> := if t.send.uuid in st.waiters then [Resolved(t.send.uuid)] else [];
    more := (fin + told) + resolved;
    assert (st.log + (fin + told)) + resolved == st.log + more;
    assert (st.log + (fin + told)) + [] == st.log + (fin + told);
    FinishTells(t, Failed);
    FinishOnly(t, Failed);
    NoReports(fin);
    OneItem(told[0]);
    ReportOne(told[0]);
    OneItem(told[1]);
    ReportOne(told[1]);
    OneItem(Resolved(t.send.uuid));
    ReportOne(Resolved(t.send.uuid));
    assert told == [told[0]] + [told[1]];
    Appends([told[0]], [told[1]]);
    Appends(fin, told);
    Appends(fin + told, resolved);
  }

  /** What the end of the stream tells of the turn open then. */
  function EndTold(st: State): seq<Out> {
    if st.turn.Some? && !st.turn.value.terminalEmitted
    then [Ended(st.turn.value.send.task, Failed), Journaled(st.turn.value.send.uuid, Failed)]
    else []
  }

  function EndItems(st: State): seq<Item> {
    if st.turn.Some? && !st.turn.value.terminalEmitted
    then Closings(st.turn.value.send.task, st.turn.value.openTools, FailedCard)
         + HeldItem(st.turn.value.send.task, st.turn.value.pendingChunk, true)
    else []
  }

  /**
    When the stream ends, the open turn, unless reported over already, closes its cards as failed,
    lets the text it holds go, and is reported and journaled as failed; then so is every send still
    pending, but the turn's own is not journaled twice.
   */
  lemma EndIsTold(st: State)
    requires !st.ended
    ensures |st.log| <= |EndStream(st).log|
    ensures var out := Since(st, EndStream(st));
            && Items(out) == EndItems(st)
            && Reports(out) == EndTold(st)
                 + Unanswered(st.pending, if EndTold(st) != [] then Some(st.turn.value.send.uuid) else None)
  {
    hide Items, Reports, FailTurn, FailAll, Closings;
    var st1 := st.(ended := true);
    var failing := st.turn.Some? && !st.turn.value.terminalEmitted;
    var recorded := if failing then Some(st.turn.value.send.uuid) else None;
    var st2 := if failing then FailTurn(st1) else st1;
    var first: seq<Out> := [];
    if failing {
      first := FailTurnTells(st1);
    } else {
      OneItem(Resolved(0));
      ReportOne(Resolved(0));
    }
    assert st2.log == st.log + first && st2.pending == st.pending;
    var more := FailingTells(st2, st2.pending, recorded);
    assert (st.log + first) + more == st.log + (first + more);
    Appends(first, more);
    Grew(st, EndStream(st), first + more);
  }

  // ------------------------------------------------------------- which cancels are remembered

  /** The task of the turn that a result settles. */
  function Settles(st: State, f: Frame): Option<nat>
    requires f.Result?
  {
    var turn := OpenIfNone(st, f.stamp).turn;
    if turn.Some? then Some(turn.value.send.task) else None
  }

  /** A cancel of the task was asked for, and no turn of it has been settled since. */
  function Asked(events: seq<Event>, task: nat): bool
    decreases |events|
  {
    events != [] &&
    var before, e := events[..|events| - 1], events[|events| - 1];
    e == CancelRequested(task)
    || (Asked(before, task)
        && !(e.Arrives? && e.frame.Result? && Settles(Run(FRESH, before), e.frame) == Some(task)))
  }

  lemma {:induction false} RunThen(st: State, events: seq<Event>, e: Event)
    ensures Run(st, events + [e]) == Handle(Run(st, events), e)
    decreases |events|
  {
    hide Handle;
    if events == [] {
      assert [] + [e] == [e] && [e][1..] == [];
    } else {
      assert (events + [e])[0] == events[0] && (events + [e])[1..] == events[1..] + [e];
      RunThen(Handle(st, events[0]), events[1..], e);
    }
  }

  lemma {:induction false} FoldingCancels(st: State, folded: seq<Send>, primary: Send)
    ensures SettleFolded(st, folded, primary).cancelRequested == st.cancelRequested
    decreases |folded|
  {
    hide OneFolded;
    FoldedFirst(st, folded, primary);
    if folded != [] {
      OneFoldedCancels(st, folded[0], primary);
      FoldingCancels(OneFolded(st, folded[0], primary), folded[1..], primary);
    }
  }

  lemma OneFoldedCancels(st: State, s: Send, primary: Send)
    ensures OneFolded(st, s, primary).cancelRequested == st.cancelRequested
  {
  }

  lemma {:induction false} FailingCancels(st: State, sends: seq<Send>, recorded: Option<nat>)
    ensures FailAll(st, sends, recorded).cancelRequested == st.cancelRequested
    decreases |sends|
  {
    if sends != [] {
      var s := sends[0];
      var st1 := Log(st, [NeverAnswered(s)]);
      var st2 := if recorded == Some(s.uuid) then st1 else Log(st1, [Journaled(s.uuid, Failed)]);
      FailingCancels(ResolveWaiter(st2, s.uuid), sends[1..], recorded);
    }
  }

  lemma HandleCancels(st: State, e: Event, task: nat)
    ensures task in Handle(st, e).cancelRequested <==>
              e == CancelRequested(task)
              || (task in st.cancelRequested && !(e.Arrives? && e.frame.Result? && Settles(st, e.frame) == Some(task)))
  {
    hide TurnFrame, TakeFolded, Finish, SettleFolded, FailAll, Primary, TerminalState;
    match e
    case Arrives(f) =>
      if f.Result? {
        var st1 := OpenIfNone(st, f.stamp);
        if st1.turn.Some? { SettledCancels(st1, f.queued, f.outcome); }
      }
    case StreamEnds => EndCancels(st);
    case _ =>
  }

  lemma SettledCancels(st: State, queued: nat, outcome: Outcome)
    requires st.turn.Some?
    ensures SettleTurn(st, queued, outcome).cancelRequested == st.cancelRequested - {st.turn.value.send.task}
  {
    hide TakeFolded, Finish, SettleFolded;
    var t := st.turn.value;
    var fold := TakeFolded(st, t.send, t.openSeq, queued);
    var state := TerminalState(st, t, outcome);
    var st2 := Log(Log(st.(pending := fold.pending), [Journaled(t.send.uuid, state)]), Finish(t, state).out);
    FoldingCancels(if t.terminalEmitted then st2 else Log(st2, [Ended(t.send.task, state)]), fold.folded, t.send);
  }

  lemma EndCancels(st: State)
    ensures EndStream(st).cancelRequested == st.cancelRequested
  {
    hide Finish, FailAll;
    if !st.ended {
      var st1 := st.(ended := true);
      var failing := st.turn.Some? && !st.turn.value.terminalEmitted;
      var st2 := if failing then FailTurn(st1) else st1;
      FailingCancels(st2, st2.pending, if failing then Some(st.turn.value.send.uuid) else None);
    }
  }

  /** Over every run: a task's cancel is remembered exactly from when it is asked for until a turn of it is settled. */
  lemma {:induction false} CancelsAreRemembered(events: seq<Event>, task: nat)
    ensures task in Run(FRESH, events).cancelRequested <==> Asked(events, task)
    decreases |events|
  {
    hide Handle, Run, Settles;
    if events == [] {
      NothingRun();
    } else {
      var before, e := events[..|events| - 1], events[|events| - 1];
      assert events == before + [e];
      CancelsAreRemembered(before, task);
      RunThen(FRESH, before, e);
      HandleCancels(Run(FRESH, before), e, task);
    }
  }

  lemma NothingRun()
    ensures Run(FRESH, []) == FRESH
  {
  }
}
