/** What a turn publishes in a run: from its first frame to its result, with anything else happening between. */
module TranslatorRuns {
  import opened Options
  import opened Translator
  import opened TranslatorTurn
  import opened TranslatorTools

  // ------------------------------------------------------------- flags do not matter

  /** The same turn, but perhaps for being cancelled or already reported over. */
  predicate ButFlags(t: Turn, u: Turn) {
    u == t.(interrupted := u.interrupted, terminalEmitted := u.terminalEmitted)
  }

  predicate SameDid(d: Did, e: Did) {
    d.out == e.out && ButFlags(d.turn, e.turn)
  }

  lemma FlushSame(t: Turn, u: Turn, last: bool)
    requires ButFlags(t, u)
    ensures SameDid(FlushText(t, last), FlushText(u, last))
  {
  }

  lemma PushSame(t: Turn, u: Turn, text: string)
    requires ButFlags(t, u)
    ensures SameDid(PushText(t, text), PushText(u, text))
  {
  }

  lemma EmitSame(t: Turn, u: Turn, id: nat, status: CardStatus)
    requires ButFlags(t, u)
    ensures SameDid(EmitActivity(t, id, status), EmitActivity(u, id, status))
  {
  }

  lemma ThenSame(a: Did, b: Did, c: Did, d: Did)
    requires SameDid(a, b) && SameDid(c, d)
    ensures SameDid(Then(a, c), Then(b, d))
  {
  }

  lemma OpenSame(t: Turn, u: Turn, id: nat, deferred: bool)
    requires ButFlags(t, u)
    ensures SameDid(OpenActivity(t, id, deferred), OpenActivity(u, id, deferred))
  {
    hide FlushText, EmitActivity, ToolAt;
    var tools := t.openTools + [OpenTool(id, deferred)];
    var t1, u1 := t.(openTools := tools), u.(openTools := tools);
    FlushSame(t1, u1, false);
    var d, e := FlushText(t1, false), FlushText(u1, false);
    EmitSame(d.turn, e.turn, id, Running);
    ThenSame(d, e, EmitActivity(d.turn, id, Running), EmitActivity(e.turn, id, Running));
  }

  lemma SettleSame(t: Turn, u: Turn, id: nat, isError: bool, redundant: bool)
    requires ButFlags(t, u)
    ensures SameDid(SettleActivity(t, id, isError, redundant), SettleActivity(u, id, isError, redundant))
  {
    hide FlushText, EmitActivity;
    var i := ToolAt(t.openTools, id);
    if i < |t.openTools| {
      var tools := t.openTools[..i] + t.openTools[i + 1..];
      var t1, u1 := t.(openTools := tools), u.(openTools := tools);
      FlushSame(t1, u1, false);
      var d, e := FlushText(t1, false), FlushText(u1, false);
      var status := if isError then FailedCard else Done;
      EmitSame(d.turn, e.turn, id, status);
      ThenSame(d, e, EmitActivity(d.turn, id, status), EmitActivity(e.turn, id, status));
    }
  }

  lemma {:induction false} BlocksAlike(t: Turn, u: Turn, blocks: seq<Block>)
    requires ButFlags(t, u)
    ensures SameDid(OnBlocks(t, blocks), OnBlocks(u, blocks))
    decreases |blocks|
  {
    if blocks != [] {
      match blocks[0] {
        case ToolUse(id, deferred) => OpenSame(t, u, id, deferred);
        case TextBlock(text) => PushSame(t, u, text);
      }
      hide OpenActivity, PushText;
      BlocksAlike(OnBlock(t, blocks[0]).turn, OnBlock(u, blocks[0]).turn, blocks[1..]);
    }
  }

  lemma {:induction false} ResultsAlike(t: Turn, u: Turn, results: seq<ToolResult>)
    requires ButFlags(t, u)
    ensures SameDid(OnResults(t, results), OnResults(u, results))
    decreases |results|
  {
    if results != [] {
      var r := results[0];
      SettleSame(t, u, r.id, r.isError, r.redundant);
      hide SettleActivity;
      ResultsAlike(SettleActivity(t, r.id, r.isError, r.redundant).turn,
          SettleActivity(u, r.id, r.isError, r.redundant).turn, results[1..]);
    }
  }

  lemma FrameAlike(t: Turn, u: Turn, f: Frame)
    requires ButFlags(t, u)
    ensures SameDid(TurnFrame(t, f), TurnFrame(u, f))
  {
    hide OnBlocks, OnResults, PushText;
    match f
    case StreamEvent(_, delta) =>
      if delta.Some? { PushSame(t.(sawStreamText := true), u.(sawStreamText := true), delta.value); }
    case Assistant(_, aborted, blocks) =>
      BlocksAlike(t.(interrupted := t.interrupted || aborted), u.(interrupted := u.interrupted || aborted), blocks);
    case User(results) => ResultsAlike(t, u, results);
    case _ =>
  }

  lemma {:induction false} FramesAlike(t: Turn, u: Turn, frames: seq<Frame>)
    requires ButFlags(t, u)
    ensures SameDid(TurnFrames(t, frames), TurnFrames(u, frames))
    decreases |frames|
  {
    hide TurnFrame;
    if frames != [] {
      FrameAlike(t, u, frames[0]);
      FramesAlike(TurnFrame(t, frames[0]).turn, TurnFrame(u, frames[0]).turn, frames[1..]);
    }
  }

  lemma {:induction false} ClosesAlike(t: Turn, u: Turn, status: CardStatus)
    requires ButFlags(t, u)
    ensures SameDid(CloseOpenActivities(t, status), CloseOpenActivities(u, status))
    decreases |t.openTools|
  {
    if t.openTools != [] {
      var t1, u1 := t.(openTools := t.openTools[1..]), u.(openTools := u.openTools[1..]);
      var id := t.openTools[0].id;
      ClosesAlike(EmitActivity(t1, id, status).turn, EmitActivity(u1, id, status).turn, status);
    }
  }

  lemma FinishAlike(t: Turn, u: Turn, state: TaskState)
    requires ButFlags(t, u)
    ensures Finish(t, state).out == Finish(u, state).out
  {
    hide CloseOpenActivities, FlushText;
    var status := if state == Completed || state == InputRequired then Done else FailedCard;
    ClosesAlike(t, u, status);
    FlushSame(CloseOpenActivities(t, status).turn, CloseOpenActivities(u, status).turn, true);
  }

  // ------------------------------------------------------------- between its first frame and its result

  /** Neither a result nor the end of the stream. */
  predicate Midway(events: seq<Event>) {
    forall i :: 0 <= i < |events| ==> !events[i].StreamEnds? && !(events[i].Arrives? && events[i].frame.Result?)
  }

  function FramesIn(events: seq<Event>): seq<Frame> {
    if events == [] then [] else (if events[0].Arrives? then [events[0].frame] else []) + FramesIn(events[1..])
  }

  lemma OneFrame(st: State, f: Frame)
    requires st.turn.Some? && !f.Result?
    ensures HandleFrame(st, f) == WithTurn(st, TurnFrame(st.turn.value, f))
  {
    assert st.log + [] == st.log;
  }

  lemma FirstFrame(t: Turn, f: Frame, frames: seq<Frame>)
    ensures TurnFrames(t, [f] + frames) == Then(TurnFrame(t, f), TurnFrames(TurnFrame(t, f).turn, frames))
  {
    hide TurnFrame;
    assert ([f] + frames)[1..] == frames;
  }

  /** One event in the middle of a turn. */
  lemma OneEvent(st: State, e: Event)
    requires st.turn.Some? && Midway([e])
    ensures var st' := Handle(st, e);
            && st'.turn.Some?
            && (if e.Arrives? then st' == WithTurn(st, TurnFrame(st.turn.value, e.frame))
                else st'.log == st.log && ButFlags(st.turn.value, st'.turn.value))
  {
    hide TurnFrame;
    assert [e][0] == e;
    match e
    case Arrives(f) => OneFrame(st, f);
    case _ =>
  }

  /**
    While a turn is open, and whatever is registered, cancelled or reported elsewhere meanwhile,
    the translator publishes what the turn alone does, and holds what the turn alone holds.
   */
  lemma {:induction false} TurnGoesOn(st: State, events: seq<Event>)
    requires st.turn.Some? && Midway(events)
    ensures var st' := Run(st, events); var d := TurnFrames(st.turn.value, FramesIn(events));
            st'.turn.Some? && ButFlags(d.turn, st'.turn.value) && st'.log == st.log + d.out
    decreases |events|
  {
    if events == [] {
      assert st.log + [] == st.log;
    } else {
      hide Handle, TurnFrames, FramesIn, Run, ButFlags;
      var e, rest := events[0], events[1..];
      var st1 := Handle(st, e);
      MidwayParts(events);
      OneEvent(st, e);
      TurnGoesOn(st1, rest);
      FirstEvent(st, events);
      OnePasses(st, e, rest);
    }
  }

  lemma MidwayParts(events: seq<Event>)
    requires events != [] && Midway(events)
    ensures Midway([events[0]]) && Midway(events[1..])
  {
    assert [events[0]][0] == events[0] && forall i :: 0 <= i < |events[1..]| ==> events[1..][i] == events[i + 1];
  }

  lemma FirstEvent(st: State, events: seq<Event>)
    requires events != []
    ensures Run(st, events) == Run(Handle(st, events[0]), events[1..])
    ensures FramesIn(events) == (if events[0].Arrives? then [events[0].frame] else []) + FramesIn(events[1..])
    ensures [] + FramesIn(events[1..]) == FramesIn(events[1..])
  {
    hide Handle;
  }

  lemma ButFlagsTrans(t: Turn, u: Turn, v: Turn)
    requires ButFlags(t, u) && ButFlags(u, v)
    ensures ButFlags(t, v)
  {
  }

  lemma OnePasses(st: State, e: Event, rest: seq<Event>)
    requires st.turn.Some? && Midway([e])
    requires var st1 := Handle(st, e);
             && st1.turn.Some?
             && var st' := Run(st1, rest); var d := TurnFrames(st1.turn.value, FramesIn(rest));
                st'.turn.Some? && ButFlags(d.turn, st'.turn.value) && st'.log == st1.log + d.out
    ensures var st' := Run(Handle(st, e), rest);
            var d := TurnFrames(st.turn.value, (if e.Arrives? then [e.frame] else []) + FramesIn(rest));
            ButFlags(d.turn, st'.turn.value) && st'.log == st.log + d.out
  {
    hide Handle, TurnFrames, TurnFrame, FramesIn, Run, ButFlags;
    OneEvent(st, e);
    var st1, frames := Handle(st, e), FramesIn(rest);
    var more := TurnFrames(st1.turn.value, frames);
    if e.Arrives? {
      FirstFrame(st.turn.value, e.frame, frames);
      var d := TurnFrame(st.turn.value, e.frame);
      assert (st.log + d.out) + more.out == st.log + (d.out + more.out);
    } else {
      FramesAlike(st.turn.value, st1.turn.value, frames);
      assert [] + frames == frames;
      ButFlagsTrans(TurnFrames(st.turn.value, frames).turn, more.turn, Run(st1, rest).turn.value);
    }
  }

  // ------------------------------------------------------------- the result

  /** No text and no card. */
  predicate Bookkeeping(out: seq<Out>) {
    forall i :: 0 <= i < |out| ==> !out[i].Chunk? && !out[i].ToolCard?
  }

  lemma {:induction false} BookkeepingIsSilent(out: seq<Out>)
    requires Bookkeeping(out)
    ensures Chunks(out) == [] && ToolCards(out) == [] && Text(out) == ""
    ensures forall id :: Statuses(out, id) == []
    decreases |out|
  {
    if out != [] {
      assert forall i :: 0 <= i < |out[1..]| ==> out[1..][i] == out[i + 1];
      BookkeepingIsSilent(out[1..]);
    }
  }

  /** The log has grown by bookkeeping only. */
  predicate Books(before: seq<Out>, after: seq<Out>) {
    |before| <= |after| && after[..|before|] == before && Bookkeeping(after[|before|..])
  }

  lemma BooksThen(a: seq<Out>, b: seq<Out>, c: seq<Out>)
    requires Books(a, b) && Books(b, c)
    ensures Books(a, c)
  {
    assert c[..|a|] == c[..|b|][..|a|];
    assert c[|a|..] == b[|a|..] + c[|b|..];
  }

  lemma BooksOne(log: seq<Out>, o: Out)
    requires !o.Chunk? && !o.ToolCard?
    ensures Books(log, log) && Books(log, log + [o])
  {
    assert (log + [o])[..|log|] == log && (log + [o])[|log|..] == [o] && log[|log|..] == [];
  }

  lemma {:induction false} FoldedBooks(st: State, folded: seq<Send>, primary: Send)
    ensures Books(st.log, SettleFolded(st, folded, primary).log)
    decreases |folded|
  {
    hide Books;
    BooksOne(st.log, Resolved(0));
    if folded != [] {
      var s := folded[0];
      var st1 := if s.uuid != primary.uuid then Log(st, [FoldedInto(s, primary.task)]) else st;
      BooksOne(st.log, FoldedInto(s, primary.task));
      var st2 := ResolveWaiter(st1, s.uuid);
      BooksOne(st1.log, Resolved(s.uuid));
      BooksThen(st.log, st1.log, st2.log);
      FoldedBooks(st2, folded[1..], primary);
      BooksThen(st.log, st2.log, SettleFolded(st, folded, primary).log);
    }
  }

  /** A result publishes how the turn's text and cards end; all else is bookkeeping. */
  lemma ResultPublishes(st: State, queued: nat, outcome: Outcome) returns (state: TaskState, first: Out, rest: seq<Out>)
    requires st.turn.Some?
    ensures SettleTurn(st, queued, outcome).log == st.log + ([first] + Finish(st.turn.value, state).out + rest)
    ensures Bookkeeping([first]) && Bookkeeping(rest)
  {
    hide TakeFolded, Finish, SettleFolded, Books;
    var t := st.turn.value;
    var fold := TakeFolded(st, t.send, t.openSeq, queued);
    state := TerminalState(st, t, outcome);
    first := Journaled(t.send.uuid, state);
    var st1 := Log(st.(pending := fold.pending), [first]);
    var st2 := Log(st1, Finish(t, state).out);
    var st3 := if t.terminalEmitted then st2 else Log(st2, [Ended(t.send.task, state)]);
    BooksOne(st2.log, Ended(t.send.task, state));
    FoldedBooks(st3, fold.folded, t.send);
    var st4 := SettleFolded(st3, fold.folded, t.send);
    BooksThen(st2.log, st3.log, st4.log);
    rest := BooksRest(st2.log, st4.log);
    assert st2.log == st.log + ([first] + Finish(t, state).out);
    assert (st.log + ([first] + Finish(t, state).out)) + rest == st.log + ([first] + Finish(t, state).out + rest);
  }

  lemma BooksRest(before: seq<Out>, after: seq<Out>) returns (rest: seq<Out>)
    requires Books(before, after)
    ensures after == before + rest && Bookkeeping(rest)
  {
    rest := after[|before|..];
  }

  // ------------------------------------------------------------- a turn in a run

  /** What was published after `before`. */
  function Since(before: State, after: State): seq<Out>
    requires |before.log| <= |after.log|
  {
    after.log[|before.log|..]
  }

  /** The turn that `f` opens, when no turn is open. */
  lemma Opens(st: State, f: Frame) returns (t: Turn)
    requires st.turn.None? && !f.Result? && HandleFrame(st, f).turn.Some?
    ensures t == NewTurn(t.send, t.openSeq, t.interrupted) && t.send in st.pending
    ensures var d := TurnFrame(t, f);
            HandleFrame(st, f).turn == Some(d.turn)
                && HandleFrame(st, f).log == st.log + ([Working(t.send.task)] + d.out)
  {
    hide TurnFrame, PendingAt;
    var stamp := if f.StreamEvent? || f.Assistant? then f.stamp else None;
    var st1 := if f.StreamEvent? && stamp.None? then OpenTurn(st, None) else OpenTurn(st, stamp);
    assert st1.turn.Some? && st1.log == st.log + [Working(st1.turn.value.send.task)];
    t := st1.turn.value;
    assert (st.log + [Working(t.send.task)]) + TurnFrame(t, f).out
        == st.log + ([Working(t.send.task)] + TurnFrame(t, f).out);
  }

  /** Frame, events and result of one turn, in the middle of any run. */
  predicate OneTurn(before: seq<Event>, f: Frame, more: seq<Event>, r: Frame) {
    && var st := Run(FRESH, before);
    && st.turn.None? && !f.Result? && HandleFrame(st, f).turn.Some?
    && Midway(more) && r.Result?
  }

  function AfterTurn(before: seq<Event>, f: Frame, more: seq<Event>, r: Frame): State {
    HandleFrame(Run(HandleFrame(Run(FRESH, before), f), more), r)
  }

  /** What a turn publishes of text and cards in a run is what it publishes by itself, among bookkeeping. */
  lemma TurnInRun(before: seq<Event>, f: Frame, more: seq<Event>, r: Frame)
    returns (t: Turn, state: TaskState, working: Out, journaled: Out, rest: seq<Out>)
    requires OneTurn(before, f, more, r)
    ensures var d := TurnFrames(t, [f] + FramesIn(more));
            AfterTurn(before, f, more, r).log ==
              Run(FRESH, before).log + ([working] + d.out + [journaled] + Finish(d.turn, state).out + rest)
    ensures t == NewTurn(t.send, t.openSeq, t.interrupted)
    ensures Bookkeeping([working]) && Bookkeeping([journaled]) && Bookkeeping(rest)
  {
    hide TurnFrame, TurnFrames, HandleFrame, Finish, Run, FramesIn, SettleTurn;
    var st := Run(FRESH, before);
    t := Opens(st, f);
    working := Working(t.send.task);
    var st1 := HandleFrame(st, f);
    TurnGoesOn(st1, more);
    FirstFrame(t, f, FramesIn(more));
    var d1, d := TurnFrame(t, f), TurnFrames(t, [f] + FramesIn(more));
    var st2 := Run(st1, more);
    ResultSettles(st2, r);
    state, journaled, rest := ResultPublishes(st2, r.queued, r.outcome);
    FinishAlike(d.turn, st2.turn.value, state);
    var d2, fin := TurnFrames(d1.turn, FramesIn(more)), Finish(d.turn, state);
    assert d.out == d1.out + d2.out;
    Flatten(st.log, [working], d1.out, d2.out, [journaled], fin.out, rest);
  }

  lemma ResultSettles(st: State, r: Frame)
    requires st.turn.Some? && r.Result?
    ensures HandleFrame(st, r) == SettleTurn(st, r.queued, r.outcome)
  {
    hide SettleTurn;
  }

  lemma Flatten(log: seq<Out>, w: seq<Out>, a: seq<Out>, b: seq<Out>, j: seq<Out>, f: seq<Out>, rest: seq<Out>)
    ensures ((log + (w + a)) + b) + (j + f + rest) == log + (w + (a + b) + j + f + rest)
  {
  }

  lemma PartsAmongBooks(w: seq<Out>, d: seq<Out>, j: seq<Out>, f: seq<Out>, rest: seq<Out>, id: nat)
    requires Bookkeeping(w) && Bookkeeping(j) && Bookkeeping(rest)
    ensures var out := w + d + j + f + rest;
            && Chunks(out) == Chunks(d + f) && ToolCards(out) == ToolCards(d + f)
            && Statuses(out, id) == Statuses(d + f, id)
  {
    hide Bookkeeping, Chunks, ToolCards, Statuses;
    OneAmongBooks(j, f, rest, id);
    assert w + d + j + f + rest == (w + d) + (j + f + rest);
    OneAmongBooks(w, d, [], id) by { NoBooks(); }
    assert (w + d) + [] == w + d;
    PartsTogether(w + d, j + f + rest, id);
    PartsTogether(d, f, id);
  }

  lemma NoBooks()
    ensures Bookkeeping([])
  {
  }

  lemma PartsTogether(a: seq<Out>, b: seq<Out>, id: nat)
    ensures Chunks(a + b) == Chunks(a) + Chunks(b) && ToolCards(a + b) == ToolCards(a) + ToolCards(b)
    ensures Statuses(a + b, id) == Statuses(a, id) + Statuses(b, id)
  {
    hide Chunks, ToolCards, Statuses, Text;
    PartsOfAppend(a, b);
    StatusesAppend(a, b, id);
  }

  lemma OneAmongBooks(w: seq<Out>, d: seq<Out>, j: seq<Out>, id: nat)
    requires Bookkeeping(w) && Bookkeeping(j)
    ensures var out := w + d + j;
            Chunks(out) == Chunks(d) && ToolCards(out) == ToolCards(d) && Statuses(out, id) == Statuses(d, id)
  {
    BookkeepingIsSilent(w);
    BookkeepingIsSilent(j);
    hide Bookkeeping, Chunks, ToolCards, Statuses;
    PartsTogether(w, d, id);
    PartsTogether(w + d, j, id);
  }

  /**
    In any run, for any turn from the frame that opens it to its result, whatever is registered,
    cancelled or reported meanwhile: its chunks concatenate to exactly the text received, only the
    first does not append, at most one is last and it is the final one; cards are numbered alike.
   */
  lemma TurnTextIsExactInRuns(before: seq<Event>, f: Frame, more: seq<Event>, r: Frame)
    requires OneTurn(before, f, more, r)
    ensures |Run(FRESH, before).log| <= |AfterTurn(before, f, more, r).log|
    ensures var out := Since(Run(FRESH, before), AfterTurn(before, f, more, r));
            ExactText(out, Heard([f] + FramesIn(more), false)) && Numbered(out, 0, 0)
  {
    var t, state, working, journaled, rest := TurnInRun(before, f, more, r);
    hide OneTurn, AfterTurn, Run, TurnFrames, Finish, FramesIn, Heard, Chunks, ToolCards, Text, Statuses;
    var frames := [f] + FramesIn(more);
    var d := TurnFrames(t, frames);
    var fin := Finish(d.turn, state).out;
    PartsAmongBooks([working], d.out, [journaled], fin, rest, 0);
    TurnTextIsExact(t.send, t.openSeq, t.interrupted, frames, state);
    assert TurnOut(t.send, t.openSeq, t.interrupted, frames, state) == d.out + fin;
    var out := Since(Run(FRESH, before), AfterTurn(before, f, more, r));
    assert out == [working] + d.out + [journaled] + fin + rest;
    SameParts(out, d.out + fin, Heard(frames, false));
  }

  lemma SameParts(out: seq<Out>, alone: seq<Out>, text: string)
    requires Chunks(out) == Chunks(alone) && ToolCards(out) == ToolCards(alone)
    requires ExactText(alone, text) && Numbered(alone, 0, 0)
    ensures ExactText(out, text) && Numbered(out, 0, 0)
  {
    hide Chunks, ToolCards, Text;
  }

  /**
    In any run, for any turn so: an id used once has its card drawn and closed once, a held
    toolbelt call is shown once unless it was refused as redundant, an unused id shows nothing.
   */
  lemma CardsCloseOnceInRuns(before: seq<Event>, f: Frame, more: seq<Event>, r: Frame, id: nat)
    requires OneTurn(before, f, more, r)
    requires |Uses(Tokens([f] + FramesIn(more)), id)| <= 1
    ensures |Run(FRESH, before).log| <= |AfterTurn(before, f, more, r).log|
    ensures var shown := Statuses(Since(Run(FRESH, before), AfterTurn(before, f, more, r)), id);
            var tokens := Tokens([f] + FramesIn(more));
            && (Uses(tokens, id) == [] ==> shown == [])
            && (Uses(tokens, id) == [false] ==> shown == [Running, Done] || shown == [Running, FailedCard])
            && (Uses(tokens, id) == [true] ==>
                && (Refused(tokens, id) ==> shown == [])
                && (!Refused(tokens, id) ==> shown == [Done] || shown == [FailedCard]))
  {
    var t, state, working, journaled, rest := TurnInRun(before, f, more, r);
    hide OneTurn, AfterTurn, Run, TurnFrames, Finish, FramesIn, Chunks, ToolCards, Text, Statuses, Tokens, Uses,
        Refused;
    var frames := [f] + FramesIn(more);
    var d := TurnFrames(t, frames);
    var fin := Finish(d.turn, state).out;
    PartsAmongBooks([working], d.out, [journaled], fin, rest, id);
    CardsCloseOnce(t.send, t.openSeq, t.interrupted, frames, state, id);
    assert TurnOut(t.send, t.openSeq, t.interrupted, frames, state) == d.out + fin;
    assert Since(Run(FRESH, before), AfterTurn(before, f, more, r)) == [working] + d.out + [journaled] + fin + rest;
  }

  /** A turn that only its result opens publishes no text and no card. */
  lemma ResultAloneIsSilent(before: seq<Event>, r: Frame)
    requires Run(FRESH, before).turn.None? && r.Result?
    ensures var st, st' := Run(FRESH, before), HandleFrame(Run(FRESH, before), r);
            |st.log| <= |st'.log| && Chunks(Since(st, st')) == [] && ToolCards(Since(st, st')) == []
  {
    hide Run, SettleTurn, Chunks, ToolCards, Statuses, Text;
    var st := Run(FRESH, before);
    var st1 := OpenTurn(st, r.stamp);
    if st1.turn.None? {
      assert Since(st, st) == [];
      BookkeepingIsSilent([]);
    } else {
      var t := st1.turn.value;
      var state, journaled, rest := ResultPublishes(st1, r.queued, r.outcome);
      assert Finish(t, state).out == [];
      var out := [Working(t.send.task)] + ([journaled] + [] + rest);
      assert HandleFrame(st, r).log == st.log + out;
      assert Since(st, HandleFrame(st, r)) == out;
      BookkeepingIsSilent(out);
    }
  }
}
