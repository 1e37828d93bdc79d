/**
  What a streamed message says when it is stopped inside a code block, over every run: exactly when
  its last line closes the block, and when it leaves none open if it is shown alone.
 */
module SlackFences {
  import opened Options
  import opened Text
  import opened Markdown
  import opened MarkdownSize
  import M = MarkdownMeaning
  import opened SlackStream
  import opened SlackOrder
  import opened SlackReading

  // ------------------------------------------------------------- the invariant

  /** What the current message says. */
  ghost predicate Says(w: World, t: Task) {
    var s := At(w, t);
    && Scanned(s.cursor)
    && (s.message.Some? ==> Tracked(Read(w.log, s.message.value), s.cursor))
    && (s.cursor.fence.Some? ==>
          && (s.owes || s.message.None? ==> s.owes && s.cursor.partial == "")
          && (s.message.Some? ==> Written(Read(w.log, s.message.value), s)))
  }

  ghost predicate AllSay(w: World) {
    StopsTold(w.log) && forall t :: Says(w, t)
  }

  /** All but `t`. */
  ghost predicate AllSayBut(w: World, t: Task) {
    StopsTold(w.log) && forall t' :: t' != t ==> Says(w, t')
  }

  /** A task whose stream is as it was, and to whose message no text was sent. */
  lemma SaysStill(w: World, w': World, t: Task)
    requires Says(w, t) && At(w', t) == At(w, t)
    requires At(w, t).message.Some? ==>
        Read(w'.log, At(w, t).message.value) == Read(w.log, At(w, t).message.value)
    ensures Says(w', t)
  {
    hide Written, Scanned, Read;
  }

  /** Something is said in the message of `t`, or nowhere: the other tasks' messages say what they said. */
  lemma OthersSay(w: World, w': World, call: Call, t: Task)
    requires Base(w) && AllSayBut(w, t) && w'.log == w.log + [call]
    requires MessageOf(call).Some? ==> MessageOf(call).value.task == t
    requires call.Stopped? && call.at.fence.Some? ==> Told(Read(w.log, call.message), call.at)
    requires forall t' :: t' != t ==> At(w', t') == At(w, t')
    ensures AllSayBut(w', t)
  {
    hide Says, Safe, SerialsBelow, Told, StopsTold, Read, OpenIn;
    ToldGrows(w.log, call);
    forall t' | t' != t ensures Says(w', t') {
      assert Rooted(w, t') && Says(w, t');
      if At(w, t').message.Some? {
        NotItsText(w.log, call, At(w, t').message.value);
      }
      SaysStill(w, w', t');
    }
  }

  lemma OthersPut(w: World, t: Task, s: Stream)
    requires AllSayBut(w, t)
    ensures AllSayBut(Put(w, t, s), t)
  {
    hide Says, StopsTold;
    forall t' | t' != t ensures Says(Put(w, t, s), t') {
      assert Says(w, t');
      hide *;
      PutOther(w, t, s, t');
      SaysStill(w, Put(w, t, s), t');
    }
  }

  lemma PutOther(w: World, t: Task, s: Stream, t': Task)
    requires t' != t
    ensures At(Put(w, t, s), t') == At(w, t') && Put(w, t, s).log == w.log
  {
  }

  /** Charges and marks are no matter here. */
  lemma PutSays(w: World, t: Task, s: Stream)
    requires AllSay(w)
    requires s.message == At(w, t).message && s.cursor == At(w, t).cursor && s.owes == At(w, t).owes
    ensures AllSay(Put(w, t, s))
  {
    hide StopsTold, Scanned, Read, LastLine;
    OthersPut(w, t, s);
    assert Says(w, t);
    assert Says(Put(w, t, s), t);
  }

  lemma InvBase(w: World)
    requires Inv(w)
    ensures Base(w)
  {
  }

  lemma ButBase(w: World, t: Task)
    requires InvBut(w, t)
    ensures Base(w)
  {
  }

  lemma AllBut(w: World, t: Task)
    requires AllSay(w)
    ensures AllSayBut(w, t) && Says(w, t)
  {
  }

  lemma AllTogether(w: World, t: Task)
    requires AllSayBut(w, t) && Says(w, t)
    ensures AllSay(w)
  {
  }

  // ------------------------------------------------------------- stops

  /** The current message may be stopped. */
  ghost predicate Stoppable(w: World, t: Task) {
    var s := At(w, t);
    Scanned(s.cursor) &&
    (s.message.Some? && s.cursor.fence.Some? ==> Told(Read(w.log, s.message.value), s.cursor))
  }

  lemma UnsealedStops(w: World, t: Task)
    requires Says(w, t)
    ensures Stoppable(w, t)
  {
    hide Read, Written, Tracked, Scanned, Told;
    var s := At(w, t);
    if s.message.Some? && s.cursor.fence.Some? {
      UnsealedTold(Read(w.log, s.message.value), s);
    }
  }

  lemma CloseSays(w: World, t: Task)
    requires Base(w) && AllSayBut(w, t) && Stoppable(w, t)
    ensures AllSay(Close(w, t))
  {
    hide Safe, SerialsBelow, OpenIn, Written, Told, Genuine;
    var s, w' := At(w, t), Close(w, t);
    assert Rooted(w, t);
    assert Says(w', t);
    if s.message.Some? {
      OthersSay(w, w', Stopped(s.message.value, s.cursor), t);
    } else {
      OthersPut(w, t, At(w', t));
    }
  }

  lemma SealSays(w: World, t: Task)
    requires Base(w) && AllSay(w)
    ensures AllSayBut(SealFence(w, t), t) && Stoppable(SealFence(w, t), t)
  {
    hide Safe, SerialsBelow, OpenIn, Written, Told, Genuine, StopsTold;
    var s, w' := At(w, t), SealFence(w, t);
    assert Rooted(w, t) && Says(w, t);
    if s.cursor.fence.Some? && s.message.Some? {
      var call := Seal(s.message.value, (if s.cursor.partial == "" then "" else "\n") + s.cursor.fence.value.marker);
      OthersSay(w, w', call, t);
      LogReads(w.log, call);
      SealedTold(Read(w.log, s.message.value), s);
    } else {
      UnsealedStops(w, t);
    }
  }

  lemma CutSays(w: World, t: Task)
    requires Inv(w) && AllSay(w)
    ensures AllSay(Close(SealFence(w, t), t)) && AllSay(Close(w, t))
  {
    hide *;
    InvBase(w);
    SealSays(w, t);
    InvIsInvBut(w, t);
    SealKeeps(w, t);
    ButBase(SealFence(w, t), t);
    CloseSays(SealFence(w, t), t);
    AllBut(w, t);
    UnsealedStops(w, t);
    CloseSays(w, t);
  }

  lemma CloseIfStaleSays(w: World, t: Task)
    requires Inv(w) && AllSay(w)
    ensures AllSay(CloseIfStale(w, t))
  {
    hide Inv, InvBut, Base, AllSay, AllSayBut, Stoppable, Close, SealFence;
    if At(w, t).stale {
      var s := At(w, t).(stale := false);
      var w1 := Put(w, t, s);
      InvIsInvBut(w, t);
      PutKeeps(w, t, s);
      PutSays(w, t, s);
      ButBase(w1, t);
      SealSays(w1, t);
      SealKeeps(w1, t);
      ButBase(SealFence(w1, t), t);
      CloseSays(SealFence(w1, t), t);
    }
  }

  lemma EnsureSays(w: World, t: Task)
    requires Inv(w) && AllSay(w)
    ensures AllSay(Ensure(w, t))
  {
    hide CloseIfStale, Inv, AllSay;
    var w1 := CloseIfStale(w, t);
    CloseIfStaleKeeps(w, t);
    CloseIfStaleSays(w, t);
    InvBase(w1);
    if At(w1, t).message.None? {
      OpenedSays(w1, Ensure(w, t), t);
    }
  }

  lemma OpenedSays(w: World, w': World, t: Task)
    requires Base(w) && AllSay(w) && At(w, t).message.None?
    requires var m := Message(t, w.next);
        w' == Say(Put(w, t, At(w, t).(message := Some(m))), Opened(m)).(next := w.next + 1)
    ensures AllSay(w')
  {
    hide Safe, StopsTold, Scanned, Read, OpenIn;
    var m := Message(t, w.next);
    OthersSay(w, w', Opened(m), t);
    assert Says(w, t);
    UnmentionedIsBlank(w.log, m);
    NotItsText(w.log, Opened(m), m);
    assert LastLine("") == "";
    assert Says(w', t);
  }

  // ------------------------------------------------------------- text

  /** Whatever becomes of its message, the cursor and what is owed are as they were. */
  lemma EnsureCursor(w: World, t: Task)
    requires Inv(w) && !At(w, t).stale
    ensures var w' := Ensure(w, t); var m := At(w', t).message;
            m.Some? && m.value.task == t && At(w', t) == At(w, t).(message := m) && w'.budget == w.budget
  {
    assert Rooted(w, t);
  }

  /** One chunk is sent, before its message is stopped if there is more. */
  function Sent(w: World, t: Task, text: string): World {
    var w1 := SendHead(w, t, NextOf(w, t, text).head, TooLong(w, t, text));
    Put(w1, t, At(w1, t).(cursor := NextOf(w, t, text).cursor))
  }

  lemma SentSays(w: World, t: Task, text: string)
    requires Inv(w) && AllSay(w) && !At(w, t).stale && text != ""
    ensures AllSay(Sent(w, t, text))
  {
    var chunk := NextOf(w, t, text);
    SentScanned(w, t, text);
    if chunk.head == "" {
      hide *;
      NoneSent(w, t, text);
    } else {
      hide *;
      SomeSent(w, t, text);
    }
  }

  lemma SentScanned(w: World, t: Task, text: string)
    requires AllSay(w) && text != ""
    ensures Scanned(NextOf(w, t, text).cursor) && Scanned(At(w, t).cursor)
  {
    hide TakeChunk, Genuine;
    assert Says(w, t);
    ChunkScanned(text, Max(Left(w.budget, At(w, t)), 1), At(w, t).cursor);
  }

  /** What a piece that leaves a block open makes of the message. */
  lemma NextWritten(w: World, t: Task, text: string, r: Reading)
    requires text != "" && Scanned(At(w, t).cursor)
    requires var s := At(w, t); s.cursor.fence.Some? ==> (s.owes ==> s.cursor.partial == "") && Written(r, s)
    ensures var chunk := NextOf(w, t, text); var s := At(w, t);
            chunk.cursor.fence.Some? ==>
              && chunk.head != ""
              && Written(WithAnswer(r, Prefix(s) + chunk.head, TooLong(w, t, text), s.cursor),
                  s.(cursor := chunk.cursor, owes := false))
  {
    hide TakeChunk, Written, WithAnswer, Scanned, Prefix;
    ChunkWritten(text, Max(Left(w.budget, At(w, t)), 1), At(w, t), r);
  }

  /** Shown alone, the message goes on as the scan does. */
  lemma NextTracked(w: World, t: Task, text: string, r: Reading)
    requires text != "" && NextOf(w, t, text).head != "" && Scanned(At(w, t).cursor)
    requires var s := At(w, t); s.cursor.fence.Some? ==> (s.owes ==> s.cursor.partial == "") && Written(r, s)
    requires Tracked(r, At(w, t).cursor)
    ensures var chunk := NextOf(w, t, text); var s := At(w, t);
            Tracked(WithAnswer(r, Prefix(s) + chunk.head, TooLong(w, t, text), s.cursor), chunk.cursor)
  {
    hide TakeChunk, Written, Tracked, WithAnswer, Scanned, Prefix;
    ChunkTracked(text, Max(Left(w.budget, At(w, t)), 1), At(w, t), r);
  }

  lemma NoneSent(w: World, t: Task, text: string)
    requires AllSay(w) && text != "" && NextOf(w, t, text).head == ""
    requires Scanned(NextOf(w, t, text).cursor) && Scanned(At(w, t).cursor)
    ensures AllSay(Sent(w, t, text))
  {
    hide NextOf, Written, Scanned, StopsTold, Read, Advance;
    assert Says(w, t);
    var s, chunk := At(w, t), NextOf(w, t, text);
    EmptyHead(w, t, text);
    OthersPut(w, t, s.(cursor := chunk.cursor));
    assert Says(Sent(w, t, text), t);
  }

  /** Nothing of a piece is sent only when it is newlines outside any block. */
  lemma EmptyHead(w: World, t: Task, text: string)
    requires NextOf(w, t, text).head == "" && text != ""
    ensures NextOf(w, t, text).cursor.fence == None
  {
    hide TakeChunk, Advance, Candidates, Chosen, LimitOf;
    ChunkCases(text, Max(Left(w.budget, At(w, t)), 1), At(w, t).cursor);
  }

  lemma SomeSent(w: World, t: Task, text: string)
    requires Inv(w) && AllSay(w) && !At(w, t).stale && text != "" && NextOf(w, t, text).head != ""
    requires Scanned(NextOf(w, t, text).cursor) && Scanned(At(w, t).cursor)
    ensures AllSay(Sent(w, t, text))
  {
    hide NextOf, Ensure, TooLong, Prefix, LastLine, Scanned, StopsTold, Inv, Base, AllSay, Says, Read, WithAnswer;
    var s, chunk, cut := At(w, t), NextOf(w, t, text), TooLong(w, t, text);
    var w1 := Ensure(w, t);
    EnsureSays(w, t);
    EnsureKeeps(w, t);
    EnsureCursor(w, t);
    InvBase(w1);
    AllBut(w1, t);
    var m := At(w1, t).message.value;
    var x := Prefix(s) + chunk.head;
    var call := Answer(m, x, cut, s.cursor);
    OthersSay(w1, Say(w1, call), call, t);
    var s' := At(w1, t).(chars := s.chars + |x|, owes := false, cursor := chunk.cursor);
    assert SendHead(w, t, chunk.head, cut)
        == Put(Say(w1, call), t, At(w1, t).(chars := s.chars + |x|, owes := false));
    var w' := Sent(w, t, text);
    OthersPut(Say(w1, call), t, s');
    assert w' == Put(Say(w1, call), t, s');
    WasWritten(w1, t);
    NextWritten(w, t, text, Read(w1.log, m));
    NextTracked(w, t, text, Read(w1.log, m));
    LogReads(w1.log, call);
    NowSays(w', t, s', WithAnswer(Read(w1.log, m), x, cut, s.cursor));
    AllTogether(w', t);
  }

  lemma WasWritten(w: World, t: Task)
    requires Says(w, t) && At(w, t).message.Some?
    ensures var s := At(w, t);
            s.cursor.fence.Some? ==>
              (s.owes ==> s.cursor.partial == "") && Written(Read(w.log, s.message.value), s)
    ensures Tracked(Read(w.log, At(w, t).message.value), At(w, t).cursor)
  {
    hide Read, Tracked, Written, Scanned;
  }

  lemma NowSays(w: World, t: Task, s: Stream, r: Reading)
    requires At(w, t) == s && s.message.Some? && !s.owes && Scanned(s.cursor)
    requires r == Read(w.log, s.message.value)
    requires (s.cursor.fence.Some? ==> Written(r, s)) && Tracked(r, s.cursor)
    ensures Says(w, t)
  {
    hide Read, Scanned, Written, Tracked;
  }

  lemma AppendChunkSays(w: World, t: Task, text: string)
    requires Inv(w) && AllSay(w) && !At(w, t).stale && text != ""
    ensures AllSay(AppendChunk(w, t, text))
  {
    hide Inv, AllSay, NextOf, TooLong, SendHead, Close, Base, Says, AllSayBut;
    var chunk := NextOf(w, t, text);
    var w2 := Sent(w, t, text);
    SentSays(w, t, text);
    if chunk.rest != "" {
      var w1 := SendHead(w, t, chunk.head, TooLong(w, t, text));
      SendHeadKeeps(w, t, chunk.head, TooLong(w, t, text));
      InvIsInvBut(w1, t);
      PutKeeps(w1, t, At(w1, t).(cursor := chunk.cursor));
      ButBase(w2, t);
      AllBut(w2, t);
      UnsealedStops(w2, t);
      CloseSays(w2, t);
    }
  }

  lemma {:induction false} AppendSays(w: World, t: Task, text: string)
    requires Inv(w) && AllSay(w) && !At(w, t).stale
    ensures AllSay(Append(w, t, text))
    decreases |text|, if At(w, t).chars > 0 then 1 else 0
  {
    hide Inv, AllSay, NextOf, AppendChunk, Close;
    if text == "" {
    } else if MustRollOver(w.budget, At(w, t)) {
      CloseKeeps(w, t) by { hide *; InvIsInvBut(w, t); }
      CutSays(w, t);
      CloseEmpties(w, t);
      AppendSays(Close(w, t), t, text);
    } else {
      Shorter(w, t, text);
      AppendChunkKeeps(w, t, text);
      AppendChunkSays(w, t, text);
      AppendSays(AppendChunk(w, t, text), t, NextOf(w, t, text).rest);
    }
  }

  // ------------------------------------------------------------- cards and marks

  lemma ChargeSays(w: World, t: Task, card: Card)
    requires Inv(w) && AllSay(w)
    ensures AllSay(Charge(w, t, card))
  {
    hide Inv, AllSay, Close, SealFence, CardCost;
    if card.id !in At(w, t).charged {
      var w1 := w;
      if At(w, t).chars > 0 && At(w, t).chars + CardCost(card) > w.budget {
        CutSays(w, t);
        w1 := Close(SealFence(w, t), t);
      }
      var s := At(w1, t);
      PutSays(w1, t, s.(charged := s.charged + {card.id}, chars := s.chars + CardCost(card)));
    }
  }

  lemma DrawSays(w: World, t: Task, card: Card)
    requires Inv(w) && AllSay(w) && !At(w, t).stale
    ensures AllSay(Draw(w, t, card))
  {
    hide Inv, AllSay, Charge, Ensure, Base;
    ChargeSays(w, t, card);
    ChargeKeeps(w, t, card);
    EnsureSays(Charge(w, t, card), t);
    EnsureKeeps(Charge(w, t, card), t);
    var w1 := Ensure(Charge(w, t, card), t);
    InvBase(w1);
    CardSays(w1, t, card);
  }

  lemma CardSays(w: World, t: Task, card: Card)
    requires Base(w) && AllSay(w) && At(w, t).message.Some?
    ensures AllSay(Say(w, Drawn(At(w, t).message.value, card)))
  {
    hide Safe, SerialsBelow, OpenIn, StopsTold, Read, Says;
    assert Rooted(w, t) && Says(w, t);
    var call := Drawn(At(w, t).message.value, card);
    OthersSay(w, Say(w, call), call, t);
    NotItsText(w.log, call, At(w, t).message.value);
    SaysStill(w, Say(w, call), t);
  }

  lemma {:induction false} DrawAllSays(w: World, t: Task, cards: seq<Card>)
    requires Inv(w) && AllSay(w) && !At(w, t).stale
    ensures AllSay(DrawAll(w, t, cards))
    decreases |cards|
  {
    hide Inv, AllSay, Draw;
    if cards != [] {
      DrawKeeps(w, t, cards[0]);
      DrawSays(w, t, cards[0]);
      DrawAllSays(Draw(w, t, cards[0]), t, cards[1..]);
    }
  }

  lemma MarkSays(w: World, thread: nat)
    requires AllSay(w)
    ensures AllSay(Mark(w, thread))
  {
    hide StopsTold, Scanned, Read, LastLine;
    var w' := Mark(w, thread);
    ToldGrows(w.log, Spoke(thread));
    forall t ensures Says(w', t) {
      assert Says(w, t);
      var s := At(w, t);
      if s.message.Some? { NotItsText(w.log, Spoke(thread), s.message.value); }
      assert At(w', t) == if t in w.streams then MarkOne(t, w.streams[t], thread) else FRESH;
    }
  }

  lemma ForgetSays(w: World, t: Task)
    requires AllSay(w)
    ensures AllSay(w.(streams := w.streams - {t}))
  {
    hide StopsTold, Written, Read;
    var w' := w.(streams := w.streams - {t});
    forall t' ensures Says(w', t') {
      assert Says(w, t');
    }
  }

  lemma HandleSays(w: World, e: Event)
    requires Inv(w) && AllSay(w)
    ensures AllSay(Handle(w, e))
  {
    hide Inv, AllSay, Append, Close, CloseIfStale, DrawAll, Mark;
    match e
    case Artifact(t, text, last) =>
      var w1 := CloseIfStale(w, t);
      CloseIfStaleKeeps(w, t);
      CloseIfStaleSays(w, t);
      AppendKeeps(w1, t, text);
      AppendSays(w1, t, text);
      CutSays(Append(w1, t, text), t);
    case Activity(t, cards) =>
      CloseIfStaleKeeps(w, t);
      CloseIfStaleSays(w, t);
      DrawAllSays(CloseIfStale(w, t), t, cards);
    case Terminal(t) =>
      CutSays(w, t);
      ForgetSays(Close(w, t), t);
    case Human(thread) =>
      MarkSays(w, thread);
  }

  lemma IdleSays(budget: int)
    ensures AllSay(Idle(budget))
  {
  }

  lemma {:induction false} RunSays(w: World, events: seq<Event>)
    requires Inv(w) && AllSay(w)
    ensures AllSay(RunAll(w, events))
    decreases |events|
  {
    hide Inv, AllSay, Handle;
    if events != [] {
      HandleKeeps(w, events[0]);
      HandleSays(w, events[0]);
      RunSays(Handle(w, events[0]), events[1..]);
    }
  }

  // ------------------------------------------------------------- what it means

  lemma RunTold(budget: int, events: seq<Event>)
    ensures AllSay(RunAll(Idle(budget), events)) && Inv(RunAll(Idle(budget), events))
  {
    hide *;
    IdleInv(budget);
    IdleSays(budget);
    RunSays(Idle(budget), events);
    RunKeeps(Idle(budget), events);
  }

  /** What the log tells of the message when its `k`-th call stops it. */
  function AtStop(log: seq<Call>, k: nat): Reading
    requires k < |log| && log[k].Stopped?
  {
    Read(log[..k], log[k].message)
  }

  /** The `k`-th call stops a message with answer text in it, inside a block. */
  predicate StopsInside(log: seq<Call>, k: nat) {
    k < |log| && log[k].Stopped? && log[k].at.fence.Some? && AtStop(log, k).answered
  }

  /**
    Over every run: a message with answer text in it, stopped while a block is open, ends with a
    closing line of the block exactly if it was sealed, or its own last line is one; that is the
    line the agent has not ended, and before it, where a cut came on the same line, the closing
    line of the cut. So it does if its last answer was cut.
   */
  lemma StopClosesBlockIff(budget: int, events: seq<Event>, k: nat)
    requires StopsInside(RunAll(Idle(budget), events).log, k)
    ensures var log := RunAll(Idle(budget), events).log;
            var r, at := AtStop(log, k), log[k].at;
            && (EndsClosed(r, at.fence.value) <==> r.sealed || Closes(at.fence.value, OwnLine(r, at)))
            && (!r.sealed ==> LastLine(r.content) == OwnLine(r, at))
            && (r.lastCut ==> EndsClosed(r, at.fence.value))
  {
    hide RunAll, Idle, Inv, EndsClosed, OwnLine, LastLine, Closes, Read;
    RunTold(budget, events);
    ToldThere(RunAll(Idle(budget), events), k);
  }

  lemma ToldThere(w: World, k: nat)
    requires AllSay(w) && k < |w.log| && w.log[k].Stopped? && w.log[k].at.fence.Some?
    ensures Told(AtStop(w.log, k), w.log[k].at)
  {
    hide Told, Says, Read;
  }

  /**
    Over every run: a message stopped while a block is open, whose pieces are read alone as in the
    whole, leaves no block open when it is shown alone exactly if, having been cut, the line of the
    cut does not close the block itself; having been sealed, the line before the seal does not; and
    otherwise, its last line does.
   */
  lemma StoppedAloneIff(budget: int, events: seq<Event>, k: nat)
    requires var log := RunAll(Idle(budget), events).log; StopsInside(log, k) && AtStop(log, k).straight
    ensures var log := RunAll(Idle(budget), events).log;
            M.LeftOpen(AtStop(log, k).content) == None <==> ClosedAlone(AtStop(log, k), log[k].at)
  {
    hide RunAll, Idle, Inv, EndsClosed, OwnLine, LastLine, Closes, Read, ClosedAlone, M.LeftOpen;
    RunTold(budget, events);
    ToldThere(RunAll(Idle(budget), events), k);
  }

  /**
    Over every run: the seal of an open block is all the text of its message exactly when the
    message still owes the reopening line. Then, the message shown alone, the seal opens a block;
    otherwise the message ends with a closing line of the one it has opened.
   */
  lemma SealOpensBlockIff(budget: int, events: seq<Event>, t: Task)
    requires var s := At(RunAll(Idle(budget), events), t); s.message.Some? && s.cursor.fence.Some?
    ensures var w := RunAll(Idle(budget), events);
            var s := At(w, t);
            var f, content := s.cursor.fence.value, Content(SealFence(w, t).log, s.message.value);
            && (content == f.marker <==> s.owes)
            && (s.owes ==> Step(None, content) == Some(Fence(f.marker, "")))
            && (!s.owes ==> Closes(f, LastLine(content)))
  {
    hide RunAll, Idle, Inv, StopsTold, Read, LastLine, Closes, Step, Genuine;
    RunTold(budget, events);
    var w := RunAll(Idle(budget), events);
    var s := At(w, t);
    assert Says(w, t);
    var m, f := s.message.value, s.cursor.fence.value;
    var text := (if s.cursor.partial == "" then "" else "\n") + f.marker;
    LogReads(w.log, Seal(m, text));
    SealedLine(Content(w.log, m), s, text, Read(w.log, m).afterCut);
    MarkerOpens(f);
    assert "" + f.marker == f.marker && "" + text == text;
    if !s.owes { SealIsMore(Content(w.log, m), s.cursor.partial, f); }
  }
}
