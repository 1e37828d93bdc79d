/** When a streamed message is stopped, and what is sent to it last. */
module SlackStops {
  import opened Options
  import opened Text
  import opened Markdown
  import opened MarkdownSize
  import opened SlackStream
  import opened SlackOrder
  import opened SlackBudget

  /** The line that closes an open block, on a line of its own. */
  function SealOf(m: Message, c: Cursor): seq<Call> {
    if c.fence.None? then [] else [Seal(m, (if c.partial == "" then "" else "\n") + c.fence.value.marker)]
  }

  /** What is sent where the task's message is sealed and stopped, or only stopped. */
  function StopCalls(s: Stream, sealed: bool): seq<Call> {
    if s.message.None? then []
    else (if sealed then SealOf(s.message.value, s.cursor) else []) + [Stopped(s.message.value, s.cursor)]
  }

  lemma ClosesWith(w: World, t: Task)
    ensures Close(w, t).log == w.log + StopCalls(At(w, t), false) && At(Close(w, t), t).message == None
    ensures Close(SealFence(w, t), t).log == w.log + StopCalls(At(w, t), true)
    ensures At(Close(SealFence(w, t), t), t) == At(Close(w, t), t) && Close(w, t).budget == w.budget
    ensures At(Close(w, t), t).chars == 0 && At(Close(w, t), t).charged == {}
  {
  }

  /** A marked message is sealed and stopped, and any other left as it is. */
  lemma StaleIsCut(w: World, t: Task)
    ensures var w', s := CloseIfStale(w, t), At(w, t);
            if s.stale then w'.log == w.log + StopCalls(s, true) && At(w', t).message == None && !At(w', t).stale
            else w' == w
  {
    hide Close, SealFence;
    var w1 := Put(w, t, At(w, t).(stale := false));
    ClosesWith(w1, t);
    if At(w, t).stale { CloseStale(SealFence(w1, t), t); SealStale(w1, t); }
  }

  lemma CloseStale(w: World, t: Task)
    ensures At(Close(w, t), t).stale == At(w, t).stale
  {
  }

  lemma SealStale(w: World, t: Task)
    ensures At(SealFence(w, t), t) == At(w, t)
  {
  }

  // ------------------------------------------------------------- for want of room

  lemma ChargedIs(w: World, t: Task)
    requires Charged(w, t)
    ensures var s := At(w, t);
            && (s.message.Some? ==>
                  s.chars == Weight(w.log, s.message.value) && s.charged == CardsOn(w.log, s.message.value))
            && (s.message.None? ==> s.chars == 0 && s.charged == {})
  {
  }

  /** A card not on the message yet, which together with what the message weighs is more than the budget. */
  predicate TooMuch(w: World, t: Task, card: Card) {
    var m := At(w, t).message;
    && m.Some? && card.id !in CardsOn(w.log, m.value)
    && Weight(w.log, m.value) > 0 && Weight(w.log, m.value) + CardCost(card) > w.budget
  }

  /**
    Over the runs in which a message has room for any card and to reopen any block: a card stops
    the message it would be drawn on exactly if it is too much for it, and then it is sealed first.
   */
  lemma CardStopsIff(budget: int, lim: Limits, events: seq<Event>, t: Task, card: Card)
    requires budget > lim.reopen && Modest(events, budget, lim)
    ensures var w := RunAll(Idle(budget), events);
            Charge(w, t, card).log == w.log + (if TooMuch(w, t, card) then StopCalls(At(w, t), true) else [])
  {
    hide RunAll, Idle, Modest, CardCost, Weight, CardsOn, Close, SealFence, StopCalls, Charged;
    MessagesStayWithinBudget(budget, lim, events);
    var w := RunAll(Idle(budget), events);
    assert Charged(w, t);
    ChargedIs(w, t);
    ClosesWith(w, t);
  }

  /** What is left of the message, once the block it owes is reopened, is less than a character and the closing line. */
  predicate NoRoom(w: World, t: Task) {
    var s := At(w, t);
    && s.message.Some? && Weight(w.log, s.message.value) > 0
    && w.budget - Weight(w.log, s.message.value) - (if s.owes then |Reopen(s.cursor)| else 0) < 1 + CloseCost(s.cursor)
  }

  /** Over the same runs: text stops a message for want of room exactly if there is no room, and it is not sealed. */
  lemma TextStopsIff(budget: int, lim: Limits, events: seq<Event>, t: Task, text: string)
    requires budget > lim.reopen && Modest(events, budget, lim) && text != ""
    ensures var w := RunAll(Idle(budget), events);
            && (MustRollOver(w.budget, At(w, t)) <==> NoRoom(w, t))
            && (NoRoom(w, t) ==> Append(w, t, text) == Append(Close(w, t), t, text)
                                 && Close(w, t).log == w.log + StopCalls(At(w, t), false))
  {
    hide RunAll, Idle, Modest, Weight, CardsOn, Close, SealFence, StopCalls, Append, Charged;
    MessagesStayWithinBudget(budget, lim, events);
    var w := RunAll(Idle(budget), events);
    assert Charged(w, t);
    ChargedIs(w, t);
    ClosesWith(w, t);
    if MustRollOver(w.budget, At(w, t)) { RollsOver(w, t, text); }
  }

  lemma RollsOver(w: World, t: Task, text: string)
    requires text != "" && MustRollOver(w.budget, At(w, t))
    ensures Append(w, t, text) == Append(Close(w, t), t, text)
  {
    hide Close, AppendChunk, NextOf;
  }

  // ------------------------------------------------------------- what is left open

  /** Text that does not end in a newline leaves its message open, for more. */
  lemma {:induction false} TextStaysOpen(w: World, t: Task, text: string)
    requires Inv(w) && !At(w, t).stale && text != "" && text[|text| - 1] != '\n'
    ensures At(Append(w, t, text), t).message.Some?
    decreases |text|, if At(w, t).chars > 0 then 1 else 0
  {
    hide Inv, NextOf, AppendChunk, Close, MustRollOver;
    if MustRollOver(w.budget, At(w, t)) {
      RollOverMeans(w.budget, At(w, t));
      CloseKeeps(w, t) by { hide *; InvIsInvBut(w, t); }
      CloseEmpties(w, t);
      TextStaysOpen(Close(w, t), t, text);
    } else {
      Shorter(w, t, text);
      AppendChunkKeeps(w, t, text);
      var rest := NextOf(w, t, text).rest;
      RestEnds(w, t, text);
      if rest != "" {
        TextStaysOpen(AppendChunk(w, t, text), t, rest);
      } else {
        LastPieceStays(w, t, text);
        NothingMore(AppendChunk(w, t, text), t);
      }
    }
  }

  lemma NothingMore(w: World, t: Task)
    ensures Append(w, t, "") == w
  {
  }

  lemma RestEnds(w: World, t: Task, text: string)
    requires text != "" && text[|text| - 1] != '\n'
    ensures var rest := NextOf(w, t, text).rest; rest != "" ==> rest[|rest| - 1] != '\n'
  {
    hide TakeChunk;
    ChunkEnds(text, Max(Left(w.budget, At(w, t)), 1), At(w, t).cursor);
  }

  lemma LastPieceStays(w: World, t: Task, text: string)
    requires Inv(w) && !At(w, t).stale && text != "" && text[|text| - 1] != '\n' && NextOf(w, t, text).rest == ""
    ensures At(AppendChunk(w, t, text), t).message.Some?
  {
    hide Inv, Ensure, TakeChunk;
    LastHead(text, Max(Left(w.budget, At(w, t)), 1), At(w, t).cursor);
  }

  lemma LastHead(text: string, budget: int, c: Cursor)
    requires text != "" && text[|text| - 1] != '\n' && TakeChunk(text, budget, c).rest == ""
    ensures TakeChunk(text, budget, c).head != ""
  {
    hide Advance, Candidates, Chosen, TakeChunk, Reserve;
    ChunkCases(text, budget, c);
    CandidatesReach(text, LimitOf(text, budget, c), c);
  }

  /** Over every run: a last chunk stops its message; any other text that ends in no newline leaves it open. */
  lemma LastChunkStops(budget: int, events: seq<Event>, t: Task, text: string)
    ensures var w := RunAll(Idle(budget), events);
            && At(OnArtifact(w, t, text, true), t).message == None
            && OnArtifact(w, t, text, true).log
               == OnArtifact(w, t, text, false).log + StopCalls(At(OnArtifact(w, t, text, false), t), false)
            && (text != "" && text[|text| - 1] != '\n' ==> At(OnArtifact(w, t, text, false), t).message.Some?)
  {
    hide RunAll, Idle, Inv, CloseIfStale, Append, Close, StopCalls;
    IdleInv(budget);
    RunKeeps(Idle(budget), events);
    var w := RunAll(Idle(budget), events);
    var w1 := CloseIfStale(w, t);
    CloseIfStaleKeeps(w, t);
    ClosesWith(Append(w1, t, text), t);
    if text != "" && text[|text| - 1] != '\n' { TextStaysOpen(w1, t, text); }
  }

  /** Over every run: a task that is over has its message stopped, unsealed, and nothing kept. */
  lemma OverIsForgotten(budget: int, events: seq<Event>, t: Task)
    ensures var w, w' := RunAll(Idle(budget), events), Handle(RunAll(Idle(budget), events), Terminal(t));
            w'.log == w.log + StopCalls(At(w, t), false) && t !in w'.streams
  {
    hide RunAll, Idle, Close, StopCalls;
    ClosesWith(RunAll(Idle(budget), events), t);
  }
}
