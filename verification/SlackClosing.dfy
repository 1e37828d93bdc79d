/**
  How a code block is closed where a streamed message breaks: exactly when the loop that appends
  text leaves a closing line behind, and exactly when a message goes on after one.
 */
module SlackClosing {
  import opened Options
  import opened Text
  import opened Markdown
  import opened MarkdownSize
  import opened SlackStream
  import opened SlackOrder
  import opened SlackReading
  import opened SlackFences
  import opened SlackNewlines

  /** One turn of the loop that appends text. */
  function OneTurn(w: World, t: Task, text: string): World {
    if MustRollOver(w.budget, At(w, t)) then Close(w, t) else AppendChunk(w, t, text)
  }

  /**
    Over every run, a message that the loop stops inside a block, with text to come, ends with a
    closing line of the block exactly if a piece of the text was cut for it, or it was stopped for
    want of room and its own last line is one already.
   */
  lemma BreakClosesBlockIff(budget: int, events: seq<Event>, t: Task, text: string, m: Message, at: Cursor)
    requires text != "" && at.fence.Some?
    requires var w := RunAll(Idle(budget), events); var w' := OneTurn(w, t, text);
             && !At(w, t).stale && |w'.log| > |w.log| && w'.log[|w'.log| - 1] == Stopped(m, at)
    ensures var w := RunAll(Idle(budget), events); var w' := OneTurn(w, t, text);
            EndsClosed(Read(w'.log[..|w'.log| - 1], m), at.fence.value) <==>
              !MustRollOver(w.budget, At(w, t)) || Closes(at.fence.value, OwnLine(Read(w.log, m), at))
  {
    hide RunAll, Idle, Inv, AllSay, MustRollOver, OneTurn, Closes, OwnLine, Read, LastLine;
    RunTold(budget, events);
    var w := RunAll(Idle(budget), events);
    if MustRollOver(w.budget, At(w, t)) {
      FullStop(w, t, text, m, at);
    } else {
      CutStop(w, t, text, m, at);
    }
  }

  lemma FullStop(w: World, t: Task, text: string, m: Message, at: Cursor)
    requires AllSay(w) && MustRollOver(w.budget, At(w, t)) && at.fence.Some?
    requires var w' := OneTurn(w, t, text); |w'.log| > |w.log| && w'.log[|w'.log| - 1] == Stopped(m, at)
    ensures var w' := OneTurn(w, t, text);
            LastLine(Read(w'.log[..|w'.log| - 1], m).content) == OwnLine(Read(w.log, m), at)
  {
    hide MustRollOver, Read, LastLine, StopsTold, Scanned;
    assert Says(w, t);
    var w' := OneTurn(w, t, text);
    assert w'.log == w.log + [Stopped(m, at)];
    assert w'.log[..|w'.log| - 1] == w.log;
  }

  lemma CutStop(w: World, t: Task, text: string, m: Message, at: Cursor)
    requires Inv(w) && AllSay(w) && !MustRollOver(w.budget, At(w, t)) && at.fence.Some? && text != ""
    requires !At(w, t).stale
    requires var w' := OneTurn(w, t, text); |w'.log| > |w.log| && w'.log[|w'.log| - 1] == Stopped(m, at)
    ensures var w' := OneTurn(w, t, text);
            EndsClosed(Read(w'.log[..|w'.log| - 1], m), at.fence.value)
  {
    hide MustRollOver, NextOf, TooLong, SendHead, Sent, Inv, AllSay, Says, Read, EndsClosed;
    var w2 := Sent(w, t, text);
    SentSays(w, t, text);
    SentEnds(w, t, text);
    AppendIsSent(w, t, text);
    assert NextOf(w, t, text).rest != "";
    assert NextOf(w, t, text).head != "" by { if NextOf(w, t, text).head == "" { EmptyHead(w, t, text); } }
    AllBut(w2, t);
    LastPiece(w2, t, m, at);
  }

  lemma AppendIsSent(w: World, t: Task, text: string)
    ensures AppendChunk(w, t, text) ==
        if NextOf(w, t, text).rest == "" then Sent(w, t, text) else Close(Sent(w, t, text), t)
  {
    hide NextOf, TooLong, SendHead, Close;
  }

  /** A piece that is sent ends the log; one that is not leaves it. */
  lemma SentEnds(w: World, t: Task, text: string)
    requires Inv(w) && !At(w, t).stale
    ensures var w2, chunk := Sent(w, t, text), NextOf(w, t, text);
            && At(w2, t).cursor == chunk.cursor
            && (chunk.head == "" ==> w2.log == w.log)
            && (chunk.head != "" ==>
                  && At(w2, t).message.Some? && w2.log != []
                  && w2.log[|w2.log| - 1].Answer? && w2.log[|w2.log| - 1].message == At(w2, t).message.value
                  && w2.log[|w2.log| - 1].cut == TooLong(w, t, text))
            && (chunk.rest != "" ==> TooLong(w, t, text))
  {
    hide TakeChunk, Ensure, Inv, Prefix;
    EnsureCursor(w, t);
    var budget := Max(Left(w.budget, At(w, t)), 1);
    if |text| <= budget { WholeChunk(text, budget, At(w, t).cursor); }
  }

  lemma JustCut(log: seq<Call>, m: Message)
    requires log != [] && IsAnswer(log[|log| - 1], m) && log[|log| - 1].cut
    ensures Read(log, m).lastCut
  {
  }

  /** The message stopped right after a piece that was cut. */
  lemma LastPiece(w: World, t: Task, m: Message, at: Cursor)
    requires Says(w, t) && w.log != [] && At(w, t).message.Some? && at.fence.Some?
    requires var call := w.log[|w.log| - 1]; call.Answer? && call.cut && call.message == At(w, t).message.value
    requires Close(w, t).log[|Close(w, t).log| - 1] == Stopped(m, at)
    ensures var log := Close(w, t).log; EndsClosed(Read(log[..|log| - 1], m), at.fence.value)
  {
    hide LastLine, Closes, Genuine, WithAnswer;
    assert Close(w, t).log == w.log + [Stopped(m, at)];
    assert Close(w, t).log[..|w.log|] == w.log;
    JustCut(w.log, m);
    MarkerCloses(at.fence.value, at.fence.value.marker);
    assert at.fence.value.marker + "" == at.fence.value.marker;
  }

  // ------------------------------------------------------------- going on after the closing line

  /** One line, with nothing but spaces from `limit` on. */
  predicate Trailing(text: string, limit: int) {
    0 <= limit <= |text| && '\n' !in text[..limit] && AllOf(text[limit..], ' ')
  }

  /** All of a text too long is taken, something of it is sent, and there is room for more. */
  ghost predicate CutWithRoom(text: string, budget: int, c: Cursor) {
    var chunk := TakeChunk(text, budget, c);
    && |text| > budget && chunk.rest == "" && chunk.head != ""
    && budget - |chunk.head| >= 1 + CloseCost(chunk.cursor)
  }

  /** One line that trails off into spaces, where there is room for two closing lines and one more. */
  ghost predicate TrailsOff(text: string, budget: int, c: Cursor) {
    && |text| > budget
    && Trailing(text, LimitOf(text, budget, c))
    && budget - LimitOf(text, budget, c) >= 1 + 2 * CloseCost(c)
  }

  lemma NoCandidates(text: string, limit: int, c: Cursor)
    requires 0 <= limit <= |text|
    ensures Candidates(text, limit, c) == [] <==> IndexOfNewline(text, 0) < 0 || IndexOfNewline(text, 0) > limit
  {
    hide Step, RankOf, LineAt;
  }

  lemma {:induction false} LastSpaceAt(s: string)
    requires s != "" && s[|s| - 1] == ' '
    ensures LastSpace(s) == |s| - 1
  {
  }

  lemma AllSpaces(s: string)
    ensures Run(s, ' ') == |s| <==> AllOf(s, ' ')
  {
    if AllOf(s, ' ') { RunOfAll(s, ' '); }
    assert s[..|s|] == s;
  }

  /** Where nothing but spaces is left over, the line was broken at the limit. */
  lemma BreaksAtLimit(text: string, limit: int)
    requires 1 <= limit < |text|
    ensures BreakPoint(text, limit) <= limit
    ensures AllOf(text[BreakPoint(text, limit)..], ' ') <==> AllOf(text[limit..], ' ')
    ensures AllOf(text[limit..], ' ') ==> BreakPoint(text, limit) == limit
  {
    var reach := text[..limit + 1];
    assert reach[limit] == text[limit];
    var at := BreakPoint(text, limit);
    if AllOf(text[limit..], ' ') {
      assert text[limit..][0] == text[limit];
      LastSpaceAt(reach);
    }
    if AllOf(text[at..], ' ') {
      forall i | 0 <= i < |text[limit..]| ensures text[limit..][i] == ' ' {
        assert text[limit..][i] == text[at..][limit - at + i];
      }
    }
  }

  lemma CutWithRoomIff(text: string, budget: int, c: Cursor)
    requires budget >= 1 && '\n' !in c.partial
    ensures CutWithRoom(text, budget, c) <==>
              TrailsOff(text, budget, c) || (JustTooLong(text, budget, c) && !AllOf(text, '\n'))
  {
    hide Advance, Candidates, Chosen, TakeChunk, LimitOf, JustTooLong, TakenShort, Trailing, AllOf;
    ChunkCases(text, budget, c);
    var limit := LimitOf(text, budget, c);
    LimitBelow(text, budget, c);
    if |text| > budget {
      NoCandidates(text, limit, c);
      if Candidates(text, limit, c) == [] {
        BrokenWithRoom(text, limit, c);
        BrokenIsNotShort(text, budget, c);
      } else {
        CandidatesReach(text, limit, c);
        NewlineSomewhere(text, limit);
        CutIsShort(text, budget, c);
      }
    } else {
      JustTooLongIs(text, budget, c);
    }
  }

  lemma JustTooLongIs(text: string, budget: int, c: Cursor)
    ensures JustTooLong(text, budget, c) ==>
              |text| == budget + 1 && text[|text| - 1] == '\n' && Advance(c, text).fence == None
  {
    hide Advance, LimitOf;
  }

  /** A line that is broken is not the end of a paragraph. */
  lemma BrokenIsNotShort(text: string, budget: int, c: Cursor)
    requires budget >= 1 && '\n' !in c.partial && |text| > budget
    requires Candidates(text, LimitOf(text, budget, c), c) == []
    ensures !JustTooLong(text, budget, c)
  {
    hide Advance, Candidates, LimitOf;
    if JustTooLong(text, budget, c) { LatestIsPicked(text, budget, c); }
  }

  /** A cut at a boundary leaves room only where the newlines dropped make it. */
  lemma CutIsShort(text: string, budget: int, c: Cursor)
    requires budget >= 1 && '\n' !in c.partial && |text| > budget
    requires Candidates(text, LimitOf(text, budget, c), c) != []
    ensures CutWithRoom(text, budget, c) <==> JustTooLong(text, budget, c) && !AllOf(text, '\n')
  {
    hide Advance, Candidates, Chosen, TakeChunk, LimitOf, JustTooLong, AllOf;
    ChunkCases(text, budget, c);
    var cut := Chosen(text, budget, c);
    CandidatesReach(text, LimitOf(text, budget, c), c);
    assert text[..|text|] == text;
    JustTooLongIs(text, budget, c);
    if JustTooLong(text, budget, c) {
      TakenShortIf(text, budget, c);
      FenceAfter(text, budget, c);
      assert TakenShort(text, budget, c);
    }
    ShortHead(text, budget, c, cut);
    if TakenShort(text, budget, c) && text[|text| - 1] == '\n' { TakenShortOnlyIf(text, budget, c); }
  }

  lemma ShortHead(text: string, budget: int, c: Cursor, cut: Candidate)
    requires |text| > budget && 1 <= cut.offset <= |text| && text[cut.offset - 1] == '\n'
    requires TakeChunk(text, budget, c) == CutAt(text, cut)
    ensures var chunk := TakeChunk(text, budget, c);
            && (chunk.rest == "" ==> text[|text| - 1] == '\n')
            && (chunk.rest == "" && chunk.cursor.fence.Some? ==> |chunk.head| > budget)
            && (chunk.rest == "" && chunk.cursor.fence.None? ==>
                  && (chunk.head == "" <==> AllOf(text, '\n'))
                  && (TakenShort(text, budget, c) <==> |chunk.head| < budget))
  {
    hide TakeChunk;
    if cut.offset == |text| {
      assert text[..|text|] == text;
      AllStripped(text);
    } else {
      assert |text[cut.offset..]| > 0;
    }
  }

  lemma AllStripped(s: string)
    ensures StripNewlines(s) == "" <==> AllOf(s, '\n')
  {
    var t := StripNewlines(s);
    assert s[0..] == s;
    assert t != "" ==> t[|t| - 1] == s[|t| - 1];
  }

  lemma NewlineSomewhere(text: string, limit: int)
    requires 0 <= IndexOfNewline(text, 0) <= limit <= |text|
    ensures !Trailing(text, limit)
  {
    var nl := IndexOfNewline(text, 0);
    if nl < limit {
      assert text[..limit][nl] == '\n';
    } else if nl < |text| {
      assert text[limit..][0] == '\n';
    }
  }

  lemma BrokenWithRoom(text: string, limit: int, c: Cursor)
    requires 1 <= limit < |text| && '\n' !in c.partial
    requires Candidates(text, limit, c) == []
    requires IndexOfNewline(text, 0) < 0 || IndexOfNewline(text, 0) > limit
    ensures var chunk := BreakLine(text, limit, c);
            && chunk.cursor.fence == c.fence
            && (chunk.rest == "" <==> Trailing(text, limit))
            && (chunk.rest == "" ==> |chunk.head| == limit + CloseCost(c))
  {
    hide Advance, Candidates, BreakPoint;
    var at := BreakPoint(text, limit);
    BreaksAtLimit(text, limit);
    NoBoundaryNoFence(text, limit, c, at);
    AllSpaces(text[at..]);
    assert '\n' !in text[..limit];
  }

  /**
    A text too long for what is left of a message is cut, with nothing left over, and the message
    goes on exactly in these cases: it is one line that trails off into spaces from where it would
    be broken, with room left for two closing lines where a block is open; or it is one character
    too long, with nothing reserved, and ends a paragraph outside any block.
   */
  lemma GoesOnAfterCutIff(w: World, t: Task, text: string)
    requires text != "" && !MustRollOver(w.budget, At(w, t)) && !At(w, t).stale
    requires '\n' !in At(w, t).cursor.partial
    ensures var w', chunk := AppendChunk(w, t, text), NextOf(w, t, text);
            var left, c := Left(w.budget, At(w, t)), At(w, t).cursor;
            (TooLong(w, t, text) && chunk.rest == "" && chunk.head != "" && !MustRollOver(w'.budget, At(w', t)))
            <==> TrailsOff(text, left, c) || (JustTooLong(text, left, c) && !AllOf(text, '\n'))
  {
    hide TakeChunk, LimitOf, Ensure, Prefix, Advance, AllOf;
    var s := At(w, t);
    var left, chunk := Left(w.budget, s), NextOf(w, t, text);
    if left >= 1 { CutWithRoomIff(text, left, s.cursor); }
    if chunk.rest == "" && chunk.head != "" { RoomLeft(w, t, text); }
  }

  /** In the first of these cases the line is broken, and the scan forgets it: with a block open it is closed. */
  lemma TrailsOffBreaks(text: string, budget: int, c: Cursor)
    requires budget >= 1 && '\n' !in c.partial && TrailsOff(text, budget, c)
    ensures var chunk := TakeChunk(text, budget, c);
            && chunk.cursor == Cursor(c.fence, "")
            && chunk.head == text[..LimitOf(text, budget, c)] + (if c.fence.None? then "" else Closer(c.fence.value))
  {
    hide Advance, Candidates, Chosen, TakeChunk, LimitOf, BreakPoint;
    ChunkCases(text, budget, c);
    var limit := LimitOf(text, budget, c);
    LimitBelow(text, budget, c);
    NoCandidates(text, limit, c);
    CandidatesReach(text, limit, c);
    if 0 <= IndexOfNewline(text, 0) <= limit { NewlineSomewhere(text, limit); }
    BreaksAtLimit(text, limit);
    NoBoundaryNoFence(text, limit, c, limit);
  }

  lemma RoomLeft(w: World, t: Task, text: string)
    requires !At(w, t).stale && NextOf(w, t, text).rest == "" && NextOf(w, t, text).head != ""
    ensures var w', chunk := AppendChunk(w, t, text), NextOf(w, t, text);
            MustRollOver(w'.budget, At(w', t)) <==>
              Left(w.budget, At(w, t)) - |chunk.head| < 1 + CloseCost(chunk.cursor)
  {
  }
}
