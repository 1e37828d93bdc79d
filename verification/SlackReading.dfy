/**
  What the log of the Slack bridge tells of one message: its text, its last line, and where a scan
  of it alone stands; and what a stop, a seal and one more piece of answer text make of that.
 */
module SlackReading {
  import opened Options
  import opened Text
  import opened Markdown
  import opened MarkdownScan
  import opened MarkdownSize
  import M = MarkdownMeaning
  import opened SlackStream
  import opened SlackOrder

  // ------------------------------------------------------------- reading the log

  /**
    What the log tells of one message: all its text; whether answer text went to it, and whether it
    was sealed after that; whether its last answer text was `lastCut`, cut from a longer one, and
    whether any was `afterCut`, on its last line. It is `straight` when, shown alone, it is read as
    the text is: it starts fresh, and every later piece starts where a scan of the message alone
    stands. `alone` is where that scan stands after the last piece.
   */
  datatype Reading = Reading(
    content: string, answered: bool, sealed: bool, lastCut: bool, afterCut: bool, straight: bool, alone: Cursor)

  const BLANK := Reading("", false, false, false, false, true, START)

  function Read(log: seq<Call>, m: Message): Reading
    decreases |log|
  {
    if log == [] then BLANK else ReadOn(Read(log[..|log| - 1], m), log[|log| - 1], m)
  }

  /** What is read once there is one more call. */
  function ReadOn(r: Reading, call: Call, m: Message): Reading {
    if IsAnswer(call, m) then WithAnswer(r, call.text, call.cut, call.from)
    else if IsSeal(call, m) then r.(content := r.content + call.text, sealed := true)
    else r
  }

  function WithAnswer(r: Reading, text: string, cut: bool, from: Cursor): Reading {
    Reading(
      r.content + text, true, false, cut, cut || (r.afterCut && '\n' !in text),
      r.straight && (if r.answered then from == r.alone else StartsFresh(from)),
      Advance(if r.answered then from else START, text))
  }

  predicate IsAnswer(call: Call, m: Message) {
    call.Answer? && call.message == m
  }

  predicate IsSeal(call: Call, m: Message) {
    call.Seal? && call.message == m
  }

  /** A message starts here as the scan stands: at a line start, and its reopening line restores the block. */
  predicate StartsFresh(c: Cursor) {
    c.partial == "" && (c.fence.Some? ==> Step(None, c.fence.value.marker + c.fence.value.info) == c.fence)
  }

  /** All the text of a message. */
  function Content(log: seq<Call>, m: Message): string {
    Read(log, m).content
  }

  function LastLine(s: string): string {
    Lines(s)[|Lines(s)| - 1]
  }

  /** The line ends the block. */
  predicate Closes(f: Fence, line: string) {
    Step(Some(f), line) == None
  }

  /** The last line of a message when the scan stands at `at`, but for a seal: a cut closes the block on it. */
  function OwnLine(r: Reading, at: Cursor): string
    requires at.fence.Some?
  {
    (if r.afterCut then at.fence.value.marker else "") + at.partial
  }

  /**
    A straight message shown alone ends with every block closed. One that was cut: the line it was
    cut in does not close the block itself. One that was sealed: the line before the seal does not.
    Any other: its last line closes the block.
   */
  predicate ClosedAlone(r: Reading, at: Cursor)
    requires at.fence.Some?
  {
    var f := at.fence.value;
    if r.lastCut then r.alone.fence == Some(f)
    else if r.sealed then at.partial == "" || !Closes(f, at.partial)
    else Closes(f, at.partial)
  }

  /** What is said of a message stopped with a block open. */
  ghost predicate Told(r: Reading, at: Cursor)
    requires at.fence.Some?
  {
    var f := at.fence.value;
    && (r.answered ==>
          && (EndsClosed(r, f) <==> r.sealed || Closes(f, OwnLine(r, at)))
          && (!r.sealed ==> LastLine(r.content) == OwnLine(r, at))
          && (r.lastCut ==> EndsClosed(r, f)))
    && (!r.answered ==> r.content == if r.sealed then f.marker else "")
    && (r.answered && r.straight ==> (M.LeftOpen(r.content) == None <==> ClosedAlone(r, at)))
  }

  /** The message ends with a closing line of the block. */
  predicate EndsClosed(r: Reading, f: Fence) {
    Closes(f, LastLine(r.content))
  }

  ghost predicate StopsTold(log: seq<Call>) {
    forall k :: 0 <= k < |log| && log[k].Stopped? && log[k].at.fence.Some? ==>
      Told(Read(log[..k], log[k].message), log[k].at)
  }

  lemma LogReads(log: seq<Call>, call: Call)
    ensures forall m :: Read(log + [call], m) == ReadOn(Read(log, m), call, m)
  {
    assert (log + [call])[..|log|] == log;
  }

  /** A call that puts no text in the message. */
  lemma NotItsText(log: seq<Call>, call: Call, m: Message)
    requires !IsAnswer(call, m) && !IsSeal(call, m)
    ensures Read(log + [call], m) == Read(log, m)
  {
    LogReads(log, call);
  }

  lemma {:induction false} UnmentionedIsBlank(log: seq<Call>, m: Message)
    requires forall i :: 0 <= i < |log| ==> MessageOf(log[i]) != Some(m)
    ensures Read(log, m) == BLANK
    decreases |log|
  {
    if log != [] {
      var before, call := log[..|log| - 1], log[|log| - 1];
      assert log == before + [call];
      UnmentionedIsBlank(before, m);
      NotItsText(before, call, m);
    }
  }

  lemma ToldGrows(log: seq<Call>, call: Call)
    requires StopsTold(log)
    requires call.Stopped? && call.at.fence.Some? ==> Told(Read(log, call.message), call.at)
    ensures StopsTold(log + [call])
  {
    hide Told;
    var log' := log + [call];
    forall k | 0 <= k < |log'| && log'[k].Stopped? && log'[k].at.fence.Some?
      ensures Told(Read(log'[..k], log'[k].message), log'[k].at)
    {
      if k < |log| {
        assert log'[..k] == log[..k];
      } else {
        assert log'[..k] == log;
      }
    }
  }

  // ------------------------------------------------------------- last lines

  lemma LastLineAppend(a: string, b: string)
    ensures LastLine(a + b) == LastLine(LastLine(a) + b)
  {
    hide Lines;
    LinesRescanned(a, b);
  }

  lemma LastLineUnbroken(s: string)
    requires '\n' !in s
    ensures LastLine(s) == s
  {
    LinesUnbroken(s);
  }

  lemma LastLineIsOne(s: string)
    ensures '\n' !in LastLine(s)
  {
    LinesHaveNoNewline(s);
  }

  /** What comes before a newline is no matter. */
  lemma LastLineAfter(a: string, b: string)
    requires '\n' in b
    ensures LastLine(a + b) == LastLine(b)
  {
    hide Lines;
    var nl :| 0 <= nl < |b| && b[nl] == '\n';
    var x, y := b[..nl + 1], b[nl + 1..];
    assert b == x + y && a + b == (a + x) + y && (a + x)[|a + x| - 1] == '\n';
    LinesAtBoundary(a + x, y);
    LinesAtBoundary(x, y);
  }

  /** The scan's unfinished line is the last line of what was scanned. */
  lemma AdvancePartial(c: Cursor, text: string)
    ensures Advance(c, text).partial == LastLine(c.partial + text)
  {
  }

  /** Without a newline the scan only goes on along its line. */
  lemma AdvanceAlong(c: Cursor, text: string)
    requires '\n' !in c.partial && '\n' !in text
    ensures Advance(c, text) == Cursor(c.fence, c.partial + text)
  {
    hide Advance;
    AdvanceLine(c, text);
  }

  predicate EndsWith(s: string, tail: string) {
    |tail| <= |s| && s[|s| - |tail|..] == tail
  }

  lemma LastLineClosed(s: string, f: Fence)
    requires Genuine(f) && EndsWith(s, Closer(f))
    ensures LastLine(s) == f.marker && '\n' in s
  {
    hide Lines;
    var a := s[..|s| - |f.marker| - 1];
    assert s == a + Closer(f);
    assert Closer(f)[0] == '\n';
    LastLineAfter(a, Closer(f));
    assert Closer(f) == "\n" + f.marker;
    LinesAtBoundary("\n", f.marker);
    assert forall i :: 0 <= i < |f.marker| ==> f.marker[i] == f.marker[0];
    LastLineUnbroken(f.marker);
  }

  /** A marker, once or twice, closes its block. */
  lemma MarkerCloses(f: Fence, line: string)
    requires Genuine(f) && (line == f.marker || line == f.marker + f.marker)
    ensures Closes(f, line)
  {
    assert AllOf(line, f.marker[0]) && |line| >= 3;
    WholeRun(line, f.marker[0]);
  }

  lemma {:induction false} RunOfAll(s: string, c: char)
    requires AllOf(s, c)
    ensures Run(s, c) == |s|
  {
    if s != "" { RunOfAll(s[1..], c); }
  }

  lemma RunOfOther(s: string, c: char)
    requires s != "" && s[0] != c
    ensures Run(s, c) == 0
  {
  }

  lemma WholeMarker(s: string, c: char)
    requires |s| >= 3 && AllOf(s, c) && (c == '`' || c == '~')
    ensures Run(s, ' ') == 0 && MarkerRun(s) == |s|
  {
    RunOfAll(s, c);
    RunOfOther(s, ' ');
    hide Run;
    assert s[0..] == s;
  }

  lemma WholeRun(s: string, c: char)
    requires |s| >= 3 && AllOf(s, c) && (c == '`' || c == '~')
    ensures FenceLine(s) == Some(Fence(s, ""))
  {
    hide Run, MarkerRun, TrimLeft, TrimRight, Trim;
    WholeMarker(s, c);
    assert s[0..|s|] == s && s[|s|..] == "";
    assert Trim("") == "";
  }

  /** Alone at a line start a marker opens a block. */
  lemma MarkerOpens(f: Fence)
    requires Genuine(f)
    ensures Step(None, f.marker) == Some(Fence(f.marker, ""))
  {
    WholeRun(f.marker, f.marker[0]);
  }

  lemma NoNewline(f: Fence)
    requires Genuine(f)
    ensures '\n' !in f.marker
  {
    assert forall i :: 0 <= i < |f.marker| ==> f.marker[i] == f.marker[0];
  }

  // ------------------------------------------------------------- the current message

  /** A straight message shown alone stands where the scan stands while a block is open, until it is cut. */
  ghost predicate Tracked(r: Reading, c: Cursor) {
    && !r.sealed
    && (!r.answered ==> r == BLANK)
    && (r.straight ==>
          && Advance(START, r.content) == r.alone
          && (r.answered && c.fence.Some? ==>
                if r.lastCut then r.alone.fence == None || r.alone.fence == c.fence else r.alone == c))
  }

  /** While a block is open: the last line of the message. */
  ghost predicate Written(r: Reading, s: Stream)
    requires s.cursor.fence.Some?
  {
    && (r.answered <==> !s.owes)
    && (r.answered ==> r.content != "")
    && (r.lastCut ==> r.afterCut && s.cursor.partial == "")
    && LastLine(r.content) == (if r.afterCut then s.cursor.fence.value.marker else "") + s.cursor.partial
  }

  // ------------------------------------------------------------- stopped as it is, and sealed

  lemma UnsealedTold(r: Reading, s: Stream)
    requires s.cursor.fence.Some? && Scanned(s.cursor) && Written(r, s) && Tracked(r, s.cursor)
    ensures Told(r, s.cursor)
  {
    hide LastLine, Closes;
    var f := s.cursor.fence.value;
    MarkerCloses(f, f.marker);
    assert f.marker + "" == f.marker;
    if r.answered && r.straight { ShownUnsealed(r, s); }
  }

  function SealText(c: Cursor): string
    requires c.fence.Some?
  {
    (if c.partial == "" then "" else "\n") + c.fence.value.marker
  }

  /** The seal closes the block, and where it stands alone it opens one. */
  lemma SealedTold(r: Reading, s: Stream)
    requires s.cursor.fence.Some? && Scanned(s.cursor) && Written(r, s) && Tracked(r, s.cursor)
    requires s.owes ==> s.cursor.partial == ""
    ensures Told(r.(content := r.content + SealText(s.cursor), sealed := true), s.cursor)
  {
    hide LastLine, Closes, Genuine;
    var f := s.cursor.fence.value;
    SealedLine(r.content, s, SealText(s.cursor), r.afterCut);
    assert "" + f.marker == f.marker && "" + ("" + f.marker) == f.marker;
    if r.answered && r.straight { ShownSealed(r, s); }
  }

  lemma SealedLine(content: string, s: Stream, text: string, afterCut: bool)
    requires s.cursor.fence.Some? && Scanned(s.cursor)
    requires LastLine(content) == (if afterCut then s.cursor.fence.value.marker else "") + s.cursor.partial
    requires text == (if s.cursor.partial == "" then "" else "\n") + s.cursor.fence.value.marker
    ensures Closes(s.cursor.fence.value, LastLine(content + text))
  {
    hide LastLine, Closes;
    var f := s.cursor.fence.value;
    LastLineAppend(content, text);
    assert forall i :: 0 <= i < |f.marker| ==> f.marker[i] == f.marker[0];
    if s.cursor.partial == "" {
      assert LastLine(content) + text == if afterCut then f.marker + f.marker else f.marker;
      LastLineUnbroken(LastLine(content) + text);
      MarkerCloses(f, LastLine(content) + text);
    } else {
      assert text == Closer(f);
      assert text[|text| - |Closer(f)|..] == text;
      LastLineClosed(content + text, f) by {
        assert (content + text)[|content|..] == text;
      }
      MarkerCloses(f, f.marker);
    }
  }

  lemma SealIsMore(content: string, partial: string, f: Fence)
    requires content != ""
    ensures content + ((if partial == "" then "" else "\n") + f.marker) != f.marker
  {
    var text := (if partial == "" then "" else "\n") + f.marker;
    assert |content + text| > |f.marker|;
  }


  // ------------------------------------------------------------- shown alone

  lemma LeftOpenIs(text: string)
    ensures var c := Advance(START, text); M.LeftOpen(text) == Step(c.fence, c.partial)
  {
    hide Step, Lines;
    var lines := Lines(text);
    assert "" + text == text;
    var init, last := lines[..|lines| - 1], lines[|lines| - 1];
    assert lines == init + [last];
    StepAllAppend(None, init, [last]);
    OneStep(StepAll(None, init), last);
  }

  lemma OneStep(fence: Option<Fence>, line: string)
    ensures StepAll(fence, [line]) == Step(fence, line)
  {
    hide Step;
    assert [line][1..] == [];
  }

  lemma StepInside(f: Fence, line: string)
    ensures Step(Some(f), line) == None || Step(Some(f), line) == Some(f)
  {
    hide FenceLine;
  }

  /** A marker, once or twice, closes its block if it is open and opens one if not. */
  lemma MarkerEnds(f: Fence, line: string, open: Option<Fence>)
    requires Genuine(f) && (line == f.marker || line == f.marker + f.marker) && (open == None || open == Some(f))
    ensures Step(open, line) == None <==> open == Some(f)
  {
    if open == Some(f) {
      MarkerCloses(f, line);
    } else {
      hide FenceLine;
      assert AllOf(line, f.marker[0]) && |line| >= 3;
      WholeRun(line, f.marker[0]);
    }
  }

  lemma ShownUnsealed(r: Reading, s: Stream)
    requires s.cursor.fence.Some? && Scanned(s.cursor) && Written(r, s) && Tracked(r, s.cursor)
    requires r.answered && r.straight
    ensures var f := s.cursor.fence.value;
            M.LeftOpen(r.content) == None <==>
              if r.lastCut then r.alone.fence == Some(f) else Closes(f, s.cursor.partial)
  {
    hide LastLine, Advance, Step, M.LeftOpen;
    var f := s.cursor.fence.value;
    LeftOpenIs(r.content);
    if r.lastCut {
      AdvancePartial(START, r.content);
      assert "" + r.content == r.content && f.marker + "" == f.marker;
      MarkerEnds(f, f.marker, r.alone.fence);
    }
  }

  lemma ShownSealed(r: Reading, s: Stream)
    requires s.cursor.fence.Some? && Scanned(s.cursor) && Written(r, s) && Tracked(r, s.cursor)
    requires r.answered && r.straight
    ensures var f := s.cursor.fence.value;
            M.LeftOpen(r.content + SealText(s.cursor)) == None <==>
              if r.lastCut then r.alone.fence == Some(f) else s.cursor.partial == "" || !Closes(f, s.cursor.partial)
  {
    hide LastLine, Advance, Step, M.LeftOpen;
    var f, c := s.cursor.fence.value, Advance(START, r.content);
    var text := SealText(s.cursor);
    LeftOpenIs(r.content + text);
    AdvanceAction(START, r.content, text);
    NoNewline(f);
    if s.cursor.partial == "" {
      assert text == f.marker;
      AdvancePartial(START, r.content);
      assert "" + r.content == r.content && f.marker + "" == f.marker && "" + f.marker == f.marker;
      LastLineIsOne(r.content);
      AdvanceAlong(c, f.marker);
      MarkerEnds(f, c.partial + f.marker, c.fence);
    } else {
      SealedAfterLine(s.cursor);
      StepInside(f, s.cursor.partial);
      MarkerEnds(f, f.marker, Step(Some(f), s.cursor.partial));
    }
  }

  /** The seal ends the unfinished line and stands on the next. */
  lemma SealedAfterLine(c: Cursor)
    requires Scanned(c) && c.fence.Some? && c.partial != ""
    ensures Advance(c, SealText(c)) == Cursor(Step(c.fence, c.partial), c.fence.value.marker)
  {
    hide Advance, Step;
    var f := c.fence.value;
    NoNewline(f);
    AdvanceLine(c, "");
    assert c.partial + "" == c.partial && "" + "\n" == "\n";
    AdvanceAlong(Cursor(Step(c.fence, c.partial), ""), f.marker);
    assert "" + f.marker == f.marker;
    AdvanceAction(c, "\n", f.marker);
  }

  // ------------------------------------------------------------- one more piece

  /** A cut inside a block closes it on a line of its own. */
  lemma CutCloses(text: string, budget: int, c: Cursor)
    requires budget >= 1 && |text| > budget && TakeChunk(text, budget, c).cursor.fence.Some?
    ensures var chunk := TakeChunk(text, budget, c);
            EndsWith(chunk.head, Closer(chunk.cursor.fence.value)) && chunk.cursor.partial == ""
  {
    hide Advance, Candidates, Chosen, TakeChunk, LimitOf;
    ChunkCases(text, budget, c);
    CandidatesReach(text, LimitOf(text, budget, c), c);
  }

  lemma TailOf(a: string, b: string, tail: string)
    requires EndsWith(b, tail)
    ensures EndsWith(a + b, tail)
  {
    assert (a + b)[|a + b| - |tail|..] == b[|b| - |tail|..];
  }

  /** What the message says once a piece is sent that leaves a block open. */
  lemma ChunkWritten(text: string, budget: int, s: Stream, r: Reading)
    requires text != "" && budget >= 1 && Scanned(s.cursor)
    requires s.cursor.fence.Some? ==> (s.owes ==> s.cursor.partial == "") && Written(r, s)
    ensures var chunk := TakeChunk(text, budget, s.cursor);
            chunk.cursor.fence.Some? ==>
              && chunk.head != ""
              && Written(WithAnswer(r, Prefix(s) + chunk.head, |text| > budget, s.cursor),
                  s.(cursor := chunk.cursor, owes := false))
  {
    hide TakeChunk, Written;
    var chunk := TakeChunk(text, budget, s.cursor);
    if chunk.cursor.fence.Some? {
      if |text| > budget {
        CutWritten(text, budget, s, r);
      } else {
        WholeChunk(text, budget, s.cursor);
        WholeWritten(text, s, r);
      }
    }
  }

  lemma CutWritten(text: string, budget: int, s: Stream, r: Reading)
    requires budget >= 1 && |text| > budget && Scanned(s.cursor)
    requires TakeChunk(text, budget, s.cursor).cursor.fence.Some?
    ensures var chunk := TakeChunk(text, budget, s.cursor);
            && chunk.head != ""
            && Written(WithAnswer(r, Prefix(s) + chunk.head, true, s.cursor), s.(cursor := chunk.cursor, owes := false))
  {
    hide TakeChunk, LastLine, Prefix, Scanned, Genuine;
    CutCloses(text, budget, s.cursor);
    ChunkScanned(text, budget, s.cursor);
    var chunk := TakeChunk(text, budget, s.cursor);
    var f := chunk.cursor.fence.value;
    assert Genuine(f) by { ScannedFence(chunk.cursor); }
    var x := Prefix(s) + chunk.head;
    TailOf(Prefix(s), chunk.head, Closer(f));
    LastLineClosed(x, f);
    LastLineAfter(r.content, x);
    assert f.marker + "" == f.marker;
  }

  lemma ScannedFence(c: Cursor)
    requires Scanned(c) && c.fence.Some?
    ensures Genuine(c.fence.value)
  {
  }

  lemma WholeWritten(text: string, s: Stream, r: Reading)
    requires Scanned(s.cursor) && Advance(s.cursor, text).fence.Some?
    requires s.cursor.fence.Some? ==> (s.owes ==> s.cursor.partial == "") && Written(r, s)
    ensures Written(
              WithAnswer(r, Prefix(s) + text, false, s.cursor), s.(cursor := Advance(s.cursor, text), owes := false))
  {
    hide LastLine, Advance;
    var c, x := s.cursor, Prefix(s) + text;
    var c' := Advance(c, text);
    AdvancePartial(c, text);
    if '\n' in text {
      LastLineAfter(c.partial, text);
      LastLineAfter(r.content + Prefix(s), text);
      assert (r.content + Prefix(s)) + text == r.content + x;
      assert "" + c'.partial == c'.partial;
    } else {
      AdvanceAlong(c, text);
      if s.owes {
        AtFreshLine(r.content, c, text);
        assert c.partial + text == text && "" + c'.partial == c'.partial;
      } else {
        assert x == text;
        OnTheLine(r.content, text);
        assert LastLine(r.content) + text == (if r.afterCut then c.fence.value.marker else "") + (c.partial + text);
      }
    }
  }

  /** Where a scan of a piece ends: where the scan of its text does, or within the closing line of a cut. */
  lemma HeadAlone(text: string, budget: int, c: Cursor)
    requires budget >= 1 && Scanned(c)
    ensures var chunk := TakeChunk(text, budget, c); var end := Advance(c, chunk.head);
            && (|text| <= budget ==> end == chunk.cursor)
            && (|text| > budget && chunk.cursor.fence.Some? ==> end.fence == None || end.fence == chunk.cursor.fence)
  {
    hide TakeChunk, Advance, Genuine;
    if |text| <= budget {
      WholeChunk(text, budget, c);
    } else if TakeChunk(text, budget, c).cursor.fence.Some? {
      CutAlone(text, budget, c);
    }
  }

  /** What a line too long is broken after. */
  function BrokenOff(text: string, limit: int): string
    requires limit >= 1
  {
    text[..BreakPoint(text, limit)]
  }

  /** The line a cut is made in ends the block or not; a boundary does not. */
  lemma CutAlone(text: string, budget: int, c: Cursor)
    requires budget >= 1 && Scanned(c) && |text| > budget && TakeChunk(text, budget, c).cursor.fence.Some?
    ensures var chunk := TakeChunk(text, budget, c); var limit := LimitOf(text, budget, c);
            Advance(c, chunk.head).fence ==
              if Candidates(text, limit, c) == [] then Step(c.fence, c.partial + BrokenOff(text, limit))
              else chunk.cursor.fence
    ensures var f := Advance(c, TakeChunk(text, budget, c).head).fence;
            f == None || f == TakeChunk(text, budget, c).cursor.fence
  {
    hide TakeChunk, Advance, Genuine, Candidates, Chosen, BreakPoint, Step, Reserve;
    var limit := LimitOf(text, budget, c);
    ChunkCases(text, budget, c);
    ChunkScanned(text, budget, c);
    var f := TakeChunk(text, budget, c).cursor.fence.value;
    assert Genuine(f) by { ScannedFence(TakeChunk(text, budget, c).cursor); }
    NoNewline(f);
    if Candidates(text, limit, c) == [] {
      BreakWithin(text, limit);
      BrokenAlone(text, limit, c, f);
      StepInside(f, c.partial + BrokenOff(text, limit));
    } else {
      CandidatesAreBoundaries(text, limit, c);
      BoundaryAlone(text, Chosen(text, budget, c), c, f);
    }
  }

  lemma BoundaryAlone(text: string, cut: Candidate, c: Cursor, f: Fence)
    requires 1 <= cut.offset <= |text| && text[cut.offset - 1] == '\n' && cut.fence == Some(f)
    requires Advance(c, text[..cut.offset]).fence == Some(f) && '\n' !in f.marker
    ensures Advance(c, CutAt(text, cut).head).fence == Some(f)
  {
    hide Advance;
    var raw := text[..cut.offset];
    AdvanceAction(c, raw, f.marker);
    AdvancePartial(c, raw);
    LastLineIsOne(c.partial + raw);
    AdvanceAlong(Advance(c, raw), f.marker);
  }

  lemma BrokenAlone(text: string, limit: int, c: Cursor, f: Fence)
    requires limit >= 1 && '\n' !in c.partial && Candidates(text, limit, c) == [] && limit < |text|
    requires BreakLine(text, limit, c).cursor.fence == Some(f) && '\n' !in f.marker
    ensures c.fence == Some(f)
    ensures Advance(c, BreakLine(text, limit, c).head).fence
         == Step(c.fence, c.partial + BrokenOff(text, limit))
  {
    hide Advance, Step, BreakPoint, Candidates;
    var at := BreakPoint(text, limit);
    BreakWithin(text, limit);
    NoBoundaryNoFence(text, limit, c, at);
    NoNewlineWithin(text, limit, c, at);
    AdvanceLine(c, text[..at]);
    var end := Cursor(Step(c.fence, c.partial + text[..at]), "");
    AdvanceAlong(end, f.marker);
    AdvanceAction(c, text[..at] + "\n", f.marker);
    assert text[..at] + Closer(f) == (text[..at] + "\n") + f.marker;
  }

  lemma NoNewlineWithin(text: string, limit: int, c: Cursor, at: nat)
    requires at <= limit <= |text| && Candidates(text, limit, c) == []
    ensures '\n' !in text[..at]
  {
    hide Step, RankOf, LineAt;
    var nl := IndexOfNewline(text, 0);
    assert nl < 0 || nl > limit;
  }

  lemma ChunkTracked(text: string, budget: int, s: Stream, r: Reading)
    requires text != "" && budget >= 1 && Scanned(s.cursor)
    requires s.cursor.fence.Some? ==> (s.owes ==> s.cursor.partial == "") && Written(r, s)
    requires Tracked(r, s.cursor)
    ensures var chunk := TakeChunk(text, budget, s.cursor);
            Tracked(WithAnswer(r, Prefix(s) + chunk.head, |text| > budget, s.cursor), chunk.cursor)
  {
    hide TakeChunk, Advance, LastLine, Genuine, Step;
    var chunk := TakeChunk(text, budget, s.cursor);
    HeadAlone(text, budget, s.cursor);
    var x := Prefix(s) + chunk.head;
    if r.answered {
      assert x == chunk.head;
      AdvanceAction(START, r.content, chunk.head);
    } else {
      assert r.content + x == x;
      if StartsFresh(s.cursor) { FromTheStart(s.cursor, chunk.head); }
    }
  }

  /** From the start of a message its reopening line leads to where the scan stands. */
  lemma FromTheStart(c: Cursor, text: string)
    requires StartsFresh(c) && Scanned(c)
    ensures Advance(START, Reopen(c) + text) == Advance(c, text)
  {
    hide Advance, Step, Genuine;
    if c.fence.Some? {
      var f := c.fence.value;
      var line := f.marker + f.info;
      assert '\n' !in line by { ReopeningIsOneLine(f); }
      AdvanceLine(START, line);
      assert "" + line == line && line + "\n" == Reopen(c);
    } else {
      AdvanceNothing(START);
    }
    assert Advance(START, Reopen(c)) == c;
    AdvanceAction(START, Reopen(c), text);
  }

  lemma ReopeningIsOneLine(f: Fence)
    requires Genuine(f)
    ensures '\n' !in f.marker + f.info
  {
    assert forall i :: 0 <= i < |f.marker| ==> f.marker[i] == f.marker[0];
    assert forall i :: 0 <= i < |f.info| ==> !IsTerminator(f.info[i]);
  }

  lemma OnTheLine(content: string, text: string)
    requires '\n' !in text
    ensures LastLine(content + text) == LastLine(content) + text
  {
    hide LastLine;
    LastLineAppend(content, text);
    LastLineIsOne(content);
    LastLineUnbroken(LastLine(content) + text);
  }

  lemma AtFreshLine(content: string, c: Cursor, text: string)
    requires c.fence.Some? && '\n' !in text
    ensures '\n' in Reopen(c) + text && LastLine(content + (Reopen(c) + text)) == text
  {
    hide LastLine;
    var f := c.fence.value;
    var line := content + f.marker + f.info;
    assert Reopen(c)[|Reopen(c)| - 1] == '\n';
    assert (Reopen(c) + text)[|Reopen(c)| - 1] == '\n';
    assert content + (Reopen(c) + text) == line + ("\n" + text);
    assert ("\n" + text)[0] == '\n';
    LastLineAfter(line, "\n" + text);
    AfterNewline(text);
  }

  lemma AfterNewline(text: string)
    requires '\n' !in text
    ensures LastLine("\n" + text) == text
  {
    LinesAtBoundary("\n", text);
    LinesUnbroken(text);
  }
}
