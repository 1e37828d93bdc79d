/** Runs of the Slack bridge whose messages do not show what the answer says. */
module SlackExamples {
  import opened Options
  import opened Text
  import opened Markdown
  import opened MarkdownScan
  import opened MarkdownSize
  import opened SlackStream
  import opened SlackBudget
  import opened SlackReading
  import opened SlackFences
  import M = MarkdownMeaning
  import opened SlackNewlines
  import opened SlackClosing

  // ------------------------------------------------------------- a block closed twice

  const FIRST := "aaa\n```"
  const SECOND := "xxx\n"
  const OPEN := Fence("```", "xxx")

  lemma FirstLines()
    ensures Lines(FIRST) == ["aaa", "```"]
  {
    assert FIRST == ("aaa" + ['\n']) + "```";
    LinesTerminated("aaa");
    LinesAtBoundary("aaa" + ['\n'], "```");
    LinesUnbroken("```");
  }

  lemma PlainLine()
    ensures Step(None, "aaa") == None
  {
  }

  /** The first delta ends inside an opening line. */
  lemma FirstCursor()
    ensures Advance(START, FIRST) == Cursor(None, "```")
  {
    hide Step;
    assert "" + FIRST == FIRST;
    FirstLines();
    PlainLine();
    assert ["aaa", "```"][..1] == ["aaa"] && ["aaa"][1..] == [];
    assert StepAll(None, ["aaa"]) == StepAll(Step(None, "aaa"), []);
  }

  lemma OpeningRun(marker: string, info: string)
    requires |marker| == 3 && AllOf(marker, '`') && info != "" && '`' !in info && OneLine(info) && Trimmed(info)
    ensures Step(None, marker + info) == Some(Fence(marker, info))
  {
    var line := marker + info;
    assert line[3] == info[0] && forall i :: 0 <= i < 3 ==> line[i] == marker[i];
    assert Run(line, ' ') == 0 && line[0..] == line;
    assert Run(line, '`') == 3;
    assert line[0..3] == marker && line[3..] == info;
  }

  lemma NoMarkers(at: nat)
    requires at <= 4
    ensures LongestMarker(SECOND, at) == 0
    decreases 4 - at
  {
    assert MarkerRun(SECOND[at..]) == 0 by {
      if at < 4 { assert SECOND[at..][0] == SECOND[at] && SECOND[at] != ' '; }
    }
    if at < 4 { NoMarkers(at + 1); }
  }

  /** The second delta is cut after its last character, with the block open: nothing is left to send. */
  lemma SecondChunk()
    ensures TakeChunk(SECOND, 3, Cursor(None, "```")) == Chunk("xxx\n```", "", Cursor(Some(OPEN), ""))
  {
    hide Step, MarkerRun, LongestMarker, Advance;
    var c := Cursor(None, "```");
    NoMarkers(0);
    assert Reserve(SECOND, c) == 0 && LimitOf(SECOND, 3, c) == 3;
    assert IndexOfNewline(SECOND, 0) == 3;
    assert SECOND[0..3] == "xxx" && LineAt(SECOND, 0, 3, c) == "```xxx";
    assert "```" + "xxx" == "```xxx" && '`' !in "xxx" && OneLine("xxx") && Trimmed("xxx");
    OpeningRun("```", "xxx");
    var cut := Candidate(4, IN_FENCE, Some(OPEN));
    assert CandidatesFrom(SECOND, 3, c, Some(OPEN), 4) == [];
    assert Candidates(SECOND, 3, c) == [cut];
    assert Pick([cut], 3) == Some(cut);
    assert SECOND[..4] == SECOND && SECOND[4..] == "";
  }

  function After(budget: int, t: Task, chars: nat, cursor: Cursor, stale: bool, log: seq<Call>): World {
    World(budget, map[t := Stream(Some(Message(t, 0)), chars, {}, cursor, false, stale)], 1, log)
  }

  /** The delta that opens the message. */
  lemma Opening(budget: int, t: Task, text: string)
    requires text != "" && budget >= 1
    requires var chunk := TakeChunk(text, budget, START); chunk.rest == "" && chunk.head != ""
    ensures var chunk := TakeChunk(text, budget, START);
            Handle(Idle(budget), Artifact(t, text, false))
            == After(budget, t, |chunk.head|, chunk.cursor, false,
                     [Opened(Message(t, 0)), Answer(Message(t, 0), chunk.head, |text| > budget, START)])
  {
    hide TakeChunk;
    var w := Idle(budget);
    var chunk := NextOf(w, t, text);
    assert "" + chunk.head == chunk.head;
    assert Append(AppendChunk(w, t, text), t, "") == AppendChunk(w, t, text);
  }

  lemma FirstDelta(t: Task)
    ensures Handle(Idle(10), Artifact(t, FIRST, false))
         == After(10, t, 7, Cursor(None, "```"), false,
                  [Opened(Message(t, 0)), Answer(Message(t, 0), FIRST, false, START)])
  {
    hide TakeChunk, Advance, Handle, After;
    FirstCursor();
    WholeChunk(FIRST, 10, START);
    Opening(10, t, FIRST);
  }

  /** A delta that is taken in one piece. */
  lemma Delta(budget: int, t: Task, chars: nat, c: Cursor, log: seq<Call>, text: string)
    requires text != "" && (chars > 0 ==> budget - chars >= 1 + CloseCost(c))
    requires var chunk := TakeChunk(text, Max(budget - chars, 1), c); chunk.rest == "" && chunk.head != ""
    ensures var chunk := TakeChunk(text, Max(budget - chars, 1), c);
            Handle(After(budget, t, chars, c, false, log), Artifact(t, text, false))
            == After(budget, t, chars + |chunk.head|, chunk.cursor, false,
                     log + [Answer(Message(t, 0), chunk.head, |text| > Max(budget - chars, 1), c)])
  {
    hide TakeChunk;
    var w := After(budget, t, chars, c, false, log);
    var chunk := NextOf(w, t, text);
    assert "" + chunk.head == chunk.head;
    assert Append(AppendChunk(w, t, text), t, "") == AppendChunk(w, t, text);
  }

  lemma SecondDelta(t: Task, log: seq<Call>)
    ensures Handle(After(10, t, 7, Cursor(None, "```"), false, log), Artifact(t, SECOND, false))
         == After(10, t, 14, Cursor(Some(OPEN), ""), false,
                  log + [Answer(Message(t, 0), "xxx\n```", true, Cursor(None, "```"))])
  {
    hide TakeChunk, Handle, After;
    SecondChunk();
    Delta(10, t, 7, Cursor(None, "```"), log, SECOND);
  }

  /**
    A delta that ends inside an opening line, one that is cut after its last character, and a
    person below: the message is closed by the cut, and once more by the seal, and ends up at
    its budget of 10 and seven more.
   */
  lemma ClosesTwice(t: Task)
    ensures var w := RunAll(Idle(10), [Artifact(t, FIRST, false), Artifact(t, SECOND, false), Human(t.thread)]);
            Weight(CloseIfStale(w, t).log, Message(t, 0)) == 17
  {
    hide Weight, Handle, CloseIfStale, After;
    Runs(t);
    SealedLog(t, Before(t));
    Weighs(t);
  }

  function Before(t: Task): seq<Call> {
    [Opened(Message(t, 0)), Answer(Message(t, 0), FIRST, false, START)]
    + [Answer(Message(t, 0), "xxx\n```", true, Cursor(None, "```"))]
    + [Spoke(t.thread)]
  }

  lemma Runs(t: Task)
    ensures RunAll(Idle(10), [Artifact(t, FIRST, false), Artifact(t, SECOND, false), Human(t.thread)])
         == After(10, t, 14, Cursor(Some(OPEN), ""), true, Before(t))
  {
    var log1 := [Opened(Message(t, 0)), Answer(Message(t, 0), FIRST, false, START)];
    var log2 := log1 + [Answer(Message(t, 0), "xxx\n```", true, Cursor(None, "```"))];
    var events := [Artifact(t, FIRST, false), Artifact(t, SECOND, false), Human(t.thread)];
    var w2 := After(10, t, 14, Cursor(Some(OPEN), ""), false, log2);
    MarksIt(t, log2);
    hide Handle, After, Idle;
    FirstDelta(t);
    SecondDelta(t, log1);
    assert events[1..] == [events[1], events[2]] && events[1..][1..] == [events[2]] && [events[2]][1..] == [];
    assert RunAll(w2, [events[2]]) == Handle(w2, events[2]);
  }

  lemma MarksIt(t: Task, log: seq<Call>)
    ensures Handle(After(10, t, 14, Cursor(Some(OPEN), ""), false, log), Human(t.thread))
         == After(10, t, 14, Cursor(Some(OPEN), ""), true, log + [Spoke(t.thread)])
  {
  }

  lemma Weighs(t: Task)
    ensures var m := Message(t, 0);
            Weight(Before(t) + [Seal(m, "```")] + [Stopped(m, Cursor(Some(OPEN), ""))], m) == 17
  {
    hide Weight;
    var m := Message(t, 0);
    var log1 := [Opened(m)];
    var log2 := log1 + [Answer(m, FIRST, false, START)];
    var log3 := log2 + [Answer(m, "xxx\n```", true, Cursor(None, "```"))];
    var log4 := log3 + [Spoke(t.thread)];
    assert [] + [Opened(m)] == log1 && log4 == Before(t);
    LogWeighs([], Opened(m));
    LogWeighs(log1, Answer(m, FIRST, false, START));
    LogWeighs(log2, Answer(m, "xxx\n```", true, Cursor(None, "```")));
    LogWeighs(log3, Spoke(t.thread));
    LogWeighs(log4, Seal(m, "```"));
    LogWeighs(log4 + [Seal(m, "```")], Stopped(m, Cursor(Some(OPEN), "")));
    assert Weight([], m) == 0 by { NothingWeighs(m); }
  }

  lemma NothingWeighs(m: Message)
    ensures Weight([], m) == 0
  {
  }

  lemma SealedLog(t: Task, log: seq<Call>)
    ensures CloseIfStale(After(10, t, 14, Cursor(Some(OPEN), ""), true, log), t).log
         == log + [Seal(Message(t, 0), "```")] + [Stopped(Message(t, 0), Cursor(Some(OPEN), ""))]
  {
    assert "" + "```" == "```";
  }

  // ------------------------------------------------------------- going on after the closing line

  const TILDES := "~~~~~~~~          "
  const BARE := Fence("```", "")
  const INSIDE := Cursor(Some(BARE), "")

  lemma TildesTrail(c: Cursor)
    requires MarkerLength(c) <= 8
    ensures LimitOf(TILDES, 17, c) == 8
  {
    hide MarkerRun, LongestMarker;
    TildesPlain();
    OnlyMarker(TILDES);
    WholeRunThen(TILDES, 8);
  }

  lemma TildesPlain()
    ensures OneLine(TILDES) && AllOf(TILDES[..8], '~') && TILDES[8] == ' '
  {
  }

  lemma OnlyMarker(text: string)
    requires OneLine(text) && text != ""
    ensures LongestMarker(text, 0) == MarkerRun(text)
  {
    hide MarkerRun;
    assert text[0..] == text;
    OnlyFirst(text, 1);
  }

  lemma WholeRunThen(s: string, n: nat)
    requires 3 <= n < |s| && AllOf(s[..n], '~') && s[n] == ' '
    ensures MarkerRun(s) == n
  {
    RunOfAll(s[..n], '~');
    RunOfPrefix(s, n, '~');
    assert s[0..] == s && s[0] == s[..n][0];
    assert Run(s, ' ') == 0;
  }

  /** On one line only its start can open a block. */
  lemma {:induction false} OnlyFirst(text: string, at: nat)
    requires 1 <= at <= |text| && OneLine(text)
    ensures LongestMarker(text, at) == 0
    decreases |text| - at
  {
    hide MarkerRun;
    if at < |text| { OnlyFirst(text, at + 1); }
  }

  /** All of it is taken; its line is broken, and the scan starts a fresh one. */
  lemma TildesTaken(c: Cursor)
    requires '\n' !in c.partial && MarkerLength(c) <= 3
    ensures TakeChunk(TILDES, 17, c)
         == Chunk("~~~~~~~~" + (if c.fence.None? then "" else Closer(c.fence.value)), "", Cursor(c.fence, ""))
  {
    hide TakeChunk, LimitOf, JustTooLong;
    TildesTrail(c);
    assert TILDES[..8] == "~~~~~~~~" && AllOf(TILDES[8..], ' ');
    assert TrailsOff(TILDES, 17, c);
    TrailsOffBreaks(TILDES, 17, c);
    CutWithRoomIff(TILDES, 17, c);
  }

  /** One more complete line of a text that ends a line. */
  lemma MoreLine(c: Cursor, a: string, line: string, fence: Option<Fence>)
    requires Advance(c, a) == Cursor(fence, "") && '\n' !in line
    ensures Advance(c, a + (line + "\n")) == Cursor(Step(fence, line), "")
  {
    hide Advance, Step;
    AdvanceAction(c, a, line + "\n");
    AdvanceLine(Cursor(fence, ""), line);
    assert "" + line == line;
  }

  lemma MoreText(c: Cursor, a: string, rest: string, fence: Option<Fence>)
    requires Advance(c, a) == Cursor(fence, "") && '\n' !in rest
    ensures Advance(c, a + rest) == Cursor(fence, rest)
  {
    hide Advance;
    AdvanceAction(c, a, rest);
    AdvanceAlong(Cursor(fence, ""), rest);
    assert "" + rest == rest;
  }

  lemma Openings()
    ensures Advance(START, "```\n") == INSIDE && Advance(INSIDE, "\nx") == Cursor(Some(BARE), "x")
  {
    hide Advance, Step;
    AdvanceNothing(START);
    MarkerOpens(BARE);
    MoreLine(START, "", "```", None);
    AdvanceNothing(INSIDE);
    BlankStep(BARE);
    MoreLine(INSIDE, "", "", Some(BARE));
    MoreText(INSIDE, "" + ("" + "\n"), "x", Some(BARE));
    SpelledShort();
  }

  lemma SpelledShort()
    ensures "" + ("```" + "\n") == "```\n" && "" + ("" + "\n") + "x" == "\nx"
  {
  }

  lemma BlankStep(f: Fence)
    ensures Step(Some(f), "") == Some(f)
  {
  }

  /** Shown alone, the message ends outside the block. */
  lemma AloneCloses()
    ensures Advance(START, "```\n~~~~~~~~\n```\nx").fence == None
  {
    hide Advance, Step;
    var a, b := "```\n", "~~~~~~~~" + "\n";
    Openings();
    TildeStep("~~~~~~~~");
    MoreLine(START, a, "~~~~~~~~", Some(BARE));
    MarkerCloses(BARE, "```");
    MoreLine(START, a + b, "```", Some(BARE));
    MoreText(START, a + b + ("```" + "\n"), "x", None);
    Spelled();
  }

  lemma Spelled()
    ensures "```\n" + ("~~~~~~~~" + "\n") + ("```" + "\n") + "x" == "```\n~~~~~~~~\n```\nx"
  {
  }

  lemma TildeStep(line: string)
    requires |line| >= 3 && AllOf(line, '~')
    ensures Step(Some(BARE), line) == Some(BARE)
  {
    hide FenceLine;
    WholeRun(line, '~');
  }

  function GoingOn(t: Task): seq<Event> {
    [Artifact(t, "```\n", false), Artifact(t, TILDES, false), Artifact(t, "\nx", false)]
  }

  function Sends(m: Message): seq<Call> {
    [Opened(m), Answer(m, "```\n", false, START)]
    + [Answer(m, "~~~~~~~~\n```", true, INSIDE)]
    + [Answer(m, "\nx", false, INSIDE)]
  }

  lemma GoesOnRuns(t: Task)
    ensures RunAll(Idle(21), GoingOn(t)) == After(21, t, 18, Cursor(Some(BARE), "x"), false, Sends(Message(t, 0)))
  {
    hide TakeChunk, Handle, After, Idle, Advance;
    var events, m := GoingOn(t), Message(t, 0);
    var log1 := [Opened(m), Answer(m, "```\n", false, START)];
    Openings();
    WholeChunk("```\n", 21, START);
    Opening(21, t, "```\n");
    TildesTaken(INSIDE);
    assert "~~~~~~~~" + Closer(BARE) == "~~~~~~~~\n```";
    Delta(21, t, 4, INSIDE, log1, TILDES);
    WholeChunk("\nx", 5, INSIDE);
    Delta(21, t, 16, INSIDE, log1 + [Answer(m, "~~~~~~~~\n```", true, INSIDE)], "\nx");
    assert events[1..] == [events[1], events[2]] && events[1..][1..] == [events[2]] && [events[2]][1..] == [];
    var w2 := After(21, t, 16, INSIDE, false, log1 + [Answer(m, "~~~~~~~~\n```", true, INSIDE)]);
    assert RunAll(w2, [events[2]]) == Handle(w2, events[2]);
  }

  lemma SentText(m: Message)
    ensures Content(Sends(m), m) == "```\n~~~~~~~~\n```\nx"
  {
    hide Content;
    ThreeAnswers(m, Answer(m, "```\n", false, START), Answer(m, "~~~~~~~~\n```", true, INSIDE),
        Answer(m, "\nx", false, INSIDE));
    SpelledAll();
  }

  lemma SpelledAll()
    ensures "```\n" + "~~~~~~~~\n```" + "\nx" == "```\n~~~~~~~~\n```\nx"
  {
  }

  lemma ThreeAnswers(m: Message, a: Call, b: Call, d: Call)
    requires IsAnswer(a, m) && IsAnswer(b, m) && IsAnswer(d, m)
    ensures Content([Opened(m), a] + [b] + [d], m) == a.text + b.text + d.text
  {
    hide Content;
    OneAnswer(m, a);
    Reads([Opened(m), a], b, m);
    Reads([Opened(m), a] + [b], d, m);
  }

  lemma OneAnswer(m: Message, a: Call)
    requires IsAnswer(a, m)
    ensures Content([Opened(m), a], m) == a.text
  {
    hide Content;
    var log1 := [Opened(m)];
    assert [] + [Opened(m)] == log1 && log1 + [a] == [Opened(m), a];
    Reads([], Opened(m), m);
    Reads(log1, a, m);
    assert "" + a.text == a.text;
  }

  /** What one more call adds to the text of a message. */
  lemma Reads(log: seq<Call>, call: Call, m: Message)
    ensures Content(log + [call], m)
         == Content(log, m) + (if IsAnswer(call, m) || IsSeal(call, m) then call.text else "")
    ensures Content([], m) == ""
  {
    LogReads(log, call);
    assert Content(log, m) + "" == Content(log, m);
  }

  /**
    A message that goes on after its closing line: the answer is still inside the block, and
    what comes next is shown outside it.
   */
  lemma GoesOnClosed(t: Task)
    ensures var w, m := RunAll(Idle(21), GoingOn(t)), Message(t, 0);
            && At(w, t).message == Some(m) && At(w, t).cursor == Cursor(Some(BARE), "x")
            && Content(w.log, m) == "```\n~~~~~~~~\n```\nx"
            && Advance(START, Content(w.log, m)).fence == None
  {
    hide RunAll, Content, Advance;
    GoesOnRuns(t);
    SentText(Message(t, 0));
    AloneCloses();
  }

  // ------------------------------------------------------------- a seal with nothing to close

  const CARD := Card(0, "", "")

  function Owing(t: Task, message: Option<Message>, chars: nat, charged: set<nat>, stale: bool, log: seq<Call>): World {
    World(100, map[t := Stream(message, chars, charged, INSIDE, true, stale)], if message.None? then 1 else 2, log)
  }

  function Ended(t: Task): seq<Call> {
    [Opened(Message(t, 0)), Answer(Message(t, 0), "```\n", false, START)] + [Stopped(Message(t, 0), INSIDE)]
  }

  lemma EndsInside(t: Task)
    ensures Handle(Idle(100), Artifact(t, "```\n", true)) == Owing(t, None, 0, {}, false, Ended(t))
  {
    hide TakeChunk, Advance;
    Openings();
    WholeChunk("```\n", 100, START);
    hide Append;
    Opening(100, t, "```\n");
    assert CloseIfStale(Idle(100), t) == Idle(100);
  }

  lemma CardOpens(t: Task, log: seq<Call>)
    ensures Handle(Owing(t, None, 0, {}, false, log), Activity(t, [CARD]))
         == Owing(t, Some(Message(t, 1)), 40, {0}, false, log + [Opened(Message(t, 1))] + [Drawn(Message(t, 1), CARD)])
  {
    var w := Owing(t, None, 0, {}, false, log);
    assert [CARD][1..] == [];
    assert DrawAll(Draw(w, t, CARD), t, []) == Draw(w, t, CARD);
    assert {} + {0} == {0};
  }

  lemma ThenMarked(t: Task, log: seq<Call>)
    ensures Handle(Owing(t, Some(Message(t, 1)), 40, {0}, false, log), Human(t.thread))
         == Owing(t, Some(Message(t, 1)), 40, {0}, true, log + [Spoke(t.thread)])
  {
  }

  function CardOnly(t: Task): seq<Event> {
    [Artifact(t, "```\n", true), Activity(t, [CARD]), Human(t.thread)]
  }

  /**
    An answer that ends inside a block, a card after it, and a person below: the card's message
    gets a seal though it has no block to close, and shown alone that opens one.
   */
  lemma SealOpensBlock(t: Task)
    ensures var w := RunAll(Idle(100), CardOnly(t)); var m := Message(t, 1);
            && At(w, t).stale && At(w, t).message == Some(m)
            && Content(SealFence(w, t).log, m) == "```"
            && Step(None, Content(SealFence(w, t).log, m)) == Some(BARE)
  {
    hide Handle, Owing, Content, Idle, Step, Draw;
    var events := CardOnly(t);
    EndsInside(t);
    CardOpens(t, Ended(t));
    var log := Ended(t) + [Opened(Message(t, 1))] + [Drawn(Message(t, 1), CARD)];
    ThenMarked(t, log);
    assert events[1..] == [events[1], events[2]] && events[1..][1..] == [events[2]] && [events[2]][1..] == [];
    var w2 := Owing(t, Some(Message(t, 1)), 40, {0}, false, log);
    assert RunAll(w2, [events[2]]) == Handle(w2, events[2]);
    var w1 := Owing(t, None, 0, {}, false, Ended(t));
    assert RunAll(w1, [events[1], events[2]]) == RunAll(w2, [events[2]]);
    var w := RunAll(Idle(100), events);
    StillOwing(t, w, log + [Spoke(t.thread)]);
    SealOpensBlockIff(100, events, t);
  }

  lemma StillOwing(t: Task, w: World, log: seq<Call>)
    requires w == Owing(t, Some(Message(t, 1)), 40, {0}, true, log)
    ensures At(w, t) == Stream(Some(Message(t, 1)), 40, {0}, INSIDE, true, true)
  {
  }

  function ClosingLine(t: Task): seq<Event> {
    [Artifact(t, "```\n```", false), Human(t.thread)]
  }

  const BEFORE_SEAL := Cursor(Some(BARE), "```")

  /** The agent's own closing line, not ended yet. */
  lemma OwnClosing()
    ensures Advance(START, "```\n```") == BEFORE_SEAL
    ensures M.LeftOpen("```\n```" + "\n```") == Some(BARE)
  {
    hide Advance, Step, M.LeftOpen;
    AdvanceNothing(START);
    MarkerOpens(BARE);
    MarkerCloses(BARE, "```");
    var line := "```" + "\n";
    MoreLine(START, "", "```", None);
    MoreText(START, "" + line, "```", Some(BARE));
    MoreLine(START, "" + line, "```", Some(BARE));
    MoreText(START, "" + line + line, "```", None);
    SpelledClosing();
    LeftOpenIs("```\n```" + "\n```");
  }

  lemma SpelledClosing()
    ensures var line := "```" + "\n";
            "" + line + "```" == "```\n```" && "" + line + line + "```" == "```\n```" + "\n```"
  {
  }

  lemma MarksMessage(budget: int, t: Task, chars: nat, c: Cursor, log: seq<Call>)
    ensures Handle(After(budget, t, chars, c, false, log), Human(t.thread))
         == After(budget, t, chars, c, true, log + [Spoke(t.thread)])
  {
  }

  /**
    An answer that ends inside its own closing line, and a person below: the seal ends that line
    and opens a block of its own.
   */
  lemma SealReopens(t: Task)
    ensures var w, m := RunAll(Idle(100), ClosingLine(t)), Message(t, 0);
            && At(w, t).stale && At(w, t).message == Some(m)
            && M.LeftOpen(Content(SealFence(w, t).log, m)) == Some(BARE)
  {
    hide TakeChunk, Handle, Idle, Advance, Content, M.LeftOpen;
    var events, m := ClosingLine(t), Message(t, 0);
    OwnClosing();
    WholeChunk("```\n```", 100, START);
    Opening(100, t, "```\n```");
    var answer := Answer(m, "```\n```", false, START);
    MarksMessage(100, t, 7, BEFORE_SEAL, [Opened(m), answer]);
    assert events[1..] == [events[1]] && [events[1]][1..] == [];
    var w1 := After(100, t, 7, BEFORE_SEAL, false, [Opened(m), answer]);
    assert RunAll(w1, [events[1]]) == Handle(w1, events[1]);
    assert RunAll(Idle(100), events) == RunAll(w1, [events[1]]);
    OneAnswer(m, answer);
    Reads([Opened(m), answer], Spoke(t.thread), m);
    Reads([Opened(m), answer] + [Spoke(t.thread)], Seal(m, "\n" + "```"), m);
    assert "```\n```" + "" == "```\n```" && "\n" + "```" == "\n```";
  }

  // ------------------------------------------------------------- newlines lost

  const SUCH := "aaa\n\n"

  lemma PlainLines()
    ensures Lines(SUCH) == ["aaa", "", ""]
  {
    assert SUCH == ("aaa" + ['\n']) + ("" + ['\n']);
    LinesTerminated("aaa");
    LinesTerminated("");
    LinesAtBoundary("aaa" + ['\n'], "" + ['\n']);
  }

  lemma PlainText()
    ensures Advance(START, SUCH).fence == None && LimitOf(SUCH, 4, START) == 4
  {
    hide Lines, LongestMarker, Step;
    PlainLines();
    assert "" + SUCH == SUCH;
    assert Lines(SUCH)[..2] == ["aaa", ""] && ["aaa", ""][1..] == [""] && [""][1..] == [];
    PlainSteps();
    assert StepAll(None, [""]) == StepAll(Step(None, ""), []);
    NoMarkersIn(SUCH, 0);
  }

  lemma PlainSteps()
    ensures Step(None, "aaa") == None && Step(None, "") == None
  {
  }

  lemma NoMarkersIn(text: string, at: nat)
    requires at <= |text| && forall i :: 0 <= i < |text| ==> text[i] in {'a', '\n'}
    ensures LongestMarker(text, at) == 0
    decreases |text| - at
  {
    assert MarkerRun(text[at..]) == 0 by {
      if at < |text| { assert text[at..][0] == text[at]; }
    }
    if at < |text| { NoMarkersIn(text, at + 1); }
  }

  /** All of the delta is taken, and its newlines are dropped. */
  lemma SuchChunk()
    ensures TakeChunk(SUCH, 4, START) == Chunk("aaa", "", START)
  {
    hide Advance, Candidates, Chosen, TakeChunk, LimitOf;
    PlainText();
    assert SUCH[3] == SUCH[4] == '\n' && |SUCH| == 5;
    assert JustTooLong(SUCH, 4, START);
    ChunkCases(SUCH, 4, START);
    LatestIsPicked(SUCH, 4, START);
    assert SUCH[..5] == SUCH && SUCH[5..] == "";
    Stripped();
  }

  lemma Stripped()
    ensures StripNewlines(SUCH) == "aaa"
  {
    assert SUCH[..4] == "aaa\n" && "aaa\n"[..3] == "aaa";
    assert StripNewlines(SUCH) == StripNewlines(SUCH[..4]);
    assert StripNewlines("aaa\n") == StripNewlines("aaa\n"[..3]);
  }

  function TwoParagraphs(t: Task): seq<Event> {
    [Artifact(t, SUCH, false), Artifact(t, "b", false)]
  }

  /** A delta just too long that ends a paragraph, and the next one: the two run together in one message. */
  lemma ParagraphsRunTogether(t: Task)
    ensures var w := RunAll(Idle(4), TwoParagraphs(t));
            TextOf(TwoParagraphs(t), t) == "aaa\n\nb" && Content(w.log, Message(t, 0)) == "aaab"
  {
    hide TakeChunk, Handle, After, Idle, Advance, Content;
    var events, m := TwoParagraphs(t), Message(t, 0);
    SuchChunk();
    Opening(4, t, SUCH);
    WholeChunk("b", 1, START);
    var log1 := [Opened(m), Answer(m, "aaa", true, START)];
    Delta(4, t, 3, START, log1, "b");
    assert events[1..] == [events[1]] && [events[1]][1..] == [];
    var w1 := After(4, t, 3, START, false, log1);
    assert RunAll(w1, [events[1]]) == Handle(w1, events[1]);
    assert w1 == RunAll(Idle(4), [events[0]]) by { assert [events[0]][1..] == []; }
    var log2 := log1 + [Answer(m, "b", false, START)];
    assert After(4, t, 4, Cursor(None, "b"), false, log2) == RunAll(Idle(4), events) by {
      assert Advance(START, "b") == Cursor(None, "b") by { AdvanceAlong(START, "b"); assert "" + "b" == "b"; }
    }
    LogOf(4, t, 4, Cursor(None, "b"), log2);
    TwoAnswers(m, Answer(m, "aaa", true, START), Answer(m, "b", false, START));
    assert "aaa" + "b" == "aaab";
    WholeText(t);
  }

  lemma LogOf(budget: int, t: Task, chars: nat, c: Cursor, log: seq<Call>)
    ensures After(budget, t, chars, c, false, log).log == log
  {
  }

  lemma WholeText(t: Task)
    ensures TextOf(TwoParagraphs(t), t) == "aaa\n\nb"
  {
    var events := TwoParagraphs(t);
    assert events[..1] == [events[0]] && [events[0]][..0] == [];
    assert TextOf([events[0]], t) == "" + SUCH;
    assert "" + SUCH == SUCH && SUCH + "b" == "aaa\n\nb";
  }

  lemma TwoAnswers(m: Message, a: Call, b: Call)
    requires IsAnswer(a, m) && IsAnswer(b, m)
    ensures Content([Opened(m), a] + [b], m) == a.text + b.text
  {
    hide Content;
    OneAnswer(m, a);
    Reads([Opened(m), a], b, m);
  }

  // ------------------------------------------------------------- an opening line forgotten

  function Forgetting(t: Task): seq<Event> {
    [Artifact(t, TILDES, false), Artifact(t, "\nx", false)]
  }

  lemma AfterOpener()
    ensures Advance(START, "~~~~~~~~\nx") == Cursor(Some(Fence("~~~~~~~~", "")), "x")
    ensures Advance(START, "\nx") == Cursor(None, "x")
  {
    hide Advance, Step;
    AdvanceNothing(START);
    MarkerOpens(Fence("~~~~~~~~", ""));
    MoreLine(START, "", "~~~~~~~~", None);
    MoreText(START, "" + ("~~~~~~~~" + "\n"), "x", Some(Fence("~~~~~~~~", "")));
    BlankOutside();
    MoreLine(START, "", "", None);
    MoreText(START, "" + ("" + "\n"), "x", None);
    SpelledToo();
  }

  lemma SpelledToo()
    ensures "" + ("~~~~~~~~" + "\n") + "x" == "~~~~~~~~\nx" && "" + ("" + "\n") + "x" == "\nx"
  {
  }

  lemma BlankOutside()
    ensures Step(None, "") == None
  {
  }

  /** An opening line that trails off: the message goes on inside the block, and the bridge does not know. */
  lemma OpenerForgotten(t: Task)
    ensures var w, m := RunAll(Idle(17), Forgetting(t)), Message(t, 0);
            && At(w, t).message == Some(m) && At(w, t).cursor == Cursor(None, "x")
            && Advance(START, Content(w.log, m)) == Cursor(Some(Fence("~~~~~~~~", "")), "x")
  {
    hide TakeChunk, Handle, After, Idle, Advance, Content;
    var events, m := Forgetting(t), Message(t, 0);
    TildesTaken(START);
    assert "~~~~~~~~" + "" == "~~~~~~~~";
    Opening(17, t, TILDES);
    var log1 := [Opened(m), Answer(m, "~~~~~~~~", true, START)];
    AfterOpener();
    WholeChunk("\nx", 9, START);
    Delta(17, t, 8, START, log1, "\nx");
    assert events[1..] == [events[1]] && [events[1]][1..] == [];
    var w1 := After(17, t, 8, START, false, log1);
    assert RunAll(w1, [events[1]]) == Handle(w1, events[1]);
    assert RunAll(Idle(17), events) == RunAll(w1, [events[1]]);
    LogOf(17, t, 10, Cursor(None, "x"), log1 + [Answer(m, "\nx", false, START)]);
    StreamOf(17, t, 10, Cursor(None, "x"), log1 + [Answer(m, "\nx", false, START)]);
    TwoAnswers(m, Answer(m, "~~~~~~~~", true, START), Answer(m, "\nx", false, START));
    assert "~~~~~~~~" + "\nx" == "~~~~~~~~\nx";
  }

  lemma StreamOf(budget: int, t: Task, chars: nat, c: Cursor, log: seq<Call>)
    ensures var s := At(After(budget, t, chars, c, false, log), t); s.message == Some(Message(t, 0)) && s.cursor == c
  {
  }

  // ------------------------------------------------------------- what a card weighs

  const SMALL := Card(0, "ab", "cde")

  lemma DrawsSmall(t: Task)
    ensures Handle(Idle(100), Activity(t, [SMALL])).log == [Opened(Message(t, 0))] + [Drawn(Message(t, 0), SMALL)]
  {
    assert [SMALL][1..] == [];
    assert DrawAll(Draw(Idle(100), t, SMALL), t, []) == Draw(Idle(100), t, SMALL);
  }

  /** A card's title and details count by the character, and what Slack draws around them as forty. */
  lemma CardWeighs(t: Task)
    ensures Weight(Handle(Idle(100), Activity(t, [SMALL])).log, Message(t, 0)) == 2 + 3 + 40
  {
    hide Weight, Handle, Idle;
    DrawsSmall(t);
    var m := Message(t, 0);
    assert [] + [Opened(m)] == [Opened(m)];
    LogWeighs([], Opened(m));
    LogWeighs([Opened(m)], Drawn(m, SMALL));
    NothingWeighs(m);
    NoCards(m);
  }

  lemma NoCards(m: Message)
    ensures CardsOn([Opened(m)], m) == {}
  {
  }
}
