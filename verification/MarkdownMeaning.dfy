/**
  What a split means to a reader: when no line has to be broken, every line of the text is
  shown by its piece, rendered alone, just as it was in the whole, as prose or as code of
  the same block.
 */
module MarkdownMeaning {
  import opened Options
  import opened Text
  import opened Markdown
  import opened MarkdownScan
  import opened MarkdownSize

  /** A line as a reader sees it: prose, or code in a block with this marker and info string. */
  datatype Shown = Shown(line: string, block: Option<Fence>)

  /**
    What a text shows: prose lines other than blank ones, and every line of its code blocks. The
    fence lines themselves are not shown.
   */
  function Meaning(fence: Option<Fence>, lines: seq<string>): seq<Shown>
    decreases |lines|
  {
    if lines == [] then []
    else
      var after := Step(fence, lines[0]);
      ShownBy(fence, after, lines[0]) + Meaning(after, lines[1..])
  }

  function ShownBy(before: Option<Fence>, after: Option<Fence>, line: string): seq<Shown> {
    if before.None? && after.None? then (if line == "" then [] else [Shown(line, None)])
    else if before.Some? && after.Some? then [Shown(line, before)]
    else []
  }

  /** What a message shows, rendered on its own. */
  function MessageMeaning(message: string): seq<Shown> {
    Meaning(None, Lines(message))
  }

  function MessagesMeaning(messages: seq<string>): seq<Shown> {
    if messages == [] then [] else MessageMeaning(messages[0]) + MessagesMeaning(messages[1..])
  }

  /** The fence a message leaves open, its last line included. */
  function LeftOpen(message: string): Option<Fence> {
    StepAll(None, Lines(message))
  }

  predicate AllClosed(messages: seq<string>) {
    forall i :: 0 <= i < |messages| ==> LeftOpen(messages[i]) == None
  }

  lemma {:induction false} MeaningAppend(fence: Option<Fence>, a: seq<string>, b: seq<string>)
    ensures Meaning(fence, a + b) == Meaning(fence, a) + Meaning(StepAll(fence, a), b)
    decreases |a|
  {
    hide Step, ShownBy;
    if a == [] {
      assert a + b == b;
    } else {
      assert (a + b)[1..] == a[1..] + b;
      MeaningAppend(Step(fence, a[0]), a[1..], b);
    }
  }

  // ------------------------------------------------------------- reopening

  /** What holds of every fence a scan can have open. */
  ghost predicate Accepted(f: Fence) {
    Genuine(f) && (f.marker[0] == '`' ==> '`' !in f.info)
  }

  /** The reopening line glues the info string to the marker; a tilde info string must not extend it. */
  predicate Reopenable(f: Fence) {
    !(f.marker != "" && f.marker[0] == '~' && f.info != "" && f.info[0] == '~')
  }

  lemma {:induction false} RunOfMarker(marker: string, info: string, c: char)
    requires AllOf(marker, c)
    ensures Run(marker + info, c) == |marker| + Run(info, c)
    decreases |marker|
  {
    if marker == "" {
      assert marker + info == info;
    } else {
      assert (marker + info)[1..] == marker[1..] + info;
      RunOfMarker(marker[1..], info, c);
    }
  }

  lemma MarkerLine(f: Fence)
    requires Genuine(f)
    ensures var line := f.marker + f.info;
            MarkerRun(line) == |f.marker| + Run(f.info, f.marker[0])
    ensures (f.info == "" || f.info[0] != f.marker[0]) ==> FenceLine(f.marker + f.info) == Some(f)
  {
    var line := f.marker + f.info;
    assert line[0] == f.marker[0];
    assert Run(line, ' ') == 0 && line[0..] == line;
    RunOfMarker(f.marker, f.info, f.marker[0]);
    if f.info == "" || f.info[0] != f.marker[0] {
      assert line[..|f.marker|] == f.marker && line[|f.marker|..] == f.info;
    }
  }

  /** Reopening a block restores it, exactly when its info string does not extend its marker. */
  lemma ReopensExactly(f: Fence)
    requires Accepted(f)
    ensures Step(None, f.marker + f.info) == Some(f) <==> Reopenable(f)
  {
    hide MarkerRun, FenceLine, Genuine;
    assert |f.marker| >= 3 && (f.marker[0] == '`' || f.marker[0] == '~') by { GenuineParts(f); }
    MarkerLine(f);
    var line := f.marker + f.info;
    if Reopenable(f) {
      assert f.info != "" ==> f.info[0] in f.info;
    } else {
      assert Run(f.info, '~') >= 1;
      StepMarkerLength(line);
    }
  }

  lemma GenuineParts(f: Fence)
    requires Genuine(f)
    ensures |f.marker| >= 3 && (f.marker[0] == '`' || f.marker[0] == '~')
  {
  }

  lemma StepMarkerLength(line: string)
    ensures Step(None, line).Some? ==> |Step(None, line).value.marker| == MarkerRun(line)
  {
  }

  /** The bare marker closes its block. */
  lemma MarkerCloses(f: Fence)
    requires Genuine(f)
    ensures Step(Some(f), f.marker) == None
  {
    var bare := Fence(f.marker, "");
    MarkerLine(bare);
    assert f.marker + "" == f.marker;
  }

  // ------------------------------------------------------------- the hypotheses

  /** The fence can be reopened, in a line of at most `bound` characters with its newline. */
  ghost predicate FenceTame(fence: Option<Fence>, bound: nat) {
    fence.Some? ==> Accepted(fence.value) && Reopenable(fence.value) && |ReopenFence(fence.value)| <= bound
  }

  /** Every fence these lines open is tame. */
  ghost predicate Tame(fence: Option<Fence>, lines: seq<string>, bound: nat)
    decreases |lines|
  {
    FenceTame(fence, bound) && (lines == [] || Tame(Step(fence, lines[0]), lines[1..], bound))
  }

  lemma {:induction false} TameParts(fence: Option<Fence>, a: seq<string>, b: seq<string>, bound: nat)
    requires Tame(fence, a + b, bound)
    ensures Tame(StepAll(fence, a), b, bound) && FenceTame(fence, bound)
    decreases |a|
  {
    hide Step, FenceTame;
    if a == [] {
      assert a + b == b;
    } else {
      assert (a + b)[1..] == a[1..] + b;
      TameParts(Step(fence, a[0]), a[1..], b, bound);
    }
  }

  // ------------------------------------------------------------- one piece

  lemma BlankStep(fence: Option<Fence>)
    ensures Step(fence, "") == fence
  {
    ShortLine(fence, "");
  }

  /** A piece that starts by reopening a tame fence shows what its text shows inside that fence. */
  lemma ReopenedMeaning(fence: Option<Fence>, body: string, bound: nat)
    requires FenceTame(fence, bound)
    ensures var message := Reopen(Cursor(fence, "")) + body;
            && MessageMeaning(message) == Meaning(fence, Lines(body))
            && LeftOpen(message) == StepAll(fence, Lines(body))
  {
    hide Step, Accepted, Reopenable;
    match fence
    case None =>
      assert "" + body == body;
    case Some(f) =>
      var line := f.marker + f.info;
      ReopensExactly(f);
      assert '\n' !in line by { MarkerHasNoNewline(f); }
      LinesTerminated(line);
      assert ReopenFence(f) == line + ['\n'];
      LinesAtBoundary(ReopenFence(f), body);
      assert Lines(ReopenFence(f) + body) == [line] + Lines(body);
      assert ([line] + Lines(body))[1..] == Lines(body);
      assert ShownBy(None, fence, line) == [];
      assert Meaning(None, [line] + Lines(body)) == [] + Meaning(fence, Lines(body));
  }

  lemma MarkerHasNoNewline(f: Fence)
    requires Accepted(f)
    ensures '\n' !in f.marker + f.info && '\n' !in f.marker
  {
  }

  /** Blank lines at the end of prose show nothing and change nothing. */
  lemma {:induction false} TrailingBlanks(fence: Option<Fence>, kept: string, blanks: string)
    requires AllOf(blanks, '\n') && StepAll(fence, Lines(kept)) == None
    ensures Meaning(fence, Lines(kept + blanks)) == Meaning(fence, Lines(kept))
    ensures StepAll(fence, Lines(kept + blanks)) == None
    decreases |blanks|
  {
    hide Step, Lines;
    if blanks == "" {
      assert kept + blanks == kept;
    } else {
      var shorter := blanks[..|blanks| - 1];
      TrailingBlanks(fence, kept, shorter);
      var body := kept + shorter;
      assert kept + blanks == body + ['\n'];
      LinesUnbroken("") by { hide *; }
      assert Lines(['\n']) == ["", ""] by { LinesTerminated(""); assert "" + ['\n'] == ['\n']; }
      LinesAppend(body, ['\n']);
      var ls := Lines(body);
      assert ls[|ls| - 1] + "" == ls[|ls| - 1];
      assert Lines(body + ['\n']) == ls + [""];
      MeaningAppend(fence, ls, [""]);
      StepAllAppend(fence, ls, [""]);
      BlankStep(None);
      BlankTail();
    }
  }

  lemma BlankTail()
    ensures Meaning(None, [""]) == [] && StepAll(None, [""]) == None
  {
    BlankStep(None);
    assert [""][1..] == [];
  }

  /** The state after the lines kept, when what was dropped is blank. */
  lemma {:induction false} BlanksKeepState(fence: Option<Fence>, kept: string, blanks: string)
    requires AllOf(blanks, '\n')
    ensures StepAll(fence, Lines(kept + blanks)) == StepAll(fence, Lines(kept))
    decreases |blanks|
  {
    hide Step, Lines;
    if blanks == "" {
      assert kept + blanks == kept;
    } else {
      var shorter := blanks[..|blanks| - 1];
      BlanksKeepState(fence, kept, shorter);
      var body := kept + shorter;
      assert kept + blanks == body + ['\n'];
      assert Lines(['\n']) == ["", ""] by { LinesTerminated(""); assert "" + ['\n'] == ['\n']; }
      LinesAppend(body, ['\n']);
      var ls := Lines(body);
      assert ls[|ls| - 1] + "" == ls[|ls| - 1];
      assert Lines(body + ['\n']) == ls + [""];
      StepAllAppend(fence, ls, [""]);
      BlankStep(StepAll(fence, ls));
      assert [""][1..] == [];
      assert StepAll(StepAll(fence, ls), [""]) == StepAll(Step(StepAll(fence, ls), ""), []);
    }
  }

  /** A piece cut at a line boundary shows the lines before the cut, and closes what it opened. */
  lemma CutMeaning(fence: Option<Fence>, raw: string, bound: nat)
    requires raw != "" && raw[|raw| - 1] == '\n'
    requires Tame(fence, Lines(raw), bound)
    ensures var lines := Lines(raw)[..|Lines(raw)| - 1];
            var after := StepAll(fence, lines);
            var head := match after case None => StripNewlines(raw) case Some(f) => raw + f.marker;
            var message := Reopen(Cursor(fence, "")) + head;
            && (head != "" ==> MessageMeaning(message) == Meaning(fence, lines) && LeftOpen(message) == None)
            && (head == "" ==> Meaning(fence, lines) == [])
  {
    hide Step, Lines, FenceTame;
    var lines := Lines(raw)[..|Lines(raw)| - 1];
    var after := StepAll(fence, lines);
    LinesAtBoundary(raw, "");
    assert Lines(raw) == lines + [""];
    TameParts(fence, lines, [""], bound);
    MeaningAppend(fence, lines, [""]);
    StepAllAppend(fence, lines, [""]);
    BlankStep(after);
    assert [""][1..] == [];
    assert StepAll(after, [""]) == StepAll(Step(after, ""), []);
    match after
    case Some(f) =>
      var head := raw + f.marker;
      assert Genuine(f) && '\n' !in f.marker by { TameGenuine(f, bound, [""]); MarkerHasNoNewline(f); }
      MarkerCloses(f);
      LinesUnbroken(f.marker);
      LinesAtBoundary(raw, f.marker);
      assert Lines(head) == lines + [f.marker];
      MeaningAppend(fence, lines, [f.marker]);
      StepAllAppend(fence, lines, [f.marker]);
      assert [f.marker][1..] == [];
      assert Meaning(after, [f.marker]) == ShownBy(after, None, f.marker) + Meaning(None, []);
      assert StepAll(after, [f.marker]) == StepAll(Step(after, f.marker), []);
      ReopenedMeaning(fence, head, bound);
    case None =>
      var head := StripNewlines(raw);
      var blanks := raw[|head|..];
      assert raw == head + blanks;
      BlanksKeepState(fence, head, blanks);
      TrailingBlanks(fence, head, blanks);
      BlankTail();
      ReopenedMeaning(fence, head, bound);
      if head == "" {
        LinesUnbroken("");
        BlankStep(fence);
        assert StepAll(fence, [""]) == StepAll(Step(fence, ""), []);
        BlankTail();
      }
  }

  lemma TameGenuine(f: Fence, bound: nat, lines: seq<string>)
    requires Tame(Some(f), lines, bound)
    ensures Genuine(f) && Accepted(f)
  {
  }

  // ------------------------------------------------------------- where the cut falls

  lemma {:induction false} LongestMarkerOfSuffix(text: string, offset: nat, at: nat)
    requires 1 <= offset <= |text| && text[offset - 1] == '\n' && at <= |text| - offset
    ensures LongestMarker(text[offset..], at) <= LongestMarker(text, 0)
    decreases |text| - offset - at
  {
    hide MarkerRun;
    var tail := text[offset..];
    assert tail[at..] == text[offset + at..];
    if LineStart(tail, at) {
      LongestMarkerCovers(text, 0, offset + at);
    }
    if at < |tail| {
      LongestMarkerOfSuffix(text, offset, at + 1);
    }
  }

  /**
    Room for whole lines: a text too long for the budget is cut at a line boundary, with
    something left over if the cut is inside a fence.
   */
  lemma CutsAtLine(text: string, budget: int, c: Cursor, longest: nat, marker: nat)
    requires Scanned(c) && c.partial == "" && LinesWithin(text, longest)
    requires MarkerOf(c.fence) <= marker && LongestMarker(text, 0) <= marker
    requires |text| > budget >= longest + marker + 1
    ensures Candidates(text, LimitOf(text, budget, c), c) != []
    ensures var cut := Chosen(text, budget, c);
            && text[cut.offset - 1] == '\n'
            && cut.fence == StepAll(c.fence, Lines(text[..cut.offset])[..|Lines(text[..cut.offset])| - 1])
            && (cut.fence.Some? ==> cut.offset < |text|)
  {
    hide Step, LongestMarker, Genuine, LinesWithin, Chosen, Candidates;
    var limit := LimitOf(text, budget, c);
    var nl := IndexOfNewline(text, 0);
    if nl < 0 {
      assert text[0..|text|] == text;
      UnbrokenWithin(text, 0, |text|, longest);
    } else {
      UnbrokenWithin(text, 0, nl, longest);
    }
    assert nl <= limit;
    CandidatesAreBoundaries(text, limit, c);
    var first := Candidate(nl + 1, RankOf(Advance(c, text[..nl + 1]).fence, Advance(c, text[..nl]).partial),
        Advance(c, text[..nl + 1]).fence);
    assert IsBoundary(text, limit, c, first);
    var cut := Chosen(text, budget, c);
    assert IsBoundary(text, limit, c, cut);
    assert c.partial + text[..cut.offset] == text[..cut.offset];
    UnfoldCandidates(text, limit, c);
    if cut.fence.Some? {
      var bound := Max(MarkerLength(c), LongestMarker(text, 0));
      CandidateMarkers(text, limit, c, c.fence, 0, bound);
      GenuineParts(cut.fence.value) by { assert GenuineIfAny(cut.fence); }
    }
  }

  lemma {:induction false} MessagesMeaningCons(first: seq<string>, rest: seq<string>)
    requires |first| <= 1
    ensures MessagesMeaning(first + rest) == MessagesMeaning(first) + MessagesMeaning(rest)
  {
    hide MessageMeaning;
    if first == [] {
      assert first + rest == rest;
    } else {
      assert (first + rest)[1..] == rest;
      assert MessagesMeaning(first) == MessageMeaning(first[0]) + MessagesMeaning(first[1..]);
    }
  }

  // ------------------------------------------------------------- the whole split

  /** What a caller checks: line lengths, reopening lines, markers, and that no tilde info string extends its marker. */
  ghost predicate Spacious(text: string, fence: Option<Fence>, max: int, longest: nat, reopen: nat, marker: nat) {
    && LinesWithin(text, longest)
    && Tame(fence, Lines(text), reopen)
    && MarkerOf(fence) <= marker && LongestMarker(text, 0) <= marker
    && max >= longest + reopen + marker + 1
  }

  lemma SpaciousRest(
      text: string, fence: Option<Fence>, max: int, longest: nat, reopen: nat, marker: nat, offset: nat,
      after: Option<Fence>)
    requires Spacious(text, fence, max, longest, reopen, marker)
    requires 1 <= offset <= |text| && text[offset - 1] == '\n'
    requires after == StepAll(fence, Lines(text[..offset])[..|Lines(text[..offset])| - 1])
    requires MarkerOf(after) <= marker
    ensures Spacious(text[offset..], after, max, longest, reopen, marker)
    ensures Tame(fence, Lines(text[..offset]), reopen)
    ensures var lines := Lines(text[..offset])[..|Lines(text[..offset])| - 1];
            Meaning(fence, Lines(text)) == Meaning(fence, lines) + Meaning(after, Lines(text[offset..]))
  {
    hide Step, LongestMarker, FenceTame, LinesWithin, Lines;
    var raw, tail := text[..offset], text[offset..];
    var lines := Lines(raw)[..|Lines(raw)| - 1];
    assert text == raw + tail;
    LinesWithinParts(raw, tail, longest);
    LinesAtBoundary(raw, tail);
    TameParts(fence, lines, Lines(tail), reopen);
    MeaningAppend(fence, lines, Lines(tail));
    LongestMarkerOfSuffix(text, offset, 0);
    TamePrefix(fence, lines, Lines(tail), reopen);
    assert Lines(raw) == lines + [""];
  }

  lemma {:induction false} TamePrefix(fence: Option<Fence>, a: seq<string>, b: seq<string>, bound: nat)
    requires Tame(fence, a + b, bound)
    ensures Tame(fence, a + [""], bound)
    decreases |a|
  {
    hide Step, FenceTame;
    if a == [] {
      assert a + b == b && a + [""] == [""] && [""][1..] == [];
      BlankStep(fence);
      assert Tame(fence, b, bound) ==> FenceTame(fence, bound);
      assert Tame(Step(fence, ""), [], bound) == FenceTame(fence, bound);
    } else {
      assert (a + b)[1..] == a[1..] + b && (a + [""])[1..] == a[1..] + [""];
      TamePrefix(Step(fence, a[0]), a[1..], b, bound);
    }
  }

  function BudgetFor(max: int, fence: Option<Fence>): int {
    Max(1, max - |Reopen(Cursor(fence, ""))|)
  }

  function FirstOf(fence: Option<Fence>, head: string): seq<string> {
    if head == "" then [] else [Reopen(Cursor(fence, "")) + head]
  }

  lemma SpaciousMeans(text: string, fence: Option<Fence>, max: int, longest: nat, reopen: nat, marker: nat)
    requires Spacious(text, fence, max, longest, reopen, marker)
    ensures FenceTame(fence, reopen) && Scanned(Cursor(fence, "")) && |Reopen(Cursor(fence, ""))| <= reopen
    ensures BudgetFor(max, fence) >= longest + marker + 1
    ensures LinesWithin(text, longest) && MarkerOf(fence) <= marker && LongestMarker(text, 0) <= marker
  {
    hide Accepted, Reopenable, LinesWithin, LongestMarker, Lines, Genuine;
    assert fence.Some? ==> Genuine(fence.value) by { if fence.Some? { TameGenuine(fence.value, reopen, Lines(text)); } }
  }

  /** The last piece: all that is left. */
  lemma LastPiece(rest: string, fence: Option<Fence>, max: int, longest: nat, reopen: nat, marker: nat)
    requires rest != "" && Spacious(rest, fence, max, longest, reopen, marker) && |rest| <= BudgetFor(max, fence)
    ensures var pieces := SplitFrom(rest, Cursor(fence, ""), max);
            |pieces| == 1 && MessagesMeaning(pieces) == Meaning(fence, Lines(rest))
  {
    hide Lines, Meaning, LeftOpen, MessageMeaning, Advance, FenceTame, Spacious, MessagesMeaning, Candidates, Reopen;
    SpaciousMeans(rest, fence, max, longest, reopen, marker);
    var c := Cursor(fence, "");
    assert SplitFrom("", Advance(c, rest), max) == [];
    assert SplitFrom(rest, c, max) == [Reopen(c) + rest] + [] == [Reopen(c) + rest];
    ReopenedMeaning(fence, rest, reopen);
    SingleMessage(Reopen(c) + rest);
  }

  /** Where the cut falls, in a text that is roomy and too long for the budget. */
  ghost predicate CutFalls(rest: string, fence: Option<Fence>, marker: nat, cut: Candidate) {
    && 1 <= cut.offset <= |rest| && rest[cut.offset - 1] == '\n'
    && cut.fence == StepAll(fence, Lines(rest[..cut.offset])[..|Lines(rest[..cut.offset])| - 1])
    && (cut.fence.Some? ==> cut.offset < |rest|)
    && MarkerOf(cut.fence) <= marker
  }

  lemma WhereItFalls(rest: string, fence: Option<Fence>, max: int, longest: nat, reopen: nat, marker: nat)
    requires Spacious(rest, fence, max, longest, reopen, marker) && |rest| > BudgetFor(max, fence)
    ensures var c, budget := Cursor(fence, ""), BudgetFor(max, fence);
            && Candidates(rest, LimitOf(rest, budget, c), c) != []
            && TakeChunk(rest, budget, c) == CutAt(rest, Chosen(rest, budget, c))
            && CutFalls(rest, fence, marker, Chosen(rest, budget, c))
  {
    var c, budget := Cursor(fence, ""), BudgetFor(max, fence);
    hide Spacious, BudgetFor, Lines, LongestMarker, LinesWithin, Chosen, Candidates, TakeChunk, LimitOf, StepAll,
        CutAt, Scanned;
    SpaciousMeans(rest, fence, max, longest, reopen, marker);
    ChunkCases(rest, budget, c);
    CutsAtLine(rest, budget, c, longest, marker);
    ChosenMarker(rest, budget, fence, marker);
  }

  lemma ChosenMarker(rest: string, budget: int, fence: Option<Fence>, marker: nat)
    requires Scanned(Cursor(fence, "")) && MarkerOf(fence) <= marker && LongestMarker(rest, 0) <= marker
    requires Candidates(rest, LimitOf(rest, budget, Cursor(fence, "")), Cursor(fence, "")) != []
    ensures MarkerOf(Chosen(rest, budget, Cursor(fence, "")).fence) <= marker
  {
    hide Step, Lines, LongestMarker, Candidates, LimitOf, Chosen;
    var c := Cursor(fence, "");
    UnfoldCandidates(rest, LimitOf(rest, budget, c), c);
    CandidateMarkers(rest, LimitOf(rest, budget, c), c, fence, 0, marker);
  }

  /** A cut: the piece shows the lines before it and closes what it opened; the rest is as roomy as before. */
  lemma CutPiece(rest: string, fence: Option<Fence>, max: int, longest: nat, reopen: nat, marker: nat)
    requires Spacious(rest, fence, max, longest, reopen, marker) && |rest| > BudgetFor(max, fence)
    ensures var chunk := TakeChunk(rest, BudgetFor(max, fence), Cursor(fence, ""));
            var first := FirstOf(fence, chunk.head);
            && chunk.cursor.partial == ""
            && AllClosed(first)
            && Spacious(chunk.rest, chunk.cursor.fence, max, longest, reopen, marker)
            && Meaning(fence, Lines(rest)) == MessagesMeaning(first) + Meaning(chunk.cursor.fence, Lines(chunk.rest))
            && (chunk.rest == "" ==> chunk.cursor.fence == None)
  {
    hide TakeChunk, CutFalls, AllClosed, Spacious, Meaning, MessagesMeaning, CutAt, Chosen, Candidates, LimitOf;
    WhereItFalls(rest, fence, max, longest, reopen, marker);
    CutAtPiece(rest, fence, max, longest, reopen, marker, Chosen(rest, BudgetFor(max, fence), Cursor(fence, "")));
  }

  lemma CutAtPiece(rest: string, fence: Option<Fence>, max: int, longest: nat, reopen: nat, marker: nat, cut: Candidate)
    requires Spacious(rest, fence, max, longest, reopen, marker) && CutFalls(rest, fence, marker, cut)
    ensures var chunk := CutAt(rest, cut);
            var first := FirstOf(fence, chunk.head);
            && chunk.cursor.partial == ""
            && AllClosed(first)
            && Spacious(chunk.rest, chunk.cursor.fence, max, longest, reopen, marker)
            && Meaning(fence, Lines(rest)) == MessagesMeaning(first) + Meaning(chunk.cursor.fence, Lines(chunk.rest))
            && (chunk.rest == "" ==> chunk.cursor.fence == None)
  {
    hide Step, Lines, Meaning, LeftOpen, MessageMeaning, MessagesMeaning, Tame, Reopen, StepAll, LongestMarker,
        LinesWithin;
    SpaciousRest(rest, fence, max, longest, reopen, marker, cut.offset, cut.fence);
    hide Spacious;
    CutMeaning(fence, rest[..cut.offset], reopen);
    var head := CutAt(rest, cut).head;
    NoMessages();
    if head != "" { SingleMessage(Reopen(Cursor(fence, "")) + head); }
  }

  lemma NoMessages()
    ensures MessagesMeaning([]) == []
  {
  }

  lemma {:induction false} SplitFromKeepsMeaning(
      rest: string, fence: Option<Fence>, max: int, longest: nat, reopen: nat, marker: nat)
    requires rest != "" && Spacious(rest, fence, max, longest, reopen, marker)
    ensures var pieces := SplitFrom(rest, Cursor(fence, ""), max);
            && MessagesMeaning(pieces) == Meaning(fence, Lines(rest))
            && (pieces != [] ==> AllClosed(pieces[..|pieces| - 1]))
    decreases |rest|
  {
    hide Spacious, Lines, TakeChunk, Meaning, MessagesMeaning, LeftOpen, Reopen;
    var budget := BudgetFor(max, fence);
    if |rest| <= budget {
      LastPiece(rest, fence, max, longest, reopen, marker);
    } else {
      var chunk := TakeChunk(rest, budget, Cursor(fence, ""));
      TakeChunkProgress(rest, budget, Cursor(fence, ""));
      CutPiece(rest, fence, max, longest, reopen, marker);
      var first, tail := FirstOf(fence, chunk.head), SplitFrom(chunk.rest, chunk.cursor, max);
      assert SplitFrom(rest, Cursor(fence, ""), max) == first + tail;
      MessagesMeaningCons(first, tail);
      if chunk.rest == "" {
        LinesUnbroken("");
        BlankTail();
        NoMessages();
      } else {
        SplitFromKeepsMeaning(chunk.rest, chunk.cursor.fence, max, longest, reopen, marker);
        AllClosedCons(first, tail);
      }
    }
  }

  lemma AllClosedCons(first: seq<string>, tail: seq<string>)
    requires AllClosed(first) && (tail != [] ==> AllClosed(tail[..|tail| - 1]))
    ensures first + tail != [] ==> AllClosed((first + tail)[..|first + tail| - 1])
  {
    hide LeftOpen;
    if tail != [] {
      assert (first + tail)[..|first + tail| - 1] == first + tail[..|tail| - 1];
    } else {
      assert first + tail == first;
    }
  }

  lemma SingleMessage(message: string)
    ensures MessagesMeaning([message]) == MessageMeaning(message)
  {
    hide MessageMeaning;
    assert [message][1..] == [];
    assert MessagesMeaning([message]) == MessageMeaning(message) + MessagesMeaning([]);
  }

  /**
    Splitting preserves meaning. When a piece has room for the longest line, the longest
    reopening line, the longest marker and one character more, and no tilde info string
    extends its marker: the messages, each rendered on its own, show line for line what the
    whole text shows, and every message but the last closes its code blocks.
   */
  lemma SplitKeepsMeaning(text: string, max: int, longest: nat, reopen: nat, marker: nat)
    requires Spacious(text, None, max, longest, reopen, marker)
    ensures MessagesMeaning(Split(text, max)) == Meaning(None, Lines(text))
    ensures Split(text, max) != [] ==> AllClosed(Split(text, max)[..|Split(text, max)| - 1])
  {
    hide SplitFrom, Spacious, Meaning, MessagesMeaning, AllClosed;
    assert Split(text, max) == SplitFrom(text, Cursor(None, ""), max);
    if text == "" {
      EmptyText(max);
    } else {
      SplitFromKeepsMeaning(text, None, max, longest, reopen, marker);
    }
  }

  lemma EmptyText(max: int)
    ensures Split("", max) == [] && MessagesMeaning([]) == Meaning(None, Lines("")) == []
  {
    LinesUnbroken("");
    BlankTail();
  }
}
