/**
  How long the pieces of a split are. The promise of "at most `max` characters" does not hold
  for every `max`: this module says exactly when it does.
 */
module MarkdownSize {
  import opened Options
  import opened Text
  import opened Markdown
  import opened MarkdownScan

  /** The length of the line that would close the cursor's block. */
  function CloseCost(c: Cursor): nat {
    if c.fence.None? then 0 else |c.fence.value.marker| + 1
  }

  // ------------------------------------------------------------- any cursor

  /** Whatever the cursor holds, a chunk overruns its budget by no more than the closing line it ends with. */
  lemma ChunkSize(text: string, budget: int, c: Cursor)
    requires budget >= 1
    ensures var chunk := TakeChunk(text, budget, c);
            && |chunk.head| <= budget + CloseCost(chunk.cursor)
            && (|text| <= budget ==> chunk.head == text && chunk.rest == "")
            && (|text| > budget ==> chunk.cursor.partial == "")
  {
    hide Step, Advance, TakeChunk, Reserve, Candidates, Chosen;
    ChunkCases(text, budget, c);
    CandidatesReach(text, LimitOf(text, budget, c), c);
  }

  lemma CandidatesReach(text: string, limit: int, c: Cursor)
    ensures forall k :: k in Candidates(text, limit, c) ==>
                          1 <= k.offset <= |text| && k.offset <= limit + 1 && text[k.offset - 1] == '\n'
  {
    CandidatesReachFrom(text, limit, c, c.fence, 0);
  }

  lemma {:induction false} CandidatesReachFrom(text: string, limit: int, c: Cursor, fence: Option<Fence>, at: nat)
    requires at <= |text|
    ensures forall k :: k in CandidatesFrom(text, limit, c, fence, at) ==>
                          at < k.offset <= |text| && k.offset <= limit + 1 && text[k.offset - 1] == '\n'
    decreases |text| - at
  {
    hide Step, RankOf, LineAt;
    var nl := IndexOfNewline(text, at);
    if at <= limit && 0 <= nl <= limit {
      CandidatesReachFrom(text, limit, c, Step(fence, LineAt(text, at, nl, c)), nl + 1);
    }
  }

  // ------------------------------------------------------------- the reserve is enough

  lemma {:induction false} RunOfPrefix(s: string, n: nat, c: char)
    requires n <= |s|
    ensures Run(s[..n], c) == Min(n, Run(s, c))
    decreases n
  {
    if n > 0 && s[0] == c {
      assert s[..n][1..] == s[1..][..n - 1];
      RunOfPrefix(s[1..], n - 1, c);
    }
  }

  lemma MarkerRunOfPrefix(s: string, n: nat)
    requires n <= |s|
    ensures MarkerRun(s[..n]) <= MarkerRun(s)
  {
    RunOfPrefix(s, n, ' ');
    var k := Run(s, ' ');
    if k < n {
      assert s[..n][k..] == s[k..][..n - k];
      RunOfPrefix(s[k..], n - k, s[k]);
    }
  }

  lemma {:induction false} LongestMarkerCovers(text: string, at: nat, k: nat)
    requires at <= k <= |text| && LineStart(text, k)
    ensures MarkerRun(text[k..]) <= LongestMarker(text, at)
    decreases |text| - at
  {
    hide MarkerRun;
    if at < k {
      LongestMarkerCovers(text, at + 1, k);
    }
  }

  /** The longest marker of a text bounds the run of each of its lines. */
  lemma LineMarker(text: string, at: nat, nl: nat)
    requires at <= nl <= |text| && LineStart(text, at)
    ensures MarkerRun(text[at..nl]) <= LongestMarker(text, 0)
  {
    hide MarkerRun, LongestMarker;
    assert text[at..nl] == text[at..][..nl - at];
    MarkerRunOfPrefix(text[at..], nl - at);
    LongestMarkerCovers(text, 0, at);
  }

  function MarkerOf(fence: Option<Fence>): nat {
    if fence.None? then 0 else |fence.value.marker|
  }

  lemma StepMarker(fence: Option<Fence>, line: string)
    ensures MarkerOf(Step(fence, line)) <= Max(MarkerOf(fence), MarkerRun(line))
    ensures GenuineIfAny(fence) ==> GenuineIfAny(Step(fence, line))
  {
  }

  /** The marker of a fence found is no longer than the bound. */
  ghost predicate MarkerFits(fence: Option<Fence>, bound: nat) {
    MarkerOf(fence) <= bound && GenuineIfAny(fence)
  }

  /** One step of the loop that collects the candidates. */
  lemma CandidatesUnfold(text: string, limit: int, c: Cursor, fence: Option<Fence>, at: nat)
    requires at <= |text|
    ensures var nl := IndexOfNewline(text, at);
            CandidatesFrom(text, limit, c, fence, at) ==
              if at > limit || nl < 0 || nl > limit then []
              else
                var fence' := Step(fence, LineAt(text, at, nl, c));
                [Candidate(nl + 1, RankOf(fence', LineAt(text, at, nl, c)), fence')]
                + CandidatesFrom(text, limit, c, fence', nl + 1)
  {
    hide Step, RankOf, LineAt;
  }

  /** A line of a fresh message keeps the marker within the longest of the text. */
  lemma LineWithin(text: string, c: Cursor, fence: Option<Fence>, at: nat, nl: nat, bound: nat)
    requires c.partial == "" && at <= nl <= |text| && LineStart(text, at)
    requires MarkerFits(fence, bound) && LongestMarker(text, 0) <= bound
    ensures MarkerFits(Step(fence, LineAt(text, at, nl, c)), bound)
  {
    hide Step, LongestMarker, MarkerRun, Genuine, MarkerOf;
    assert LineAt(text, at, nl, c) == text[at..nl];
    LineMarker(text, at, nl);
    StepMarker(fence, text[at..nl]);
  }

  lemma {:induction false} CandidateMarkers(
      text: string, limit: int, c: Cursor, fence: Option<Fence>, at: nat, bound: nat)
    requires c.partial == "" && at <= |text| && LineStart(text, at)
    requires MarkerFits(fence, bound) && LongestMarker(text, 0) <= bound
    ensures forall k :: k in CandidatesFrom(text, limit, c, fence, at) ==> MarkerFits(k.fence, bound)
    decreases |text| - at
  {
    hide CandidatesFrom, Step, LongestMarker, MarkerFits, RankOf, LineAt;
    CandidatesUnfold(text, limit, c, fence, at);
    var nl := IndexOfNewline(text, at);
    if at <= limit && 0 <= nl <= limit {
      LineWithin(text, c, fence, at, nl, bound);
      CandidateMarkers(text, limit, c, Step(fence, LineAt(text, at, nl, c)), nl + 1, bound);
    }
  }

  lemma BreakWithin(text: string, limit: int)
    requires 1 <= limit < |text|
    ensures BreakPoint(text, limit) <= limit
  {
  }

  /** Nothing before the first newline can change the fence. */
  lemma NoBoundaryNoFence(text: string, limit: int, c: Cursor, at: nat)
    requires '\n' !in c.partial && at <= limit && at <= |text|
    requires Candidates(text, limit, c) == []
    ensures Advance(c, text[..at]).fence == c.fence
  {
    hide Step, Advance;
    var nl := IndexOfNewline(text, 0);
    assert nl < 0 || nl > limit;
    assert '\n' !in text[..at];
    AdvanceLine(c, text[..at]);
  }

  // ------------------------------------------------------------- one chunk of a fresh message

  /** The room left over the reserve decides, and a cut without any room falls after one or two characters. */
  predicate ChunkFits(text: string, budget: int, c: Cursor) {
    || |text| <= budget
    || budget > Reserve(text, c)
    || c.fence.None?
    || budget >= |c.fence.value.marker| + (if |text| >= 2 && text[0] == '\n' && text[1] != '\n' then 1 else 2)
  }

  lemma RoomyChunkFits(text: string, budget: int, c: Cursor)
    requires Scanned(c) && c.partial == "" && |text| > budget > Reserve(text, c)
    ensures |TakeChunk(text, budget, c).head| <= budget
  {
    hide Step, Advance, LongestMarker, TakeChunk, Candidates, Chosen;
    ChunkCases(text, budget, c);
    var limit := LimitOf(text, budget, c);
    if Candidates(text, limit, c) == [] {
      NoBoundaryNoFence(text, limit, c, BreakPoint(text, limit));
    } else {
      CandidatesReach(text, limit, c);
      var bound := Max(MarkerLength(c), LongestMarker(text, 0));
      assert forall k :: k in Candidates(text, limit, c) ==> MarkerOf(k.fence) <= bound && GenuineIfAny(k.fence) by {
        assert Candidates(text, limit, c) == CandidatesFrom(text, limit, c, c.fence, 0)
            by { UnfoldCandidates(text, limit, c); }
        CandidateMarkers(text, limit, c, c.fence, 0, bound);
      }
    }
  }

  lemma UnfoldCandidates(text: string, limit: int, c: Cursor)
    ensures Candidates(text, limit, c) == CandidatesFrom(text, limit, c, c.fence, 0)
  {
  }

  /** A line of at most one character is no fence. */
  lemma ShortLine(fence: Option<Fence>, line: string)
    requires |line| <= 1
    ensures Step(fence, line) == fence
  {
  }

  lemma TightCandidates(text: string, c: Cursor)
    requires c.partial == "" && |text| >= 2
    ensures var rank := if c.fence.Some? then IN_FENCE else LINE;
            var found := Candidates(text, 1, c);
            && (forall k :: k in found ==> k.fence == c.fence && (c.fence.Some? ==> k.rank == IN_FENCE))
            && (if text[1] == '\n' then found != [] && found[|found| - 1].offset == 2
                else if text[0] == '\n' then found != [] && found[|found| - 1].offset == 1
                else found == [])
  {
    hide Step;
    ShortLine(c.fence, text[0..0]);
    ShortLine(c.fence, text[0..1]);
    ShortLine(c.fence, text[1..1]);
    assert LineAt(text, 0, 0, c) == text[0..0];
    assert LineAt(text, 0, 1, c) == text[0..1];
    assert LineAt(text, 1, 1, c) == text[1..1];
    assert IndexOfNewline(text, 0) == if text[0] == '\n' then 0 else IndexOfNewline(text, 1);
    assert CandidatesFrom(text, 1, c, c.fence, 2) == [];
    assert CandidatesFrom(text, 1, c, c.fence, 1)
        == if text[1] == '\n' then [Candidate(2, RankOf(c.fence, text[1..1]), c.fence)] else [];
    assert Candidates(text, 1, c) == CandidatesFrom(text, 1, c, c.fence, 0);
  }

  lemma {:induction false} PickAmongEquals(found: seq<Candidate>, floor: int, best: Candidate)
    requires forall k :: k in found ==> k.rank == best.rank
    ensures PickFrom(found, floor, best) == best
    decreases |found|
  {
    if found != [] {
      PickAmongEquals(found[1..], floor, best);
    }
  }

  lemma TightChunkFits(text: string, budget: int, c: Cursor)
    requires Scanned(c) && c.partial == "" && budget >= 1 && |text| > budget && budget <= Reserve(text, c)
    ensures |TakeChunk(text, budget, c).head| <= budget <==> ChunkFits(text, budget, c)
  {
    hide Step, Advance, LongestMarker, Candidates, TakeChunk;
    ChunkCases(text, budget, c);
    assert LimitOf(text, budget, c) == 1;
    var found := Candidates(text, 1, c);
    TightCandidates(text, c);
    CandidatesReach(text, 1, c);
    if found == [] {
      NoBoundaryNoFence(text, 1, c, BreakPoint(text, 1));
      assert BreakPoint(text, 1) == 1;
    } else if c.fence.Some? {
      var latest := found[|found| - 1];
      assert latest in found;
      PickAmongEquals(found, FloorOf(found, budget), latest);
      assert Chosen(text, budget, c) == latest;
    }
  }

  /** Exactly when the head of a chunk is within its budget. */
  lemma ChunkFitsExactly(text: string, budget: int, c: Cursor)
    requires Scanned(c) && c.partial == "" && budget >= 1
    ensures |TakeChunk(text, budget, c).head| <= budget <==> ChunkFits(text, budget, c)
  {
    hide TakeChunk, Reserve;
    if |text| <= budget {
      assert TakeChunk(text, budget, c).head == text by { WholeChunk(text, budget, c); }
    } else if budget > Reserve(text, c) {
      RoomyChunkFits(text, budget, c);
    } else {
      TightChunkFits(text, budget, c);
    }
  }

  lemma WholeChunk(text: string, budget: int, c: Cursor)
    requires |text| <= budget
    ensures TakeChunk(text, budget, c) == Chunk(text, "", Advance(c, text))
  {
    hide Advance;
  }

  // ------------------------------------------------------------- the whole split

  /** The step that takes the next piece has room for it. */
  predicate StepFits(rest: string, c: Cursor, max: int) {
    max > |Reopen(c)| && ChunkFits(rest, max - |Reopen(c)|, c)
  }

  function NextChunk(rest: string, c: Cursor, max: int): Chunk {
    TakeChunk(rest, Max(1, max - |Reopen(c)|), c)
  }

  /** Every step of the split has room for its piece. */
  predicate RoomThroughout(rest: string, c: Cursor, max: int)
    decreases |rest|
  {
    rest == "" ||
    (TakeChunkProgress(rest, Max(1, max - |Reopen(c)|), c);
     var chunk := NextChunk(rest, c, max);
     StepFits(rest, c, max) && RoomThroughout(chunk.rest, chunk.cursor, max))
  }

  predicate AllWithin(pieces: seq<string>, max: int) {
    forall i :: 0 <= i < |pieces| ==> |pieces[i]| <= max
  }

  lemma {:induction false} StepAllGenuine(fence: Option<Fence>, lines: seq<string>)
    requires GenuineIfAny(fence)
    ensures GenuineIfAny(StepAll(fence, lines))
    decreases |lines|
  {
    hide Step, Genuine;
    if lines != [] {
      StepMarker(fence, lines[0]);
      StepAllGenuine(Step(fence, lines[0]), lines[1..]);
    }
  }

  lemma AdvanceScanned(c: Cursor, text: string)
    requires GenuineIfAny(c.fence)
    ensures Scanned(Advance(c, text))
  {
    hide Step, Genuine;
    var lines := Lines(c.partial + text);
    LinesHaveNoNewline(c.partial + text);
    StepAllGenuine(c.fence, lines[..|lines| - 1]);
  }

  /** A chunk leaves a scanned cursor, at a fresh line unless the text ended. */
  lemma ChunkScanned(text: string, budget: int, c: Cursor)
    requires Scanned(c)
    ensures Scanned(TakeChunk(text, budget, c).cursor)
    ensures TakeChunk(text, budget, c).rest != "" ==> TakeChunk(text, budget, c).cursor.partial == ""
  {
    hide Step, Genuine, Advance, TakeChunk, Candidates, Chosen;
    ChunkCases(text, budget, c);
    var limit := LimitOf(text, budget, c);
    AdvanceScanned(c, text);
    AdvanceScanned(c, text[..BreakPoint(text, limit)]);
    if |text| > budget && Candidates(text, limit, c) != [] {
      var cut := Chosen(text, budget, c);
      CandidatesAreBoundaries(text, limit, c);
      AdvanceScanned(c, text[..cut.offset]);
    }
  }

  /** A chunk taken inside a fence sends something. */
  lemma FencedChunkSends(text: string, budget: int, c: Cursor)
    requires Scanned(c) && c.partial == "" && c.fence.Some? && text != "" && budget >= 1
    ensures TakeChunk(text, budget, c).head != ""
  {
    hide Step, Advance, TakeChunk, Candidates, Chosen;
    ChunkCases(text, budget, c);
    var limit := LimitOf(text, budget, c);
    if |text| > budget && Candidates(text, limit, c) != [] {
      var cut := Chosen(text, budget, c);
      CandidatesAreBoundaries(text, limit, c);
      if StripNewlines(text[..cut.offset]) == "" {
        BlankLinesKeepTheFence(text[..cut.offset], c);
      }
    }
  }

  lemma {:induction false} BlankLinesKeepTheFence(s: string, c: Cursor)
    requires AllOf(s, '\n') && c.partial == ""
    ensures Advance(c, s) == c
    decreases |s|
  {
    hide Step, Advance;
    if s == "" {
      AdvanceNothing(c);
    } else {
      assert s == "\n" + s[1..] && "" + "\n" == "\n";
      AdvanceAction(c, "\n", s[1..]);
      AdvanceLine(c, "");
      assert c.partial + "" == "";
      ShortLine(c.fence, "");
      BlankLinesKeepTheFence(s[1..], c);
    }
  }

  lemma {:induction false} SplitFromWithin(rest: string, c: Cursor, max: int)
    requires Scanned(c) && (rest != "" ==> c.partial == "") && max >= 1
    ensures AllWithin(SplitFrom(rest, c, max), max) <==> RoomThroughout(rest, c, max)
    decreases |rest|
  {
    hide Scanned, TakeChunk, ChunkFits, AllWithin;
    if rest != "" {
      var prefix := Reopen(c);
      var budget := Max(1, max - |prefix|);
      var chunk := TakeChunk(rest, budget, c);
      TakeChunkProgress(rest, budget, c);
      ChunkScanned(rest, budget, c);
      SplitFromWithin(chunk.rest, chunk.cursor, max);
      ChunkFitsExactly(rest, budget, c);
      if c.fence.Some? {
        FencedChunkSends(rest, budget, c);
      }
      var first: seq<string> := if chunk.head == "" then [] else [prefix + chunk.head];
      var tail := SplitFrom(chunk.rest, chunk.cursor, max);
      assert SplitFrom(rest, c, max) == first + tail;
      OneWithin(prefix + chunk.head, max);
      NoneWithin(max);
      assert AllWithin(first, max) <==> StepFits(rest, c, max);
      WithinParts(first, tail, max);
    } else {
      NoneWithin(max);
    }
  }

  lemma NoneWithin(max: int)
    ensures AllWithin([], max)
  {
  }

  lemma OneWithin(piece: string, max: int)
    ensures AllWithin([piece], max) <==> |piece| <= max
  {
    assert [piece][0] == piece;
  }

  lemma WithinParts(a: seq<string>, b: seq<string>, max: int)
    ensures AllWithin(a + b, max) <==> AllWithin(a, max) && AllWithin(b, max)
  {
    if AllWithin(a + b, max) {
      assert forall i :: 0 <= i < |a| ==> a[i] == (a + b)[i];
      assert forall i :: 0 <= i < |b| ==> b[i] == (a + b)[|a| + i];
    }
  }

  /** The pieces are at most `max` long exactly when every step has room for its piece. */
  lemma SplitWithinExactly(text: string, max: int)
    requires max >= 1
    ensures AllWithin(Split(text, max), max) <==> RoomThroughout(text, START, max)
  {
    hide SplitFrom, RoomThroughout, AllWithin;
    SplitFromWithin(text, START, max);
  }

  // ------------------------------------------------------------- a bound a caller can check

  ghost predicate LinesWithin(s: string, bound: nat) {
    forall i :: 0 <= i < |Lines(s)| ==> |Lines(s)[i]| <= bound
  }

  lemma LinesWithinParts(a: string, b: string, bound: nat)
    requires LinesWithin(a + b, bound)
    ensures LinesWithin(a, bound) && LinesWithin(b, bound)
  {
    LinesAppend(a, b);
    var ab, la, lb := Lines(a + b), Lines(a), Lines(b);
    forall i | 0 <= i < |la| ensures |la[i]| <= bound {
      assert |la[i]| <= |ab[i]|;
    }
    forall i | 0 <= i < |lb| ensures |lb[i]| <= bound {
      assert |lb[i]| <= |ab[|la| - 1 + i]|;
    }
  }

  lemma UnbrokenWithin(s: string, i: nat, j: nat, bound: nat)
    requires i <= j <= |s| && '\n' !in s[i..j] && LinesWithin(s, bound)
    ensures j - i <= bound
  {
    assert s == s[..j] + s[j..] && s[..j] == s[..i] + s[i..j];
    LinesWithinParts(s[..j], s[j..], bound);
    LinesWithinParts(s[..i], s[i..j], bound);
    LinesUnbroken(s[i..j]);
    assert Lines(s[i..j])[0] == s[i..j];
  }

  lemma {:induction false} LongestMarkerWithin(s: string, at: nat, bound: nat)
    requires at <= |s| && LinesWithin(s, bound)
    ensures LongestMarker(s, at) <= bound
    decreases |s| - at
  {
    hide MarkerRun;
    MarkerWithin(s, at, bound);
    if at < |s| {
      LongestMarkerWithin(s, at + 1, bound);
    }
  }

  lemma MarkerWithin(s: string, at: nat, bound: nat)
    requires at <= |s| && LinesWithin(s, bound)
    ensures MarkerRun(s[at..]) <= bound
  {
    var n := MarkerRun(s[at..]);
    var k := Run(s[at..], ' ');
    if n != 0 {
      assert s[at..][k..k + n] == s[at + k..at + k + n];
      UnbrokenWithin(s, at + k, at + k + n, bound);
    }
  }

  predicate ReopenWithin(fence: Option<Fence>, bound: nat) {
    fence.Some? ==> |ReopenFence(fence.value)| <= bound + 1
  }

  /** A fence is no longer than the line that opened it. */
  lemma StepReopen(fence: Option<Fence>, line: string, bound: nat)
    requires ReopenWithin(fence, bound) && |line| <= bound
    ensures ReopenWithin(Step(fence, line), bound)
  {
  }

  lemma {:induction false} StepAllReopen(fence: Option<Fence>, lines: seq<string>, bound: nat)
    requires ReopenWithin(fence, bound) && forall i :: 0 <= i < |lines| ==> |lines[i]| <= bound
    ensures ReopenWithin(StepAll(fence, lines), bound)
    decreases |lines|
  {
    hide Step, ReopenWithin;
    if lines != [] {
      StepReopen(fence, lines[0], bound);
      StepAllReopen(Step(fence, lines[0]), lines[1..], bound);
    }
  }

  /** Scanning keeps fences and the unfinished line within the bound on lines. */
  lemma AdvanceReopen(c: Cursor, s: string, bound: nat)
    requires ReopenWithin(c.fence, bound) && LinesWithin(c.partial + s, bound)
    ensures ReopenWithin(Advance(c, s).fence, bound) && |Advance(c, s).partial| <= bound
  {
    hide Step, ReopenWithin;
    var lines := Lines(c.partial + s);
    StepAllReopen(c.fence, lines[..|lines| - 1], bound);
  }

  lemma ChunkReopen(text: string, budget: int, c: Cursor, bound: nat)
    requires Scanned(c) && ReopenWithin(c.fence, bound) && LinesWithin(c.partial + text, bound)
    ensures var chunk := TakeChunk(text, budget, c);
            ReopenWithin(chunk.cursor.fence, bound) && LinesWithin(chunk.cursor.partial + chunk.rest, bound)
  {
    hide Step, Genuine, Advance, TakeChunk, Candidates, Chosen, ReopenWithin, LinesWithin;
    ChunkCases(text, budget, c);
    var limit := LimitOf(text, budget, c);
    if |text| <= budget {
      AdvanceReopen(c, text, bound);
      var partial := Advance(c, text).partial;
      AdvanceScanned(c, text);
      assert partial + "" == partial;
      UnbrokenLinesWithin(partial, bound);
    } else if Candidates(text, limit, c) == [] {
      var at := BreakPoint(text, limit);
      var k := at + Run(text[at..], ' ');
      PartsAround(c.partial, text, at, k, bound);
      AdvanceReopen(c, text[..at], bound);
    } else {
      var cut := Chosen(text, budget, c);
      CandidatesAreBoundaries(text, limit, c);
      PartsAround(c.partial, text, cut.offset, cut.offset, bound);
      AdvanceReopen(c, text[..cut.offset], bound);
    }
  }

  lemma UnbrokenLinesWithin(s: string, bound: nat)
    requires '\n' !in s && |s| <= bound
    ensures LinesWithin(s, bound)
  {
    LinesUnbroken(s);
  }

  lemma PartsAround(partial: string, text: string, at: nat, k: nat, bound: nat)
    requires at <= k <= |text| && LinesWithin(partial + text, bound)
    ensures LinesWithin(partial + text[..at], bound) && LinesWithin("" + text[k..], bound)
  {
    hide LinesWithin;
    assert (partial + text[..at]) + text[at..] == partial + text;
    LinesWithinParts(partial + text[..at], text[at..], bound);
    assert (partial + text[..k]) + text[k..] == partial + text && "" + text[k..] == text[k..];
    LinesWithinParts(partial + text[..k], text[k..], bound);
  }

  lemma {:induction false} RoomForLines(rest: string, c: Cursor, max: int, bound: nat)
    requires Scanned(c) && (rest != "" ==> c.partial == "")
    requires ReopenWithin(c.fence, bound) && (rest != "" ==> LinesWithin(rest, bound))
    requires max >= 2 * bound + 3
    ensures RoomThroughout(rest, c, max)
    decreases |rest|
  {
    hide Genuine, TakeChunk, LinesWithin, LongestMarker;
    if rest != "" {
      var budget := Max(1, max - |Reopen(c)|);
      TakeChunkProgress(rest, budget, c);
      ChunkScanned(rest, budget, c);
      assert c.partial + rest == rest;
      ChunkReopen(rest, budget, c, bound);
      assert "" + TakeChunk(rest, budget, c).rest == TakeChunk(rest, budget, c).rest;
      LongestMarkerWithin(rest, 0, bound);
      var chunk := TakeChunk(rest, budget, c);
      RoomForLines(chunk.rest, chunk.cursor, max, bound);
      assert budget > Reserve(rest, c);
    }
  }

  /** A size of twice the longest line and three is always kept to. */
  lemma SplitWithinMax(text: string, max: int, bound: nat)
    requires LinesWithin(text, bound) && max >= 2 * bound + 3
    ensures AllWithin(Split(text, max), max)
  {
    hide RoomThroughout, LinesWithin, Split;
    RoomForLines(text, START, max, bound);
    SplitWithinExactly(text, max);
  }

  /** A bare run of three backticks. */
  lemma BareMarker(s: string)
    requires |s| == 3 && AllOf(s, '`')
    ensures FenceLine(s) == Some(Fence(s, ""))
    ensures MarkerRun(s) == 3
  {
    assert Run(s, ' ') == 0 && s[0..] == s;
    assert Run(s, '`') == 3;
    assert s[3..] == "" && s[0..3] == s;
  }

  lemma StepOpens(line: string, f: Fence)
    requires FenceLine(line) == Some(f) && (f.marker[0] == '`' ==> '`' !in f.info)
    ensures Step(None, line) == Some(f)
  {
  }

  /** An opener of three backticks, a line of four characters, a line of one. */
  predicate Overruns(text: string) {
    && |text| == 10
    && AllOf(text[..3], '`') && text[3] == text[8] == '\n'
    && '\n' !in text[4..8] && '\n' !in text[9..]
  }

  lemma OverrunLines(text: string)
    requires Overruns(text)
    ensures LinesWithin(text, 4)
  {
    var a, b, c := text[..4], text[4..9], text[9..];
    assert b + c == text[4..] && a + text[4..] == text;
    assert a == text[..3] + [text[3]] && b == text[4..8] + [text[8]];
    LinesUnbroken(text[..3]);
    LinesUnbroken(text[4..8]);
    LinesUnbroken(c);
    LinesTerminated(text[..3]);
    LinesTerminated(text[4..8]);
    LinesAtBoundary(b, c);
    LinesAtBoundary(a, text[4..]);
  }

  lemma LinesTerminated(s: string)
    requires '\n' !in s
    ensures Lines(s + ['\n']) == [s, ""]
  {
    LinesUnbroken(s);
    LinesUnbroken("");
    assert ['\n'][1..] == "";
    assert Lines(['\n']) == Prepend('\n', Lines(""));
    LinesAppend(s, ['\n']);
    assert s + "" == s;
  }

  lemma OverrunSecondStep(text: string, max: int)
    requires Overruns(text) && max == 8 && 3 <= LongestMarker(text, 0) <= 4
    ensures !RoomThroughout(text, START, max)
  {
    hide LongestMarker, Step, MarkerRun, TakeChunk, FenceLine;
    var marker := text[..3];
    BareMarker(marker);
    var open := Some(Fence(marker, ""));
    StepOpens(marker, Fence(marker, ""));
    assert Reopen(START) == "";
    var limit := LimitOf(text, max, START);
    assert 3 <= limit <= 4;
    var nl := IndexOfNewline(text, 0);
    assert nl == 3 by { assert forall i :: 0 <= i < 3 ==> text[i] == marker[i]; }
    assert IndexOfNewline(text, 4) == 8 by { assert forall i :: 4 <= i < 8 ==> text[i] == text[4..8][i - 4]; }
    assert LineAt(text, 0, 3, START) == marker;
    var cut := Candidate(4, IN_FENCE, open);
    assert CandidatesFrom(text, limit, START, open, 4) == [];
    assert Candidates(text, limit, START) == [cut];
    ChunkCases(text, max, START);
    var chunk := NextChunk(text, START, max);
    assert chunk.rest == text[4..] && chunk.cursor == Cursor(open, "");
    assert |Reopen(chunk.cursor)| == 4;
    assert chunk.rest[0] != '\n' by { assert chunk.rest[0] == text[4..8][0]; }
    assert !StepFits(chunk.rest, chunk.cursor, max);
  }

  /**
    The promise fails: the fence opened by the first piece leaves the second one no room
    to reopen it, say a character, and close it again.
   */
  lemma SplitCanOverrun()
    ensures !AllWithin(Split("```\nabcd\ne", 8), 8)
  {
    hide RoomThroughout, LongestMarker, Split, MarkerRun, Lines;
    var text := "```\nabcd\ne";
    assert Overruns(text);
    OverrunLines(text);
    BareMarker(text[..3]);
    LongestMarkerWithin(text, 0, 4);
    assert text[0..3] == text[..3];
    LineMarker(text, 0, 3);
    OverrunSecondStep(text, 8);
    SplitWithinExactly(text, 8);
  }
}
