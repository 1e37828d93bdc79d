/**
  The splitter's rules in their own terms: which lines are fences and what they do, how much is
  reserved, where a text is cut and what the piece and the rest of it are. Each function of module
  Markdown is shown to do what its rule says, and the rule to leave no choice.
 */
module MarkdownRules {
  import opened Options
  import opened Text
  import opened Markdown
  import opened MarkdownScan
  import opened MarkdownSize

  // ------------------------------------------------------------- fence lines

  /** A text starts with at most three spaces and then a run of exactly `n` fence characters. */
  ghost predicate StartsWithRun(s: string, k: nat, n: nat) {
    && k <= 3 <= n && k + n <= |s|
    && AllOf(s[..k], ' ')
    && (s[k] == '`' || s[k] == '~')
    && AllOf(s[k..k + n], s[k])
    && (k + n == |s| || s[k + n] != s[k])
  }

  lemma {:induction false} RunIs(s: string, c: char, n: nat)
    requires n <= |s| && AllOf(s[..n], c) && (n == |s| || s[n] != c)
    ensures Run(s, c) == n
    decreases n
  {
    if n > 0 {
      assert s[..n][0] == s[0];
      assert forall i :: 0 <= i < n - 1 ==> s[1..][i] == s[..n][i + 1];
      RunIs(s[1..], c, n - 1);
    }
  }

  lemma MarkerRunIff(s: string, n: nat)
    ensures MarkerRun(s) == n && n > 0 <==> exists k: nat :: StartsWithRun(s, k, n)
  {
    hide MarkerRun, StartsWithRun;
    if k: nat :| StartsWithRun(s, k, n) { RunIsMarker(s, k, n); }
    if MarkerRun(s) == n && n > 0 { MarkerIsRun(s); }
  }

  lemma RunIsMarker(s: string, k: nat, n: nat)
    requires StartsWithRun(s, k, n)
    ensures MarkerRun(s) == n && n > 0
  {
    hide Run;
    RunIs(s, ' ', k);
    assert s[k..][..n] == s[k..k + n];
    assert k + n < |s| ==> s[k..][n] == s[k + n];
    RunIs(s[k..], s[k], n);
  }

  lemma MarkerIsRun(s: string)
    requires MarkerRun(s) > 0
    ensures StartsWithRun(s, Run(s, ' '), MarkerRun(s))
  {
    hide Run;
    var k, n := Run(s, ' '), MarkerRun(s);
    assert s[k..][..n] == s[k..k + n];
    assert k + n < |s| ==> s[k..][n] == s[k + n];
  }

  /** From `a` on `s` reads `t`, and all around it is white space. */
  predicate WhiteAround(s: string, t: string, a: nat) {
    a + |t| <= |s| && s[a..a + |t|] == t && AllWhite(s[..a]) && AllWhite(s[a + |t|..])
  }

  ghost predicate Trims(s: string, t: string) {
    exists a: nat :: WhiteAround(s, t, a)
  }

  lemma TrimLeftOne(s: string)
    requires s != "" && IsWhite(s[0])
    ensures TrimLeft(s) == TrimLeft(s[1..])
  {
    hide IsWhite;
  }

  lemma {:induction false} TrimLeftPast(s: string, n: nat)
    requires n <= |s| && AllWhite(s[..n])
    ensures TrimLeft(s) == TrimLeft(s[n..])
    decreases n
  {
    hide IsWhite, TrimLeft;
    if n == 0 {
      assert s[0..] == s;
    } else {
      assert s[..n][0] == s[0];
      assert s[1..][..n - 1] == s[..n][1..];
      assert s[1..][n - 1..] == s[n..];
      TrimLeftOne(s);
      TrimLeftPast(s[1..], n - 1);
    }
  }

  lemma TrimRightOne(s: string)
    requires s != "" && IsWhite(s[|s| - 1])
    ensures TrimRight(s) == TrimRight(s[..|s| - 1])
  {
    hide IsWhite;
  }

  lemma {:induction false} TrimRightPast(s: string, n: nat)
    requires n <= |s| && AllWhite(s[n..])
    ensures TrimRight(s) == TrimRight(s[..n])
    decreases |s|
  {
    hide IsWhite, TrimRight;
    if n < |s| {
      var init := s[..|s| - 1];
      assert s[n..][|s| - 1 - n] == s[|s| - 1];
      assert forall i :: 0 <= i < |init| - n ==> init[n..][i] == s[n..][i];
      assert init[..n] == s[..n];
      TrimRightOne(s);
      TrimRightPast(init, n);
    } else {
      assert s[..n] == s;
    }
  }

  lemma TrimIs(s: string, t: string)
    ensures Trim(s) == t <==> Trimmed(t) && Trims(s, t)
  {
    hide Trim, WhiteAround, Trimmed;
    TrimTrims(s);
    if a: nat :| WhiteAround(s, t, a) {
      if Trimmed(t) { TrimOf(s, t, a); }
    }
  }

  lemma TrimTrims(s: string)
    ensures Trimmed(Trim(s)) && Trims(s, Trim(s))
  {
    hide TrimLeft, TrimRight, IsWhite;
    var left, t := TrimLeft(s), Trim(s);
    var a := |s| - |left|;
    assert s[a..a + |t|] == left[..|t|] && s[a + |t|..] == left[|t|..];
    assert WhiteAround(s, t, a);
  }

  lemma TrimOf(s: string, t: string, a: nat)
    requires Trimmed(t) && WhiteAround(s, t, a)
    ensures Trim(s) == t
  {
    hide TrimLeft, TrimRight, IsWhite;
    TrimLeftPast(s, a);
    var rest := s[a..];
    assert rest[..|t|] == t && rest[|t|..] == s[a + |t|..];
    StartsTrimmed(rest, |t|);
    if t == "" { assert rest[0..] == rest; }
    TrimRightPast(TrimLeft(rest), |t|);
    EndsTrimmed(t);
  }

  lemma StartsTrimmed(s: string, n: nat)
    requires n <= |s| && Trimmed(s[..n]) && AllWhite(s[n..])
    ensures |TrimLeft(s)| >= n && TrimLeft(s)[..n] == s[..n] && AllWhite(TrimLeft(s)[n..])
  {
    if n == 0 {
      assert s[0..] == s && s[..|s|] == s;
      TrimLeftPast(s, |s|);
    } else {
      assert s[..n][0] == s[0];
    }
  }

  lemma EndsTrimmed(t: string)
    requires Trimmed(t)
    ensures TrimRight(t) == t
  {
  }

  /**
    A fence line: at most three spaces, a run of three or more of one fence character, and on the
    same line whatever follows, trimmed, its info string.
   */
  ghost predicate IsFence(line: string, marker: string, info: string) {
    exists k: nat :: FenceAt(line, k, marker, info)
  }

  /** How a fence line is read, at `k` spaces. */
  ghost predicate FenceAt(line: string, k: nat, marker: string, info: string) {
    && StartsWithRun(line, k, |marker|) && line[k..k + |marker|] == marker
    && OneLine(line[k + |marker|..]) && Trimmed(info) && Trims(line[k + |marker|..], info)
  }

  lemma FenceLineIff(line: string, marker: string, info: string)
    ensures FenceLine(line) == Some(Fence(marker, info)) <==> IsFence(line, marker, info)
  {
    hide FenceLine, StartsWithRun;
    if k: nat :| FenceAt(line, k, marker, info) { ReadsFence(line, k, marker, info); }
    if FenceLine(line) == Some(Fence(marker, info)) { FenceRead(line, marker, info); }
  }

  lemma ReadsFence(line: string, k: nat, marker: string, info: string)
    requires FenceAt(line, k, marker, info)
    ensures FenceLine(line) == Some(Fence(marker, info))
  {
    hide Trims, OneLine, Trimmed, MarkerRun, Run, Trim, TrimLeft, TrimRight;
    TrimIs(line[k + |marker|..], info);
    MarkerRunIff(line, |marker|);
    SpacesBefore(line, k, |marker|);
  }

  lemma SpacesBefore(line: string, k: nat, n: nat)
    requires StartsWithRun(line, k, n)
    ensures Run(line, ' ') == k
  {
    hide Run;
    RunIs(line, ' ', k);
  }

  lemma FenceRead(line: string, marker: string, info: string)
    requires FenceLine(line) == Some(Fence(marker, info))
    ensures IsFence(line, marker, info)
  {
    hide Trims, OneLine, Trimmed, MarkerRun, Run, Trim, TrimLeft, TrimRight;
    var k, n := Run(line, ' '), MarkerRun(line);
    MarkerRunIff(line, n);
    var k': nat :| StartsWithRun(line, k', n);
    SpacesBefore(line, k', n);
    TrimIs(line[k + n..], info);
    assert FenceAt(line, k, marker, info);
  }

  /**
    What a line does: outside any block a fence line opens one, but a run of backticks only when
    its info string has none; inside, only a bare run of the same character, at least as long as
    the one that opened it, closes it.
   */
  lemma StepIff(fence: Option<Fence>, line: string, f: Fence)
    requires fence.Some? ==> fence.value.marker != ""
    ensures fence == None ==>
              (Step(fence, line) == Some(f) <==>
                IsFence(line, f.marker, f.info) && !(f.marker[0] == '`' && '`' in f.info))
    ensures fence == Some(f) ==>
              && (Step(fence, line) == None <==>
                    exists marker :: IsFence(line, marker, "") && |marker| >= |f.marker| && marker[0] == f.marker[0])
              && (Step(fence, line) == None || Step(fence, line) == fence)
  {
    hide FenceLine;
    if fence == None {
      FenceLineIff(line, f.marker, f.info);
      FenceHasMarker(line, f.marker, f.info);
    } else if fence == Some(f) {
      ClosesIff(line, f);
    }
  }

  lemma FenceHasMarker(line: string, marker: string, info: string)
    ensures IsFence(line, marker, info) ==> |marker| >= 3
  {
  }

  lemma ClosesIff(line: string, f: Fence)
    requires f.marker != ""
    ensures Step(Some(f), line) == None <==>
              exists marker :: IsFence(line, marker, "") && |marker| >= |f.marker| && marker[0] == f.marker[0]
  {
    hide FenceLine, IsFence;
    if Step(Some(f), line) == None {
      var found := FenceLine(line).value;
      FenceLineIff(line, found.marker, "");
    }
    if marker :| IsFence(line, marker, "") && |marker| >= |f.marker| && marker[0] == f.marker[0] {
      FenceLineIff(line, marker, "");
    }
  }

  // ------------------------------------------------------------- what is reserved

  /** A line of the text starts like a fence, with a run of `n`. */
  ghost predicate LineRun(text: string, at: nat, n: nat) {
    && at <= |text| && (at == 0 || IsTerminator(text[at - 1]))
    && exists k: nat :: StartsWithRun(text[at..], k, n)
  }

  /** The longest such run, or the marker of the block open before, and one more; nothing where there is none. */
  ghost predicate Reserves(text: string, c: Cursor, r: nat) {
    && (forall at: nat, n: nat :: LineRun(text, at, n) ==> n < r)
    && (c.fence.Some? && c.fence.value.marker != "" ==> |c.fence.value.marker| < r)
    && (r > 0 ==>
          || (c.fence.Some? && r == |c.fence.value.marker| + 1 > 1)
          || HasRun(text, r - 1))
  }

  ghost predicate HasRun(text: string, n: nat) {
    exists at: nat :: LineRun(text, at, n)
  }

  lemma {:induction false} LongestIsThere(text: string, from: nat)
    requires from <= |text|
    ensures LongestMarker(text, from) > 0 ==> HasRun(text, LongestMarker(text, from))
    decreases |text| - from
  {
    hide MarkerRun;
    var here := if LineStart(text, from) then MarkerRun(text[from..]) else 0;
    if from < |text| { LongestIsThere(text, from + 1); }
    if here > 0 {
      MarkerRunIff(text[from..], here);
      assert LineRun(text, from, here);
    }
  }

  lemma ReserveIs(text: string, c: Cursor)
    ensures Reserves(text, c, Reserve(text, c))
  {
    hide MarkerRun, LongestMarker;
    LongestIsThere(text, 0);
    forall at: nat, n: nat | LineRun(text, at, n) ensures n < Reserve(text, c) {
      assert exists k: nat :: StartsWithRun(text[at..], k, n);
      MarkerRunIff(text[at..], n);
      LongestMarkerCovers(text, 0, at);
    }
  }

  // ------------------------------------------------------------- a line too long

  /** Where such a line is broken: at the last space past its start and within the limit, else at the limit. */
  ghost predicate BrokenAt(text: string, limit: int, k: nat) {
    && 1 <= limit < |text|
    && if exists i :: 1 <= i <= limit && text[i] == ' '
       then 1 <= k <= limit && text[k] == ' ' && forall i :: k < i <= limit ==> text[i] != ' '
       else k == limit
  }

  /** The piece is the line up to there, closed if a block is open; the spaces that follow are dropped. */
  ghost predicate BrokenOff(text: string, c: Cursor, k: nat, chunk: Chunk) {
    && k <= |text|
    && chunk.cursor == Cursor(c.fence, "")
    && chunk.head == text[..k] + (if c.fence.Some? then "\n" + c.fence.value.marker else "")
    && |chunk.rest| <= |text| - k && chunk.rest == text[|text| - |chunk.rest|..]
    && AllOf(text[k..|text| - |chunk.rest|], ' ') && (chunk.rest != "" ==> chunk.rest[0] != ' ')
  }

  lemma BreakPointIs(text: string, limit: int)
    requires 1 <= limit < |text|
    ensures BrokenAt(text, limit, BreakPoint(text, limit))
  {
    var reach := text[..limit + 1];
    assert forall i :: 0 <= i <= limit ==> reach[i] == text[i];
  }

  lemma BreakLineIs(text: string, limit: int, c: Cursor)
    requires 1 <= limit < |text| && '\n' !in c.partial && '\n' !in text[..limit]
    ensures BrokenOff(text, c, BreakPoint(text, limit), BreakLine(text, limit, c))
  {
    hide Advance, BreakPoint;
    var at := BreakPoint(text, limit);
    BreakWithin(text, limit);
    assert forall i :: 0 <= i < at ==> text[..limit][i] == text[i];
    AdvanceLine(c, text[..at]);
    var tail := text[at..];
    var n := Run(tail, ' ');
    var rest := tail[n..];
    assert rest == text[|text| - |rest|..] && tail[..n] == text[at..|text| - |rest|];
  }

  // ------------------------------------------------------------- the piece taken

  /** The last boundary within the limit. */
  ghost predicate LastBoundary(text: string, limit: int, c: Cursor, last: Candidate) {
    IsBoundary(text, limit, c, last) && forall b :: IsBoundary(text, limit, c, b) ==> b.offset <= last.offset
  }

  /**
    The best boundary no more than a tenth of the budget before the last one: the last, unless
    one there ranks better, and then the first of the best.
   */
  ghost predicate BestBoundary(text: string, budget: int, limit: int, c: Cursor, k: Candidate) {
    && IsBoundary(text, limit, c, k)
    && exists last ::
         && LastBoundary(text, limit, c, last) && k.offset >= last.offset - budget / 10
         && (k == last || k.rank < last.rank)
         && (forall b :: IsBoundary(text, limit, c, b) && b.offset >= last.offset - budget / 10 ==>
               k.rank <= b.rank && (k != last && b.offset < k.offset ==> k.rank < b.rank))
  }

  /** The piece ends there: closed if a block is open, and else without the newlines at its end. */
  ghost predicate CutThere(text: string, k: Candidate, chunk: Chunk) {
    && k.offset <= |text|
    && chunk.rest == text[k.offset..] && chunk.cursor == Cursor(k.fence, "")
    && match k.fence
       case Some(f) => chunk.head == text[..k.offset] + f.marker
       case None =>
         && |chunk.head| <= k.offset && chunk.head == text[..|chunk.head|]
         && AllOf(text[|chunk.head|..k.offset], '\n')
         && (chunk.head != "" ==> chunk.head[|chunk.head| - 1] != '\n')
  }

  /** What a piece has to be. */
  ghost predicate RightChunk(text: string, budget: int, c: Cursor, chunk: Chunk) {
    if |text| <= budget then chunk == Chunk(text, "", Feed(c, text))
    else
      exists r: nat :: Reserves(text, c, r) &&
        var limit := Max(1, budget - r);
        if exists b :: IsBoundary(text, limit, c, b)
        then exists k :: BestBoundary(text, budget, limit, c, k) && CutThere(text, k, chunk)
        else exists k: nat :: BrokenAt(text, limit, k) && BrokenOff(text, c, k, chunk)
  }

  lemma PickIsBestBoundary(text: string, budget: int, limit: int, c: Cursor)
    requires '\n' !in c.partial && budget >= 1 && Candidates(text, limit, c) != []
    ensures BestBoundary(text, budget, limit, c, Pick(Candidates(text, limit, c), budget).value)
  {
    hide IsBoundary, Candidates, Pick;
    CandidatesAreBoundaries(text, limit, c);
    var found := Candidates(text, limit, c);
    PickIsBest(found, budget);
    var k, last := Pick(found, budget).value, found[|found| - 1];
    assert last in found;
    forall b | b in found ensures b.offset <= last.offset {
      var i :| 0 <= i < |found| && found[i] == b;
    }
    PickRanks(found, budget, k);
    assert LastBoundary(text, limit, c, last);
  }

  lemma PickRanks(found: seq<Candidate>, budget: int, k: Candidate)
    requires found != [] && Ascending(found) && budget >= 0 && Pick(found, budget) == Some(k)
    ensures var last := found[|found| - 1];
            && (k == last || k.rank < last.rank)
            && (forall b :: b in found && b.offset >= last.offset - budget / 10 ==>
                  k.rank <= b.rank && (k != last && b.offset < k.offset ==> k.rank < b.rank))
  {
    hide PickFrom;
    var last := found[|found| - 1];
    PickFromIsBest(found, FloorOf(found, budget), last);
    if k != last {
      var i :| 0 <= i < |found| && found[i] == k
               && forall j :: 0 <= j < i && found[j].offset >= FloorOf(found, budget) ==> found[j].rank > k.rank;
      forall b | b in found && b.offset >= last.offset - budget / 10 && b.offset < k.offset ensures k.rank < b.rank {
        var j :| 0 <= j < |found| && found[j] == b;
        assert j < i;
      }
    }
  }

  lemma CutAtIs(text: string, k: Candidate)
    requires k.offset <= |text|
    ensures CutThere(text, k, CutAt(text, k))
  {
    var raw := text[..k.offset];
    var head := StripNewlines(raw);
    assert raw[|head|..] == text[|head|..k.offset] && raw[..|head|] == text[..|head|];
  }

  /** Every piece taken is as it has to be, for every text, budget and cursor. */
  lemma ChunkIsRight(text: string, budget: int, c: Cursor)
    requires budget >= 1 && '\n' !in c.partial
    ensures RightChunk(text, budget, c, TakeChunk(text, budget, c))
  {
    hide Advance, Candidates, Pick, Reserve, BreakLine, CutAt, IsBoundary, BestBoundary, BrokenAt, BrokenOff, CutThere,
        Reserves, TakeChunk;
    if |text| <= budget {
      WholeChunk(text, budget, c);
      AdvanceIsFeed(c, text);
    } else {
      var r := Reserve(text, c);
      var limit := Max(1, budget - r);
      ReserveIs(text, c);
      ChunkCases(text, budget, c);
      CandidatesAreBoundaries(text, limit, c);
      var found := Candidates(text, limit, c);
      if found == [] {
        NoBoundaryNoNewline(text, limit, c);
        BreakPointIs(text, limit);
        BreakLineIs(text, limit, c);
      } else {
        assert found[0] in found;
        PickIsBestBoundary(text, budget, limit, c);
        CutAtIs(text, Chosen(text, budget, c));
      }
    }
  }

  lemma NoBoundaryNoNewline(text: string, limit: int, c: Cursor)
    requires 1 <= limit <= |text| && Candidates(text, limit, c) == []
    ensures '\n' !in text[..limit]
  {
    hide Step, RankOf, LineAt;
    var nl := IndexOfNewline(text, 0);
    assert nl < 0 || nl > limit;
  }
}
