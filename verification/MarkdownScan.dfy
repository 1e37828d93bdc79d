/**
  What the scanners of the splitter compute: the incremental one is a monoid action
  that agrees with a character-by-character automaton, the index-based one lists
  exactly the line boundaries within reach with the fence state of a whole scan.
 */
module MarkdownScan {
  import opened Options
  import opened Text
  import opened Markdown

  // ------------------------------------------------------------- lines

  ghost predicate GluedAt(ab: seq<string>, a: seq<string>, b: seq<string>)
    requires a != [] && b != []
  {
    ab == a[..|a| - 1] + [a[|a| - 1] + b[0]] + b[1..]
  }

  lemma PrependGlued(c: char, ab: seq<string>, a: seq<string>, b: seq<string>)
    requires a != [] && b != [] && GluedAt(ab, a, b)
    ensures GluedAt(Prepend(c, ab), Prepend(c, a), b)
  {
    if c != '\n' && |a| == 1 {
      assert ab == [a[0] + b[0]] + b[1..];
      assert [c] + (a[0] + b[0]) == ([c] + a[0]) + b[0];
    }
  }

  /** Lines of a concatenation: the two lines that meet are glued. */
  lemma {:induction false} LinesAppend(a: string, b: string)
    ensures GluedAt(Lines(a + b), Lines(a), Lines(b))
    decreases |a|
  {
    if a == "" {
      assert a + b == b;
      assert "" + Lines(b)[0] == Lines(b)[0];
    } else {
      LinesAppend(a[1..], b);
      assert (a + b)[1..] == a[1..] + b;
      PrependGlued(a[0], Lines(a[1..] + b), Lines(a[1..]), Lines(b));
    }
  }

  lemma {:induction false} LinesUnbroken(s: string)
    requires '\n' !in s
    ensures Lines(s) == [s]
    decreases |s|
  {
    if s != "" {
      assert s[0] in s;
      LinesUnbroken(s[1..]);
      assert s == [s[0]] + s[1..];
    }
  }

  lemma {:induction false} LinesHaveNoNewline(s: string)
    ensures forall i :: 0 <= i < |Lines(s)| ==> '\n' !in Lines(s)[i]
    decreases |s|
  {
    if s != "" {
      LinesHaveNoNewline(s[1..]);
    }
  }

  /** A text that ends with a newline: its last line is empty, and what follows keeps its own lines. */
  lemma LinesAtBoundary(a: string, b: string)
    requires a != "" && a[|a| - 1] == '\n'
    ensures |Lines(a)| >= 2 && Lines(a)[|Lines(a)| - 1] == ""
    ensures Lines(a + b) == Lines(a)[..|Lines(a)| - 1] + Lines(b)
  {
    assert a == a[..|a| - 1] + "\n";
    LinesAppend(a[..|a| - 1], "\n");
    assert Lines("\n") == ["", ""];
    LinesAppend(a, b);
    assert "" + Lines(b)[0] == Lines(b)[0];
  }

  lemma {:induction false} StepAllAppend(fence: Option<Fence>, a: seq<string>, b: seq<string>)
    ensures StepAll(fence, a + b) == StepAll(StepAll(fence, a), b)
    decreases |a|
  {
    if a == [] {
      assert a + b == b;
    } else {
      assert (a + b)[1..] == a[1..] + b;
      StepAllAppend(Step(fence, a[0]), a[1..], b);
    }
  }

  // ------------------------------------------------------------- the incremental scanner

  /**
    Scanning is a monoid action: deltas may break the text anywhere, mid-line or
    mid-fence, and the cursor ends where one scan of the whole would have left it.
   */
  lemma AdvanceAction(c: Cursor, a: string, b: string)
    ensures Advance(Advance(c, a), b) == Advance(c, a + b)
  {
    hide Step, StepAll, Lines;
    var first := Lines(c.partial + a);
    var kept, last := first[..|first| - 1], first[|first| - 1];
    LinesHaveNoNewline(c.partial + a);
    LinesRescanned(c.partial + a, b);
    assert c.partial + (a + b) == (c.partial + a) + b;
    var next := Lines(last + b);
    assert (kept + next)[..|kept + next| - 1] == kept + next[..|next| - 1];
    StepAllAppend(c.fence, kept, next[..|next| - 1]);
  }

  /** Only the unfinished last line has to be scanned again with what follows it. */
  lemma LinesRescanned(a: string, b: string)
    ensures Lines(a + b) == Lines(a)[..|Lines(a)| - 1] + Lines(Lines(a)[|Lines(a)| - 1] + b)
  {
    var last := Lines(a)[|Lines(a)| - 1];
    LinesHaveNoNewline(a);
    LinesUnbroken(last);
    LinesAppend(last, b);
    LinesAppend(a, b);
  }

  lemma AdvanceNothing(c: Cursor)
    requires '\n' !in c.partial
    ensures Advance(c, "") == c
  {
    assert c.partial + "" == c.partial;
    LinesUnbroken(c.partial);
  }

  /** The same scan one character at a time, which never looks back: the reference automaton. */
  function Feed(c: Cursor, text: string): Cursor
    decreases |text|
  {
    if text == "" then c
    else if text[0] == '\n' then Feed(Cursor(Step(c.fence, c.partial), ""), text[1..])
    else Feed(Cursor(c.fence, c.partial + [text[0]]), text[1..])
  }

  /** A scan of one more complete line. */
  lemma AdvanceLine(c: Cursor, rest: string)
    requires '\n' !in c.partial && '\n' !in rest
    ensures Advance(c, rest + "\n") == Cursor(Step(c.fence, c.partial + rest), "")
    ensures Advance(c, rest) == Cursor(c.fence, c.partial + rest)
  {
    var line := c.partial + rest;
    LinesUnbroken(line);
    LinesAppend(line, "\n");
    assert Lines("\n") == ["", ""];
    assert line + "" == line;
    assert c.partial + (rest + "\n") == line + "\n";
    assert Lines(line + "\n") == [line, ""];
    assert StepAll(c.fence, [line]) == StepAll(Step(c.fence, line), []);
  }

  lemma {:induction false} AdvanceIsFeed(c: Cursor, text: string)
    requires '\n' !in c.partial
    ensures Advance(c, text) == Feed(c, text)
    decreases |text|
  {
    hide Step, Advance;
    if text == "" {
      AdvanceNothing(c);
    } else {
      assert text == [text[0]] + text[1..];
      AdvanceAction(c, [text[0]], text[1..]);
      if text[0] == '\n' {
        AdvanceLine(c, "");
        assert "" + "\n" == [text[0]] && c.partial + "" == c.partial;
        AdvanceIsFeed(Cursor(Step(c.fence, c.partial), ""), text[1..]);
      } else {
        AdvanceLine(c, [text[0]]);
        AdvanceIsFeed(Cursor(c.fence, c.partial + [text[0]]), text[1..]);
      }
    }
  }

  // ------------------------------------------------------------- the index-based scanner

  /** A line boundary of `text` within `limit`, judged by a scan of the whole text before it. */
  ghost predicate IsBoundary(text: string, limit: int, c: Cursor, k: Candidate) {
    && 1 <= k.offset <= |text|
    && k.offset - 1 <= limit
    && text[k.offset - 1] == '\n'
    && k.fence == Advance(c, text[..k.offset]).fence
    && k.rank == RankOf(k.fence, Advance(c, text[..k.offset - 1]).partial)
  }

  /** The scan has reached the start of a line, at `at`. */
  ghost predicate AtLine(text: string, c: Cursor, fence: Option<Fence>, at: nat)
    requires at <= |text|
  {
    Advance(c, text[..at]) == Cursor(fence, if at == 0 then c.partial else "")
  }

  lemma NextLine(text: string, c: Cursor, fence: Option<Fence>, at: nat, nl: nat)
    requires '\n' !in c.partial
    requires at <= nl < |text| && text[nl] == '\n' && '\n' !in text[at..nl]
    requires AtLine(text, c, fence, at)
    ensures Advance(c, text[..nl]).partial == LineAt(text, at, nl, c)
    ensures AtLine(text, c, Step(fence, LineAt(text, at, nl, c)), nl + 1)
  {
    hide Step, Advance;
    var here := Advance(c, text[..at]);
    assert text[..nl] == text[..at] + text[at..nl];
    assert text[..nl + 1] == text[..at] + (text[at..nl] + "\n");
    AdvanceAction(c, text[..at], text[at..nl]);
    AdvanceAction(c, text[..at], text[at..nl] + "\n");
    AdvanceLine(here, text[at..nl]);
  }

  lemma {:induction false} CandidatesFromAreBoundaries(
      text: string, limit: int, c: Cursor, fence: Option<Fence>, at: nat)
    requires '\n' !in c.partial
    requires at <= |text| && AtLine(text, c, fence, at)
    ensures forall k :: k in CandidatesFrom(text, limit, c, fence, at) ==> IsBoundary(text, limit, c, k)
    decreases |text| - at
  {
    hide Step, Advance, RankOf, LineAt;
    var nl := IndexOfNewline(text, at);
    if at <= limit && 0 <= nl <= limit {
      NextLine(text, c, fence, at, nl);
      CandidatesFromAreBoundaries(text, limit, c, Step(fence, LineAt(text, at, nl, c)), nl + 1);
    }
  }

  lemma {:induction false} BoundariesAreCandidates(
      text: string, limit: int, c: Cursor, fence: Option<Fence>, at: nat, k: Candidate)
    requires '\n' !in c.partial
    requires at <= |text| && AtLine(text, c, fence, at)
    requires IsBoundary(text, limit, c, k) && at < k.offset
    ensures k in CandidatesFrom(text, limit, c, fence, at)
    decreases |text| - at
  {
    hide Step, Advance, RankOf, LineAt;
    var nl := IndexOfNewline(text, at);
    assert nl >= 0 by { assert text[k.offset - 1] == '\n'; }
    NextLine(text, c, fence, at, nl);
    if nl + 1 < k.offset {
      BoundariesAreCandidates(text, limit, c, Step(fence, LineAt(text, at, nl, c)), nl + 1, k);
    }
  }

  ghost predicate Ascending(found: seq<Candidate>) {
    forall i, j :: 0 <= i < j < |found| ==> found[i].offset < found[j].offset
  }

  lemma {:induction false} CandidatesAscend(text: string, limit: int, c: Cursor, fence: Option<Fence>, at: nat)
    requires at <= |text|
    ensures Ascending(CandidatesFrom(text, limit, c, fence, at))
    decreases |text| - at
  {
    hide Step, RankOf, LineAt;
    var nl := IndexOfNewline(text, at);
    if at <= limit && 0 <= nl <= limit {
      var fence' := Step(fence, LineAt(text, at, nl, c));
      CandidatesAscend(text, limit, c, fence', nl + 1);
      CandidatesInText(text, limit, c, fence', nl + 1);
      var rest := CandidatesFrom(text, limit, c, fence', nl + 1);
      forall j | 0 <= j < |rest|
        ensures nl + 1 < rest[j].offset
      {
        assert rest[j] in rest;
      }
    }
  }

  /**
    The candidates are exactly the line boundaries within reach, in order, each with the fence
    a whole scan would find.
   */
  lemma CandidatesAreBoundaries(text: string, limit: int, c: Cursor)
    requires '\n' !in c.partial
    ensures var found := Candidates(text, limit, c);
            && Ascending(found)
            && (forall k :: k in found <==> IsBoundary(text, limit, c, k))
  {
    AdvanceNothing(c);
    assert text[..0] == "";
    CandidatesFromAreBoundaries(text, limit, c, c.fence, 0);
    CandidatesAscend(text, limit, c, c.fence, 0);
    forall k | IsBoundary(text, limit, c, k)
      ensures k in Candidates(text, limit, c)
    {
      BoundariesAreCandidates(text, limit, c, c.fence, 0, k);
    }
  }

  // ------------------------------------------------------------- the choice

  lemma {:induction false} PickFromIsBest(found: seq<Candidate>, floor: int, best: Candidate)
    ensures var r := PickFrom(found, floor, best);
            && (r == best || (r in found && r.offset >= floor && r.rank < best.rank))
            && (forall k :: k in found && k.offset >= floor ==> r.rank <= k.rank)
            && (r.rank < best.rank ==> FirstInWindow(found, floor, r))
    decreases |found|
  {
    if found != [] {
      var c := found[0];
      var best' := if c.offset >= floor && c.rank < best.rank then c else best;
      PickFromIsBest(found[1..], floor, best');
      hide FirstInWindow;
      assert found == [c] + found[1..];
      var r := PickFrom(found, floor, best);
      if r.rank < best'.rank {
        FirstAfter(found, floor, r);
      }
    }
  }

  lemma FirstAfter(found: seq<Candidate>, floor: int, r: Candidate)
    requires found != [] && FirstInWindow(found[1..], floor, r)
    requires found[0].offset >= floor ==> found[0].rank > r.rank
    ensures FirstInWindow(found, floor, r)
  {
    var i :| 0 <= i < |found[1..]| && found[1..][i] == r
             && forall j :: 0 <= j < i && found[1..][j].offset >= floor ==> found[1..][j].rank > r.rank;
    assert found[i + 1] == r;
    assert forall j :: 0 < j < i + 1 ==> found[j] == found[1..][j - 1];
  }

  /** No candidate in the window before this one ranks as well. */
  ghost predicate FirstInWindow(found: seq<Candidate>, floor: int, r: Candidate) {
    exists i :: 0 <= i < |found| && found[i] == r
                && forall j :: 0 <= j < i && found[j].offset >= floor ==> found[j].rank > r.rank
  }

  /**
    The cut is a candidate no more than a tenth of the budget short of the latest one,
    and nothing in that window ranks better; the latest wins a tie, and otherwise the
    earliest of the best is taken.
   */
  lemma PickIsBest(found: seq<Candidate>, budget: int)
    requires found != [] && budget >= 0
    ensures var r := Pick(found, budget);
            var latest := found[|found| - 1];
            && r.Some? && r.value in found
            && r.value.offset >= latest.offset - budget / 10
            && (forall k :: k in found && k.offset >= latest.offset - budget / 10 ==> r.value.rank <= k.rank)
            && (r.value == latest || FirstInWindow(found, latest.offset - budget / 10, r.value))
  {
    PickFromIsBest(found, FloorOf(found, budget), found[|found| - 1]);
  }

  /** A line that ends in a carriage return is no fence line, whatever it starts with. */
  lemma CarriageReturnHidesFence(fence: Option<Fence>, line: string)
    ensures Step(fence, line + "\r") == fence
  {
    hide FenceLine;
    NoFenceLine(line + "\r");
  }

  lemma NoFenceLine(s: string)
    requires s != "" && s[|s| - 1] == '\r'
    ensures FenceLine(s) == None
  {
    hide MarkerRun, Run, TrimLeft, TrimRight;
    var k, n := Run(s, ' '), MarkerRun(s);
    if n > 0 {
      assert AllOf(s[k..k + n], s[k]);
      assert forall i :: k <= i < k + n ==> s[i] == s[k..k + n][i - k];
      assert k + n < |s| ==> IsTerminator(s[k + n..][|s| - k - n - 1]);
    }
  }
}
