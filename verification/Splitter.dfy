/**
  The splitter as the program runs it: the scans that update locals in loops, each
  proved against the function of the same name in module Markdown.
 */
module Splitter {
  import opened Options
  import opened Text
  import M = Markdown
  import Scan = MarkdownScan

  type Fence = M.Fence
  type Cursor = M.Cursor

  /** Scans the lines that `text` completes, one after another. */
  method Advance(cursor: Cursor, text: string) returns (r: Cursor)
    ensures r == M.Advance(cursor, text)
    ensures '\n' !in cursor.partial ==> r == Scan.Feed(cursor, text)
  {
    hide M.Step;
    var lines := Lines(cursor.partial + text);
    var partial := lines[|lines| - 1];
    var complete := lines[..|lines| - 1];
    var fence := cursor.fence;
    for i := 0 to |complete|
      invariant M.StepAll(fence, complete[i..]) == M.StepAll(cursor.fence, complete)
    {
      fence := M.Step(fence, complete[i]);
    }
    r := M.Cursor(fence, partial);
    if '\n' !in cursor.partial {
      Scan.AdvanceIsFeed(cursor, text);
    }
  }

  /** Looks for the longest marker that may have to be closed. */
  method Reserve(text: string, cursor: Cursor) returns (r: nat)
    ensures r == M.Reserve(text, cursor)
  {
    var longest: nat := match cursor.fence case None => 0 case Some(f) => |f.marker|;
    ghost var start := longest;
    for at := 0 to |text| + 1
      invariant Max(start, M.LongestMarker(text, 0))
             == if at > |text| then longest else Max(longest, M.LongestMarker(text, at))
    {
      if M.LineStart(text, at) {
        longest := Max(longest, M.MarkerRun(text[at..]));
      }
    }
    r := if longest == 0 then 0 else longest + 1;
  }

  /** Collects the cuts within reach, scanning as it goes. */
  method Candidates(text: string, limit: int, cursor: Cursor) returns (found: seq<M.Candidate>)
    ensures found == M.Candidates(text, limit, cursor)
    ensures '\n' !in cursor.partial ==>
              Scan.Ascending(found) && forall k :: k in found <==> Scan.IsBoundary(text, limit, cursor, k)
  {
    hide M.Step, M.RankOf, M.LineAt;
    found := [];
    var fence := cursor.fence;
    var at := 0;
    while at <= limit
      invariant 0 <= at <= |text|
      invariant found + M.CandidatesFrom(text, limit, cursor, fence, at) == M.Candidates(text, limit, cursor)
      decreases |text| - at
    {
      var nl := IndexOfNewline(text, at);
      if nl < 0 || nl > limit {
        break;
      }
      var line := M.LineAt(text, at, nl, cursor);
      fence := M.Step(fence, line);
      at := nl + 1;
      if at > 0 {
        var rank := M.RankOf(fence, line);
        found := found + [M.Candidate(at, rank, fence)];
      }
    }
    if '\n' !in cursor.partial {
      Scan.CandidatesAreBoundaries(text, limit, cursor);
    }
  }

  /** Walks the candidates, keeping the best so far. */
  method Pick(found: seq<M.Candidate>, budget: int) returns (r: Option<M.Candidate>)
    ensures r == M.Pick(found, budget)
  {
    if found == [] {
      return None;
    }
    var latest := found[|found| - 1];
    var floor := latest.offset - budget / 10;
    var best := latest;
    for i := 0 to |found|
      invariant M.PickFrom(found[i..], floor, best) == M.PickFrom(found, floor, latest)
    {
      var c := found[i];
      if c.offset >= floor && c.rank < best.rank {
        best := c;
      }
    }
    r := Some(best);
  }

  /** Cuts the next piece off. */
  method TakeChunk(text: string, budget: int, cursor: Cursor) returns (r: M.Chunk)
    ensures r == M.TakeChunk(text, budget, cursor)
  {
    hide M.Step, M.Advance, M.CutAt, M.BreakLine;
    if |text| <= budget {
      var advanced := Advance(cursor, text);
      return M.Chunk(text, "", advanced);
    }
    var reserved := Reserve(text, cursor);
    var limit := Max(1, budget - reserved);
    var found := Candidates(text, limit, cursor);
    var cut := Pick(found, budget);
    if cut.Some? {
      M.CandidatesInText(text, limit, cursor, cursor.fence, 0);
      M.PickFromIsFound(found, M.FloorOf(found, budget), found[|found| - 1]);
      r := M.CutAt(text, cut.value);
    } else {
      r := BreakLine(text, limit, cursor);
    }
  }

  /** A line longer than the limit is broken at its last space, or anywhere. */
  method BreakLine(text: string, limit: int, cursor: Cursor) returns (r: M.Chunk)
    requires limit >= 1
    ensures r == M.BreakLine(text, limit, cursor)
  {
    hide M.Advance, LastSpace, Run, M.StepAll, Lines;
    var space := LastSpace(text[..Min(limit + 1, |text|)]);
    var at := Min(if space > 0 then space else limit, |text|);
    var advanced := Advance(cursor, text[..at]);
    var head := text[..at];
    if advanced.fence.Some? {
      head := head + M.Closer(advanced.fence.value);
    }
    var tail := text[at..];
    r := M.Chunk(head, tail[Run(tail, ' ')..], M.Cursor(advanced.fence, ""));
  }

  /** Splits text into pieces, each one valid Markdown on its own. */
  method SplitMarkdown(text: string, max: int) returns (pieces: seq<string>)
    ensures pieces == M.Split(text, max)
  {
    hide M.TakeChunk, M.SplitFrom, M.Reopen;
    pieces := [];
    var cursor := M.START;
    var rest := text;
    while rest != ""
      invariant pieces + M.SplitFrom(rest, cursor, max) == M.Split(text, max)
      decreases |rest|
    {
      var prefix := M.Reopen(cursor);
      var chunk := TakeChunk(rest, Max(1, max - |prefix|), cursor);
      M.TakeChunkProgress(rest, Max(1, max - |prefix|), cursor);
      NextPiece(rest, cursor, max);
      if chunk.head != "" {
        pieces := pieces + [prefix + chunk.head];
      }
      cursor := chunk.cursor;
      rest := chunk.rest;
    }
    NoPieces(cursor, max);
    assert pieces + [] == pieces;
  }

  lemma NextPiece(rest: string, cursor: M.Cursor, max: int)
    requires rest != ""
    ensures var prefix := M.Reopen(cursor);
            var chunk := M.TakeChunk(rest, Max(1, max - |prefix|), cursor);
            M.SplitFrom(rest, cursor, max)
            == (if chunk.head == "" then [] else [prefix + chunk.head]) + M.SplitFrom(chunk.rest, chunk.cursor, max)
  {
    hide M.TakeChunk, M.Reopen;
  }

  lemma NoPieces(cursor: M.Cursor, max: int)
    ensures M.SplitFrom("", cursor, max) == []
  {
  }
}
