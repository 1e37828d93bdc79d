/**
  What a split keeps, for every text and every size: the pieces are the input in order,
  with only fence lines added and only runs of newlines or spaces dropped at the cuts.
 */
module MarkdownFaithful {
  import opened Options
  import opened Text
  import opened Markdown
  import opened MarkdownScan

  /**
    One cut of a text: the line that reopens the block before it, the text kept, the closing
    line, the whitespace dropped, and the fence left open by the text up to the end of the gap.
   */
  datatype Cut = Cut(prefix: string, kept: string, suffix: string, gap: string, open: Option<Fence>)

  /** The text the cuts were made in. */
  function Join(cuts: seq<Cut>): string {
    if cuts == [] then "" else cuts[0].kept + cuts[0].gap + Join(cuts[1..])
  }

  /** The messages: a cut that kept nothing sends nothing. */
  function Pieces(cuts: seq<Cut>): seq<string> {
    if cuts == [] then []
    else
      var c := cuts[0];
      (if c.kept + c.suffix == "" then [] else [c.prefix + c.kept + c.suffix]) + Pieces(cuts[1..])
  }

  predicate IsGap(s: string) {
    AllOf(s, '\n') || AllOf(s, ' ')
  }

  /** The suffix closes the fence left open, on a line of its own; with none open there is no suffix. */
  predicate ClosesItsFence(c: Cut) {
    match c.open
    case None => c.suffix == ""
    case Some(f) =>
      || c.suffix == Closer(f)
      || (c.suffix == f.marker && c.kept != "" && c.kept[|c.kept| - 1] == '\n')
  }

  /**
    The cuts follow one another: each reopens exactly the fence its predecessor closed, which is
    the fence a scan of the predecessor's text finds open. Only the last may leave one unclosed.
   */
  predicate IsSplit(cuts: seq<Cut>, fence: Option<Fence>) {
    cuts == [] ||
    var c := cuts[0];
    && c.prefix == Reopen(Cursor(fence, ""))
    && c.open == Advance(Cursor(fence, ""), c.kept + c.gap).fence
    && IsGap(c.gap)
    && (ClosesItsFence(c) || (|cuts| == 1 && c.suffix == c.gap == ""))
    && IsSplit(cuts[1..], c.open)
  }

  /** What TakeChunk did, as a cut. */
  ghost predicate Describes(c: Cut, text: string, cursor: Cursor, chunk: Chunk) {
    && text == c.kept + c.gap + chunk.rest
    && chunk.head == c.kept + c.suffix
    && c.open == chunk.cursor.fence == Advance(cursor, c.kept + c.gap).fence
    && IsGap(c.gap)
    && (ClosesItsFence(c) || (chunk.rest == "" && c.suffix == c.gap == ""))
  }

  lemma SpacesKeepTheFence(c: Cursor, text: string, gap: string)
    requires '\n' !in c.partial && AllOf(gap, ' ')
    ensures Advance(c, text + gap).fence == Advance(c, text).fence
  {
    hide Step;
    AdvanceAction(c, text, gap);
    LinesHaveNoNewline(c.partial + text);
    AdvanceLine(Advance(c, text), gap);
  }

  lemma CutAtDescribed(text: string, limit: int, c: Cursor, cut: Candidate, prefix: string)
    requires '\n' !in c.partial && cut.offset <= |text| && IsBoundary(text, limit, c, cut)
    ensures exists d: Cut :: d.prefix == prefix && Describes(d, text, c, CutAt(text, cut)) && ClosesItsFence(d)
  {
    hide Step, Advance, StripNewlines;
    var raw := text[..cut.offset];
    assert text == raw + text[cut.offset..];
    if cut.fence.Some? {
      var d := Cut(prefix, raw, cut.fence.value.marker, "", cut.fence);
      assert d.kept + d.gap == raw;
      assert Describes(d, text, c, CutAt(text, cut)) && ClosesItsFence(d) && d.prefix == prefix;
    } else {
      var kept := StripNewlines(raw);
      var d := Cut(prefix, kept, "", raw[|kept|..], cut.fence);
      assert d.kept + d.gap == raw && d.kept + d.suffix == kept;
      assert Describes(d, text, c, CutAt(text, cut)) && ClosesItsFence(d) && d.prefix == prefix;
    }
  }

  lemma BreakLineDescribed(text: string, limit: int, c: Cursor, prefix: string)
    requires '\n' !in c.partial && limit >= 1
    ensures exists d: Cut :: d.prefix == prefix && Describes(d, text, c, BreakLine(text, limit, c)) && ClosesItsFence(d)
  {
    hide Step, Advance, LastSpace, Run;
    var at := BreakPoint(text, limit);
    var fence := Advance(c, text[..at]).fence;
    var tail := text[at..];
    var gap := tail[..Run(tail, ' ')];
    var suffix := match fence case None => "" case Some(f) => Closer(f);
    SpacesKeepTheFence(c, text[..at], gap);
    var d := Cut(prefix, text[..at], suffix, gap, fence);
    assert text == text[..at] + gap + tail[|gap|..];
    assert text[..at] + gap == d.kept + d.gap && IsGap(gap) && ClosesItsFence(d);
    assert Describes(d, text, c, BreakLine(text, limit, c)) && ClosesItsFence(d);
  }

  lemma ChunkDescribed(text: string, budget: int, c: Cursor, prefix: string)
    requires '\n' !in c.partial
    ensures exists d: Cut :: d.prefix == prefix && Describes(d, text, c, TakeChunk(text, budget, c))
                             && (|text| > budget ==> ClosesItsFence(d))
  {
    hide Step, Advance, BreakLine, CutAt, Candidates, TakeChunk, Chosen, Describes, ClosesItsFence, IsBoundary;
    ChunkCases(text, budget, c);
    if |text| <= budget {
      WholeDescribed(text, c, prefix);
    } else {
      var limit := LimitOf(text, budget, c);
      CandidatesAreBoundaries(text, limit, c);
      if Candidates(text, limit, c) == [] {
        BreakLineDescribed(text, limit, c, prefix);
      } else {
        CutAtDescribed(text, limit, c, Chosen(text, budget, c), prefix);
      }
    }
  }

  lemma WholeDescribed(text: string, c: Cursor, prefix: string)
    ensures exists d: Cut :: d.prefix == prefix && Describes(d, text, c, Chunk(text, "", Advance(c, text)))
  {
    hide Advance;
    assert text + "" == text;
    assert Describes(Cut(prefix, text, "", "", Advance(c, text).fence), text, c, Chunk(text, "", Advance(c, text)));
  }

  ghost predicate Faithful(cuts: seq<Cut>, fence: Option<Fence>, text: string, pieces: seq<string>) {
    IsSplit(cuts, fence) && Join(cuts) == text && Pieces(cuts) == pieces
  }

  lemma FaithfulCons(d: Cut, tail: seq<Cut>, fence: Option<Fence>, text: string, chunk: Chunk, pieces: seq<string>)
    requires d.prefix == Reopen(Cursor(fence, "")) && Describes(d, text, Cursor(fence, ""), chunk)
    requires Faithful(tail, chunk.cursor.fence, chunk.rest, pieces)
    requires chunk.rest == "" ==> tail == []
    ensures Faithful([d] + tail, fence, text, (if chunk.head == "" then [] else [d.prefix + chunk.head]) + pieces)
  {
    hide Step, Advance;
    var cuts := [d] + tail;
    assert cuts[1..] == tail;
    assert d.prefix + d.kept + d.suffix == d.prefix + chunk.head;
  }

  lemma {:induction false} SplitFromIsFaithful(rest: string, fence: Option<Fence>, max: int)
    ensures exists cuts :: Faithful(cuts, fence, rest, SplitFrom(rest, Cursor(fence, ""), max))
    decreases |rest|
  {
    hide Step, Advance, TakeChunk, Faithful, Describes, Reopen;
    if rest == "" {
      NothingToSplit(Cursor(fence, ""), max);
    } else {
      var c := Cursor(fence, "");
      var prefix := Reopen(c);
      var budget := Max(1, max - |prefix|);
      var chunk := TakeChunk(rest, budget, c);
      TakeChunkProgress(rest, budget, c);
      ChunkDescribed(rest, budget, c, prefix);
      var d: Cut :| d.prefix == prefix && Describes(d, rest, c, chunk);
      ChunkCursor(rest, budget, c);
      var tail: seq<Cut> := [];
      if chunk.rest == "" {
        NothingToSplit(chunk.cursor, max);
      } else {
        SplitFromIsFaithful(chunk.rest, chunk.cursor.fence, max);
        tail :| Faithful(tail, chunk.cursor.fence, chunk.rest, SplitFrom(chunk.rest, chunk.cursor, max));
      }
      FaithfulCons(d, tail, fence, rest, chunk, SplitFrom(chunk.rest, chunk.cursor, max));
      assert Faithful([d] + tail, fence, rest, SplitFrom(rest, c, max));
    }
  }

  lemma NothingToSplit(c: Cursor, max: int)
    ensures Faithful([], c.fence, "", SplitFrom("", c, max))
  {
  }

  /** What is left starts a fresh message, so a fresh line. */
  lemma ChunkCursor(text: string, budget: int, c: Cursor)
    ensures TakeChunk(text, budget, c).cursor.partial == "" || TakeChunk(text, budget, c).rest == ""
  {
  }

  /**
    For every text and every size: cut the text somewhere, drop only newlines or spaces at the
    cuts, close at each cut the fence a scan finds open there and reopen it in the next piece;
    that is exactly what the splitter returns.
   */
  lemma SplitIsFaithful(text: string, max: int)
    ensures exists cuts :: Faithful(cuts, None, text, Split(text, max))
  {
    hide Faithful, SplitFrom;
    SplitFromIsFaithful(text, None, max);
    assert Split(text, max) == SplitFrom(text, Cursor(None, ""), max);
  }
}
