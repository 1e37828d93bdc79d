/**
  The fence-aware Markdown splitter: it cuts a text of any length into pieces of
  bounded size, closing a fenced code block at a cut and reopening it in the next
  piece. A text is a `string`; the regular expressions of the original are
  functions over it.

  Fenced code blocks are those of section 4.5 of CommonMark 0.31.2, as far as the
  rules for opening and closing lines go.
 */
module Markdown {
  import opened Options
  import opened Text

  // ------------------------------------------------------------- fences

  /** A fenced block not closed yet: its opening run of fence characters, and what follows it on that line. */
  datatype Fence = Fence(marker: string, info: string)

  /** What holds of every fence that a line opens: a run of one fence character, and a trimmed one-line info string. */
  ghost predicate Genuine(f: Fence) {
    && |f.marker| >= 3
    && (f.marker[0] == '`' || f.marker[0] == '~')
    && AllOf(f.marker, f.marker[0])
    && Trimmed(f.info)
    && OneLine(f.info)
  }

  /** Where a scan has left us: the open fence, and the text after the last newline. */
  datatype Cursor = Cursor(fence: Option<Fence>, partial: string)

  /** A cursor that a scan can have left. */
  ghost predicate Scanned(c: Cursor) {
    '\n' !in c.partial && GenuineIfAny(c.fence)
  }

  ghost predicate GenuineIfAny(fence: Option<Fence>) {
    fence.Some? ==> Genuine(fence.value)
  }

  const START := Cursor(None, "")

  function ReopenFence(f: Fence): string { f.marker + f.info + "\n" }

  /** What a new message has to start with to go on inside the cursor's block. */
  function Reopen(c: Cursor): string {
    match c.fence
    case None => ""
    case Some(f) => ReopenFence(f)
  }

  function Closer(f: Fence): string { "\n" + f.marker }

  /** Length of the fence run that `s` starts with after at most three spaces, or 0. */
  function MarkerRun(s: string): (n: nat)
    ensures n == 0 || 3 <= n <= |s|
    ensures n != 0 ==>
              var k := Run(s, ' ');
              k + n <= |s| && (s[k] == '`' || s[k] == '~') && AllOf(s[k..k + n], s[k])
  {
    var k := Run(s, ' ');
    if k > 3 || k == |s| || (s[k] != '`' && s[k] != '~') then 0
    else
      var n := Run(s[k..], s[k]);
      assert s[k..k + n] == s[k..][..n];
      if n < 3 then 0 else n
  }

  /** A line read as a fence: its run and its info string, or nothing when it is ordinary text. */
  function FenceLine(line: string): (r: Option<Fence>)
    ensures r.Some? ==> Genuine(r.value) && |r.value.marker| == MarkerRun(line)
  {
    hide *;
    var k := Run(line, ' ');
    var n := MarkerRun(line);
    if n == 0 then None
    else
      var marker, tail := line[k..k + n], line[k + n..];
      if OneLine(tail) then
        MarkerGenuine(marker, Trim(tail));
        Some(Fence(marker, Trim(tail)))
      else None
  }

  lemma MarkerGenuine(marker: string, info: string)
    requires |marker| >= 3 && (marker[0] == '`' || marker[0] == '~') && AllOf(marker, marker[0])
    requires Trimmed(info) && OneLine(info)
    ensures Genuine(Fence(marker, info))
  {
  }

  /** Whether a block is open once the line has ended. */
  function Step(fence: Option<Fence>, line: string): Option<Fence> {
    match FenceLine(line)
    case None => fence
    case Some(found) =>
      match fence
      case None => if found.marker[0] == '`' && '`' in found.info then None else Some(found)
      case Some(f) =>
        if
          f.marker != "" && found.marker[0] == f.marker[0] && |found.marker| >= |f.marker| && found.info == ""
        then None
        else fence
  }

  /** The fence state after several complete lines. */
  function StepAll(fence: Option<Fence>, lines: seq<string>): Option<Fence>
    decreases |lines|
  {
    if lines == [] then fence else StepAll(Step(fence, lines[0]), lines[1..])
  }

  /** Scanning goes on from `c` over `text`. */
  function Advance(c: Cursor, text: string): Cursor {
    var lines := Lines(c.partial + text);
    Cursor(StepAll(c.fence, lines[..|lines| - 1]), lines[|lines| - 1])
  }

  // ------------------------------------------------------------- where to cut

  /** Where `^` matches in multiline mode. */
  predicate LineStart(text: string, at: nat)
    requires at <= |text|
  {
    at == 0 || IsTerminator(text[at - 1])
  }

  /** The longest fence run at a line start of `text` at or after `at`, or 0. */
  function LongestMarker(text: string, at: nat): nat
    requires at <= |text|
    decreases |text| - at
  {
    var here := if LineStart(text, at) then MarkerRun(text[at..]) else 0;
    if at == |text| then here else Max(here, LongestMarker(text, at + 1))
  }

  function MarkerLength(c: Cursor): nat {
    match c.fence
    case None => 0
    case Some(f) => |f.marker|
  }

  /** What to leave free: any block open at the end of the piece may have to be closed there. */
  function Reserve(text: string, c: Cursor): nat {
    var longest := Max(MarkerLength(c), LongestMarker(text, 0));
    if longest == 0 then 0 else longest + 1
  }

  const PARAGRAPH := 1
  const LINE := 2
  const IN_FENCE := 3

  /** A place to cut: where the rest would start, how good a cut it is, and the block open there. */
  datatype Candidate = Candidate(offset: nat, rank: int, fence: Option<Fence>)

  function RankOf(fence: Option<Fence>, line: string): int {
    if fence.Some? then IN_FENCE else if line == "" then PARAGRAPH else LINE
  }

  /** The line that starts at `at` and ends at `nl`; the first one continues the cursor's. */
  function LineAt(text: string, at: nat, nl: nat, c: Cursor): string
    requires at <= nl <= |text|
  {
    (if at == 0 then c.partial else "") + text[at..nl]
  }

  function CandidatesFrom(text: string, limit: int, c: Cursor, fence: Option<Fence>, at: nat): seq<Candidate>
    requires at <= |text|
    decreases |text| - at
  {
    if at > limit then []
    else
      var nl := IndexOfNewline(text, at);
      if nl < 0 || nl > limit then []
      else
        var line := LineAt(text, at, nl, c);
        var fence' := Step(fence, line);
        [Candidate(nl + 1, RankOf(fence', line), fence')] + CandidatesFrom(text, limit, c, fence', nl + 1)
  }

  /** Where `text` may be cut: after each line that ends within `limit`. */
  function Candidates(text: string, limit: int, c: Cursor): seq<Candidate> {
    CandidatesFrom(text, limit, c, c.fence, 0)
  }

  function PickFrom(found: seq<Candidate>, floor: int, best: Candidate): Candidate {
    if found == [] then best
    else
      var c := found[0];
      PickFrom(found[1..], floor, if c.offset >= floor && c.rank < best.rank then c else best)
  }

  /** Where a candidate has to be to be preferred to the latest one: a tenth of the budget may be given up. */
  function FloorOf(found: seq<Candidate>, budget: int): int
    requires found != []
  {
    found[|found| - 1].offset - budget / 10
  }

  /** Of the candidates late enough, one of the best rank. */
  function Pick(found: seq<Candidate>, budget: int): Option<Candidate> {
    if found == [] then None
    else Some(PickFrom(found, FloorOf(found, budget), found[|found| - 1]))
  }

  // ------------------------------------------------------------- one chunk

  /** One piece of a split, what did not fit, and the cursor the rest starts from. */
  datatype Chunk = Chunk(head: string, rest: string, cursor: Cursor)

  function LimitOf(text: string, budget: int, c: Cursor): int {
    Max(1, budget - Reserve(text, c))
  }

  function CutAt(text: string, cut: Candidate): Chunk
    requires cut.offset <= |text|
  {
    var raw := text[..cut.offset];
    var head :=
      match cut.fence
      case None => StripNewlines(raw)
      case Some(f) => raw + f.marker;
    Chunk(head, text[cut.offset..], Cursor(cut.fence, ""))
  }

  /** Where a line too long for the budget is broken: at its last space that fits, or at the limit. */
  function BreakPoint(text: string, limit: int): nat
    requires limit >= 1
  {
    var space := LastSpace(text[..Min(limit + 1, |text|)]);
    Min(if space > 0 then space else limit, |text|)
  }

  function BreakLine(text: string, limit: int, c: Cursor): Chunk
    requires limit >= 1
  {
    var at := BreakPoint(text, limit);
    var fence := Advance(c, text[..at]).fence;
    var tail := text[at..];
    Chunk(text[..at] + (match fence case None => "" case Some(f) => Closer(f)),
          tail[Run(tail, ' ')..],
          Cursor(fence, ""))
  }

  lemma CandidatesInText(text: string, limit: int, c: Cursor, fence: Option<Fence>, at: nat)
    requires at <= |text|
    ensures forall k :: k in CandidatesFrom(text, limit, c, fence, at) ==> at < k.offset <= |text|
    decreases |text| - at
  {
    var nl := IndexOfNewline(text, at);
    if at <= limit && 0 <= nl <= limit {
      CandidatesInText(text, limit, c, Step(fence, LineAt(text, at, nl, c)), nl + 1);
    }
  }

  lemma PickFromIsFound(found: seq<Candidate>, floor: int, best: Candidate)
    ensures PickFrom(found, floor, best) == best || PickFrom(found, floor, best) in found
  {
  }

  /**
    The next piece: everything if it fits, else up to the picked cut, or part of a line too
    long for the budget; a block open at its end is closed there.
   */
  function TakeChunk(text: string, budget: int, c: Cursor): Chunk {
    if |text| <= budget then Chunk(text, "", Advance(c, text))
    else
      var limit := LimitOf(text, budget, c);
      var found := Candidates(text, limit, c);
      match Pick(found, budget)
      case Some(cut) =>
        CandidatesInText(text, limit, c, c.fence, 0);
        PickFromIsFound(found, FloorOf(found, budget), found[|found| - 1]);
        CutAt(text, cut)
      case None => BreakLine(text, limit, c)
  }

  /** The cut a chunk is taken at, when a boundary is within reach. */
  function Chosen(text: string, budget: int, c: Cursor): (cut: Candidate)
    requires Candidates(text, LimitOf(text, budget, c), c) != []
    ensures cut in Candidates(text, LimitOf(text, budget, c), c) && 1 <= cut.offset <= |text|
  {
    var limit := LimitOf(text, budget, c);
    var found := Candidates(text, limit, c);
    CandidatesInText(text, limit, c, c.fence, 0);
    PickFromIsFound(found, FloorOf(found, budget), found[|found| - 1]);
    Pick(found, budget).value
  }

  /** The three ways a chunk is taken. */
  lemma ChunkCases(text: string, budget: int, c: Cursor)
    ensures var limit := LimitOf(text, budget, c);
            TakeChunk(text, budget, c)
            == if |text| <= budget then Chunk(text, "", Advance(c, text))
               else if Candidates(text, limit, c) == [] then BreakLine(text, limit, c)
               else CutAt(text, Chosen(text, budget, c))
  {
    hide Advance, LimitOf, Candidates, BreakLine, CutAt;
  }

  lemma TakeChunkProgress(text: string, budget: int, c: Cursor)
    requires text != ""
    ensures |TakeChunk(text, budget, c).rest| < |text|
  {
    hide Advance, CandidatesFrom, LongestMarker, LastSpace, PickFrom;
    var limit := LimitOf(text, budget, c);
    var found := Candidates(text, limit, c);
    if |text| > budget && found != [] {
      CandidatesInText(text, limit, c, c.fence, 0);
      PickFromIsFound(found, FloorOf(found, budget), found[|found| - 1]);
    }
  }

  /** The pieces of `rest`, which starts a fresh message at cursor `c`. */
  function SplitFrom(rest: string, c: Cursor, max: int): seq<string>
    decreases |rest|
  {
    if rest == "" then []
    else
      var prefix := Reopen(c);
      var chunk := TakeChunk(rest, Max(1, max - |prefix|), c);
      TakeChunkProgress(rest, Max(1, max - |prefix|), c);
      (if chunk.head == "" then [] else [prefix + chunk.head]) + SplitFrom(chunk.rest, chunk.cursor, max)
  }

  function Split(text: string, max: int): seq<string> {
    SplitFrom(text, START, max)
  }
}
