/** Newlines that are dropped in the middle of a message, so that two paragraphs run together. */
module SlackNewlines {
  import opened Options
  import opened Text
  import opened Markdown
  import opened MarkdownScan
  import opened MarkdownSize
  import opened SlackStream

  /** The delta is one character too long, needs nothing reserved, and ends a paragraph outside any block. */
  ghost predicate JustTooLong(text: string, budget: int, c: Cursor) {
    && |text| >= 2 && |text| == budget + 1 && LimitOf(text, budget, c) == budget
    && text[|text| - 1] == '\n' && text[|text| - 2] == '\n'
    && Advance(c, text).fence == None
  }

  /** All of the delta is taken, newlines at its end are dropped, and there is room left. */
  ghost predicate TakenShort(text: string, budget: int, c: Cursor) {
    var chunk := TakeChunk(text, budget, c);
    chunk.rest == "" && chunk.head != text && |chunk.head| < budget
  }

  lemma TakenShortOnlyIf(text: string, budget: int, c: Cursor)
    requires budget >= 1 && '\n' !in c.partial && text != "" && text[|text| - 1] == '\n'
    requires TakenShort(text, budget, c)
    ensures JustTooLong(text, budget, c)
  {
    hide Advance, Candidates, Chosen, TakeChunk, LimitOf;
    ChunkCases(text, budget, c);
    var limit := LimitOf(text, budget, c);
    assert |text| > budget && 1 <= limit <= budget by { LimitBelow(text, budget, c); }
    if Candidates(text, limit, c) == [] {
      BreakLeavesNewline(text, limit, c);
    } else {
      var cut := Chosen(text, budget, c);
      CandidatesReach(text, limit, c);
      CandidatesAreBoundaries(text, limit, c);
      assert cut.offset == |text| && text[..|text|] == text;
      assert cut.fence == Advance(c, text).fence;
    }
  }

  lemma LimitBelow(text: string, budget: int, c: Cursor)
    requires budget >= 1
    ensures 1 <= LimitOf(text, budget, c) <= budget
  {
    hide Reserve;
  }

  /** A line that is broken leaves what comes after its spaces. */
  lemma BreakLeavesNewline(text: string, limit: int, c: Cursor)
    requires 1 <= limit < |text| && text[|text| - 1] == '\n'
    ensures BreakLine(text, limit, c).rest != ""
  {
    hide Advance, LastSpace;
    var at := BreakPoint(text, limit);
    assert at < |text| by { BreakWithin(text, limit); }
    var tail := text[at..];
    assert tail[|tail| - 1] == '\n';
  }

  lemma TakenShortIf(text: string, budget: int, c: Cursor)
    requires budget >= 1 && '\n' !in c.partial && JustTooLong(text, budget, c)
    ensures TakenShort(text, budget, c)
  {
    hide Advance, Candidates, Chosen, TakeChunk, LimitOf;
    ChunkCases(text, budget, c);
    LatestIsPicked(text, budget, c);
    assert text[..|text|] == text && text[|text|..] == "";
  }

  /** The blank line at the end is the best cut there is. */
  lemma LatestIsPicked(text: string, budget: int, c: Cursor)
    requires budget >= 1 && '\n' !in c.partial && JustTooLong(text, budget, c)
    ensures var found := Candidates(text, budget, c);
            found != [] && Chosen(text, budget, c) == Candidate(|text|, PARAGRAPH, None)
  {
    hide Advance, Candidates, LimitOf;
    assert LimitOf(text, budget, c) == budget;
    var found := Candidates(text, budget, c);
    var end := Candidate(|text|, PARAGRAPH, None);
    BlankBefore(text, c);
    assert text[..|text|] == text;
    CandidatesAreBoundaries(text, budget, c);
    assert IsBoundary(text, budget, c, end);
    assert end in found;
    LatestOf(found, end, text, budget, c);
    PickFromIsBest(found, FloorOf(found, budget), found[|found| - 1]);
  }

  lemma BlankBefore(text: string, c: Cursor)
    requires |text| >= 2 && text[|text| - 2] == '\n' && '\n' !in c.partial
    ensures Advance(c, text[..|text| - 1]).partial == ""
  {
    hide StepAll;
    var a := c.partial + text[..|text| - 1];
    assert a[|a| - 1] == '\n';
    LinesAtBoundary(a, "");
  }

  lemma LatestOf(found: seq<Candidate>, end: Candidate, text: string, limit: int, c: Cursor)
    requires found != [] && end in found && end.offset == |text| && Ascending(found)
    requires forall k :: k in found <==> IsBoundary(text, limit, c, k)
    ensures found[|found| - 1] == end
    ensures forall k :: k in found ==> k.rank >= PARAGRAPH
  {
    hide Advance;
    var last := found[|found| - 1];
    assert last in found;
    var i :| 0 <= i < |found| && found[i] == end;
    assert found[i].offset <= last.offset <= |text|;
  }

  /**
    A delta that ends in a newline loses newlines though its message goes on, exactly when it is
    one character too long, nothing had to be reserved, and it ends a paragraph outside any block.
   */
  lemma NewlinesLostIff(w: World, t: Task, text: string)
    requires text != "" && text[|text| - 1] == '\n' && !MustRollOver(w.budget, At(w, t)) && !At(w, t).stale
    requires Left(w.budget, At(w, t)) >= 1 && '\n' !in At(w, t).cursor.partial
    ensures var w', chunk := AppendChunk(w, t, text), NextOf(w, t, text);
            (chunk.rest == "" && chunk.cursor.fence == None && chunk.head != text
                && !MustRollOver(w'.budget, At(w', t)))
            <==> JustTooLong(text, Left(w.budget, At(w, t)), At(w, t).cursor)
  {
    var left, c := Left(w.budget, At(w, t)), At(w, t).cursor;
    var chunk := NextOf(w, t, text);
    assert chunk == TakeChunk(text, left, c);
    if chunk.rest == "" && chunk.cursor.fence == None {
      RoomAfter(w, t, text);
    }
    hide TakeChunk, AppendChunk, MustRollOver, NextOf;
    if JustTooLong(text, left, c) {
      TakenShortIf(text, left, c);
      FenceAfter(text, left, c);
    }
    if TakenShort(text, left, c) { TakenShortOnlyIf(text, left, c); }
  }

  lemma FenceAfter(text: string, budget: int, c: Cursor)
    requires budget >= 1 && '\n' !in c.partial && JustTooLong(text, budget, c)
    ensures TakeChunk(text, budget, c).cursor.fence == None
  {
    hide Advance, Candidates, Chosen, TakeChunk, LimitOf;
    ChunkCases(text, budget, c);
    LatestIsPicked(text, budget, c);
  }

  /** With no block open the message goes on exactly when there is room left in it. */
  lemma RoomAfter(w: World, t: Task, text: string)
    requires text != "" && !MustRollOver(w.budget, At(w, t)) && !At(w, t).stale && Left(w.budget, At(w, t)) >= 1
    requires NextOf(w, t, text).rest == "" && NextOf(w, t, text).cursor.fence == None
    ensures var w' := AppendChunk(w, t, text);
            !MustRollOver(w'.budget, At(w', t)) <==> |NextOf(w, t, text).head| < Left(w.budget, At(w, t))
  {
    hide TakeChunk, NextOf, Ensure;
    var head := NextOf(w, t, text).head;
    Opened'(w, t);
    var w1 := SendHead(w, t, head, TooLong(w, t, text));
    var w' := AppendChunk(w, t, text);
    assert At(w', t).cursor.fence == None && Prefix(At(w', t)) == "";
    assert head == "" ==> At(w', t).chars == At(w, t).chars;
    assert head != "" ==> At(w', t).chars == At(w, t).chars + |Prefix(At(w, t)) + head|;
  }

  lemma Opened'(w: World, t: Task)
    requires !At(w, t).stale
    ensures Ensure(w, t).budget == w.budget && At(Ensure(w, t), t) == At(w, t).(message := At(Ensure(w, t), t).message)
  {
  }
}
