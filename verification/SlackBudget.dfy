/**
  What a streamed message weighs: everything sent to it, text, closing lines and cards, stays
  within the budget and the line that closes the block it leaves open, but for one case.
 */
module SlackBudget {
  import opened Options
  import opened Text
  import opened Markdown
  import opened MarkdownScan
  import opened MarkdownSize
  import opened SlackStream
  import opened SlackOrder

  // ------------------------------------------------------------- weights

  /** The cards drawn on a message; one drawn again is redrawn in place. */
  function CardsOn(log: seq<Call>, m: Message): set<nat>
    decreases |log|
  {
    if log == [] then {}
    else
      var call := log[|log| - 1];
      CardsOn(log[..|log| - 1], m) + (if call.Drawn? && call.message == m then {call.card.id} else {})
  }

  /** What one call adds to a message. */
  function Adds(before: seq<Call>, call: Call, m: Message): nat {
    match call
    case Answer(m', text, _, _) => if m' == m then |text| else 0
    case Seal(m', text) => if m' == m then |text| else 0
    case Drawn(m', card) => if m' == m && card.id !in CardsOn(before, m) then CardCost(card) else 0
    case _ => 0
  }

  /** Everything sent to a message: its text, its closing lines, and its cards, each weighed once. */
  function Weight(log: seq<Call>, m: Message): nat
    decreases |log|
  {
    if log == [] then 0
    else Weight(log[..|log| - 1], m) + Adds(log[..|log| - 1], log[|log| - 1], m)
  }

  /** What the closing of a block may add: its closing line, and once more its marker. */
  function Closings(open: Option<Fence>): nat {
    if open.None? then 0 else 2 * |open.value.marker| + 1
  }

  /** The line that closes a block. */
  function ClosingLine(open: Option<Fence>): nat { CloseCost(Cursor(open, "")) }

  /** The last thing in the log is the sealing of a message that was over its budget before, by more than a newline. */
  ghost predicate OverSealed(log: seq<Call>, m: Message, budget: int) {
    && log != [] && log[|log| - 1].Seal? && log[|log| - 1].message == m
    && Weight(log[..|log| - 1], m) > budget + 1
  }

  lemma LogWeighs(log: seq<Call>, call: Call)
    ensures forall m :: Weight(log + [call], m) == Weight(log, m) + Adds(log, call, m)
    ensures forall m :: CardsOn(log + [call], m)
                        == CardsOn(log, m) + (if call.Drawn? && call.message == m then {call.card.id} else {})
  {
    assert (log + [call])[..|log|] == log;
  }

  lemma {:induction false} UnmentionedWeighsNothing(log: seq<Call>, m: Message)
    requires forall i :: 0 <= i < |log| ==> MessageOf(log[i]) != Some(m)
    ensures Weight(log, m) == 0 && CardsOn(log, m) == {}
    decreases |log|
  {
    if log != [] {
      UnmentionedWeighsNothing(log[..|log| - 1], m);
    }
  }

  // ------------------------------------------------------------- fences

  /** How long a reopening line and a marker may be. */
  datatype Limits = Limits(reopen: nat, marker: nat)

  predicate FenceFits(fence: Option<Fence>, lim: Limits) {
    fence.Some? ==> |ReopenFence(fence.value)| <= lim.reopen && |fence.value.marker| <= lim.marker
  }

  /** Whatever part of a line of `s` would open a block, the block keeps to the limits. */
  ghost predicate FencesWithin(s: string, lim: Limits) {
    forall i, j :: 0 <= i <= j <= |s| && '\n' !in s[i..j] ==> FenceFits(Step(None, s[i..j]), lim)
  }

  lemma FencesParts(a: string, b: string, lim: Limits)
    requires FencesWithin(a + b, lim)
    ensures FencesWithin(a, lim) && FencesWithin(b, lim)
  {
    hide Step, FenceFits;
    forall i, j | 0 <= i <= j <= |a| && '\n' !in a[i..j] ensures FenceFits(Step(None, a[i..j]), lim) {
      assert (a + b)[i..j] == a[i..j];
    }
    forall i, j | 0 <= i <= j <= |b| && '\n' !in b[i..j] ensures FenceFits(Step(None, b[i..j]), lim) {
      assert (a + b)[|a| + i..|a| + j] == b[i..j];
    }
  }

  /** A line leaves open what was open, or opens a block itself. */
  lemma LineFits(fence: Option<Fence>, line: string, lim: Limits)
    requires FenceFits(fence, lim) && FenceFits(Step(None, line), lim)
    ensures FenceFits(Step(fence, line), lim)
  {
    hide FenceLine;
  }

  lemma {:induction false} LinesFit(fence: Option<Fence>, s: string, lim: Limits)
    requires FenceFits(fence, lim) && FencesWithin(s, lim)
    ensures forall n :: 0 <= n <= |Lines(s)| ==> FenceFits(StepAll(fence, Lines(s)[..n]), lim)
    decreases |s|
  {
    hide Step, FenceFits, FencesWithin;
    var nl := IndexOfNewline(s, 0);
    if nl < 0 {
      LinesUnbroken(s);
      assert s[..|s|] == s;
      WholeLine(s, |s|, lim);
      LineFits(fence, s, lim);
      OneMoreLine(fence, s, []);
      StepNone(fence);
      assert [s][..0] == [] && [s][..1] == [s];
    } else {
      var line, rest := s[..nl], s[nl + 1..];
      assert s == (line + ['\n']) + rest;
      LinesTerminated(line);
      LinesAtBoundary(line + ['\n'], rest);
      assert Lines(s) == [line] + Lines(rest);
      WholeLine(s, nl, lim);
      LineFits(fence, line, lim);
      FencesParts(line + ['\n'], rest, lim);
      LinesFit(Step(fence, line), rest, lim);
      StepNone(fence);
      forall n | 0 <= n <= |Lines(s)| ensures FenceFits(StepAll(fence, Lines(s)[..n]), lim) {
        if n > 0 {
          assert Lines(s)[..n] == [line] + Lines(rest)[..n - 1];
          OneMoreLine(fence, line, Lines(rest)[..n - 1]);
        }
      }
    }
  }

  lemma WholeLine(s: string, n: nat, lim: Limits)
    requires FencesWithin(s, lim) && n <= |s| && '\n' !in s[..n]
    ensures FenceFits(Step(None, s[..n]), lim)
  {
    hide Step, FenceFits;
    assert s[0..n] == s[..n];
  }

  lemma StepNone(fence: Option<Fence>)
    ensures StepAll(fence, []) == fence
  {
  }

  lemma OneMoreLine(fence: Option<Fence>, line: string, lines: seq<string>)
    ensures StepAll(fence, [line] + lines) == StepAll(Step(fence, line), lines)
    ensures [line] + [] == [line]
  {
    hide Step;
    assert ([line] + lines)[1..] == lines;
  }

  /** Scanning keeps fences within the limits. */
  lemma AdvanceFits(c: Cursor, s: string, lim: Limits)
    requires FenceFits(c.fence, lim) && FencesWithin(c.partial + s, lim)
    ensures FenceFits(Advance(c, s).fence, lim)
  {
    hide Step, FenceFits, FencesWithin;
    LinesFit(c.fence, c.partial + s, lim);
  }

  lemma ChunkFences(text: string, budget: int, c: Cursor, lim: Limits)
    requires Scanned(c) && FenceFits(c.fence, lim) && FencesWithin(c.partial + text, lim)
    ensures var chunk := TakeChunk(text, budget, c);
            FenceFits(chunk.cursor.fence, lim) && FencesWithin(chunk.cursor.partial + chunk.rest, lim)
  {
    hide *;
    ChunkEndsRest(text, budget, c, lim);
    var at := CutAfter(text, budget, c);
    PartFits(text, at, c, lim);
  }

  /** A chunk leaves open what a scan of the text up to its end does. */
  lemma CutAfter(text: string, budget: int, c: Cursor) returns (at: nat)
    requires Scanned(c)
    ensures at <= |text| && TakeChunk(text, budget, c).cursor.fence == Advance(c, text[..at]).fence
  {
    hide Step, Genuine, Advance, TakeChunk, Candidates, Chosen, Reserve;
    ChunkCases(text, budget, c);
    var limit := LimitOf(text, budget, c);
    if |text| <= budget {
      at := |text|;
      assert text[..at] == text;
    } else if Candidates(text, limit, c) == [] {
      at := BreakPoint(text, limit);
    } else {
      at := Chosen(text, budget, c).offset;
      CandidatesAreBoundaries(text, limit, c);
    }
  }

  lemma PartFits(text: string, at: nat, c: Cursor, lim: Limits)
    requires at <= |text| && FenceFits(c.fence, lim) && FencesWithin(c.partial + text, lim)
    ensures FenceFits(Advance(c, text[..at]).fence, lim)
  {
    hide Advance, FenceFits, FencesWithin;
    assert c.partial + text == (c.partial + text[..at]) + text[at..];
    FencesParts(c.partial + text[..at], text[at..], lim);
    AdvanceFits(c, text[..at], lim);
  }

  /** What is left to scan ends what there was to scan. */
  lemma ChunkEndsRest(text: string, budget: int, c: Cursor, lim: Limits)
    requires FencesWithin(c.partial + text, lim)
    ensures var chunk := TakeChunk(text, budget, c); FencesWithin(chunk.cursor.partial + chunk.rest, lim)
  {
    hide TakeChunk, FencesWithin, IsEnd;
    ChunkEnds(text, budget, c);
    var chunk := TakeChunk(text, budget, c);
    FencesParts(c.partial, text, lim);
    if chunk.cursor.partial == "" {
      assert "" + chunk.rest == chunk.rest;
      EndWithin(chunk.rest, text, lim);
    } else {
      assert chunk.cursor.partial + "" == chunk.cursor.partial;
      EndWithin(chunk.cursor.partial, c.partial + text, lim);
    }
  }

  // ------------------------------------------------------------- the invariant

  ghost predicate CursorFits(c: Cursor, lim: Limits) {
    Scanned(c) && FenceFits(c.fence, lim)
  }

  /** What is charged to the current message is what it weighs, and is within the budget. */
  ghost predicate Charged(w: World, t: Task) {
    var s := At(w, t);
    && s.chars <= w.budget + CloseCost(s.cursor)
    && (s.chars > w.budget ==> s.cursor.partial == "")
    && (s.message.None? ==> s.chars == 0 && s.charged == {})
    && (s.message.Some? ==> Weight(w.log, s.message.value) == s.chars && CardsOn(w.log, s.message.value) == s.charged)
  }

  /** A message may be stopped with this block open. */
  ghost predicate MayStop(log: seq<Call>, m: Message, open: Option<Fence>, budget: int) {
    && Weight(log, m) <= budget + Closings(open)
    && (Weight(log, m) <= budget + ClosingLine(open) <==> !OverSealed(log, m, budget))
  }

  /** The current message may be closed. */
  ghost predicate Closable(w: World, t: Task) {
    At(w, t).message.Some? ==> MayStop(w.log, At(w, t).message.value, At(w, t).cursor.fence, w.budget)
  }

  /** Every message weighed no more than this when it was stopped. */
  ghost predicate StopsWithin(log: seq<Call>, budget: int) {
    forall k :: 0 <= k < |log| && log[k].Stopped? ==> MayStop(log[..k], log[k].message, log[k].at.fence, budget)
  }

  /** No message has been sealed and is still to be stopped. */
  predicate Resting(log: seq<Call>) {
    log == [] || !log[|log| - 1].Seal?
  }

  ghost predicate Light(w: World, lim: Limits) {
    && w.budget > lim.reopen
    && StopsWithin(w.log, w.budget)
    && (forall m: Message :: Weight(w.log, m) <= w.budget + 2 * lim.marker + 1)
    && (forall t :: CursorFits(At(w, t).cursor, lim))
  }

  ghost predicate Weighed(w: World, lim: Limits) {
    Light(w, lim) && Resting(w.log) && forall t :: Charged(w, t)
  }

  ghost predicate WeighedBut(w: World, lim: Limits, t: Task) {
    LooseBut(w, lim, t) && Resting(w.log)
  }

  /** All but `t`, whose message may just have been sealed. */
  ghost predicate LooseBut(w: World, lim: Limits, t: Task) {
    Light(w, lim) && forall t' :: t' != t ==> Charged(w, t')
  }

  lemma StopsGrow(log: seq<Call>, call: Call, budget: int)
    requires StopsWithin(log, budget)
    requires call.Stopped? ==> MayStop(log, call.message, call.at.fence, budget)
    ensures StopsWithin(log + [call], budget)
  {
    hide MayStop;
    var log' := log + [call];
    forall k | 0 <= k < |log'| && log'[k].Stopped?
      ensures MayStop(log'[..k], log'[k].message, log'[k].at.fence, budget)
    {
      if k < |log| {
        assert log'[..k] == log[..k];
      } else {
        assert log'[..k] == log;
      }
    }
  }

  lemma FenceIsLight(c: Cursor, lim: Limits)
    requires CursorFits(c, lim)
    ensures CloseCost(c) <= lim.marker + 1 && CloseCost(c) <= Closings(c.fence) <= 2 * lim.marker + 1
  {
  }

  /** Something is sent to the current message of `t`. */
  lemma SayWeighs(w: World, lim: Limits, t: Task, call: Call)
    requires Base(w) && WeighedBut(w, lim, t) && At(w, t).message.Some?
    requires call.Answer? || call.Seal? || call.Drawn?
    requires call.message == At(w, t).message.value
    requires Weight(w.log, call.message) + Adds(w.log, call, call.message) <= w.budget + 2 * lim.marker + 1
    ensures LooseBut(Say(w, call), lim, t) && (!call.Seal? ==> WeighedBut(Say(w, call), lim, t))
    ensures Weight(Say(w, call).log, call.message) == Weight(w.log, call.message) + Adds(w.log, call, call.message)
    ensures CardsOn(Say(w, call).log, call.message)
            == CardsOn(w.log, call.message) + (if call.Drawn? then {call.card.id} else {})
  {
    hide Safe, SerialsBelow, CursorFits, OpenIn, StopsWithin;
    var w' := Say(w, call);
    LogWeighs(w.log, call);
    StopsGrow(w.log, call, w.budget);
    assert Rooted(w, t);
    forall t' ensures At(w', t') == At(w, t') && (t' != t ==> Charged(w', t')) && CursorFits(At(w', t').cursor, lim) {
      assert Rooted(w, t') && CursorFits(At(w, t').cursor, lim);
      assert t' != t ==> Charged(w, t');
    }
    forall m: Message ensures Weight(w'.log, m) <= w'.budget + 2 * lim.marker + 1 {
      assert Weight(w.log, m) <= w.budget + 2 * lim.marker + 1;
    }
  }

  lemma PutWeighs(w: World, lim: Limits, t: Task, s: Stream)
    requires WeighedBut(w, lim, t) && CursorFits(s.cursor, lim)
    ensures WeighedBut(Put(w, t, s), lim, t)
    ensures Charged(Put(w, t, s), t) ==> Weighed(Put(w, t, s), lim)
  {
    hide CursorFits, StopsWithin;
    var w' := Put(w, t, s);
    forall t' ensures CursorFits(At(w', t').cursor, lim) && (t' != t ==> Charged(w', t')) {
      assert CursorFits(At(w, t').cursor, lim);
      assert t' != t ==> Charged(w, t');
    }
  }

  lemma CloseWeighs(w: World, lim: Limits, t: Task)
    requires LooseBut(w, lim, t) && Closable(w, t) && (At(w, t).message.None? ==> Resting(w.log))
    ensures Weighed(Close(w, t), lim)
    ensures At(Close(w, t), t).message == None && At(Close(w, t), t).cursor.fence == At(w, t).cursor.fence
    ensures At(Close(w, t), t).cursor.partial == At(w, t).cursor.partial || At(Close(w, t), t).cursor.partial == ""
  {
    hide StopsWithin, FenceFits, Genuine, Weight, CardsOn, MayStop;
    var w' := Close(w, t);
    var s := At(w, t);
    assert CursorFits(s.cursor, lim);
    if s.message.Some? {
      LogWeighs(w.log, Stopped(s.message.value, s.cursor));
      StopsGrow(w.log, Stopped(s.message.value, s.cursor), w.budget);
    }
    forall t' ensures CursorFits(At(w', t').cursor, lim) && Charged(w', t') {
      assert CursorFits(At(w, t').cursor, lim);
      assert t' != t ==> Charged(w, t');
    }
    forall m: Message ensures Weight(w'.log, m) <= w'.budget + 2 * lim.marker + 1 {
      assert Weight(w.log, m) <= w.budget + 2 * lim.marker + 1;
    }
  }

  lemma SealWeighs(w: World, lim: Limits, t: Task)
    requires Base(w) && WeighedBut(w, lim, t)
    requires Charged(w, t)
    ensures LooseBut(SealFence(w, t), lim, t) && Closable(SealFence(w, t), t)
    ensures At(SealFence(w, t), t).message.None? ==> Resting(SealFence(w, t).log)
  {
    hide Base, Light;
    var s := At(w, t);
    LightCursor(w, lim, t);
    FenceIsLight(s.cursor, lim);
    if s.cursor.fence.Some? && s.message.Some? {
      var m := s.message.value;
      var call := Seal(m, (if s.cursor.partial == "" then "" else "\n") + s.cursor.fence.value.marker);
      SayWeighs(w, lim, t, call);
      SealedMayStop(w.log, m, call, s.cursor, w.budget);
      assert At(SealFence(w, t), t) == s;
    } else if s.message.Some? {
      RestingMayStop(w.log, s.message.value, s.cursor.fence, w.budget);
    }
  }

  /** Exactly when sealing takes a message over its budget and the closing line. */
  lemma SealedMayStop(log: seq<Call>, m: Message, call: Call, c: Cursor, budget: int)
    requires c.fence.Some? && call == Seal(m, (if c.partial == "" then "" else "\n") + c.fence.value.marker)
    requires Weight(log, m) <= budget + CloseCost(c) && (Weight(log, m) > budget ==> c.partial == "")
    ensures MayStop(log + [call], m, c.fence, budget)
    ensures Weight(log + [call], m) <= budget + CloseCost(c) <==>
              Weight(log, m) <= budget + (if c.partial == "" then 1 else 0)
  {
    LogWeighs(log, call);
    assert (log + [call])[..|log|] == log;
    hide Weight;
  }

  lemma RestingMayStop(log: seq<Call>, m: Message, open: Option<Fence>, budget: int)
    requires Resting(log) && Weight(log, m) <= budget + ClosingLine(open)
    ensures MayStop(log, m, open, budget)
  {
  }

  lemma LightCursor(w: World, lim: Limits, t: Task)
    requires Light(w, lim)
    ensures CursorFits(At(w, t).cursor, lim)
  {
  }

  lemma CloseIfStaleWeighs(w: World, lim: Limits, t: Task)
    requires Inv(w) && Weighed(w, lim)
    ensures Weighed(CloseIfStale(w, t), lim)
    ensures At(CloseIfStale(w, t), t).cursor.fence == At(w, t).cursor.fence
    ensures At(CloseIfStale(w, t), t).cursor.partial in {"", At(w, t).cursor.partial}
  {
    hide Light, Base;
    if At(w, t).stale {
      var s := At(w, t).(stale := false);
      var w1 := Put(w, t, s);
      assert Charged(w, t);
      LightCursor(w, lim, t);
      PutWeighs(w, lim, t, s);
      InvIsInvBut(w, t);
      PutKeeps(w, t, s);
      SealWeighs(w1, lim, t);
      SealKeeps(w1, t);
      CloseWeighs(SealFence(w1, t), lim, t);
    }
  }

  /** A fresh message weighs nothing yet. */
  lemma EnsureWeighs(w: World, lim: Limits, t: Task)
    requires Inv(w) && WeighedBut(w, lim, t) && !At(w, t).stale
    requires At(w, t).message.Some? ==> Charged(w, t)
    ensures var w' := Ensure(w, t);
            var m := At(w', t).message.value;
            && WeighedBut(w', lim, t) && w'.budget == w.budget
            && At(w', t) == At(w, t).(message := Some(m))
            && Weight(w'.log, m) == (if At(w, t).message.Some? then At(w, t).chars else 0)
            && CardsOn(w'.log, m) == (if At(w, t).message.Some? then At(w, t).charged else {})
  {
    hide StopsWithin, CursorFits, Safe, OpenIn;
    var s := At(w, t);
    if s.message.None? {
      var m := Message(t, w.next);
      var w' := Ensure(w, t);
      var call := Opened(m);
      LogWeighs(w.log, call);
      StopsGrow(w.log, call, w.budget);
      forall i | 0 <= i < |w.log| ensures MessageOf(w.log[i]) != Some(m) {
        assert MessageOf(w.log[i]).Some? ==> MessageOf(w.log[i]).value.serial < w.next;
      }
      UnmentionedWeighsNothing(w.log, m);
      forall t' ensures CursorFits(At(w', t').cursor, lim) && (t' != t ==> Charged(w', t')) {
        assert CursorFits(At(w, t').cursor, lim) && Rooted(w, t');
        assert t' != t ==> Charged(w, t');
      }
      forall m': Message ensures Weight(w'.log, m') <= w'.budget + 2 * lim.marker + 1 {
        assert Weight(w.log, m') <= w.budget + 2 * lim.marker + 1;
      }
    }
  }

  // ------------------------------------------------------------- text

  /** A chunk is sent: the message then weighs what it is charged. */
  lemma SendHeadWeighs(w: World, lim: Limits, t: Task, head: string, cut: bool)
    requires Inv(w) && Weighed(w, lim) && !At(w, t).stale
    requires At(w, t).chars + |Prefix(At(w, t)) + head| <= w.budget + lim.marker + 1
    ensures var w' := SendHead(w, t, head, cut);
            var s' := At(w', t);
            && WeighedBut(w', lim, t) && w'.budget == w.budget && s'.cursor == At(w, t).cursor
                && s'.stale == At(w, t).stale
            && (head == "" ==> s' == At(w, t) && Charged(w', t))
            && (head != "" ==>
                && s'.message.Some? && s'.chars == At(w, t).chars + |Prefix(At(w, t)) + head|
                && Weight(w'.log, s'.message.value) == s'.chars && CardsOn(w'.log, s'.message.value) == s'.charged)
  {
    hide Light, Base, Ensure, Prefix;
    assert Charged(w, t);
    if head != "" {
      var s := At(w, t);
      var text := Prefix(s) + head;
      EnsureWeighs(w, lim, t);
      EnsureKeeps(w, t);
      var w1 := Ensure(w, t);
      var m := At(w1, t).message.value;
      InvIsInvBut(w1, t);
      SayWeighs(w1, lim, t, Answer(m, text, cut, At(w, t).cursor));
      var w2 := Say(w1, Answer(m, text, cut, At(w, t).cursor));
      LightCursor(w2, lim, t);
      PutWeighs(w2, lim, t, At(w2, t).(chars := s.chars + |text|, owes := false));
    }
  }

  /** The room a chunk is taken with, and what comes of it. */
  lemma ChunkWeighs(w: World, lim: Limits, t: Task, text: string)
    requires Weighed(w, lim) && text != "" && !MustRollOver(w.budget, At(w, t))
    requires FencesWithin(At(w, t).cursor.partial + text, lim)
    ensures var s := At(w, t);
            var chunk := NextOf(w, t, text);
            && CursorFits(chunk.cursor, lim)
            && FencesWithin(chunk.cursor.partial + chunk.rest, lim)
            && s.chars + |Prefix(s) + chunk.head| <= w.budget + CloseCost(chunk.cursor)
            && (s.chars + |Prefix(s) + chunk.head| > w.budget ==> chunk.cursor.partial == "")
            && s.chars <= w.budget
  {
    hide Light, TakeChunk, FencesWithin, FenceFits, Genuine;
    var s := At(w, t);
    assert Charged(w, t);
    LightCursor(w, lim, t);
    assert |Prefix(s)| <= lim.reopen by { ReopenBound(s.cursor, lim); }
    LightBudget(w, lim);
    var left := Left(w.budget, s);
    assert left >= 1;
    ChunkSize(text, left, s.cursor);
    ChunkScanned(text, left, s.cursor);
    ChunkFences(text, left, s.cursor, lim);
  }

  lemma LightBudget(w: World, lim: Limits)
    requires Light(w, lim)
    ensures w.budget > lim.reopen
  {
  }

  lemma ReopenBound(c: Cursor, lim: Limits)
    requires CursorFits(c, lim)
    ensures |Reopen(c)| <= lim.reopen
  {
  }

  lemma AppendChunkWeighs(w: World, lim: Limits, t: Task, text: string)
    requires Inv(w) && Weighed(w, lim) && !At(w, t).stale && text != "" && !MustRollOver(w.budget, At(w, t))
    requires FencesWithin(At(w, t).cursor.partial + text, lim)
    ensures Weighed(AppendChunk(w, t, text), lim)
    ensures FencesWithin(At(AppendChunk(w, t, text), t).cursor.partial + NextOf(w, t, text).rest, lim)
  {
    hide Inv, Light, FencesWithin, NextOf, TooLong, SendHead, Prefix, CursorFits, MustRollOver;
    var chunk := NextOf(w, t, text);
    ChunkWeighs(w, lim, t, text);
    FenceIsLight(chunk.cursor, lim);
    SendHeadWeighs(w, lim, t, chunk.head, TooLong(w, t, text));
    var w1 := SendHead(w, t, chunk.head, TooLong(w, t, text));
    var w2 := Put(w1, t, At(w1, t).(cursor := chunk.cursor));
    PutWeighs(w1, lim, t, At(w1, t).(cursor := chunk.cursor));
    if chunk.rest == "" {
      assert Charged(w2, t);
    } else {
      assert Closable(w2, t);
      CloseWeighs(w2, lim, t);
      FreshLine(chunk.cursor.partial, At(Close(w2, t), t).cursor.partial, chunk.rest, lim);
    }
  }

  /** A line cut short by a closed message is still within the limits. */
  lemma FreshLine(before: string, after: string, text: string, lim: Limits)
    requires FencesWithin(before + text, lim) && (after == before || after == "")
    ensures FencesWithin(after + text, lim)
  {
    hide FencesWithin;
    FencesParts(before, text, lim);
    assert "" + text == text;
  }

  lemma {:induction false} AppendWeighs(w: World, lim: Limits, t: Task, text: string)
    requires Inv(w) && Weighed(w, lim) && !At(w, t).stale
    requires FencesWithin(At(w, t).cursor.partial + text, lim)
    ensures Weighed(Append(w, t, text), lim)
    decreases |text|, if At(w, t).chars > 0 then 1 else 0
  {
    hide Inv, Light, NextOf, AppendChunk, Close, FencesWithin, Prefix;
    if text == "" {
    } else if MustRollOver(w.budget, At(w, t)) {
      InvIsInvBut(w, t);
      CloseKeeps(w, t);
      assert Charged(w, t);
      LightCursor(w, lim, t);
      FenceIsLight(At(w, t).cursor, lim);
      CloseWeighs(w, lim, t);
      CloseEmpties(w, t);
      FreshLine(At(w, t).cursor.partial, At(Close(w, t), t).cursor.partial, text, lim);
      AppendWeighs(Close(w, t), lim, t, text);
    } else {
      Shorter(w, t, text);
      AppendChunkKeeps(w, t, text);
      AppendChunkWeighs(w, lim, t, text);
      AppendWeighs(AppendChunk(w, t, text), lim, t, NextOf(w, t, text).rest);
    }
  }

  // ------------------------------------------------------------- cards

  lemma DrawWeighs(w: World, lim: Limits, t: Task, card: Card)
    requires Inv(w) && Weighed(w, lim) && !At(w, t).stale && CardCost(card) <= w.budget
    ensures Weighed(Draw(w, t, card), lim)
    ensures At(Draw(w, t, card), t).cursor.fence == At(w, t).cursor.fence
    ensures At(Draw(w, t, card), t).cursor.partial in {"", At(w, t).cursor.partial}
  {
    hide Light, Base, CardCost, CursorFits;
    var s := At(w, t);
    assert Charged(w, t);
    LightCursor(w, lim, t);
    if card.id in s.charged {
      EnsureWeighs(w, lim, t);
      EnsureKeeps(w, t);
      var w1 := Ensure(w, t);
      InvIsInvBut(w1, t);
      LightCursor(w1, lim, t);
      FenceIsLight(At(w1, t).cursor, lim);
      SayWeighs(w1, lim, t, Drawn(At(w1, t).message.value, card));
      AllCharged(Draw(w, t, card), lim, t);
    } else {
      ChargeWeighs(w, lim, t, card);
      ChargeKeeps(w, t, card);
      var w0 := Charge(w, t, card);
      OpenCharged(w0, lim, t, card);
    }
  }

  lemma AllCharged(w: World, lim: Limits, t: Task)
    requires WeighedBut(w, lim, t) && Charged(w, t)
    ensures Weighed(w, lim)
  {
  }

  /** A card has been charged to the message, which may still have to be opened, and is not drawn yet. */
  ghost predicate Undrawn(w: World, t: Task, card: Card) {
    var s := At(w, t);
    && s.chars <= w.budget && !s.stale
    && card.id in s.charged
    && (s.message.None? ==> s.chars == CardCost(card) && s.charged == {card.id})
    && (s.message.Some? ==>
        && Weight(w.log, s.message.value) + CardCost(card) == s.chars
        && card.id !in CardsOn(w.log, s.message.value)
        && CardsOn(w.log, s.message.value) + {card.id} == s.charged)
  }

  lemma ChargeWeighs(w: World, lim: Limits, t: Task, card: Card)
    requires Inv(w) && Weighed(w, lim) && !At(w, t).stale && CardCost(card) <= w.budget
    requires card.id !in At(w, t).charged
    ensures var w' := Charge(w, t, card);
            && WeighedBut(w', lim, t) && Undrawn(w', t, card)
            && At(w', t).cursor.fence == At(w, t).cursor.fence
            && (At(w', t).cursor.partial == At(w, t).cursor.partial || At(w', t).cursor.partial == "")
  {
    hide Light, Base, CardCost, CursorFits;
    assert Charged(w, t);
    LightCursor(w, lim, t);
    var w1 := w;
    if At(w, t).chars > 0 && At(w, t).chars + CardCost(card) > w.budget {
      InvIsInvBut(w, t);
      SealWeighs(w, lim, t);
      SealKeeps(w, t);
      CloseWeighs(SealFence(w, t), lim, t);
      CloseEmpties(SealFence(w, t), t);
      w1 := Close(SealFence(w, t), t);
    }
    var s := At(w1, t);
    assert Charged(w1, t);
    LightCursor(w1, lim, t);
    PutWeighs(w1, lim, t, s.(charged := s.charged + {card.id}, chars := s.chars + CardCost(card)));
  }

  lemma AlreadyOpen(w: World, t: Task)
    requires At(w, t).message.Some? && !At(w, t).stale
    ensures Ensure(w, t) == w
  {
  }

  lemma DrawnAdds(w: World, m: Message, card: Card)
    ensures Adds(w.log, Drawn(m, card), m) == if card.id in CardsOn(w.log, m) then 0 else CardCost(card)
  {
    hide CardsOn, CardCost;
  }

  lemma OpenCharged(w: World, lim: Limits, t: Task, card: Card)
    requires Inv(w) && WeighedBut(w, lim, t) && Undrawn(w, t, card) && CardCost(card) <= w.budget
    ensures var w1 := Ensure(w, t);
            var w2 := Say(w1, Drawn(At(w1, t).message.value, card));
            Weighed(w2, lim) && At(w2, t).cursor == At(w, t).cursor
  {
    hide Light, Base, CardCost, CursorFits, Ensure, Weight, CardsOn;
    var s := At(w, t);
    if s.message.None? {
      EnsureWeighs(w, lim, t);
    } else {
      AlreadyOpen(w, t);
    }
    EnsureKeeps(w, t);
    var w1 := Ensure(w, t);
    var m := At(w1, t).message.value;
    InvIsInvBut(w1, t);
    DrawnAdds(w1, m, card);
    SayWeighs(w1, lim, t, Drawn(m, card));
    AllCharged(Say(w1, Drawn(m, card)), lim, t);
  }

  lemma {:induction false} DrawAllWeighs(w: World, lim: Limits, t: Task, cards: seq<Card>)
    requires Inv(w) && Weighed(w, lim) && !At(w, t).stale
    requires forall i :: 0 <= i < |cards| ==> CardCost(cards[i]) <= w.budget
    ensures Weighed(DrawAll(w, t, cards), lim)
    decreases |cards|
  {
    hide Inv, Weighed, Draw, CardCost;
    if cards != [] {
      DrawKeeps(w, t, cards[0]);
      DrawWeighs(w, lim, t, cards[0]);
      assert Draw(w, t, cards[0]).budget == w.budget by { BudgetKept(w, t, cards[0]); }
      DrawAllWeighs(Draw(w, t, cards[0]), lim, t, cards[1..]);
    }
  }

  lemma BudgetKept(w: World, t: Task, card: Card)
    ensures Draw(w, t, card).budget == w.budget
  {
  }

  // ------------------------------------------------------------- whole runs

  /** The answer text of a task, in the order it arrived. */
  function TextOf(events: seq<Event>, t: Task): string
    decreases |events|
  {
    if events == [] then ""
    else
      var e := events[|events| - 1];
      TextOf(events[..|events| - 1], t) + TextIn(e, t)
  }

  /**
    What a caller can check: no line of an answer can open a block beyond the limits, and every
    card fits a message.
   */
  ghost predicate Modest(events: seq<Event>, budget: int, lim: Limits) {
    && (forall t :: FencesWithin(TextOf(events, t), lim))
    && (forall i, j :: 0 <= i < |events| && events[i].Activity? && 0 <= j < |events[i].cards| ==>
        CardCost(events[i].cards[j]) <= budget)
  }

  // ------------------------------------------------------------- the unfinished line ends the text

  ghost predicate IsEnd(tail: string, s: string) {
    |tail| <= |s| && s[|s| - |tail|..] == tail
  }

  lemma IsEndTrans(a: string, b: string, c: string)
    requires IsEnd(a, b) && IsEnd(b, c)
    ensures IsEnd(a, c)
  {
    assert c[|c| - |b|..][|b| - |a|..] == c[|c| - |a|..];
  }

  lemma IsEndAppend(a: string, b: string, text: string)
    requires IsEnd(a, b)
    ensures IsEnd(a + text, b + text) && IsEnd(text, a + text)
  {
    assert (b + text)[|b| - |a|..] == b[|b| - |a|..] + text;
  }

  lemma {:induction false} LinesEnd(s: string)
    ensures IsEnd(Lines(s)[|Lines(s)| - 1], s)
    decreases |s|
  {
    if s != "" {
      var rest := Lines(s[1..]);
      LinesEnd(s[1..]);
      if s[0] != '\n' && |rest| == 1 {
        LinesOneUnbroken(s[1..]);
        assert s == [s[0]] + rest[0];
      } else {
        assert Lines(s)[|Lines(s)| - 1] == rest[|rest| - 1];
        IsEndTrans(rest[|rest| - 1], s[1..], s);
      }
    }
  }

  lemma {:induction false} LinesOneUnbroken(s: string)
    requires |Lines(s)| == 1
    ensures Lines(s)[0] == s
    decreases |s|
  {
    if s != "" {
      LinesOneUnbroken(s[1..]);
    }
  }

  lemma ChunkEnds(text: string, budget: int, c: Cursor)
    ensures var chunk := TakeChunk(text, budget, c);
            && IsEnd(chunk.rest, text)
            && (chunk.cursor.partial == "" || (chunk.rest == "" && IsEnd(chunk.cursor.partial, c.partial + text)))
  {
    hide Candidates, Step, StepAll, Chosen;
    ChunkCases(text, budget, c);
    LinesEnd(c.partial + text);
    if |text| > budget {
      var limit := LimitOf(text, budget, c);
      if Candidates(text, limit, c) == [] {
        var tail := text[BreakPoint(text, limit)..];
        IsEndTrans(tail[SpaceRun(tail)..], tail, text);
      }
    }
  }

  function SpaceRun(s: string): nat
    ensures SpaceRun(s) <= |s|
  {
    Text.Run(s, ' ')
  }

  /** What one turn of the loop leaves to scan ends what there was to scan. */
  lemma OneTurnEnds(w: World, t: Task, text: string)
    requires text != ""
    ensures IsEnd(At(Close(w, t), t).cursor.partial + text, At(w, t).cursor.partial + text)
    ensures IsEnd(At(AppendChunk(w, t, text), t).cursor.partial + NextOf(w, t, text).rest,
                  At(w, t).cursor.partial + text)
  {
    hide *;
    ClosePartial(w, t);
    PartialEnds(At(w, t).cursor.partial, At(Close(w, t), t).cursor.partial, text);
    NextEnds(w, t, text);
    AppendChunkPartial(w, t, text);
    var chunk, partial' := NextOf(w, t, text), At(AppendChunk(w, t, text), t).cursor.partial;
    ScanEnds(At(w, t).cursor.partial, text, chunk.cursor.partial, partial', chunk.rest);
  }

  lemma PartialEnds(partial: string, left: string, text: string)
    requires left in {"", partial}
    ensures IsEnd(left + text, partial + text)
  {
    EmptyEnd(partial);
    IsEndAppend(left, partial, text);
  }

  lemma NextEnds(w: World, t: Task, text: string)
    ensures var chunk := NextOf(w, t, text);
            && IsEnd(chunk.rest, text)
            && (chunk.cursor.partial == ""
                || (chunk.rest == "" && IsEnd(chunk.cursor.partial, At(w, t).cursor.partial + text)))
  {
    hide IsEnd, TakeChunk;
    ChunkEnds(text, Max(Left(w.budget, At(w, t)), 1), At(w, t).cursor);
  }

  lemma ScanEnds(partial: string, text: string, scanned: string, left: string, rest: string)
    requires IsEnd(rest, text) && left in {"", scanned}
    requires scanned == "" || (rest == "" && IsEnd(scanned, partial + text))
    ensures IsEnd(left + rest, partial + text)
  {
    hide IsEnd;
    PartialEnds(partial, "", text);
    assert "" + text == text && "" + rest == rest && left + "" == left;
    IsEndTrans(rest, text, partial + text);
  }

  lemma {:induction false} AppendEnds(w: World, t: Task, text: string)
    ensures IsEnd(At(Append(w, t, text), t).cursor.partial, At(w, t).cursor.partial + text)
    decreases |text|, if At(w, t).chars > 0 then 1 else 0
  {
    hide IsEnd, Close, AppendChunk, NextOf, MustRollOver;
    var partial := At(w, t).cursor.partial;
    if text == "" {
      assert partial + "" == partial;
      SelfEnd(partial);
    } else {
      OneTurnEnds(w, t, text);
      if MustRollOver(w.budget, At(w, t)) {
        RollOverMeans(w.budget, At(w, t));
        CloseEmpties(w, t);
        AppendEnds(Close(w, t), t, text);
        IsEndTrans(At(Append(w, t, text), t).cursor.partial, At(Close(w, t), t).cursor.partial + text, partial + text);
      } else {
        Shorter(w, t, text);
        var w1, rest := AppendChunk(w, t, text), NextOf(w, t, text).rest;
        AppendEnds(w1, t, rest);
        IsEndTrans(At(Append(w, t, text), t).cursor.partial, At(w1, t).cursor.partial + rest, partial + text);
      }
    }
  }

  lemma SelfEnd(s: string)
    ensures IsEnd(s, s)
  {
  }

  lemma EmptyEnd(s: string)
    ensures IsEnd("", s) && IsEnd(s, s)
  {
  }

  lemma ClosePartial(w: World, t: Task)
    ensures At(Close(w, t), t).cursor.partial in {"", At(w, t).cursor.partial}
  {
  }

  lemma AppendChunkPartial(w: World, t: Task, text: string)
    ensures At(AppendChunk(w, t, text), t).cursor.partial in {"", NextOf(w, t, text).cursor.partial}
    ensures NextOf(w, t, text).rest == "" ==>
        At(AppendChunk(w, t, text), t).cursor.partial == NextOf(w, t, text).cursor.partial
  {
    hide NextOf, TooLong, SendHead;
  }

  // ------------------------------------------------------------- tasks do not touch each other

  /** A step of `t` that takes in no text. */
  ghost predicate Quiet(w: World, w': World, t: Task) {
    && w'.budget == w.budget
    && (forall t' :: t' != t ==> At(w', t') == At(w, t'))
    && At(w', t).cursor.fence == At(w, t).cursor.fence
    && At(w', t).cursor.partial in {"", At(w, t).cursor.partial}
  }

  lemma QuietTrans(w: World, w': World, w'': World, t: Task)
    requires Quiet(w, w', t) && Quiet(w', w'', t)
    ensures Quiet(w, w'', t)
  {
    forall t' | t' != t ensures At(w'', t') == At(w, t') {
      assert At(w', t') == At(w, t');
    }
  }

  lemma CloseQuiet(w: World, t: Task)
    ensures Quiet(w, Close(w, t), t)
  {
  }

  lemma CloseIfStaleQuiet(w: World, t: Task)
    ensures Quiet(w, CloseIfStale(w, t), t)
  {
  }

  lemma EnsureQuiet(w: World, t: Task)
    ensures Quiet(w, Ensure(w, t), t)
  {
    CloseIfStaleQuiet(w, t);
    var w1 := CloseIfStale(w, t);
    assert Quiet(w1, Ensure(w, t), t) by { hide CloseIfStale; }
    QuietTrans(w, w1, Ensure(w, t), t);
  }

  lemma ChargeQuiet(w: World, t: Task, card: Card)
    ensures Quiet(w, Charge(w, t, card), t)
  {
    hide CardCost;
  }

  lemma DrawQuiet(w: World, t: Task, card: Card)
    ensures Quiet(w, Draw(w, t, card), t)
  {
    hide Charge, Ensure, Quiet;
    ChargeQuiet(w, t, card);
    EnsureQuiet(Charge(w, t, card), t);
    QuietTrans(w, Charge(w, t, card), Ensure(Charge(w, t, card), t), t);
    var w1 := Ensure(Charge(w, t, card), t);
    SayQuiet(w1, Drawn(At(w1, t).message.value, card), t);
    QuietTrans(w, w1, Draw(w, t, card), t);
  }

  lemma SayQuiet(w: World, call: Call, t: Task)
    ensures Quiet(w, Say(w, call), t)
  {
  }

  lemma {:induction false} DrawAllQuiet(w: World, t: Task, cards: seq<Card>)
    ensures Quiet(w, DrawAll(w, t, cards), t)
    decreases |cards|
  {
    hide Draw, Quiet;
    if cards == [] {
      assert Quiet(w, w, t) by { SelfQuiet(w, t); }
    } else {
      DrawQuiet(w, t, cards[0]);
      DrawAllQuiet(Draw(w, t, cards[0]), t, cards[1..]);
      QuietTrans(w, Draw(w, t, cards[0]), DrawAll(w, t, cards), t);
    }
  }

  lemma SelfQuiet(w: World, t: Task)
    ensures Quiet(w, w, t)
  {
  }

  lemma EnsureOthers(w: World, t: Task, t': Task)
    requires t' != t
    ensures At(Ensure(w, t), t') == At(w, t') && Ensure(w, t).budget == w.budget
  {
    EnsureQuiet(w, t);
  }

  lemma AppendChunkOthers(w: World, t: Task, text: string, t': Task)
    requires t' != t
    ensures At(AppendChunk(w, t, text), t') == At(w, t') && AppendChunk(w, t, text).budget == w.budget
  {
    hide NextOf, Ensure, Prefix;
    EnsureOthers(w, t, t');
  }

  lemma {:induction false} AppendOthers(w: World, t: Task, text: string, t': Task)
    requires t' != t
    ensures At(Append(w, t, text), t') == At(w, t') && Append(w, t, text).budget == w.budget
    decreases |text|, if At(w, t).chars > 0 then 1 else 0
  {
    hide NextOf, AppendChunk, MustRollOver;
    if text == "" {
    } else if MustRollOver(w.budget, At(w, t)) {
      CloseEmpties(w, t);
      assert MustRollOver(w.budget, At(w, t)) ==> At(w, t).chars > 0 by { RollOverMeans(w.budget, At(w, t)); }
      AppendOthers(Close(w, t), t, text, t');
    } else {
      Shorter(w, t, text);
      AppendChunkOthers(w, t, text, t');
      AppendOthers(AppendChunk(w, t, text), t, NextOf(w, t, text).rest, t');
    }
  }

  lemma RollOverMeans(budget: int, s: Stream)
    ensures MustRollOver(budget, s) ==> s.chars > 0
  {
  }

  /** The text of `t` that an event carries. */
  function TextIn(e: Event, t: Task): string {
    if e.Artifact? && e.task == t then e.text else ""
  }

  lemma QuietEnds(w: World, w': World, t': Task, t: Task)
    requires Quiet(w, w', t')
    ensures IsEnd(At(w', t).cursor.partial, At(w, t).cursor.partial) && w'.budget == w.budget
  {
    EmptyEnd(At(w, t).cursor.partial);
    assert t != t' ==> At(w', t) == At(w, t);
  }

  lemma AppendPartial(w: World, t': Task, text: string, t: Task)
    ensures IsEnd(At(Append(w, t', text), t).cursor.partial, At(w, t).cursor.partial + (if t' == t then text else ""))
  {
    hide IsEnd, Append;
    if t == t' {
      AppendEnds(w, t, text);
    } else {
      AppendOthers(w, t', text, t);
      assert At(w, t).cursor.partial + "" == At(w, t).cursor.partial;
      EmptyEnd(At(w, t).cursor.partial);
    }
  }

  lemma ArtifactPartial(w: World, t': Task, text: string, last: bool, t: Task)
    ensures IsEnd(At(OnArtifact(w, t', text, last), t).cursor.partial,
                  At(w, t).cursor.partial + (if t' == t then text else ""))
    ensures OnArtifact(w, t', text, last).budget == w.budget
  {
    hide IsEnd, Append, CloseIfStale, Close, Quiet, At;
    var w1 := CloseIfStale(w, t');
    var w2 := Append(w1, t', text);
    var w3 := OnArtifact(w, t', text, last);
    CloseIfStaleQuiet(w, t');
    QuietEnds(w, w1, t', t);
    CloseQuiet(w2, t');
    SelfQuiet(w2, t');
    QuietEnds(w2, w3, t', t);
    var text' := if t' == t then text else "";
    IsEndAppend(At(w1, t).cursor.partial, At(w, t).cursor.partial, text');
    AppendOthers(w1, t', text, Task(t'.thread + 1, t'.id));
    AppendPartial(w1, t', text, t);
    IsEndTrans(At(w2, t).cursor.partial, At(w1, t).cursor.partial + text', At(w, t).cursor.partial + text');
    IsEndTrans(At(w3, t).cursor.partial, At(w2, t).cursor.partial, At(w, t).cursor.partial + text');
  }

  lemma HandlePartial(w: World, e: Event, t: Task)
    ensures IsEnd(At(Handle(w, e), t).cursor.partial, At(w, t).cursor.partial + TextIn(e, t))
    ensures Handle(w, e).budget == w.budget
  {
    match e
    case Artifact(t', text, last) =>
      hide *;
      ArtifactPartial(w, t', text, last, t);
      HandleArtifact(w, t', text, last, t);
    case Activity(t', cards) => hide *; ActivityPartial(w, t', cards, t); TextOnly(w, e, t);
    case Terminal(t') => hide *; TerminalPartial(w, t', t); TextOnly(w, e, t);
    case Human(thread) => hide *; HumanPartial(w, thread, t); TextOnly(w, e, t);
  }

  lemma TextOnly(w: World, e: Event, t: Task)
    requires !e.Artifact?
    ensures At(w, t).cursor.partial + TextIn(e, t) == At(w, t).cursor.partial
  {
  }

  lemma ActivityPartial(w: World, t': Task, cards: seq<Card>, t: Task)
    ensures IsEnd(At(Handle(w, Activity(t', cards)), t).cursor.partial, At(w, t).cursor.partial)
    ensures Handle(w, Activity(t', cards)).budget == w.budget
  {
    hide DrawAll, CloseIfStale, IsEnd, Quiet, At;
    var w1 := CloseIfStale(w, t');
    CloseIfStaleQuiet(w, t');
    DrawAllQuiet(w1, t', cards);
    QuietTrans(w, w1, DrawAll(w1, t', cards), t');
    QuietEnds(w, DrawAll(w1, t', cards), t', t);
  }

  lemma TerminalPartial(w: World, t': Task, t: Task)
    ensures IsEnd(At(Handle(w, Terminal(t')), t).cursor.partial, At(w, t).cursor.partial)
    ensures Handle(w, Terminal(t')).budget == w.budget
  {
    hide Close, IsEnd, Quiet;
    CloseQuiet(w, t');
    QuietEnds(w, Close(w, t'), t', t);
    EmptyEnd(At(w, t).cursor.partial);
  }

  lemma HumanPartial(w: World, thread: nat, t: Task)
    ensures IsEnd(At(Handle(w, Human(thread)), t).cursor.partial, At(w, t).cursor.partial)
    ensures Handle(w, Human(thread)).budget == w.budget
  {
    hide IsEnd;
    SelfEnd(At(w, t).cursor.partial);
  }

  lemma HandleArtifact(w: World, t': Task, text: string, last: bool, t: Task)
    ensures Handle(w, Artifact(t', text, last)) == OnArtifact(w, t', text, last)
    ensures TextIn(Artifact(t', text, last), t) == if t' == t then text else ""
  {
  }

  lemma {:induction false} RunSnoc(w: World, events: seq<Event>, e: Event)
    ensures RunAll(w, events + [e]) == Handle(RunAll(w, events), e)
    decreases |events|
  {
    hide Handle;
    if events == [] {
      assert ([] + [e])[1..] == [];
      assert RunAll(w, [e]) == RunAll(Handle(w, e), []);
    } else {
      assert (events + [e])[1..] == events[1..] + [e];
      RunSnoc(Handle(w, events[0]), events[1..], e);
    }
  }

  /** The unfinished line a task's cursor holds ends the text that has arrived. */
  lemma {:induction false} PartialEndsText(budget: int, events: seq<Event>, t: Task)
    ensures IsEnd(At(RunAll(Idle(budget), events), t).cursor.partial, TextOf(events, t))
    ensures RunAll(Idle(budget), events).budget == budget
    decreases |events|
  {
    hide IsEnd, Handle;
    if events == [] {
      SelfEnd("");
    } else {
      var before, e := events[..|events| - 1], events[|events| - 1];
      assert events == before + [e];
      PartialEndsText(budget, before, t);
      var w := RunAll(Idle(budget), before);
      RunSnoc(Idle(budget), before, e);
      HandlePartial(w, e, t);
      var text := TextIn(e, t);
      IsEndAppend(At(w, t).cursor.partial, TextOf(before, t), text);
      IsEndTrans(At(Handle(w, e), t).cursor.partial, At(w, t).cursor.partial + text, TextOf(before, t) + text);
    }
  }

  lemma EndWithin(tail: string, s: string, lim: Limits)
    requires IsEnd(tail, s) && FencesWithin(s, lim)
    ensures FencesWithin(tail, lim)
  {
    hide FencesWithin;
    assert s == s[..|s| - |tail|] + tail;
    FencesParts(s[..|s| - |tail|], tail, lim);
  }

  // ------------------------------------------------------------- every event

  lemma MarkWeighs(w: World, lim: Limits, thread: nat)
    requires Weighed(w, lim)
    ensures Weighed(Mark(w, thread), lim)
  {
    hide StopsWithin, CursorFits, Weight, CardsOn, Charged, MarkOne;
    var w' := Mark(w, thread);
    LogWeighs(w.log, Spoke(thread));
    StopsGrow(w.log, Spoke(thread), w.budget);
    forall t ensures CursorFits(At(w', t).cursor, lim) && Charged(w', t) {
      assert CursorFits(At(w, t).cursor, lim) && Charged(w, t);
      hide *;
      MarkCharged(w, thread, t);
    }
    forall m: Message ensures Weight(w'.log, m) <= w'.budget + 2 * lim.marker + 1 {
      assert Weight(w.log, m) <= w.budget + 2 * lim.marker + 1;
    }
  }

  lemma MarkCharged(w: World, thread: nat, t: Task)
    requires Charged(w, t)
    ensures Charged(Mark(w, thread), t) && At(Mark(w, thread), t).cursor == At(w, t).cursor
  {
    hide Weight, CardsOn;
    LogWeighs(w.log, Spoke(thread));
    assert At(Mark(w, thread), t) == if t in w.streams then MarkOne(t, w.streams[t], thread) else FRESH;
  }

  lemma ForgetWeighs(w: World, lim: Limits, t: Task)
    requires Weighed(w, lim) && At(w, t).message == None
    ensures Weighed(w.(streams := w.streams - {t}), lim)
  {
    hide StopsWithin, FenceFits, Genuine;
    var w' := w.(streams := w.streams - {t});
    assert CursorFits(START, lim) by { StartFits(lim); }
    forall t' ensures CursorFits(At(w', t').cursor, lim) && Charged(w', t') {
      assert CursorFits(At(w, t').cursor, lim) && Charged(w, t');
    }
  }

  lemma StartFits(lim: Limits)
    ensures CursorFits(START, lim)
  {
  }

  lemma ClosableWhenCharged(w: World, lim: Limits, t: Task)
    requires Weighed(w, lim)
    ensures Closable(w, t) && WeighedBut(w, lim, t)
  {
    assert Charged(w, t) && CursorFits(At(w, t).cursor, lim);
  }

  lemma HandleWeighs(w: World, lim: Limits, e: Event)
    requires Inv(w) && Weighed(w, lim)
    requires e.Artifact? ==> FencesWithin(At(w, e.task).cursor.partial + e.text, lim)
    requires e.Activity? ==> forall j :: 0 <= j < |e.cards| ==> CardCost(e.cards[j]) <= w.budget
    ensures Weighed(Handle(w, e), lim)
  {
    hide Inv, Weighed, FencesWithin, CardCost, Append, DrawAll;
    match e
    case Artifact(t, text, last) =>
      var w1 := CloseIfStale(w, t);
      CloseIfStaleKeeps(w, t);
      CloseIfStaleWeighs(w, lim, t);
      FreshLine(At(w, t).cursor.partial, At(w1, t).cursor.partial, text, lim);
      AppendWeighs(w1, lim, t, text);
      ClosableWhenCharged(Append(w1, t, text), lim, t);
      CloseWeighs(Append(w1, t, text), lim, t);
    case Activity(t, cards) =>
      CloseIfStaleKeeps(w, t);
      CloseIfStaleWeighs(w, lim, t);
      DrawAllWeighs(CloseIfStale(w, t), lim, t, cards);
    case Terminal(t) =>
      ClosableWhenCharged(w, lim, t);
      CloseWeighs(w, lim, t);
      ForgetWeighs(Close(w, t), lim, t);
    case Human(thread) =>
      MarkWeighs(w, lim, thread);
  }

  lemma IdleWeighs(budget: int, lim: Limits)
    requires budget > lim.reopen
    ensures Weighed(Idle(budget), lim)
  {
    StartFits(lim);
    assert forall t :: At(Idle(budget), t) == FRESH;
  }

  lemma ModestPrefix(events: seq<Event>, budget: int, lim: Limits)
    requires events != [] && Modest(events, budget, lim)
    ensures Modest(events[..|events| - 1], budget, lim)
    ensures var e := events[|events| - 1];
            && (e.Activity? ==> forall j :: 0 <= j < |e.cards| ==> CardCost(e.cards[j]) <= budget)
            && (e.Artifact? ==> FencesWithin(TextOf(events[..|events| - 1], e.task) + e.text, lim))
  {
    hide FencesWithin, CardCost;
    var before, e := events[..|events| - 1], events[|events| - 1];
    forall t ensures FencesWithin(TextOf(before, t), lim) {
      assert FencesWithin(TextOf(events, t), lim);
      var text := TextIn(e, t);
      FencesParts(TextOf(before, t), text, lim);
    }
    if e.Artifact? {
      assert FencesWithin(TextOf(events, e.task), lim);
    }
    if e.Activity? {
      assert events[|events| - 1].Activity?;
    }
  }

  lemma {:induction false} RunWeighs(budget: int, lim: Limits, events: seq<Event>)
    requires budget > lim.reopen && Modest(events, budget, lim)
    ensures Weighed(RunAll(Idle(budget), events), lim) && Inv(RunAll(Idle(budget), events))
    decreases |events|
  {
    hide Inv, Weighed, Modest, Handle, FencesWithin, CardCost, IsEnd;
    if events == [] {
      IdleInv(budget);
      IdleWeighs(budget, lim);
    } else {
      var before, e := events[..|events| - 1], events[|events| - 1];
      assert events == before + [e];
      ModestPrefix(events, budget, lim);
      RunWeighs(budget, lim, before);
      var w := RunAll(Idle(budget), before);
      RunSnoc(Idle(budget), before, e);
      if e.Artifact? {
        PartialEndsText(budget, before, e.task);
        IsEndAppend(At(w, e.task).cursor.partial, TextOf(before, e.task), e.text);
        EndWithin(At(w, e.task).cursor.partial + e.text, TextOf(before, e.task) + e.text, lim);
      }
      PartialEndsText(budget, before, Task(0, 0));
      HandleWeighs(w, lim, e);
      HandleKeeps(w, e);
    }
  }

  lemma WeighedMeans(w: World, lim: Limits)
    requires Weighed(w, lim)
    ensures forall t :: Charged(w, t)
    ensures StopsWithin(w.log, w.budget)
    ensures forall m: Message :: Weight(w.log, m) <= w.budget + 2 * lim.marker + 1
  {
  }

  /**
    Over every run in which a message has room to reopen any block and for any card: what is
    charged to a message is what was sent to it, and is within the budget and the closing line.
    When it is stopped it weighs no more than that, except exactly if it is then sealed though
    already over the budget by more than a newline; and never more than one marker more.
   */
  lemma MessagesStayWithinBudget(budget: int, lim: Limits, events: seq<Event>)
    requires budget > lim.reopen && Modest(events, budget, lim)
    ensures var w := RunAll(Idle(budget), events);
            && w.budget == budget && (forall t :: Charged(w, t))
            && StopsWithin(w.log, budget)
            && (forall m: Message :: Weight(w.log, m) <= budget + 2 * lim.marker + 1)
  {
    hide *;
    RunWeighs(budget, lim, events);
    PartialEndsText(budget, events, Task(0, 0));
    WeighedMeans(RunAll(Idle(budget), events), lim);
  }

  /**
    Over the same runs, sealing a message keeps it within the budget and the closing line exactly
    when it is charged no more than the budget, and the newline that a fresh line saves.
   */
  lemma SealKeepsToBudgetIff(budget: int, lim: Limits, events: seq<Event>, t: Task)
    requires budget > lim.reopen && Modest(events, budget, lim)
    requires At(RunAll(Idle(budget), events), t).message.Some? && At(RunAll(Idle(budget), events), t).cursor.fence.Some?
    ensures var w := RunAll(Idle(budget), events); var s := At(w, t);
            Weight(SealFence(w, t).log, s.message.value) <= budget + CloseCost(s.cursor) <==>
              s.chars <= budget + (if s.cursor.partial == "" then 1 else 0)
  {
    hide RunAll, Idle, Modest, Weight, CardsOn;
    MessagesStayWithinBudget(budget, lim, events);
    var w := RunAll(Idle(budget), events);
    var s := At(w, t);
    assert Charged(w, t);
    var call := Seal(s.message.value, (if s.cursor.partial == "" then "" else "\n") + s.cursor.fence.value.marker);
    SealedMayStop(w.log, s.message.value, call, s.cursor, budget);
  }
}
