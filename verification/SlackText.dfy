/**
  Rollover loses nothing: over every run, the answer text Slack was sent is the text the
  agent produced, cut somewhere, with only fence lines added and only whitespace dropped at
  the cuts; and a message opened inside a block starts by reopening it.
 */
module SlackText {
  import opened Options
  import opened Text
  import opened Markdown
  import opened MarkdownFaithful
  import opened MarkdownSize
  import opened SlackStream
  import opened SlackOrder
  import opened SlackBudget

  /** One append of answer text. */
  datatype Sent = Sent(message: Message, text: string, cut: bool)

  function SentBy(call: Call, t: Task): seq<Sent> {
    if call.Answer? && call.message.task == t then [Sent(call.message, call.text, call.cut)] else []
  }

  /** The answer text sent for a task, in stream order. */
  function SentFor(log: seq<Call>, t: Task): seq<Sent>
    decreases |log|
  {
    if log == [] then [] else SentFor(log[..|log| - 1], t) + SentBy(log[|log| - 1], t)
  }

  /**
    One cut, and where the scan stood before it. A delta taken `whole` is appended as it is; any
    other is cut, and the next line is scanned from its start. The message `ends` when there is
    more of the delta to come.
   */
  datatype Piece = Piece(cut: Cut, from: Cursor, whole: bool, ends: bool)

  /** The cut dropped only whitespace, and added only the line that closes the block a scan finds open there. */
  ghost predicate Clean(p: Piece) {
    && p.cut.open == Advance(p.from, p.cut.kept + p.cut.gap).fence
    && IsGap(p.cut.gap)
    && (if p.whole then p.cut.suffix == p.cut.gap == "" && !p.ends else ClosesItsFence(p.cut))
  }

  /** Where the scan stands after it. */
  function After(p: Piece): Cursor {
    if p.whole then Advance(p.from, p.cut.kept) else Cursor(p.cut.open, "")
  }

  /** The scan goes on from `c`; in a message other than the previous one, an open block goes on at a fresh line. */
  predicate GoesOn(from: Cursor, c: Cursor, changes: bool) {
    from == c || (changes && c.fence.Some? && from == Cursor(c.fence, ""))
  }

  /**
    The pieces tell what was sent, from where the scan stood: each sends its text, unless there is
    none, to a message, not the last one if that is `over`; a message other than the previous one
    starts by reopening the block left open.
   */
  ghost predicate Tells(pieces: seq<Piece>, sent: seq<Sent>, c: Cursor, last: Option<Message>, over: bool)
    decreases |pieces|
  {
    if pieces == [] then sent == []
    else
      var p := pieces[0];
      Clean(p) &&
      if p.cut.kept + p.cut.suffix == "" then
        !p.whole && GoesOn(p.from, c, true) && Tells(pieces[1..], sent, After(p), last, OverNext(p, over))
      else
        && sent != [] && Sends(p, sent[0], c, last, over)
        && Tells(pieces[1..], sent[1..], After(p), Some(sent[0].message), OverNext(p, over))
  }

  ghost predicate Sends(p: Piece, s: Sent, c: Cursor, last: Option<Message>, over: bool) {
    && s.text == p.cut.prefix + p.cut.kept + p.cut.suffix && s.cut == !p.whole
    && (over ==> last != Some(s.message))
    && GoesOn(p.from, c, last != Some(s.message))
    && p.cut.prefix == (if last == Some(s.message) then "" else Reopen(Cursor(p.from.fence, "")))
  }

  /** The text the pieces are cut from. */
  function Cuts(pieces: seq<Piece>): seq<Cut> {
    if pieces == [] then [] else [pieces[0].cut] + Cuts(pieces[1..])
  }

  function EndsAt(pieces: seq<Piece>, c: Cursor): Cursor {
    if pieces == [] then c else After(pieces[|pieces| - 1])
  }

  function LastOf(sent: seq<Sent>, last: Option<Message>): Option<Message> {
    if sent == [] then last else Some(sent[|sent| - 1].message)
  }

  /** Whether the last message is over once this piece is sent. */
  predicate OverNext(p: Piece, over: bool) {
    p.ends || (over && p.cut.kept + p.cut.suffix == "")
  }

  predicate OverAfter(pieces: seq<Piece>, over: bool)
    decreases |pieces|
  {
    if pieces == [] then over else OverAfter(pieces[1..], OverNext(pieces[0], over))
  }

  lemma {:induction false} CutsAppend(a: seq<Piece>, b: seq<Piece>)
    ensures Cuts(a + b) == Cuts(a) + Cuts(b)
    decreases |a|
  {
    if a == [] {
      assert a + b == b;
    } else {
      assert (a + b)[0] == a[0] && (a + b)[1..] == a[1..] + b;
      CutsAppend(a[1..], b);
    }
  }

  lemma {:induction false} TellsAppend(
      a: seq<Piece>, x: seq<Sent>, b: seq<Piece>, y: seq<Sent>, c: Cursor, last: Option<Message>, over: bool)
    requires Tells(a, x, c, last, over) && Tells(b, y, EndsAt(a, c), LastOf(x, last), OverAfter(a, over))
    ensures Tells(a + b, x + y, c, last, over)
    decreases |a|
  {
    hide Clean, Sends, GoesOn, After, OverNext;
    if a == [] {
      assert a + b == b && x + y == y;
    } else {
      var p := a[0];
      assert (a + b)[0] == p && (a + b)[1..] == a[1..] + b;
      if p.cut.kept + p.cut.suffix == "" {
        TellsAppend(a[1..], x, b, y, After(p), last, OverNext(p, over));
      } else {
        assert (x + y)[0] == x[0] && (x + y)[1..] == x[1..] + y;
        TellsAppend(a[1..], x[1..], b, y, After(p), Some(x[0].message), OverNext(p, over));
      }
    }
  }

  /** What is told of a message that is over is told of one that may not be. */
  lemma {:induction false} TellsOver(b: seq<Piece>, y: seq<Sent>, c: Cursor, last: Option<Message>, over: bool)
    requires Tells(b, y, c, last, true)
    ensures Tells(b, y, c, last, over)
    decreases |b|
  {
    hide Clean, GoesOn, After;
    if b != [] && b[0].cut.kept + b[0].cut.suffix == "" && !over && !b[0].ends {
      TellsOver(b[1..], y, After(b[0]), last, false);
    }
  }

  /** What is told from a fresh line, in a message to come, is told from where the last one was left. */
  lemma TellsStopped(b: seq<Piece>, y: seq<Sent>, c: Cursor, last: Option<Message>, over: bool)
    requires c.fence.Some? && b != [] && Tells(b, y, Cursor(c.fence, ""), last, true)
    ensures Tells(b, y, c, last, over)
  {
    hide Clean, After;
    TellsOver(b, y, Cursor(c.fence, ""), last, over);
  }

  lemma {:induction false} JoinAppend(a: seq<Cut>, b: seq<Cut>)
    ensures Join(a + b) == Join(a) + Join(b)
    decreases |a|
  {
    if a == [] {
      assert a + b == b;
    } else {
      assert (a + b)[1..] == a[1..] + b;
      JoinAppend(a[1..], b);
    }
  }

  // ------------------------------------------------------------- the invariant

  /** The message the task's last answer text went to. */
  function LastMessage(log: seq<Call>, t: Task): Option<Message> {
    LastOf(SentFor(log, t), None)
  }

  /** The fence owed: a message that has no answer text yet owes the block left open; one that has owes nothing. */
  ghost predicate Owes(w: World, t: Task) {
    var s := At(w, t);
    && Scanned(s.cursor)
    && (s.message.Some? && LastMessage(w.log, t) == s.message ==> !s.owes)
    && ((s.message.None? || LastMessage(w.log, t) != s.message) && s.cursor.fence.Some? ==> s.owes)
    && (LastMessage(w.log, t).Some? ==> LastMessage(w.log, t).value.serial < w.next)
  }

  /** The next text of the task goes to a message other than the last. */
  ghost predicate Over(w: World, t: Task) {
    At(w, t).message.None? || LastMessage(w.log, t) != At(w, t).message
  }

  /** The scan stands at `c`, or its message was stopped with a block open and it stands at a fresh line. */
  ghost predicate Stands(w: World, t: Task, c: Cursor) {
    At(w, t).cursor == c || (c.fence.Some? && Over(w, t) && At(w, t).cursor == Cursor(c.fence, ""))
  }

  /** What was sent between two states is told by cuts of `text`. */
  ghost predicate Told(w: World, w': World, t: Task, text: string, pieces: seq<Piece>, sent: seq<Sent>) {
    && SentFor(w'.log, t) == SentFor(w.log, t) + sent
    && Join(Cuts(pieces)) == text
    && Tells(pieces, sent, At(w, t).cursor, LastMessage(w.log, t), Over(w, t))
    && Stands(w', t, EndsAt(pieces, At(w, t).cursor))
    && (OverAfter(pieces, Over(w, t)) ==> Over(w', t))
  }

  ghost predicate Delivers(w: World, w': World, t: Task, text: string) {
    exists pieces, sent :: Told(w, w', t, text, pieces, sent)
  }

  lemma DeliversNothing(w: World, w': World, t: Task)
    requires SentFor(w'.log, t) == SentFor(w.log, t) && Stands(w', t, At(w, t).cursor) && (Over(w, t) ==> Over(w', t))
    ensures Delivers(w, w', t, "")
  {
    assert Told(w, w', t, "", [], []);
  }

  lemma LastAppend(x: seq<Sent>, y: seq<Sent>, last: Option<Message>)
    ensures LastOf(x + y, last) == LastOf(y, LastOf(x, last))
  {
  }

  lemma EndsAppend(a: seq<Piece>, b: seq<Piece>, c: Cursor)
    ensures EndsAt(a + b, c) == EndsAt(b, EndsAt(a, c))
  {
    hide After;
  }

  lemma {:induction false} OverAppend(a: seq<Piece>, b: seq<Piece>, over: bool)
    ensures OverAfter(a + b, over) == OverAfter(b, OverAfter(a, over))
    decreases |a|
  {
    hide OverNext;
    if a == [] {
      assert a + b == b;
    } else {
      assert (a + b)[0] == a[0] && (a + b)[1..] == a[1..] + b;
      OverAppend(a[1..], b, OverNext(a[0], over));
    }
  }

  lemma {:induction false} OverMore(b: seq<Piece>, over: bool, over': bool)
    requires over ==> over'
    ensures OverAfter(b, over) ==> OverAfter(b, over')
    decreases |b|
  {
    if b != [] { OverMore(b[1..], OverNext(b[0], over), OverNext(b[0], over')); }
  }

  lemma ToldTrans(
      w: World, w': World, w'': World, t: Task, a: string, b: string,
      pa: seq<Piece>, sa: seq<Sent>, pb: seq<Piece>, sb: seq<Sent>)
    requires Told(w, w', t, a, pa, sa) && Told(w', w'', t, b, pb, sb)
    ensures Told(w, w'', t, a + b, pa + pb, sa + sb)
  {
    hide Tells, LastOf, EndsAt, OverAfter, SentFor, Join, Over, Cuts;
    var c, last, over := At(w, t).cursor, LastMessage(w.log, t), Over(w, t);
    var c', last' := EndsAt(pa, c), LastOf(sa, last);
    LastAppend(SentFor(w.log, t), sa, None);
    assert LastMessage(w'.log, t) == last';
    Resumed(pb, sb, w', t, c', OverAfter(pa, over));
    TellsAppend(pa, sa, pb, sb, c, last, over);
    CutsAppend(pa, pb);
    JoinAppend(Cuts(pa), Cuts(pb));
    EndsAppend(pa, pb, c);
    OverAppend(pa, pb, over);
    OverMore(pb, OverAfter(pa, over), Over(w', t));
    StandsOn(w', w'', t, pb, c');
    assert (SentFor(w.log, t) + sa) + sb == SentFor(w.log, t) + (sa + sb);
  }

  /** Going on where another part of the tale left off. */
  lemma Resumed(pb: seq<Piece>, sb: seq<Sent>, w': World, t: Task, c: Cursor, over: bool)
    requires Tells(pb, sb, At(w', t).cursor, LastMessage(w'.log, t), Over(w', t))
    requires Stands(w', t, c) && (over ==> Over(w', t))
    ensures Tells(pb, sb, c, LastMessage(w'.log, t), over)
  {
    hide LastMessage, Over, Clean, Sends, GoesOn;
    var last := LastMessage(w'.log, t);
    if pb == [] {
    } else if At(w', t).cursor == c {
      hide Tells;
      if Over(w', t) { TellsOver(pb, sb, c, last, over); }
    } else {
      hide Tells;
      TellsStopped(pb, sb, c, last, over);
    }
  }

  lemma StandsOn(w': World, w'': World, t: Task, pb: seq<Piece>, c: Cursor)
    requires Stands(w', t, c) && Stands(w'', t, EndsAt(pb, At(w', t).cursor))
    requires OverAfter(pb, Over(w', t)) ==> Over(w'', t)
    ensures Stands(w'', t, EndsAt(pb, c))
  {
    hide Over, After;
  }

  lemma DeliversTrans(w: World, w': World, w'': World, t: Task, a: string, b: string)
    requires Delivers(w, w', t, a) && Delivers(w', w'', t, b)
    ensures Delivers(w, w'', t, a + b)
  {
    hide Told;
    var pa, sa :| Told(w, w', t, a, pa, sa);
    var pb, sb :| Told(w', w'', t, b, pb, sb);
    ToldTrans(w, w', w'', t, a, b, pa, sa, pb, sb);
  }

  lemma SentGrows(log: seq<Call>, call: Call, t: Task)
    ensures SentFor(log + [call], t) == SentFor(log, t) + SentBy(call, t)
  {
    assert (log + [call])[..|log|] == log;
  }

  // ------------------------------------------------------------- steps that take in no text

  /** Nothing is sent for the answer, what is owed is owed still, and a message that is over stays so. */
  ghost predicate Silent(w: World, w': World, t: Task) {
    && SentFor(w'.log, t) == SentFor(w.log, t)
    && (Owes(w, t) ==> Owes(w', t) && Stands(w', t, At(w, t).cursor) && (Over(w, t) ==> Over(w', t)))
  }

  lemma SilentTrans(w: World, w': World, w'': World, t: Task)
    requires Silent(w, w', t) && Silent(w', w'', t)
    ensures Silent(w, w'', t)
  {
    hide SentFor, LastOf, Scanned, At;
  }

  /** Nothing sent, and nothing the fence owed depends on changed. */
  lemma NothingChanged(w: World, w': World, t: Task)
    requires SentFor(w'.log, t) == SentFor(w.log, t) && w'.next >= w.next
    requires At(w', t).cursor == At(w, t).cursor && At(w', t).message == At(w, t).message
        && At(w', t).owes == At(w, t).owes
    ensures Silent(w, w', t)
  {
    hide SentFor, LastOf, Scanned, At;
  }

  lemma Unsent(log: seq<Call>, call: Call, t: Task)
    requires !call.Answer?
    ensures SentFor(log + [call], t) == SentFor(log, t)
  {
    hide SentFor;
    SentGrows(log, call, t);
  }

  lemma CloseSilent(w: World, t': Task, t: Task)
    ensures Silent(w, Close(w, t'), t)
  {
    hide SentFor, LastOf, Silent, Scanned;
    var s, w' := At(w, t'), Close(w, t');
    if s.message.Some? {
      Unsent(w.log, Stopped(s.message.value, s.cursor), t);
    }
    if t != t' {
      NothingChanged(w, w', t);
    } else {
      ClosedSilent(w, w', t);
    }
  }

  lemma ClosedSilent(w: World, w': World, t: Task)
    requires SentFor(w'.log, t) == SentFor(w.log, t) && w'.next == w.next
    requires var s, s' := At(w, t), At(w', t);
             && s'.message.None? && s'.cursor.fence == s.cursor.fence
             && (if s.cursor.fence.Some? then s'.owes && s'.cursor.partial == "" else s'.cursor == s.cursor)
    ensures Silent(w, w', t)
  {
    hide SentFor, LastOf, Genuine, At;
  }

  lemma SealSilent(w: World, t': Task, t: Task)
    ensures Silent(w, SealFence(w, t'), t) && At(SealFence(w, t'), t) == At(w, t) && SealFence(w, t').next == w.next
  {
    hide SentFor, LastOf, Silent, Scanned;
    var s := At(w, t');
    if s.cursor.fence.Some? && s.message.Some? {
      Unsent(w.log, Seal(s.message.value,
          (if s.cursor.partial == "" then "" else "\n") + s.cursor.fence.value.marker), t);
    }
    NothingChanged(w, SealFence(w, t'), t);
  }

  /** Charges and marks are no matter here. */
  lemma PutSilent(w: World, t': Task, s: Stream, t: Task)
    requires s.message == At(w, t').message && s.cursor == At(w, t').cursor && s.owes == At(w, t').owes
    ensures Silent(w, Put(w, t', s), t)
  {
    hide SentFor, LastOf, Silent, Scanned;
    NothingChanged(w, Put(w, t', s), t);
  }

  lemma CloseIfStaleSilent(w: World, t': Task, t: Task)
    ensures Silent(w, CloseIfStale(w, t'), t)
  {
    hide Silent, Close, SealFence;
    if At(w, t').stale {
      var s := At(w, t').(stale := false);
      var w1 := Put(w, t', s);
      PutSilent(w, t', s, t);
      SealSilent(w1, t', t);
      CloseSilent(SealFence(w1, t'), t', t);
      SilentTrans(w, w1, SealFence(w1, t'), t);
      SilentTrans(w, SealFence(w1, t'), CloseIfStale(w, t'), t);
    } else {
      SelfSilent(w, t);
    }
  }

  lemma SelfSilent(w: World, t: Task)
    ensures Silent(w, w, t)
  {
  }

  lemma EnsureSilent(w: World, t': Task, t: Task)
    ensures Silent(w, Ensure(w, t'), t)
  {
    hide CloseIfStale, SentFor, Silent, Scanned, LastOf;
    var w1, w2 := CloseIfStale(w, t'), Ensure(w, t');
    CloseIfStaleSilent(w, t', t);
    if At(w1, t').message.None? {
      Unsent(w1.log, Opened(Message(t', w1.next)), t);
      if t == t' { OpenedSilent(w1, w2, t); } else { NothingChanged(w1, w2, t); }
      SilentTrans(w, w1, w2, t);
    }
  }

  /** A message just opened is not the last one sent to. */
  lemma OpenedSilent(w: World, w': World, t: Task)
    requires SentFor(w'.log, t) == SentFor(w.log, t) && At(w, t).message.None?
    requires w'.next == w.next + 1 && At(w', t) == At(w, t).(message := Some(Message(t, w.next)))
    ensures Silent(w, w', t)
  {
    hide SentFor, LastOf, Scanned, At;
  }

  lemma ChargeSilent(w: World, t': Task, card: Card, t: Task)
    ensures Silent(w, Charge(w, t', card), t)
  {
    hide Silent, Close, SealFence, CardCost;
    SelfSilent(w, t);
    if card.id !in At(w, t').charged {
      var w1 := w;
      if At(w, t').chars > 0 && At(w, t').chars + CardCost(card) > w.budget {
        SealSilent(w, t', t);
        CloseSilent(SealFence(w, t'), t', t);
        w1 := Close(SealFence(w, t'), t');
        SilentTrans(w, SealFence(w, t'), w1, t);
      }
      var s := At(w1, t').(charged := At(w1, t').charged + {card.id}, chars := At(w1, t').chars + CardCost(card));
      PutSilent(w1, t', s, t);
      SilentTrans(w, w1, Charge(w, t', card), t);
    }
  }

  lemma DrawSilent(w: World, t': Task, card: Card, t: Task)
    ensures Silent(w, Draw(w, t', card), t)
  {
    hide Scanned, Charge, Ensure, SentFor, Silent, LastOf;
    ChargeSilent(w, t', card, t);
    EnsureSilent(Charge(w, t', card), t', t);
    var w1 := Ensure(Charge(w, t', card), t');
    SilentTrans(w, Charge(w, t', card), w1, t);
    Unsent(w1.log, Drawn(At(w1, t').message.value, card), t);
    NothingChanged(w1, Draw(w, t', card), t);
    SilentTrans(w, w1, Draw(w, t', card), t);
  }

  lemma {:induction false} DrawAllSilent(w: World, t': Task, cards: seq<Card>, t: Task)
    ensures Silent(w, DrawAll(w, t', cards), t)
    decreases |cards|
  {
    hide Silent, Draw;
    SelfSilent(w, t);
    if cards != [] {
      DrawSilent(w, t', cards[0], t);
      DrawAllSilent(Draw(w, t', cards[0]), t', cards[1..], t);
      SilentTrans(w, Draw(w, t', cards[0]), DrawAll(w, t', cards), t);
    }
  }

  lemma MarkSilent(w: World, thread: nat, t: Task)
    ensures Silent(w, Mark(w, thread), t)
  {
    hide SentFor, LastOf, Silent, Scanned;
    Unsent(w.log, Spoke(thread), t);
    NothingChanged(w, Mark(w, thread), t);
  }

  // ------------------------------------------------------------- text

  /** The message a task sends to is its own. */
  lemma EnsureOwn(w: World, t: Task)
    requires Inv(w) && !At(w, t).stale
    ensures At(Ensure(w, t), t).message.value.task == t
    ensures At(Ensure(w, t), t)
        == At(w, t).(message := Some(if At(w, t).message.Some? then At(w, t).message.value else Message(t, w.next)))
    ensures Ensure(w, t).next >= w.next && At(Ensure(w, t), t).message.value.serial < Ensure(w, t).next
  {
    assert Rooted(w, t);
  }

  lemma PutElsewhere(w: World, t': Task, s: Stream, t: Task)
    requires t' != t
    ensures Silent(w, Put(w, t', s), t)
  {
    hide SentFor, LastOf, Silent, Scanned;
    NothingChanged(w, Put(w, t', s), t);
  }

  /** An answer to another task's message. */
  lemma SayElsewhere(w: World, call: Call, t: Task)
    requires call.Answer? && call.message.task != t
    ensures Silent(w, Say(w, call), t)
  {
    hide SentFor, LastOf, Silent, Scanned;
    SentGrows(w.log, call, t);
    assert SentFor(w.log, t) + [] == SentFor(w.log, t);
    NothingChanged(w, Say(w, call), t);
  }

  lemma SendHeadElsewhere(w: World, t': Task, head: string, cut: bool, t: Task)
    requires t' != t && Inv(w) && !At(w, t').stale
    ensures Silent(w, SendHead(w, t', head, cut), t)
  {
    hide Silent, Inv, Ensure, Prefix;
    SelfSilent(w, t);
    if head != "" {
      var text := Prefix(At(w, t')) + head;
      var w0 := Ensure(w, t');
      EnsureSilent(w, t', t);
      EnsureOwn(w, t');
      var call := Answer(At(w0, t').message.value, text, cut, At(w, t').cursor);
      SayElsewhere(w0, call, t);
      SilentTrans(w, w0, Say(w0, call), t);
      var s := At(Say(w0, call), t').(chars := At(w, t').chars + |text|, owes := false);
      PutElsewhere(Say(w0, call), t', s, t);
      SilentTrans(w, Say(w0, call), SendHead(w, t', head, cut), t);
    }
  }

  /** What a task sends is no matter to another. */
  lemma AppendChunkElsewhere(w: World, t': Task, text: string, t: Task)
    requires t' != t && Inv(w) && !At(w, t').stale
    ensures Silent(w, AppendChunk(w, t', text), t)
  {
    hide Silent, Close, SendHead, NextOf, TooLong, Inv;
    var chunk := NextOf(w, t', text);
    var w1 := SendHead(w, t', chunk.head, TooLong(w, t', text));
    SendHeadElsewhere(w, t', chunk.head, TooLong(w, t', text), t);
    var w2 := Put(w1, t', At(w1, t').(cursor := chunk.cursor));
    PutElsewhere(w1, t', At(w1, t').(cursor := chunk.cursor), t);
    SilentTrans(w, w1, w2, t);
    if chunk.rest != "" {
      CloseSilent(w2, t', t);
      SilentTrans(w, w2, Close(w2, t'), t);
    }
  }

  lemma {:induction false} AppendElsewhere(w: World, t': Task, text: string, t: Task)
    requires t' != t && Inv(w) && !At(w, t').stale
    ensures Silent(w, Append(w, t', text), t)
    decreases |text|, if At(w, t').chars > 0 then 1 else 0
  {
    hide Silent, Inv, NextOf, AppendChunk, Close, MustRollOver;
    SelfSilent(w, t);
    if text == "" {
    } else if MustRollOver(w.budget, At(w, t')) {
      RollOverMeans(w.budget, At(w, t'));
      InvIsInvBut(w, t');
      CloseKeeps(w, t');
      CloseEmpties(w, t');
      CloseSilent(w, t', t);
      AppendElsewhere(Close(w, t'), t', text, t);
      SilentTrans(w, Close(w, t'), Append(w, t', text), t);
    } else {
      Shorter(w, t', text);
      AppendChunkKeeps(w, t', text);
      AppendChunkElsewhere(w, t', text, t);
      AppendElsewhere(AppendChunk(w, t', text), t', NextOf(w, t', text).rest, t);
      SilentTrans(w, AppendChunk(w, t', text), Append(w, t', text), t);
    }
  }

  /** The reopening line a head is sent with, which is the one its message owes. */
  lemma PrefixOwed(w: World, t: Task)
    requires Inv(w) && Owes(w, t) && !At(w, t).stale
    ensures var m := At(Ensure(w, t), t).message;
            Prefix(At(w, t)) == if LastMessage(w.log, t) == m then "" else Reopen(Cursor(At(w, t).cursor.fence, ""))
  {
    hide Inv, Ensure, Scanned;
    EnsureOwn(w, t);
  }

  /** A head is sent, in one append. */
  lemma HeadSent(w: World, t: Task, head: string, cut: bool) returns (m: Message)
    requires Inv(w) && Owes(w, t) && !At(w, t).stale && head != ""
    ensures var w' := SendHead(w, t, head, cut); var s' := At(w', t);
            && At(Ensure(w, t), t).message == Some(m) && s'.message == Some(m)
            && s'.cursor == At(w, t).cursor && !s'.owes && m.serial < w'.next
            && SentFor(w'.log, t) == SentFor(w.log, t) + [Sent(m, Prefix(At(w, t)) + head, cut)]
  {
    hide Inv, Ensure, Owes, Prefix, Silent, SentFor;
    var text := Prefix(At(w, t)) + head;
    var w0 := Ensure(w, t);
    EnsureOwn(w, t);
    EnsureSilent(w, t, t);
    SilentSent(w, w0, t);
    m := At(w0, t).message.value;
    SentGrows(w0.log, Answer(m, text, cut, At(w, t).cursor), t);
    assert SentBy(Answer(m, text, cut, At(w, t).cursor), t) == [Sent(m, text, cut)];
  }

  lemma LastSent(log: seq<Call>, log': seq<Call>, t: Task, s: Sent)
    requires SentFor(log', t) == SentFor(log, t) + [s]
    ensures LastMessage(log', t) == Some(s.message)
  {
    hide SentFor;
  }

  /** A head is sent: the piece it is of is told by one append. */
  lemma SendHeadTells(w: World, t: Task, head: string, cut: bool, p: Piece)
    requires Inv(w) && Owes(w, t) && !At(w, t).stale
    requires Clean(p) && p.from == At(w, t).cursor && head == p.cut.kept + p.cut.suffix
    requires p.cut.prefix == Prefix(At(w, t)) && cut == !p.whole && (head == "" ==> cut)
    ensures var w' := SendHead(w, t, head, cut);
            && At(w', t).cursor == At(w, t).cursor
            && (head == "" ==> w' == w && Tells([p], [], At(w, t).cursor, LastMessage(w.log, t), Over(w, t)))
            && (head != "" ==>
                && At(w', t).message.Some? && !At(w', t).owes
                && At(w', t).message.value.serial < w'.next
                && LastMessage(w'.log, t) == At(w', t).message
                && exists sent :: SentFor(w'.log, t) == SentFor(w.log, t) + sent
                                  && Tells([p], sent, At(w, t).cursor, LastMessage(w.log, t), Over(w, t)))
  {
    if head == "" {
      hide *;
      NoHeadTells(w, t, cut, p);
    } else {
      hide *;
      FullHeadTells(w, t, head, cut, p);
    }
  }

  lemma NoHeadTells(w: World, t: Task, cut: bool, p: Piece)
    requires Clean(p) && p.from == At(w, t).cursor && p.cut.kept + p.cut.suffix == "" && !p.whole
    ensures SendHead(w, t, "", cut) == w && Tells([p], [], At(w, t).cursor, LastMessage(w.log, t), Over(w, t))
  {
    hide Clean, Advance, After, LastMessage, Over, At;
    assert [p][1..] == [];
  }

  lemma FullHeadTells(w: World, t: Task, head: string, cut: bool, p: Piece)
    requires Inv(w) && Owes(w, t) && !At(w, t).stale && head != ""
    requires Clean(p) && p.from == At(w, t).cursor && head == p.cut.kept + p.cut.suffix
    requires p.cut.prefix == Prefix(At(w, t)) && cut == !p.whole
    ensures var w' := SendHead(w, t, head, cut);
            && At(w', t).cursor == At(w, t).cursor
            && At(w', t).message.Some? && !At(w', t).owes
            && At(w', t).message.value.serial < w'.next
            && LastMessage(w'.log, t) == At(w', t).message
            && exists sent :: SentFor(w'.log, t) == SentFor(w.log, t) + sent
                              && Tells([p], sent, At(w, t).cursor, LastMessage(w.log, t), Over(w, t))
  {
    hide *;
    var m := HeadSent(w, t, head, cut);
    PrefixOwed(w, t);
    OverChanges(w, t);
    var text := Prefix(At(w, t)) + head;
    assert text == p.cut.prefix + p.cut.kept + p.cut.suffix;
    OneAppendTells(p, m, At(w, t).cursor, LastMessage(w.log, t), Over(w, t));
    LastSent(w.log, SendHead(w, t, head, cut).log, t, Sent(m, text, cut));
  }

  /** A message that is over is not the one the next text goes to. */
  lemma OverChanges(w: World, t: Task)
    requires Inv(w) && Owes(w, t) && !At(w, t).stale
    ensures Over(w, t) ==> LastMessage(w.log, t) != At(Ensure(w, t), t).message
  {
    hide Inv, Scanned, LastMessage, Ensure;
    EnsureOwn(w, t);
  }

  /** One append tells one piece. */
  lemma OneAppendTells(p: Piece, m: Message, c: Cursor, last: Option<Message>, over: bool)
    requires Clean(p) && p.from == c && p.cut.kept + p.cut.suffix != "" && (over ==> last != Some(m))
    requires p.cut.prefix == (if last == Some(m) then "" else Reopen(Cursor(c.fence, "")))
    ensures Tells([p], [Sent(m, p.cut.prefix + p.cut.kept + p.cut.suffix, !p.whole)], c, last, over)
  {
    hide Clean, Reopen;
    assert [p][1..] == [] && [Sent(m, p.cut.prefix + p.cut.kept + p.cut.suffix, !p.whole)][1..] == [];
  }

  lemma SilentSent(w: World, w': World, t: Task)
    requires Silent(w, w', t)
    ensures SentFor(w'.log, t) == SentFor(w.log, t)
  {
  }

  /** The piece a chunk is, ready to be told. */
  lemma ChunkPiece(w: World, t: Task, text: string) returns (p: Piece)
    requires Owes(w, t) && text != ""
    ensures var chunk := NextOf(w, t, text);
            && p.cut.prefix == Prefix(At(w, t))
            && text == (p.cut.kept + p.cut.gap) + chunk.rest
            && chunk.head == p.cut.kept + p.cut.suffix
            && p.from == At(w, t).cursor
            && Clean(p) && After(p) == chunk.cursor && p.whole == !TooLong(w, t, text)
            && (p.ends <==> chunk.rest != "")
            && Scanned(chunk.cursor)
            && (chunk.head == "" ==> !p.whole && chunk.cursor.fence == None)
            && (chunk.rest != "" ==> chunk.cursor.partial == "")
  {
    hide TakeChunk, Advance, Step, Genuine;
    var s := At(w, t);
    var budget := Max(Left(w.budget, s), 1);
    ChunkDescribed(text, budget, s.cursor, Prefix(s));
    ChunkScanned(text, budget, s.cursor);
    var chunk := NextOf(w, t, text);
    var c: Cut :| && c.prefix == Prefix(s) && Describes(c, text, s.cursor, chunk)
                  && (|text| > budget ==> ClosesItsFence(c));
    if |text| <= budget {
      WholeChunk(text, budget, s.cursor);
      p := Piece(Cut(Prefix(s), text, "", "", chunk.cursor.fence), s.cursor, true, false);
      assert text + "" == text;
    } else {
      CutShort(text, budget, s.cursor);
      p := Piece(c, s.cursor, false, chunk.rest != "");
    }
  }

  /** A delta too long is cut: the scan goes on at a fresh line. */
  lemma CutShort(text: string, budget: int, c: Cursor)
    requires |text| > budget
    ensures TakeChunk(text, budget, c).cursor.partial == ""
  {
    hide Advance, Candidates, Chosen, LimitOf, TakeChunk;
    ChunkCases(text, budget, c);
  }

  lemma OnePiece(p: Piece)
    ensures Join(Cuts([p])) == p.cut.kept + p.cut.gap
    ensures forall c :: EndsAt([p], c) == After(p)
    ensures forall over :: OverAfter([p], over) == OverNext(p, over)
  {
    hide After, OverNext;
    assert [p][1..] == [] && Cuts([p]) == [p.cut] && [p.cut][1..] == [];
    assert Join([]) == "";
  }

  /** One chunk delivers the text it takes. */
  lemma AppendChunkDelivers(w: World, t: Task, text: string)
    requires Inv(w) && Owes(w, t) && !At(w, t).stale && text != ""
    ensures var w' := AppendChunk(w, t, text);
            && Owes(w', t)
            && exists taken :: text == taken + NextOf(w, t, text).rest && Delivers(w, w', t, taken)
  {
    hide Inv, NextOf, TooLong, SendHead, Clean, Prefix, Tells, Silent, Genuine, LastOf, SentFor, After, Close, EndsAt,
        OverAfter, Join, Cuts;
    var p := ChunkPiece(w, t, text);
    var chunk := NextOf(w, t, text);
    SendHeadTells(w, t, chunk.head, TooLong(w, t, text), p);
    var w1 := SendHead(w, t, chunk.head, TooLong(w, t, text));
    var w2 := Put(w1, t, At(w1, t).(cursor := chunk.cursor));
    var taken := p.cut.kept + p.cut.gap;
    OnePiece(p);
    var sent: seq<Sent> := [];
    if chunk.head != "" {
      sent :| SentFor(w1.log, t) == SentFor(w.log, t) + sent
          && Tells([p], sent, At(w, t).cursor, LastMessage(w.log, t), Over(w, t));
    } else {
      assert SentFor(w.log, t) + sent == SentFor(w.log, t);
    }
    assert Owes(w2, t);
    if chunk.rest == "" {
      assert Told(w, w2, t, taken, [p], sent);
    } else {
      CloseSilent(w2, t, t);
      SilentSent(w2, Close(w2, t), t);
      SilentOwes(w2, Close(w2, t), t);
      Closed(w2, t);
      assert Told(w, Close(w2, t), t, taken, [p], sent);
    }
  }

  lemma SilentOwes(w: World, w': World, t: Task)
    requires Silent(w, w', t) && Owes(w, t)
    ensures Owes(w', t)
  {
  }

  lemma Closed(w: World, t: Task)
    requires At(w, t).cursor.partial == ""
    ensures Over(Close(w, t), t) && At(Close(w, t), t).cursor == At(w, t).cursor
  {
  }

  lemma SilentDelivers(w: World, w': World, t: Task)
    requires Silent(w, w', t) && Owes(w, t)
    ensures Delivers(w, w', t, "") && Owes(w', t)
  {
    hide SentFor, Owes, Stands, Over;
    DeliversNothing(w, w', t);
  }

  lemma {:induction false} AppendDelivers(w: World, t: Task, text: string)
    requires Inv(w) && Owes(w, t) && !At(w, t).stale
    ensures Delivers(w, Append(w, t, text), t, text) && Owes(Append(w, t, text), t)
    decreases |text|, if At(w, t).chars > 0 then 1 else 0
  {
    hide Inv, NextOf, AppendChunk, Close, Owes, Delivers, Silent, MustRollOver;
    if text == "" {
      SelfSilent(w, t);
      SilentDelivers(w, w, t);
    } else if MustRollOver(w.budget, At(w, t)) {
      RollOverMeans(w.budget, At(w, t));
      InvIsInvBut(w, t);
      CloseKeeps(w, t);
      CloseEmpties(w, t);
      CloseSilent(w, t, t);
      SilentDelivers(w, Close(w, t), t);
      AppendDelivers(Close(w, t), t, text);
      DeliversTrans(w, Close(w, t), Append(w, t, text), t, "", text);
      assert "" + text == text;
    } else {
      Shorter(w, t, text);
      AppendChunkKeeps(w, t, text);
      AppendChunkDelivers(w, t, text);
      var rest := NextOf(w, t, text).rest;
      var taken :| text == taken + rest && Delivers(w, AppendChunk(w, t, text), t, taken);
      AppendDelivers(AppendChunk(w, t, text), t, rest);
      DeliversTrans(w, AppendChunk(w, t, text), Append(w, t, text), t, taken, rest);
    }
  }

  // ------------------------------------------------------------- whole runs

  lemma ArtifactDelivers(w: World, t': Task, text: string, last: bool, t: Task)
    requires Inv(w) && Owes(w, t)
    ensures var w' := OnArtifact(w, t', text, last);
            Owes(w', t) && Delivers(w, w', t, if t' == t then text else "")
  {
    hide Inv, Owes, Delivers, Silent, Append, Close, CloseIfStale;
    var w1 := CloseIfStale(w, t');
    CloseIfStaleKeeps(w, t');
    CloseIfStaleSilent(w, t', t);
    SilentDelivers(w, w1, t);
    var w2 := Append(w1, t', text);
    var taken := if t' == t then text else "";
    if t' == t {
      AppendDelivers(w1, t, text);
    } else {
      AppendElsewhere(w1, t', text, t);
      SilentDelivers(w1, w2, t);
    }
    DeliversTrans(w, w1, w2, t, "", taken);
    assert "" + taken == taken && taken + "" == taken;
    if last {
      CloseSilent(w2, t', t);
      SilentDelivers(w2, Close(w2, t'), t);
      DeliversTrans(w, w2, Close(w2, t'), t, taken, "");
    }
  }

  lemma HandleDelivers(w: World, e: Event, t: Task)
    requires Inv(w) && Owes(w, t) && e != Terminal(t)
    ensures Owes(Handle(w, e), t) && Delivers(w, Handle(w, e), t, TextIn(e, t))
  {
    hide Inv, Owes, Delivers, Silent, OnArtifact, DrawAll, Close, CloseIfStale, Mark;
    match e
    case Artifact(t', text, last) =>
      ArtifactDelivers(w, t', text, last, t);
    case Activity(t', cards) =>
      var w1 := CloseIfStale(w, t');
      CloseIfStaleSilent(w, t', t);
      DrawAllSilent(w1, t', cards, t);
      SilentTrans(w, w1, DrawAll(w1, t', cards), t);
      SilentDelivers(w, DrawAll(w1, t', cards), t);
    case Terminal(t') =>
      var w1 := Close(w, t');
      CloseSilent(w, t', t);
      ForgetSilent(w1, t', t);
      SilentTrans(w, w1, w1.(streams := w1.streams - {t'}), t);
      SilentDelivers(w, w1.(streams := w1.streams - {t'}), t);
    case Human(thread) =>
      MarkSilent(w, thread, t);
      SilentDelivers(w, Mark(w, thread), t);
  }

  lemma ForgetSilent(w: World, t': Task, t: Task)
    requires t' != t
    ensures Silent(w, w.(streams := w.streams - {t'}), t)
  {
    hide SentFor, LastOf, Silent, Scanned;
    NothingChanged(w, w.(streams := w.streams - {t'}), t);
  }

  lemma IdleOwes(budget: int, t: Task)
    ensures Owes(Idle(budget), t)
  {
  }

  lemma {:induction false} RunDelivers(budget: int, events: seq<Event>, t: Task)
    requires Terminal(t) !in events
    ensures var w := RunAll(Idle(budget), events);
            Inv(w) && Owes(w, t) && Delivers(Idle(budget), w, t, TextOf(events, t))
    decreases |events|
  {
    hide Inv, Owes, Delivers, Handle, Idle, Silent;
    var w0 := Idle(budget);
    if events == [] {
      IdleInv(budget);
      IdleOwes(budget, t);
      SelfSilent(w0, t);
      SilentDelivers(w0, w0, t);
    } else {
      var before, e := events[..|events| - 1], events[|events| - 1];
      assert events == before + [e] && e in events;
      RunDelivers(budget, before, t);
      RunSnoc(w0, before, e);
      var w := RunAll(w0, before);
      HandleDelivers(w, e, t);
      HandleKeeps(w, e);
      DeliversTrans(w0, w, Handle(w, e), t, TextOf(before, t), TextIn(e, t));
    }
  }

  /**
    Over every run, up to a task's terminal status, whatever deltas, cards, people and other
    tasks come between: what Slack was sent for the task is its text, cut somewhere. Nothing
    but whitespace is dropped at a cut, nothing added but the line that closes the block a scan
    finds open there; and the next message starts with the line that reopens that block.
   */
  lemma RolloverLosesNothing(budget: int, events: seq<Event>, t: Task)
    requires Terminal(t) !in events
    ensures exists pieces :: Join(Cuts(pieces)) == TextOf(events, t)
                             && Tells(pieces, SentFor(RunAll(Idle(budget), events).log, t), START, None, true)
  {
    hide Inv, Owes, RunAll, Tells, Join, Stands, Cuts;
    RunDelivers(budget, events, t);
    var w := RunAll(Idle(budget), events);
    var pieces, sent :| Told(Idle(budget), w, t, TextOf(events, t), pieces, sent);
    assert SentFor(w.log, t) == sent;
    assert At(Idle(budget), t) == FRESH && LastMessage(Idle(budget).log, t) == None;
    assert Tells(pieces, SentFor(w.log, t), START, None, true);
  }
}
