/**
  An answer never lands above the person it answers: over every run, nothing but a closing
  fence line goes to a streamed message opened before the last person spoke in its thread.
 */
module SlackOrder {
  import opened Options
  import opened Text
  import opened Markdown
  import opened SlackStream

  // ------------------------------------------------------------- reading the log

  function MessageOf(call: Call): Option<Message> {
    match call
    case Opened(m) => Some(m)
    case Answer(m, _, _, _) => Some(m)
    case Seal(m, _) => Some(m)
    case Drawn(m, _) => Some(m)
    case Stopped(m, _) => Some(m)
    case Spoke(_) => None
  }

  /** The message has been opened and not stopped since. */
  function OpenIn(log: seq<Call>, m: Message): bool
    decreases |log|
  {
    if log == [] then false
    else
      var call := log[|log| - 1];
      if call == Opened(m) then true
      else if call.Stopped? && call.message == m then false
      else OpenIn(log[..|log| - 1], m)
  }

  /** A person has spoken in the message's thread since it was opened. */
  function SpokenBelow(log: seq<Call>, m: Message): bool
    decreases |log|
  {
    if log == [] then false
    else
      var call := log[|log| - 1];
      if call == Opened(m) then false
      else call == Spoke(m.task.thread) || SpokenBelow(log[..|log| - 1], m)
  }

  predicate SafeCall(before: seq<Call>, call: Call) {
    match call
    case Opened(m) => forall i :: 0 <= i < |before| ==> MessageOf(before[i]) != Some(m)
    case Answer(m, _, _, _) => OpenIn(before, m) && !SpokenBelow(before, m)
    case Drawn(m, _) => OpenIn(before, m) && !SpokenBelow(before, m)
    case Seal(m, _) => OpenIn(before, m)
    case Stopped(m, _) => OpenIn(before, m)
    case Spoke(_) => true
  }

  ghost predicate Safe(log: seq<Call>)
    decreases |log|
  {
    log != [] ==> Safe(log[..|log| - 1]) && SafeCall(log[..|log| - 1], log[|log| - 1])
  }

  ghost predicate SerialsBelow(log: seq<Call>, next: nat) {
    forall i :: 0 <= i < |log| && MessageOf(log[i]).Some? ==> MessageOf(log[i]).value.serial < next
  }

  // ------------------------------------------------------------- the invariant

  /** The task's current message is its own and is open. */
  ghost predicate Rooted(w: World, t: Task) {
    At(w, t).message.Some? ==>
      var m := At(w, t).message.value;
      m.task == t && m.serial < w.next && OpenIn(w.log, m)
  }

  /** The current message is marked exactly when a person has spoken below it. */
  ghost predicate Current(w: World, t: Task) {
    At(w, t).stale <==> At(w, t).message.Some? && SpokenBelow(w.log, At(w, t).message.value)
  }

  ghost predicate Base(w: World) {
    Safe(w.log) && SerialsBelow(w.log, w.next) && forall t :: Rooted(w, t)
  }

  ghost predicate Inv(w: World) {
    Base(w) && forall t :: Current(w, t)
  }

  /** The invariant, except that the mark on `t` may just have been taken off. */
  ghost predicate InvBut(w: World, t: Task) {
    Base(w) && forall t' :: t' != t ==> Current(w, t')
  }

  lemma LogGrows(log: seq<Call>, call: Call)
    ensures (log + [call])[..|log|] == log && (log + [call])[|log|] == call
    ensures SafeCall(log, call) && Safe(log) ==> Safe(log + [call])
    ensures forall m :: OpenIn(log + [call], m) ==
                        (call == Opened(m) || (!(call.Stopped? && call.message == m) && OpenIn(log, m)))
    ensures forall m :: SpokenBelow(log + [call], m) ==
                        (call != Opened(m) && (call == Spoke(m.task.thread) || SpokenBelow(log, m)))
  {
    assert (log + [call])[..|log|] == log;
  }

  /** Something is sent to the current message of `t`. */
  lemma SayKeeps(w: World, t: Task, call: Call)
    requires InvBut(w, t) && At(w, t).message.Some?
    requires call.Answer? || call.Seal? || call.Drawn?
    requires call.message == At(w, t).message.value
    requires call.Seal? || (Current(w, t) && !At(w, t).stale)
    ensures InvBut(Say(w, call), t)
    ensures Current(w, t) ==> Current(Say(w, call), t)
  {
    assert Rooted(w, t);
    LogGrows(w.log, call);
    var w' := Say(w, call);
    forall t' ensures Rooted(w', t') && At(w', t') == At(w, t') {
      assert Rooted(w, t');
    }
    forall t' | t' != t ensures Current(w', t') {
      assert Current(w, t');
    }
  }

  /** Changing what is charged or scanned for a task changes nothing here. */
  lemma PutKeeps(w: World, t: Task, s: Stream)
    requires InvBut(w, t) && s.message == At(w, t).message
    ensures InvBut(Put(w, t, s), t)
    ensures Current(w, t) && s.stale == At(w, t).stale ==> Inv(Put(w, t, s))
  {
    var w' := Put(w, t, s);
    forall t' ensures Rooted(w', t') {
      assert Rooted(w, t');
    }
    forall t' | t' != t ensures Current(w', t') {
      assert Current(w, t');
    }
  }

  lemma CloseKeeps(w: World, t: Task)
    requires InvBut(w, t)
    ensures InvBut(Close(w, t), t) && At(Close(w, t), t).message == None
    ensures At(Close(w, t), t).stale == At(w, t).stale && (!At(w, t).stale ==> Inv(Close(w, t)))
  {
    var w' := Close(w, t);
    assert Rooted(w, t);
    if At(w, t).message.Some? {
      LogGrows(w.log, Stopped(At(w, t).message.value, At(w, t).cursor));
    }
    forall t' ensures Rooted(w', t') && (t' != t || !At(w, t).stale ==> Current(w', t')) {
      assert Rooted(w, t');
      assert t' != t ==> Current(w, t');
    }
  }

  lemma SealKeeps(w: World, t: Task)
    requires InvBut(w, t)
    ensures InvBut(SealFence(w, t), t) && At(SealFence(w, t), t) == At(w, t)
    ensures Current(w, t) ==> Current(SealFence(w, t), t)
  {
    var s := At(w, t);
    if s.cursor.fence.Some? && s.message.Some? {
      SayKeeps(w, t, Seal(s.message.value,
          (if s.cursor.partial == "" then "" else "\n") + s.cursor.fence.value.marker));
    }
  }

  lemma CloseIfStaleKeeps(w: World, t: Task)
    requires Inv(w)
    ensures Inv(CloseIfStale(w, t)) && !At(CloseIfStale(w, t), t).stale
  {
    hide Inv, InvBut, SealFence, Close;
    if At(w, t).stale {
      var w1 := Put(w, t, At(w, t).(stale := false));
      InvIsInvBut(w, t);
      PutKeeps(w, t, At(w, t).(stale := false));
      SealKeeps(w1, t);
      CloseKeeps(SealFence(w1, t), t);
    }
  }

  lemma EnsureKeeps(w: World, t: Task)
    requires Inv(w)
    ensures Inv(Ensure(w, t)) && !At(Ensure(w, t), t).stale && At(Ensure(w, t), t).message.Some?
    ensures !At(w, t).stale ==> At(Ensure(w, t), t) == At(w, t).(message := At(Ensure(w, t), t).message)
  {
    hide CloseIfStale;
    var w1 := CloseIfStale(w, t);
    CloseIfStaleKeeps(w, t);
    NotStale(w, t);
    var s := At(w1, t);
    if s.message.None? {
      var m := Message(t, w1.next);
      LogGrows(w1.log, Opened(m));
      var w' := Ensure(w, t);
      assert SafeCall(w1.log, Opened(m)) by {
        forall i | 0 <= i < |w1.log| ensures MessageOf(w1.log[i]) != Some(m) {
          assert MessageOf(w1.log[i]).Some? ==> MessageOf(w1.log[i]).value.serial < w1.next;
        }
      }
      forall t' ensures Rooted(w', t') && Current(w', t') {
        assert Rooted(w1, t') && Current(w1, t');
      }
    }
  }

  lemma NotStale(w: World, t: Task)
    ensures !At(w, t).stale ==> CloseIfStale(w, t) == w
  {
  }

  lemma SendHeadKeeps(w: World, t: Task, head: string, cut: bool)
    requires Inv(w) && !At(w, t).stale
    ensures Inv(SendHead(w, t, head, cut)) && !At(SendHead(w, t, head, cut), t).stale
  {
    hide Ensure, Reopen, Prefix;
    if head != "" {
      var s := At(w, t);
      var text := Prefix(s) + head;
      EnsureKeeps(w, t);
      var w1 := Ensure(w, t);
      assert Current(w1, t);
      SayKeeps(w1, t, Answer(At(w1, t).message.value, text, cut, s.cursor));
      var w2 := Say(w1, Answer(At(w1, t).message.value, text, cut, s.cursor));
      PutKeeps(w2, t, At(w2, t).(chars := s.chars + |text|, owes := false));
    }
  }

  lemma AppendChunkKeeps(w: World, t: Task, text: string)
    requires Inv(w) && !At(w, t).stale
    ensures Inv(AppendChunk(w, t, text)) && !At(AppendChunk(w, t, text), t).stale
  {
    var chunk := NextOf(w, t, text);
    SendHeadKeeps(w, t, chunk.head, TooLong(w, t, text));
    var w1 := SendHead(w, t, chunk.head, TooLong(w, t, text));
    assert Current(w1, t);
    PutKeeps(w1, t, At(w1, t).(cursor := chunk.cursor));
    CloseKeeps(Put(w1, t, At(w1, t).(cursor := chunk.cursor)), t);
  }

  lemma {:induction false} AppendKeeps(w: World, t: Task, text: string)
    requires Inv(w) && !At(w, t).stale
    ensures Inv(Append(w, t, text)) && !At(Append(w, t, text), t).stale
    decreases |text|, if At(w, t).chars > 0 then 1 else 0
  {
    hide Inv, NextOf, AppendChunk, Close;
    if text == "" {
    } else if MustRollOver(w.budget, At(w, t)) {
      CloseKeeps(w, t) by { hide *; InvIsInvBut(w, t); }
      CloseEmpties(w, t);
      AppendKeeps(Close(w, t), t, text);
    } else {
      Shorter(w, t, text);
      AppendChunkKeeps(w, t, text);
      AppendKeeps(AppendChunk(w, t, text), t, NextOf(w, t, text).rest);
    }
  }

  lemma InvIsInvBut(w: World, t: Task)
    requires Inv(w)
    ensures InvBut(w, t)
  {
  }

  lemma CloseEmpties(w: World, t: Task)
    ensures At(Close(w, t), t).chars == 0 && At(Close(w, t), t).stale == At(w, t).stale
  {
  }

  lemma Shorter(w: World, t: Task, text: string)
    requires text != ""
    ensures |NextOf(w, t, text).rest| < |text|
  {
    hide *;
    Unfold(w, t, text);
    TakeChunkProgress(text, Max(Left(w.budget, At(w, t)), 1), At(w, t).cursor);
  }

  lemma Unfold(w: World, t: Task, text: string)
    ensures NextOf(w, t, text) ==
            TakeChunk(text, Max(Left(w.budget, At(w, t)), 1), At(w, t).cursor)
  {
  }

  lemma InvCurrent(w: World, t: Task)
    requires Inv(w)
    ensures Current(w, t)
  {
  }

  lemma InvFrom(w: World, t: Task)
    requires InvBut(w, t) && Current(w, t)
    ensures Inv(w)
  {
  }

  lemma ChargeKeeps(w: World, t: Task, card: Card)
    requires Inv(w) && !At(w, t).stale
    ensures Inv(Charge(w, t, card)) && At(Charge(w, t, card), t).stale == At(w, t).stale
  {
    hide Inv, InvBut, Close, SealFence, CardCost, Current;
    InvIsInvBut(w, t);
    if card.id !in At(w, t).charged {
      var w1 := w;
      if At(w, t).chars > 0 && At(w, t).chars + CardCost(card) > w.budget {
        SealKeeps(w, t);
        CloseKeeps(SealFence(w, t), t);
        w1 := Close(SealFence(w, t), t);
      }
      var s := At(w1, t);
      InvIsInvBut(w1, t);
      assert Current(w1, t) by { InvCurrent(w1, t); }
      PutKeeps(w1, t, s.(charged := s.charged + {card.id}, chars := s.chars + CardCost(card)));
    }
  }

  lemma DrawKeeps(w: World, t: Task, card: Card)
    requires Inv(w) && !At(w, t).stale
    ensures Inv(Draw(w, t, card)) && !At(Draw(w, t, card), t).stale
  {
    hide Inv, InvBut, Charge, Ensure, Current, OpenIn, SpokenBelow;
    ChargeKeeps(w, t, card);
    EnsureKeeps(Charge(w, t, card), t);
    var w1 := Ensure(Charge(w, t, card), t);
    var call := Drawn(At(w1, t).message.value, card);
    InvIsInvBut(w1, t);
    InvCurrent(w1, t);
    SayKeeps(w1, t, call);
    InvFrom(Say(w1, call), t);
  }

  lemma {:induction false} DrawAllKeeps(w: World, t: Task, cards: seq<Card>)
    requires Inv(w) && !At(w, t).stale
    ensures Inv(DrawAll(w, t, cards))
    decreases |cards|
  {
    hide Inv, Draw;
    if cards != [] {
      DrawKeeps(w, t, cards[0]);
      DrawAllKeeps(Draw(w, t, cards[0]), t, cards[1..]);
    }
  }

  lemma MarkKeeps(w: World, thread: nat)
    requires Inv(w)
    ensures Inv(Mark(w, thread))
  {
    var w' := Mark(w, thread);
    LogGrows(w.log, Spoke(thread));
    forall t ensures Rooted(w', t) && Current(w', t) {
      assert Rooted(w, t) && Current(w, t);
      assert At(w', t) == if t in w.streams then MarkOne(t, w.streams[t], thread) else FRESH;
    }
  }

  lemma HandleKeeps(w: World, e: Event)
    requires Inv(w)
    ensures Inv(Handle(w, e))
  {
    hide Inv;
    match e
    case Artifact(t, text, last) =>
      CloseIfStaleKeeps(w, t);
      AppendKeeps(CloseIfStale(w, t), t, text);
      var w1 := Append(CloseIfStale(w, t), t, text);
      InvIsInvBut(w1, t);
      CloseKeeps(w1, t);
    case Activity(t, cards) =>
      CloseIfStaleKeeps(w, t);
      DrawAllKeeps(CloseIfStale(w, t), t, cards);
    case Terminal(t) =>
      InvIsInvBut(w, t);
      CloseKeeps(w, t);
      ForgetKeeps(Close(w, t), t);
    case Human(thread) =>
      MarkKeeps(w, thread);
  }

  lemma ForgetKeeps(w: World, t: Task)
    requires InvBut(w, t) && At(w, t).message == None
    ensures Inv(w.(streams := w.streams - {t}))
  {
    var w' := w.(streams := w.streams - {t});
    forall t' ensures Rooted(w', t') && Current(w', t') {
      assert Rooted(w, t') && (t' != t ==> Current(w, t'));
    }
  }

  lemma {:induction false} RunKeeps(w: World, events: seq<Event>)
    requires Inv(w)
    ensures Inv(RunAll(w, events))
    decreases |events|
  {
    hide Inv, Handle;
    if events != [] {
      HandleKeeps(w, events[0]);
      RunKeeps(Handle(w, events[0]), events[1..]);
    }
  }

  // ------------------------------------------------------------- what it means

  lemma {:induction false} SafePrefix(log: seq<Call>, n: nat)
    requires Safe(log) && n <= |log|
    ensures Safe(log[..n])
    decreases |log|
  {
    if n < |log| {
      assert log[..|log| - 1][..n] == log[..n];
      SafePrefix(log[..|log| - 1], n);
    } else {
      assert log[..n] == log;
    }
  }

  lemma {:induction false} SpokenSince(log: seq<Call>, m: Message, j: nat)
    requires j < |log| && log[j] == Spoke(m.task.thread)
    requires forall k :: j < k < |log| ==> log[k] != Opened(m)
    ensures SpokenBelow(log, m)
    decreases |log|
  {
    if j < |log| - 1 {
      SpokenSince(log[..|log| - 1], m, j);
    }
  }

  /** In the log itself: once a person has spoken below a message, no answer text and no card goes to it. */
  ghost predicate NothingAbove(log: seq<Call>) {
    forall i, j, k ::
      (&& 0 <= i < j < k < |log|
       && log[i].Opened? && log[j] == Spoke(log[i].message.task.thread)
       && (log[k].Answer? || log[k].Drawn?))
      ==> log[k].message != log[i].message
  }

  lemma SafeAt(log: seq<Call>, k: nat)
    requires Safe(log) && k < |log|
    ensures SafeCall(log[..k], log[k])
  {
    SafePrefix(log, k + 1);
    assert log[..k + 1][..k] == log[..k];
  }

  lemma OpenedOnce(log: seq<Call>, i: nat, l: nat)
    requires Safe(log) && i < l < |log| && log[i].Opened?
    ensures log[l] != log[i]
  {
    SafeAt(log, l);
    assert log[..l][i] == log[i];
  }

  lemma NotAbove(log: seq<Call>, i: nat, j: nat, k: nat)
    requires Safe(log) && i < j < k < |log|
    requires log[i].Opened? && log[j] == Spoke(log[i].message.task.thread)
    requires log[k].Answer? || log[k].Drawn?
    ensures log[k].message != log[i].message
  {
    var before := log[..k];
    SafeAt(log, k);
    forall l | j < l < |before| ensures before[l] != Opened(log[i].message) {
      OpenedOnce(log, i, l);
    }
    SpokenSince(before, log[i].message, j);
  }

  lemma SafeMeans(log: seq<Call>)
    requires Safe(log)
    ensures NothingAbove(log)
  {
    forall i: nat, j: nat, k: nat |
      (&& i < j < k < |log|
       && log[i].Opened? && log[j] == Spoke(log[i].message.task.thread)
       && (log[k].Answer? || log[k].Drawn?))
      ensures log[k].message != log[i].message
    {
      NotAbove(log, i, j, k);
    }
  }

  lemma IdleInv(budget: int)
    ensures Inv(Idle(budget))
  {
  }

  /**
    Over every run, with any number of tasks and people: no answer text and no card is
    appended to a streamed message opened before the last person to speak in its thread.
   */
  lemma NothingAboveAPerson(budget: int, events: seq<Event>)
    ensures NothingAbove(RunAll(Idle(budget), events).log)
  {
    hide NothingAbove, RunAll, Idle;
    IdleInv(budget);
    RunKeeps(Idle(budget), events);
    SafeMeans(RunAll(Idle(budget), events).log) by { InvSafe(RunAll(Idle(budget), events)); }
  }

  /**
    Over every run: a stream is marked for the cut exactly when a person has spoken in its own
    thread since its open message was opened.
   */
  lemma MarkedIffSpokenBelow(budget: int, events: seq<Event>, t: Task)
    ensures var w := RunAll(Idle(budget), events);
            && (At(w, t).stale <==> At(w, t).message.Some? && SpokenBelow(w.log, At(w, t).message.value))
            && (At(w, t).message.Some? ==> At(w, t).message.value.task == t)
  {
    hide RunAll, Idle, SpokenBelow;
    IdleInv(budget);
    RunKeeps(Idle(budget), events);
    var w := RunAll(Idle(budget), events);
    InvCurrent(w, t);
    InvRooted(w, t);
  }

  lemma InvRooted(w: World, t: Task)
    requires Inv(w)
    ensures Rooted(w, t)
  {
  }

  lemma InvSafe(w: World)
    requires Inv(w)
    ensures Safe(w.log)
  {
  }
}
