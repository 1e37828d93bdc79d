/**
  What opens, drops and cancels an agent's turns over a call: a turn is dropped only by something
  newer or the call's going elsewhere, and its task is cancelled only where the caller speaks over it.
 */
module PhoneTurns {
  import opened Options
  import opened PhoneCall
  import opened PhoneSpeech

  // ------------------------------------------------------------- what the caller does

  /** The caller speaks over the agent: by an interruption, an utterance for it, or keys. */
  predicate SpeaksOver(c: Call, e: Event) {
    c.state == Connected &&
    match e
    case Interrupt => true
    case Speech(_, final, _, meaning) => final && meaning.Said?
    case KeysFlushed => c.flush && c.keys != ""
    case _ => false
  }

  /** The call leaves the agent: to another, or for good. */
  predicate Leaves(c: Call, e: Event) {
    e.Hangup? || (c.state == Connected && e.Speech? && e.final && (e.meaning.Goodbye? || e.meaning.Switch?))
  }

  predicate Live(t: Turn) { !t.over && !t.dropped }

  /** The tasks of the live turns whose task is known: there is one such turn at most. */
  function LiveTasks(turns: seq<Turn>): seq<string> {
    if turns == [] then []
    else
      var t := turns[|turns| - 1];
      LiveTasks(turns[..|turns| - 1]) + (if Live(t) && t.task.Some? then [t.task.value] else [])
  }

  /** The tasks cancelled, in order. */
  function Cancels(log: seq<Out>): seq<string> {
    if log == [] then []
    else Cancels(log[..|log| - 1]) + (if log[|log| - 1].Cancelled? then [log[|log| - 1].task] else [])
  }

  /** The turns opened, in order. */
  function Begun(log: seq<Out>): seq<Out> {
    if log == [] then []
    else Begun(log[..|log| - 1]) + (if log[|log| - 1].Opened? then [log[|log| - 1]] else [])
  }

  /** The turn that an event opens: what the caller says or keys, or a task still running at an agent chosen. */
  function BeginsAt(c: Call, e: Event): seq<Out> {
    var n := |c.turns|;
    match e
    case Speech(text, true, choice, meaning) =>
      if c.state == Choosing then Resumes(n, choice)
      else if c.state == Connected && meaning.Said? then [Opened(n, Voice, text)]
      else if c.state == Connected && meaning.Switch? then Resumes(n, meaning.choice)
      else []
    case KeysFlushed => if c.flush && c.keys != "" && c.state == Connected then [Opened(n, Dtmf, c.keys)] else []
    case _ => []
  }

  function Resumes(n: nat, choice: Choice): seq<Out> {
    if choice.Connect? && choice.running.Some? then [Opened(n, Resubscribed, "")] else []
  }

  lemma LogCounts(log: seq<Out>, out: Out)
    ensures Cancels(log + [out]) == Cancels(log) + (if out.Cancelled? then [out.task] else [])
    ensures Begun(log + [out]) == Begun(log) + (if out.Opened? then [out] else [])
  {
    assert (log + [out])[..|log|] == log;
  }

  // ------------------------------------------------------------- one event

  /** What an event makes of a turn: one that was live may be dropped, and no other. */
  predicate TurnKept(t: Turn, u: Turn, drops: bool) {
    && (u.dropped <==> t.dropped || (drops && Live(t)))
    && (t.over ==> u.over)
    && (t.dropped ==> u.heard == t.heard)
  }

  predicate TurnsKept(c: Call, c': Call, drops: bool) {
    |c.turns| <= |c'.turns| && forall k | 0 <= k < |c.turns| :: TurnKept(c.turns[k], c'.turns[k], drops)
  }

  /** The log has grown by these cancellations and turns, as far as those go. */
  predicate Grew(c: Call, c': Call, cancelled: seq<string>, begun: seq<Out>) {
    Cancels(c'.log) == Cancels(c.log) + cancelled && Begun(c'.log) == Begun(c.log) + begun
  }

  lemma Nothing(c: Call, c': Call)
    requires c'.log == c.log
    ensures Grew(c, c', [], [])
  {
    assert Cancels(c.log) + [] == Cancels(c.log) && Begun(c.log) + [] == Begun(c.log);
  }

  lemma {:induction false} NoLiveTasks(turns: seq<Turn>)
    requires forall k | 0 <= k < |turns| :: !Live(turns[k])
    ensures LiveTasks(turns) == []
    decreases |turns|
  {
    if turns != [] { NoLiveTasks(turns[..|turns| - 1]); }
  }

  /** With one voice at a time, only the newest turn can be live. */
  lemma LiveIsNewest(c: Call)
    requires OneVoice(c) && c.turns != []
    ensures var t := c.turns[|c.turns| - 1];
            LiveTasks(c.turns) == if Live(t) && t.task.Some? then [t.task.value] else []
  {
    NoLiveTasks(c.turns[..|c.turns| - 1]);
  }

  lemma SilencedTurns(c: Call)
    requires OneVoice(c)
    ensures TurnsKept(c, Silenced(c), true) && Grew(c, Silenced(c), LiveTasks(c.turns), [])
    ensures |Silenced(c).turns| == |c.turns|
  {
    hide Cancels, Begun, LiveTasks;
    if c.turns == [] {
      NoLiveTasks(c.turns);
      Nothing(c, c);
    } else {
      LiveIsNewest(c);
      var t := c.turns[|c.turns| - 1];
      if Live(t) && t.task.Some? {
        LogCounts(c.log, Cancelled(t.task.value));
        assert Begun(c.log) + [] == Begun(c.log);
      } else {
        Nothing(c, Silenced(c));
      }
    }
  }

  lemma EndsTurns(c: Call)
    requires OneVoice(c)
    ensures var c' := Ends(c);
            && |c'.turns| == |c.turns| && c'.log == c.log
            && (c.state != Ending ==> TurnsKept(c, c', true)) && (c.state == Ending ==> c' == c)
  {
  }

  lemma ChosenTurns(c: Call, choice: Choice)
    ensures TurnsKept(c, Chosen(c, choice), false) && Grew(c, Chosen(c, choice), [], Resumes(|c.turns|, choice))
  {
    hide Cancels, Begun;
    LogCounts(c.log, Prompt);
    LogCounts(c.log + [Prompt], Prompt);
    LogCounts((c.log + [Prompt]) + [Prompt], Opened(|c.turns|, Resubscribed, ""));
    assert Cancels(c.log) + [] == Cancels(c.log) && Begun(c.log) + [] == Begun(c.log);
  }

  lemma OpensTurns(c: Call, kind: Kind, body: string)
    ensures var c' := Opens(c, kind, body, None);
            TurnsKept(c, c', false) && Grew(c, c', [], [Opened(|c.turns|, kind, body)])
  {
    hide Cancels, Begun;
    LogCounts(c.log, Opened(|c.turns|, kind, body));
    assert Cancels(c.log) + [] == Cancels(c.log);
  }

  /** The event drops, cancels and opens just what it should. */
  ghost predicate Right(c: Call, e: Event, c': Call) {
    && TurnsKept(c, c', SpeaksOver(c, e) || (Leaves(c, e) && c.state != Ending))
    && Grew(c, c', if SpeaksOver(c, e) then LiveTasks(c.turns) else [], BeginsAt(c, e))
  }

  lemma StartTurns(c: Call, kind: Kind, body: string)
    requires OneVoice(c)
    ensures var c' := StartTurn(c, kind, body);
            TurnsKept(c, c', true) && Grew(c, c', LiveTasks(c.turns), [Opened(|c.turns|, kind, body)])
  {
    hide Cancels, Begun, LiveTasks, Silenced;
    SilencedTurns(c);
    OpensTurns(Silenced(c), kind, body);
    assert LiveTasks(c.turns) + [] == LiveTasks(c.turns);
  }

  lemma SpeechTurns(c: Call, e: Event)
    requires OneVoice(c) && e.Speech?
    ensures Right(c, e, OnSpeech(c, e))
  {
    hide Cancels, Begun, LiveTasks, StartTurn, Chosen, Ends;
    Nothing(c, c);
    if e.final && c.state == Choosing {
      ChosenTurns(c, e.choice);
    } else if e.final && c.state == Connected {
      match e.meaning
      case Goodbye =>
        Prompts(c);
        var c1 := Logs(Logs(c, Prompt), EndSession);
        EndsTurns(c1);
      case Switch(choice) =>
        EndsTurns(c);
        ChosenTurns(Ends(c).(state := Choosing), choice);
      case Answered => Prompts(c);
      case Said => StartTurns(c, Voice, e.text);
    }
  }

  lemma Prompts(c: Call)
    ensures Grew(c, Logs(c, Prompt), [], []) && Grew(c, Logs(Logs(c, Prompt), EndSession), [], [])
  {
    hide Cancels, Begun;
    LogCounts(c.log, Prompt);
    LogCounts(c.log + [Prompt], EndSession);
    assert Cancels(c.log) + [] == Cancels(c.log) && Begun(c.log) + [] == Begun(c.log);
  }

  lemma CheckedTurns(c: Call, p: Policy)
    ensures Checked(c, p).turns == c.turns && Grew(c, Checked(c, p), [], [])
  {
    hide Cancels, Begun;
    var log1 := c.log + [Verified(c.pin, p.verify(c.pin))];
    LogCounts(c.log, Verified(c.pin, p.verify(c.pin)));
    LogCounts(log1, Prompt);
    LogCounts(log1, FailedCall);
    LogCounts(log1 + [FailedCall], Prompt);
    LogCounts((log1 + [FailedCall]) + [Prompt], EndSession);
    assert Cancels(c.log) + [] == Cancels(c.log) && Begun(c.log) + [] == Begun(c.log);
  }

  lemma KeyTurns(c: Call, digit: char, p: Policy)
    ensures OnKey(c, digit, p).turns == c.turns && Grew(c, OnKey(c, digit, p), [], [])
  {
    hide Cancels, Begun, Checked;
    Nothing(c, c);
    CheckedTurns(c, p);
    var c' := c.(pin := c.pin + [digit], typed := c.typed + [digit]);
    CheckedTurns(c', p);
    if c.state == Authenticating {
      if !Terminator(digit) && |c'.pin| < PIN_LENGTH { Nothing(c, c'); }
    } else if c.state == Connected {
      Nothing(c, OnKey(c, digit, p));
    }
  }

  lemma EmitsTurns(c: Call, k: nat, event: TurnEvent)
    requires k < |c.turns|
    ensures var (t, out) := Emitted(c.turns[k], k, event);
            && t.dropped == c.turns[k].dropped && t.over == c.turns[k].over
             && (t.dropped ==> t.heard == c.turns[k].heard)
            && Cancels(c.log + out) == Cancels(c.log) && Begun(c.log + out) == Begun(c.log)
  {
    hide Cancels, Begun;
    var out := Emitted(c.turns[k], k, event).1;
    SaysOnlyIts(c.turns[k].speaking, k, event);
    hide Hear;
    if out == [] {
      assert c.log + out == c.log;
    } else {
      assert out == [out[0]];
      LogCounts(c.log, out[0]);
    }
  }

  lemma NextIsRight(c: Call, e: Event, p: Policy)
    requires OneVoice(c)
    ensures Right(c, e, Next(c, e, p))
  {
    match e
    case Key(digit) =>
      hide Cancels, Begun, LiveTasks, OnKey;
      KeyTurns(c, digit, p);
    case Speech(_, _, _, _) =>
      hide Cancels, Begun, LiveTasks, OnSpeech;
      SpeechTurns(c, e);
    case TurnEmits(k, event) =>
      hide Cancels, Begun, LiveTasks, Emitted;
      if k < |c.turns| && !c.turns[k].over { EmitsTurns(c, k, event); }
      assert Cancels(c.log) + [] == Cancels(c.log) && Begun(c.log) + [] == Begun(c.log);
    case KeysFlushed =>
      hide Cancels, Begun, LiveTasks, StartTurn;
      FlushTurns(c, p);
    case _ =>
      hide Cancels, Begun, LiveTasks, Silenced, Ends;
      OtherTurns(c, e, p);
  }

  lemma FlushTurns(c: Call, p: Policy)
    requires OneVoice(c)
    ensures Right(c, KeysFlushed, Next(c, KeysFlushed, p))
  {
    hide Cancels, Begun, LiveTasks, StartTurn;
    var c1 := c.(keys := "", flush := false);
    Nothing(c, c);
    Nothing(c, c1);
    if c.flush && c.keys != "" && c.state == Connected { StartTurns(c1, Dtmf, c.keys); }
  }

  lemma OtherTurns(c: Call, e: Event, p: Policy)
    requires OneVoice(c) && (e.Setup? || e.Interrupt? || e.TurnEnds? || e.Hangup?)
    ensures Right(c, e, Next(c, e, p))
  {
    hide Cancels, Begun, LiveTasks, Silenced, Ends;
    Nothing(c, c);
    Prompts(c);
    LogCounts(c.log, EndSession);
    Nothing(c, Next(c, e, p).(log := c.log));
    if e.Interrupt? { SilencedTurns(c); }
    if e.Hangup? {
      EndsTurns(c);
      Nothing(c, Ends(c));
    }
  }

  // ------------------------------------------------------------- what a turn knows

  /** The task a turn that is just opened already has: the one still running at the agent chosen. */
  function TaskAt(c: Call, e: Event): Option<string> {
    match e
    case Speech(_, true, choice, meaning) =>
      var chosen := if c.state == Connected && meaning.Switch? then meaning.choice else choice;
      if (c.state == Choosing || (c.state == Connected && meaning.Switch?)) && chosen.Connect? then chosen.running
      else None
    case _ => None
  }

  /** What a turn hears of an event. */
  function HeardOf(t: Turn, k: nat, e: Event): seq<TurnEvent> {
    if Live(t) && e.TurnEmits? && e.turn == k then [e.event] else []
  }

  /** A turn ends with its stream, learns its task from its own stream, and hears just that. */
  predicate Moves(t: Turn, u: Turn, k: nat, e: Event) {
    && (u.over <==> t.over || (e.TurnEnds? && e.turn == k))
    && u.heard == t.heard + HeardOf(t, k, e)
    && u.task == (if HeardOf(t, k, e) != [] && e.event.TaskStarted? then Some(e.event.task) else t.task)
  }

  predicate TurnsMove(c: Call, e: Event, c': Call) {
    && |c'.turns| == |c.turns| + |BeginsAt(c, e)|
    && (forall k | 0 <= k < |c.turns| :: Moves(c.turns[k], c'.turns[k], k, e))
    && (BeginsAt(c, e) != [] ==> c'.turns[|c.turns|] == NewTurn.(task := TaskAt(c, e)))
  }

  /** Dropping is no matter here. */
  predicate SameButDropped(turns: seq<Turn>, turns': seq<Turn>) {
    |turns'| == |turns| && forall k | 0 <= k < |turns| :: turns'[k] == turns[k].(dropped := turns'[k].dropped)
  }

  lemma DropsSame(c: Call)
    ensures SameButDropped(c.turns, Silenced(c).turns) && SameButDropped(c.turns, Ends(c).turns)
  {
  }

  lemma SameMoves(c: Call, e: Event, c': Call, more: seq<Turn>)
    requires !e.TurnEmits? && !e.TurnEnds? && |more| == |BeginsAt(c, e)|
    requires |c'.turns| >= |c.turns| && SameButDropped(c.turns, c'.turns[..|c.turns|])
    requires c'.turns[|c.turns|..] == more && (more != [] ==> more[0] == NewTurn.(task := TaskAt(c, e)))
    ensures TurnsMove(c, e, c')
  {
    hide BeginsAt, TaskAt;
    forall k | 0 <= k < |c.turns| ensures Moves(c.turns[k], c'.turns[k], k, e) {
      assert c'.turns[..|c.turns|][k] == c'.turns[k];
      assert c.turns[k].heard + [] == c.turns[k].heard;
    }
    if more != [] { assert c'.turns[|c.turns|..][0] == c'.turns[|c.turns|]; }
  }

  lemma OpenedMoves(c: Call, c1: Call, c': Call, t: Turn)
    requires SameButDropped(c.turns, c1.turns) && c'.turns == c1.turns + [t]
    ensures |c'.turns| >= |c.turns| && SameButDropped(c.turns, c'.turns[..|c.turns|]) && c'.turns[|c.turns|..] == [t]
  {
    assert c'.turns[..|c.turns|] == c1.turns;
  }

  lemma StayedMoves(c: Call, c': Call)
    requires SameButDropped(c.turns, c'.turns)
    ensures |c'.turns| >= |c.turns| && SameButDropped(c.turns, c'.turns[..|c.turns|]) && c'.turns[|c.turns|..] == []
  {
    assert c'.turns[..|c.turns|] == c'.turns;
  }

  lemma ChosenMoves(c: Call, c1: Call, choice: Choice)
    requires SameButDropped(c.turns, c1.turns)
    ensures var c' := Chosen(c1, choice);
            var more := if choice.Connect? && choice.running.Some? then [NewTurn.(task := choice.running)] else [];
            |c'.turns| >= |c.turns| && SameButDropped(c.turns, c'.turns[..|c.turns|]) && c'.turns[|c.turns|..] == more
  {
    if choice.Connect? && choice.running.Some? {
      OpenedMoves(c, c1, Chosen(c1, choice), NewTurn.(task := choice.running));
    } else {
      StayedMoves(c, Chosen(c1, choice));
    }
  }

  lemma StartMoves(c: Call, c1: Call, kind: Kind, body: string)
    requires c1.turns == c.turns
    ensures var c' := StartTurn(c1, kind, body);
            && |c'.turns| >= |c.turns| && SameButDropped(c.turns, c'.turns[..|c.turns|])
            && c'.turns[|c.turns|..] == [NewTurn]
  {
    hide Silenced;
    DropsSame(c1);
    OpenedMoves(c, Silenced(c1), StartTurn(c1, kind, body), NewTurn);
  }

  lemma SpeechMoves(c: Call, e: Event)
    requires e.Speech?
    ensures TurnsMove(c, e, OnSpeech(c, e))
  {
    hide StartTurn, Chosen, Ends, SameButDropped, TurnsMove;
    Unmoved(c);
    StayedMoves(c, OnSpeech(c, e).(turns := c.turns));
    if e.final && c.state == Choosing {
      ChosenMoves(c, c, e.choice);
      SameMoves(c, e, OnSpeech(c, e), OnSpeech(c, e).turns[|c.turns|..]);
    } else if e.final && c.state == Connected {
      match e.meaning
      case Goodbye =>
        var c1 := Logs(Logs(c, Prompt), EndSession);
        DropsSame(c1);
        StayedMoves(c, Ends(c1));
        SameMoves(c, e, Ends(c1), []);
      case Switch(choice) =>
        DropsSame(c);
        ChosenMoves(c, Ends(c).(state := Choosing), choice);
        SameMoves(c, e, OnSpeech(c, e), OnSpeech(c, e).turns[|c.turns|..]);
      case Answered => SameMoves(c, e, OnSpeech(c, e), []);
      case Said =>
        StartMoves(c, c, Voice, e.text);
        SameMoves(c, e, OnSpeech(c, e), [NewTurn]);
    } else {
      SameMoves(c, e, OnSpeech(c, e), []);
    }
  }

  lemma Unmoved(c: Call)
    ensures SameButDropped(c.turns, c.turns)
  {
  }

  /** Whatever happens, each turn ends, hears and learns what its own stream brings, and a new one starts afresh. */
  lemma TurnsMoveExactly(c: Call, e: Event, p: Policy)
    ensures TurnsMove(c, e, Next(c, e, p))
  {
    match e
    case Speech(_, _, _, _) =>
      hide OnSpeech, TurnsMove;
      SpeechMoves(c, e);
    case TurnEmits(k, event) =>
      hide Hear;
      EmitMoves(c, k, event, p);
    case TurnEnds(k, failed) =>
      assert forall t: Turn :: t.heard + [] == t.heard;
    case _ =>
      hide OnKey, StartTurn, Silenced, Ends, SameButDropped, TurnsMove;
      PlainMoves(c, e, p);
  }

  lemma EmitMoves(c: Call, k: nat, event: TurnEvent, p: Policy)
    ensures TurnsMove(c, TurnEmits(k, event), Next(c, TurnEmits(k, event), p))
  {
    hide Hear;
    assert forall t: Turn :: t.heard + [] == t.heard;
  }

  lemma PlainMoves(c: Call, e: Event, p: Policy)
    requires !e.Speech? && !e.TurnEmits? && !e.TurnEnds?
    ensures TurnsMove(c, e, Next(c, e, p))
  {
    hide OnKey, StartTurn, Silenced, Ends, SameButDropped, TurnsMove;
    var c' := Next(c, e, p);
    Unmoved(c);
    match e
    case Key(digit) =>
      KeyTurns(c, digit, p);
      StayedMoves(c, c');
      SameMoves(c, e, c', []);
    case KeysFlushed =>
      if c.flush && c.keys != "" && c.state == Connected {
        StartMoves(c, c.(keys := "", flush := false), Dtmf, c.keys);
        SameMoves(c, e, c', [NewTurn]);
      } else {
        StayedMoves(c, c');
        SameMoves(c, e, c', []);
      }
    case _ =>
      DropsSame(c);
      StayedMoves(c, c');
      SameMoves(c, e, c', []);
  }

  // ------------------------------------------------------------- whole calls

  /** All that has to be cancelled over a call. */
  function CancelsIn(c: Call, events: seq<Event>, p: Policy): seq<string>
    decreases |events|
  {
    if events == [] then []
    else
      (if SpeaksOver(c, events[0]) then LiveTasks(c.turns) else [])
      + CancelsIn(Next(c, events[0], p), events[1..], p)
  }

  function BeginsIn(c: Call, events: seq<Event>, p: Policy): seq<Out>
    decreases |events|
  {
    if events == [] then [] else BeginsAt(c, events[0]) + BeginsIn(Next(c, events[0], p), events[1..], p)
  }

  lemma {:induction false} RunIsRight(c: Call, events: seq<Event>, p: Policy)
    requires Inv(c)
    ensures var c' := RunFrom(c, events, p);
            Grew(c, c', CancelsIn(c, events, p), BeginsIn(c, events, p)) && OneVoice(c')
    decreases |events|
  {
    hide Next, Cancels, Begun, LiveTasks, Faithful, InTurn, KeysKept, Quiet, Dialled, OneVoice, SpeaksOver, BeginsAt;
    Nothing(c, c);
    if events != [] {
      NextIsRight(c, events[0], p);
      KeepsInv(c, events[0], p);
      RunIsRight(Next(c, events[0], p), events[1..], p);
    }
  }

  lemma StartIsRight()
    ensures Inv(Start) && Cancels(Start.log) == [] && Begun(Start.log) == []
  {
  }

  /**
    Over every call: a task is cancelled exactly when the caller speaks over the turn it is of, once
    and then; going to another agent or hanging up cancels none. And turns are opened exactly for
    what the caller says or keys to an agent, and for a task still running at one chosen.
   */
  lemma CancelledExactly(events: seq<Event>, p: Policy)
    ensures var c := RunFrom(Start, events, p);
            Cancels(c.log) == CancelsIn(Start, events, p) && Begun(c.log) == BeginsIn(Start, events, p)
  {
    hide RunFrom, CancelsIn, BeginsIn;
    StartIsRight();
    RunIsRight(Start, events, p);
  }

  /**
    Over every call: an event drops the live turn exactly when the caller speaks over it or the
    call leaves its agent.
   */
  lemma DroppedExactly(events: seq<Event>, p: Policy, e: Event, k: nat)
    requires k < |RunFrom(Start, events, p).turns|
    ensures var c, c' := RunFrom(Start, events, p), Next(RunFrom(Start, events, p), e, p);
            && |c.turns| <= |c'.turns|
            && (c'.turns[k].dropped <==>
                  c.turns[k].dropped ||
                  (Live(c.turns[k]) && (SpeaksOver(c, e) || (Leaves(c, e) && c.state != Ending))))
  {
    hide RunFrom, Next, SpeaksOver, Leaves, Faithful, InTurn, KeysKept, Quiet, Dialled, OneVoice, Grew;
    StartIsRight();
    RunIsRight(Start, events, p);
    NextIsRight(RunFrom(Start, events, p), e, p);
  }

  /** A dropped turn says no more, whatever comes. */
  lemma {:induction false} DroppedSaysNoMore(c: Call, events: seq<Event>, p: Policy, k: nat)
    requires Inv(c) && k < |c.turns| && c.turns[k].dropped
    ensures var c' := RunFrom(c, events, p);
            k < |c'.turns| && c'.turns[k].dropped && TokensOf(c'.log, k) == TokensOf(c.log, k)
    decreases |events|
  {
    hide Next, TokensOf, Inv;
    if events != [] {
      KeepsInv(c, events[0], p);
      StillSilent(c, events[0], p, k);
      DroppedSaysNoMore(Next(c, events[0], p), events[1..], p, k);
    }
  }

  lemma StillSilent(c: Call, e: Event, p: Policy, k: nat)
    requires Inv(c) && k < |c.turns| && c.turns[k].dropped
    ensures var c' := Next(c, e, p);
            k < |c'.turns| && c'.turns[k].dropped && TokensOf(c'.log, k) == TokensOf(c.log, k)
  {
    hide Next, TokensOf, InTurn, KeysKept, Quiet, Dialled, Right, HearAll;
    NextIsRight(c, e, p);
    RightKeeps(c, e, Next(c, e, p), k);
    KeepsInv(c, e, p);
    var c' := Next(c, e, p);
    assert (c'.turns[k].speaking, TokensOf(c'.log, k)) == HearAll(Silent, k, c'.turns[k].heard);
  }

  lemma RightKeeps(c: Call, e: Event, c': Call, k: nat)
    requires Right(c, e, c') && k < |c.turns| && c.turns[k].dropped
    ensures k < |c'.turns| && c'.turns[k].dropped && c'.turns[k].heard == c.turns[k].heard
  {
    hide Grew, SpeaksOver, Leaves;
  }
}
