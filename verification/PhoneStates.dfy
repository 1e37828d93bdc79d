/** Where a call stands, and what of the keys pressed at the gate is put to the test, over a whole call. */
module PhoneStates {
  import opened Options
  import opened PhoneCall

  // ------------------------------------------------------------- entries

  /** The keys pressed at the gate. */
  function GateKeys(c: Call, events: seq<Event>, p: Policy): string
    decreases |events|
  {
    if events == [] then ""
    else
      (if c.state == Authenticating && events[0].Key? then [events[0].digit] else "")
      + GateKeys(Next(c, events[0], p), events[1..], p)
  }

  /** Keys read as entries: eight digits make one, or fewer and then `#` or `*`; and what is begun of the next. */
  function Entries(keys: string): (seq<string>, string)
    decreases |keys|
  {
    if keys == "" then ([], "")
    else
      var (done, begun) := Entries(keys[..|keys| - 1]);
      var key := keys[|keys| - 1];
      if key in {'#', '*'} then (if begun == "" then (done, "") else (done + [begun], ""))
      else if |begun| == 7 then (done + [begun + [key]], "")
      else (done, begun + [key])
  }

  function Tested(log: seq<Out>): seq<string> {
    if log == [] then []
    else Tested(log[..|log| - 1]) + (if log[|log| - 1].Verified? then [log[|log| - 1].digits] else [])
  }

  lemma EntriesThen(keys: string, key: char)
    ensures Entries(keys + [key]) ==
              var (done, begun) := Entries(keys);
              if key in {'#', '*'} then (if begun == "" then (done, "") else (done + [begun], ""))
              else if |begun| == 7 then (done + [begun + [key]], "")
              else (done, begun + [key])
    ensures |Entries(keys).1| <= 7
  {
    assert (keys + [key])[..|keys|] == keys;
    ShortBegun(keys);
  }

  lemma {:induction false} ShortBegun(keys: string)
    ensures |Entries(keys).1| <= 7
    decreases |keys|
  {
    if keys != "" { ShortBegun(keys[..|keys| - 1]); }
  }

  lemma TestedThen(log: seq<Out>, out: Out)
    ensures Tested(log + [out]) == Tested(log) + (if out.Verified? then [out.digits] else [])
  {
    assert (log + [out])[..|log|] == log;
  }

  // ------------------------------------------------------------- states

  /** The test that a key brings on, if it does. */
  function TestAt(c: Call, e: Event): Option<string> {
    if c.state != Authenticating || !e.Key? then None
    else if e.digit in {'#', '*'} then (if c.pin == "" then None else Some(c.pin))
    else if |c.pin| >= 7 then Some(c.pin + [e.digit])
    else None
  }

  /** What a choice of agent leads to. */
  function Chooses(choice: Choice): CallState {
    if choice.Connect? then Connected else Choosing
  }

  /** Where an event takes the call; a failed test is the last when as many have failed as may. */
  function Goes(c: Call, e: Event, p: Policy): CallState {
    match e
    case Hangup => Ending
    case Setup(listed, locked) =>
      if c.state != Idle then c.state else if listed && !locked then Authenticating else Ending
    case Key(_) =>
      var test := TestAt(c, e);
      if test.None? then c.state
      else if p.verify(test.value) then Choosing
      else if c.attempts + 1 >= p.maxAttempts then Ending
      else Authenticating
    case Speech(_, final, choice, meaning) =>
      if !final then c.state
      else if c.state == Choosing then Chooses(choice)
      else if c.state == Connected then
        (if meaning.Goodbye? then Ending else if meaning.Switch? then Chooses(meaning.choice) else Connected)
      else c.state
    case _ => c.state
  }

  /** An event takes the call where it should, and tests what it should. */
  predicate RightStep(c: Call, e: Event, p: Policy, c': Call) {
    && c'.state == Goes(c, e, p)
    && Tested(c'.log) == Tested(c.log) + (if TestAt(c, e).Some? then [TestAt(c, e).value] else [])
    && c'.pin == if c.state == Authenticating && e.Key?
                 then (if TestAt(c, e).Some? || e.digit in {'#', '*'} then "" else c.pin + [e.digit])
                 else c.pin
  }

  /** Logging what is no test changes nothing here. */
  predicate NoTest(c: Call, c': Call) {
    Tested(c'.log) == Tested(c.log) && c'.pin == c.pin
  }

  lemma Logged(c: Call, out: Out)
    requires !out.Verified?
    ensures NoTest(c, Logs(c, out)) && Logs(c, out).state == c.state
  {
    TestedThen(c.log, out);
    assert Tested(c.log) + [] == Tested(c.log);
  }

  lemma SilencedTests(c: Call)
    ensures NoTest(c, Silenced(c)) && Silenced(c).state == c.state
  {
    hide Tested;
    if HasTurn(c) && !c.turns[|c.turns| - 1].dropped && c.turns[|c.turns| - 1].task.Some? {
      Logged(c, Cancelled(c.turns[|c.turns| - 1].task.value));
    }
  }

  lemma StartTests(c: Call, kind: Kind, body: string)
    ensures NoTest(c, StartTurn(c, kind, body)) && StartTurn(c, kind, body).state == c.state
  {
    hide Tested, Silenced;
    SilencedTests(c);
    Logged(Silenced(c), Opened(|Silenced(c).turns|, kind, body));
  }

  lemma ChosenTests(c: Call, choice: Choice)
    ensures NoTest(c, Chosen(c, choice))
    ensures Chosen(c, choice).state == if choice.Connect? then Connected else c.state
  {
    hide Tested;
    Logged(c, Prompt);
    Logged(Logs(c, Prompt), Prompt);
    Logged(Logs(Logs(c, Prompt), Prompt), Opened(|c.turns|, Resubscribed, ""));
  }

  lemma SpeechTests(c: Call, e: Event, p: Policy)
    requires e.Speech?
    ensures NoTest(c, OnSpeech(c, e)) && OnSpeech(c, e).state == Goes(c, e, p)
  {
    hide Tested, StartTurn, Chosen;
    if e.final && c.state == Choosing {
      ChosenTests(c, e.choice);
    } else if e.final && c.state == Connected {
      match e.meaning
      case Goodbye =>
        Logged(c, Prompt);
        Logged(Logs(c, Prompt), EndSession);
      case Switch(choice) => ChosenTests(Ends(c).(state := Choosing), choice);
      case Answered => Logged(c, Prompt);
      case Said => StartTests(c, Voice, e.text);
    }
  }

  lemma CheckedTests(c: Call, p: Policy)
    ensures var c' := Checked(c, p);
            && Tested(c'.log) == Tested(c.log) + [c.pin] && c'.pin == ""
            && (c.state == Authenticating ==>
                  c'.state == if p.verify(c.pin) then Choosing
                              else if c.attempts + 1 >= p.maxAttempts then Ending else Authenticating)
  {
    hide Tested;
    var out := Verified(c.pin, p.verify(c.pin));
    TestedThen(c.log, out);
    var c1 := Logs(c.(pin := ""), out);
    Logged(c1, Prompt);
    Logged(c1, FailedCall);
    Logged(Logs(c1, FailedCall), Prompt);
    Logged(Logs(Logs(c1, FailedCall), Prompt), EndSession);
  }

  lemma KeyTests(c: Call, digit: char, p: Policy)
    requires |c.pin| <= 7
    ensures RightStep(c, Key(digit), p, OnKey(c, digit, p))
  {
    hide Tested, Checked;
    assert Tested(c.log) + [] == Tested(c.log);
    CheckedTests(c, p);
    CheckedTests(c.(pin := c.pin + [digit], typed := c.typed + [digit]), p);
  }

  lemma NextIsRight(c: Call, e: Event, p: Policy)
    requires |c.pin| <= 7
    ensures RightStep(c, e, p, Next(c, e, p))
  {
    hide Tested, Emitted, StartTurn, OnSpeech, OnKey, Silenced;
    assert Tested(c.log) + [] == Tested(c.log);
    match e
    case Setup(_, _) => Logged(c.(state := Ending), EndSession);
    case Key(digit) => KeyTests(c, digit, p);
    case Speech(_, _, _, _) => SpeechTests(c, e, p);
    case Interrupt => SilencedTests(c);
    case TurnEmits(k, event) => if k < |c.turns| { EmitsNoTest(c, k, event); }
    case TurnEnds(k, failed) => Logged(c, Prompt);
    case KeysFlushed => StartTests(c.(keys := "", flush := false), Dtmf, c.keys);
    case Hangup =>
  }

  lemma EmitsNoTest(c: Call, k: nat, event: TurnEvent)
    requires k < |c.turns|
    ensures Tested(c.log + Emitted(c.turns[k], k, event).1) == Tested(c.log)
  {
    hide Tested;
    var out := Emitted(c.turns[k], k, event).1;
    if out == [] {
      assert c.log + out == c.log;
    } else {
      assert out == [out[0]];
      TestedThen(c.log, out[0]);
      assert Tested(c.log) + [] == Tested(c.log);
    }
  }

  // ------------------------------------------------------------- what the bridge itself says

  /** What is said and done for the bridge's own part, not the agent's. */
  function OwnOut(o: Out): seq<Out> {
    if o.Prompt? || o.FailedCall? || o.EndSession? then [o] else []
  }

  function Own(log: seq<Out>): seq<Out> {
    if log == [] then [] else Own(log[..|log| - 1]) + OwnOut(log[|log| - 1])
  }

  /** A choice is asked again or confirmed, and a task picked up announced. */
  function ChoiceSays(choice: Choice): seq<Out> {
    if choice.Connect? && choice.running.Some? then [Prompt, Prompt] else [Prompt]
  }

  /**
    A caller turned away is hung up on; an entry is answered, and the last that fails is recorded
    and ends the call; a goodbye is returned and ends it; and a turn that fails while it is heard is
    apologized for.
   */
  function Says(c: Call, e: Event, p: Policy): seq<Out> {
    match e
    case Setup(listed, locked) => if c.state == Idle && (!listed || locked) then [EndSession] else []
    case Key(_) =>
      var test := TestAt(c, e);
      if test.None? then []
      else if !p.verify(test.value) && c.attempts + 1 >= p.maxAttempts then [FailedCall, Prompt, EndSession]
      else [Prompt]
    case Speech(_, final, choice, meaning) =>
      if !final then []
      else if c.state == Choosing then ChoiceSays(choice)
      else if c.state != Connected then []
      else
        (match meaning
         case Goodbye => [Prompt, EndSession]
         case Switch(to) => ChoiceSays(to)
         case Answered => [Prompt]
         case Said => [])
    case TurnEnds(k, failed) =>
      if k < |c.turns| && !c.turns[k].over && !c.turns[k].dropped && failed then [Prompt] else []
    case _ => []
  }

  lemma OwnThen(log: seq<Out>, o: Out)
    ensures Own(log + [o]) == Own(log) + OwnOut(o)
  {
    assert (log + [o])[..|log|] == log;
  }

  lemma OwnPrompts(log: seq<Out>)
    ensures Own(log + [Prompt]) == Own(log) + [Prompt]
    ensures Own((log + [Prompt]) + [Prompt]) == Own(log) + [Prompt, Prompt]
    ensures Own((log + [Prompt]) + [EndSession]) == Own(log) + [Prompt, EndSession]
    ensures Own(log + [EndSession]) == Own(log) + [EndSession]
    ensures Own(((log + [FailedCall]) + [Prompt]) + [EndSession]) == Own(log) + [FailedCall, Prompt, EndSession]
    ensures Own(log) + [] == Own(log)
  {
    hide Own;
    OwnThen(log, Prompt);
    OwnThen(log + [Prompt], Prompt);
    OwnThen(log + [Prompt], EndSession);
    OwnThen(log, EndSession);
    OwnThen(log, FailedCall);
    OwnThen(log + [FailedCall], Prompt);
    OwnThen((log + [FailedCall]) + [Prompt], EndSession);
  }

  lemma SilencedOwn(c: Call)
    ensures Own(Silenced(c).log) == Own(c.log)
  {
    hide Own;
    if HasTurn(c) && !c.turns[|c.turns| - 1].dropped && c.turns[|c.turns| - 1].task.Some? {
      OwnThen(c.log, Cancelled(c.turns[|c.turns| - 1].task.value));
      assert Own(c.log) + [] == Own(c.log);
    }
  }

  lemma StartOwn(c: Call, kind: Kind, body: string)
    ensures Own(StartTurn(c, kind, body).log) == Own(c.log)
  {
    hide Own, Silenced;
    SilencedOwn(c);
    OwnThen(Silenced(c).log, Opened(|Silenced(c).turns|, kind, body));
    assert Own(c.log) + [] == Own(c.log);
  }

  lemma ChosenOwn(c: Call, choice: Choice)
    ensures Own(Chosen(c, choice).log) == Own(c.log) + ChoiceSays(choice)
  {
    hide Own;
    OwnPrompts(c.log);
    OwnThen((c.log + [Prompt]) + [Prompt], Opened(|c.turns|, Resubscribed, ""));
    assert Own((c.log + [Prompt]) + [Prompt]) + [] == Own((c.log + [Prompt]) + [Prompt]);
  }

  lemma CheckedOwn(c: Call, p: Policy)
    ensures Own(Checked(c, p).log) == Own(c.log) +
              (if !p.verify(c.pin) && c.attempts + 1 >= p.maxAttempts then [FailedCall, Prompt, EndSession]
               else [Prompt])
  {
    hide Own;
    var log1 := c.log + [Verified(c.pin, p.verify(c.pin))];
    OwnThen(c.log, Verified(c.pin, p.verify(c.pin)));
    assert Own(c.log) + [] == Own(c.log);
    OwnPrompts(log1);
  }

  lemma KeyOwn(c: Call, digit: char, p: Policy)
    requires |c.pin| <= 7
    ensures Own(OnKey(c, digit, p).log) == Own(c.log) + Says(c, Key(digit), p)
  {
    hide Own, Checked;
    assert Own(c.log) + [] == Own(c.log);
    CheckedOwn(c, p);
    CheckedOwn(c.(pin := c.pin + [digit], typed := c.typed + [digit]), p);
  }

  lemma SpeechOwn(c: Call, e: Event, p: Policy)
    requires e.Speech?
    ensures Own(OnSpeech(c, e).log) == Own(c.log) + Says(c, e, p)
  {
    hide Own, StartTurn, Chosen;
    OwnPrompts(c.log);
    if e.final && c.state == Choosing {
      ChosenOwn(c, e.choice);
    } else if e.final && c.state == Connected {
      match e.meaning
      case Switch(choice) => ChosenOwn(Ends(c).(state := Choosing), choice);
      case Said => StartOwn(c, Voice, e.text);
      case _ =>
    }
  }

  lemma EmitsOwn(c: Call, k: nat, event: TurnEvent)
    requires k < |c.turns|
    ensures Own(c.log + Emitted(c.turns[k], k, event).1) == Own(c.log)
  {
    hide Own;
    var out := Emitted(c.turns[k], k, event).1;
    if out == [] {
      assert c.log + out == c.log;
    } else {
      assert out == [out[0]];
      OwnThen(c.log, out[0]);
      assert Own(c.log) + [] == Own(c.log);
    }
  }

  /** What the bridge says of an event is what there is to say, no more and no less. */
  lemma SaysExactly(c: Call, e: Event, p: Policy)
    requires |c.pin| <= 7
    ensures Own(Next(c, e, p).log) == Own(c.log) + Says(c, e, p)
  {
    hide Own, Emitted, StartTurn, OnSpeech, OnKey, Silenced;
    OwnPrompts(c.log);
    match e
    case Key(digit) => KeyOwn(c, digit, p);
    case Speech(_, _, _, _) => SpeechOwn(c, e, p);
    case Interrupt => SilencedOwn(c);
    case TurnEmits(k, event) => if k < |c.turns| { EmitsOwn(c, k, event); }
    case KeysFlushed => StartOwn(c.(keys := "", flush := false), Dtmf, c.keys);
    case _ =>
  }

  // ------------------------------------------------------------- whole calls

  lemma {:induction false} RunTests(c: Call, events: seq<Event>, p: Policy, keys: string)
    requires (Tested(c.log), c.pin) == Entries(keys)
    ensures var c' := RunFrom(c, events, p); (Tested(c'.log), c'.pin) == Entries(keys + GateKeys(c, events, p))
    decreases |events|
  {
    hide Next, Tested, Entries;
    if events == [] {
      assert keys + "" == keys;
    } else {
      var e, rest := events[0], events[1..];
      ShortBegun(keys);
      NextIsRight(c, e, p);
      var pressed := if c.state == Authenticating && e.Key? then [e.digit] else "";
      if pressed != "" { EntriesThen(keys, e.digit); }
      assert keys + "" == keys && Tested(c.log) + [] == Tested(c.log);
      RunTests(Next(c, e, p), rest, p, keys + pressed);
      assert (keys + pressed) + GateKeys(Next(c, e, p), rest, p) == keys + GateKeys(c, events, p);
    }
  }

  /**
    Over every call: what is put to the test are the entries that the keys pressed at the gate
    make, no more and no fewer.
   */
  lemma TestedExactly(events: seq<Event>, p: Policy)
    ensures var c := RunFrom(Start, events, p);
            (Tested(c.log), c.pin) == Entries(GateKeys(Start, events, p))
  {
    hide RunFrom, GateKeys;
    assert Tested([]) == [] && Entries("") == ([], "");
    RunTests(Start, events, p, "");
    assert "" + GateKeys(Start, events, p) == GateKeys(Start, events, p);
  }

  /** Over every call: each event takes it where the state it is in allows, and the bridge says what there is to say. */
  lemma GoesExactly(events: seq<Event>, e: Event, p: Policy)
    ensures var c := RunFrom(Start, events, p);
            Next(c, e, p).state == Goes(c, e, p) && Own(Next(c, e, p).log) == Own(c.log) + Says(c, e, p)
  {
    hide RunFrom, Next, GateKeys, Tested, Entries, Own;
    TestedExactly(events, p);
    ShortBegun(GateKeys(Start, events, p));
    NextIsRight(RunFrom(Start, events, p), e, p);
    SaysExactly(RunFrom(Start, events, p), e, p);
  }
}
