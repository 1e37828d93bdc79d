/** Nothing behind the gate without a PIN that verified in this call, and only so many tries. */
module PhoneGate {
  import opened Options
  import opened PhoneCall

  predicate Passed(log: seq<Out>) {
    exists i :: 0 <= i < |log| && log[i].Verified? && log[i].ok
  }

  /** Entries that an agent's client had to be asked for. */
  predicate TouchesAgent(out: Out) {
    out.Token? || out.Opened? || out.Cancelled?
  }

  predicate OnlyAfterPassing(log: seq<Out>) {
    forall i | 0 <= i < |log| && TouchesAgent(log[i]) :: Passed(log[..i])
  }

  function Failures(log: seq<Out>): nat {
    if log == [] then 0 else
      Failures(log[..|log| - 1]) + (if log[|log| - 1].Verified? && !log[|log| - 1].ok then 1 else 0)
  }

  /** All the digits that were put to the test, in order. */
  function Entered(log: seq<Out>): string {
    if log == [] then "" else
      Entered(log[..|log| - 1]) + (if log[|log| - 1].Verified? then log[|log| - 1].digits else "")
  }

  /** Each test was of one to eight digits, and came out as the PIN says. */
  predicate Honest(log: seq<Out>, p: Policy) {
    forall i | 0 <= i < |log| :: FairTest(log[i], p)
  }

  predicate FairTest(out: Out, p: Policy) {
    out.Verified? ==> out.ok == p.verify(out.digits) && 1 <= |out.digits| <= PIN_LENGTH
  }

  function Tries(p: Policy): nat {
    if p.maxAttempts == 0 then 1 else p.maxAttempts
  }

  predicate Inside(state: CallState) {
    state == Choosing || state == Connected
  }

  ghost predicate Inv(c: Call, p: Policy) {
    && OnlyAfterPassing(c.log) && Honest(c.log, p)
    && Entered(c.log) + c.pin == c.typed && |c.pin| < PIN_LENGTH
    && (Inside(c.state) ==> c.admitted && Passed(c.log))
    && Failures(c.log) <= Tries(p)
    && (c.turns != [] ==> Passed(c.log))
    && (c.state == Idle ==> c.log == [] && c.attempts == 0 && c.turns == [])
    && (c.state == Authenticating ==> c.admitted && c.attempts == Failures(c.log) < Tries(p))
  }

  lemma Logged(c: Call, out: Out, p: Policy)
    ensures Failures(c.log + [out]) == Failures(c.log) + (if out.Verified? && !out.ok then 1 else 0)
    ensures Entered(c.log + [out]) == Entered(c.log) + (if out.Verified? then out.digits else "")
    ensures Passed(c.log + [out]) <==> Passed(c.log) || (out.Verified? && out.ok)
    ensures OnlyAfterPassing(c.log) && (TouchesAgent(out) ==> Passed(c.log)) ==> OnlyAfterPassing(c.log + [out])
    ensures Honest(c.log, p) && FairTest(out, p) ==> Honest(c.log + [out], p)
  {
    assert (c.log + [out])[..|c.log|] == c.log;
    PassedGrows(c.log, out);
    AfterGrows(c.log, out);
    assert Honest(c.log, p) && FairTest(out, p) ==> Honest(c.log + [out], p) by { hide FairTest; }
  }

  lemma PassedGrows(log: seq<Out>, out: Out)
    ensures Passed(log + [out]) <==> Passed(log) || (out.Verified? && out.ok)
  {
    if Passed(log) {
      var i :| 0 <= i < |log| && log[i].Verified? && log[i].ok;
      assert (log + [out])[i] == log[i];
    }
    assert (log + [out])[|log|] == out;
  }

  lemma AfterGrows(log: seq<Out>, out: Out)
    ensures OnlyAfterPassing(log) && (TouchesAgent(out) ==> Passed(log)) ==> OnlyAfterPassing(log + [out])
  {
    hide Passed, TouchesAgent;
    if OnlyAfterPassing(log) && (TouchesAgent(out) ==> Passed(log)) {
      var longer := log + [out];
      forall i | 0 <= i < |longer| && TouchesAgent(longer[i]) ensures Passed(longer[..i]) {
        assert longer[..i] == log[..i];
      }
    }
  }

  lemma LogKeeps(c: Call, out: Out, p: Policy)
    requires Inv(c, p) && !out.Verified? && (TouchesAgent(out) ==> Passed(c.log)) && c.state != Idle
    ensures Inv(Logs(c, out), p)
    ensures Passed(c.log) ==> Passed(Logs(c, out).log)
  {
    hide Passed, OnlyAfterPassing, Honest, Failures, Entered;
    Logged(c, out, p);
  }

  lemma CheckedKeeps(c: Call, p: Policy)
    requires OnlyAfterPassing(c.log) && Honest(c.log, p) && Entered(c.log) + c.pin == c.typed
    requires 1 <= |c.pin| <= PIN_LENGTH && c.state == Authenticating && c.admitted
    requires c.attempts == Failures(c.log) < Tries(p) && (c.turns != [] ==> Passed(c.log))
    ensures Inv(Checked(c, p), p)
  {
    hide Passed, OnlyAfterPassing, Honest, Failures, Entered;
    var ok := p.verify(c.pin);
    var out := Verified(c.pin, ok);
    Logged(c, out, p);
    var c1 := Logs(c.(pin := ""), out);
    if ok {
      LogKeeps(c1.(attempts := 0, state := Choosing), Prompt, p);
    } else if c.attempts + 1 >= p.maxAttempts {
      var c2 := c1.(attempts := c.attempts + 1, state := Ending);
      LogKeeps(c2, FailedCall, p);
      LogKeeps(Logs(c2, FailedCall), Prompt, p);
      LogKeeps(Logs(Logs(c2, FailedCall), Prompt), EndSession, p);
    } else {
      LogKeeps(c1.(attempts := c.attempts + 1), Prompt, p);
    }
  }

  lemma KeyKeeps(c: Call, digit: char, p: Policy)
    requires Inv(c, p)
    ensures Inv(OnKey(c, digit, p), p)
  {
    hide Passed, OnlyAfterPassing, Honest, Failures, Entered, Checked;
    if c.state == Authenticating {
      if Terminator(digit) {
        if c.pin != "" { CheckedKeeps(c, p); }
      } else {
        var c' := c.(pin := c.pin + [digit], typed := c.typed + [digit]);
        assert Entered(c.log) + c'.pin == c'.typed;
        if |c'.pin| >= PIN_LENGTH { CheckedKeeps(c', p); }
      }
    }
  }

  /** Whatever only opens, drops or ends turns, behind the gate. */
  lemma OpensKeeps(c: Call, kind: Kind, body: string, task: Option<string>, p: Policy)
    requires Inv(c, p) && Passed(c.log) && c.state != Idle
    ensures Inv(Opens(c, kind, body, task), p)
  {
    hide Passed, OnlyAfterPassing, Honest, Failures, Entered;
    LogKeeps(c, Opened(|c.turns|, kind, body), p);
  }

  lemma SilencedKeeps(c: Call, p: Policy)
    requires Inv(c, p) && c.state == Connected
    ensures Inv(Silenced(c), p) && Passed(Silenced(c).log) && Silenced(c).state == Connected
  {
    hide Passed, OnlyAfterPassing, Honest, Failures, Entered;
    if HasTurn(c) && !c.turns[|c.turns| - 1].dropped {
      var task := c.turns[|c.turns| - 1].task;
      if task.Some? { LogKeeps(Dropped(c), Cancelled(task.value), p); }
    }
  }

  lemma ChosenKeeps(c: Call, choice: Choice, p: Policy)
    requires Inv(c, p) && c.state == Choosing
    ensures Inv(Chosen(c, choice), p)
  {
    hide Passed, OnlyAfterPassing, Honest, Failures, Entered;
    if choice.Ask? {
      LogKeeps(c, Prompt, p);
    } else {
      var c0 := c.(state := Connected);
      LogKeeps(c0, Prompt, p);
      if choice.running.Some? {
        LogKeeps(Logs(c0, Prompt), Prompt, p);
        OpensKeeps(Logs(Logs(c0, Prompt), Prompt), Resubscribed, "", choice.running, p);
      }
    }
  }

  lemma SpeechKeeps(c: Call, e: Event, p: Policy)
    requires Inv(c, p) && e.Speech?
    ensures Inv(OnSpeech(c, e), p)
  {
    hide Passed, OnlyAfterPassing, Honest, Failures, Entered, Silenced, Chosen;
    if e.final && c.state == Choosing {
      ChosenKeeps(c, e.choice, p);
    } else if e.final && c.state == Connected {
      match e.meaning
      case Goodbye =>
        LogKeeps(c, Prompt, p);
        LogKeeps(Logs(c, Prompt), EndSession, p);
      case Switch(choice) => ChosenKeeps(Ends(c).(state := Choosing), choice, p);
      case Answered => LogKeeps(c, Prompt, p);
      case Said =>
        SilencedKeeps(c, p);
        OpensKeeps(Silenced(c), Voice, e.text, None, p);
    }
  }

  lemma EmitsKeeps(c: Call, k: nat, event: TurnEvent, p: Policy)
    requires Inv(c, p) && k < |c.turns|
    ensures Inv(c.(turns := c.turns[k := Emitted(c.turns[k], k, event).0],
        log := c.log + Emitted(c.turns[k], k, event).1), p)
  {
    hide Passed, OnlyAfterPassing, Honest, Failures, Entered;
    var out := Emitted(c.turns[k], k, event).1;
    if out == [] {
      assert c.log + out == c.log;
    } else {
      assert out == [out[0]] && out[0].Token? by { OneToken(c.turns[k], k, event); }
      LogKeeps(c, out[0], p);
    }
  }

  lemma OneToken(turn: Turn, k: nat, event: TurnEvent)
    ensures var out := Emitted(turn, k, event).1; out == [] || (out == [out[0]] && out[0].Token?)
  {
  }

  lemma KeepsInv(c: Call, e: Event, p: Policy)
    requires Inv(c, p)
    ensures Inv(Next(c, e, p), p)
  {
    hide Passed, OnlyAfterPassing, Honest, Failures, Entered, OnKey, OnSpeech, Emitted;
    match e
    case Setup(listed, locked) =>
      NoFailures();
      if c.state == Idle && (!listed || locked) { LogKeeps(c.(state := Ending), EndSession, p); }
    case Key(digit) => KeyKeeps(c, digit, p);
    case Speech(_, _, _, _) => SpeechKeeps(c, e, p);
    case Interrupt => if c.state == Connected { SilencedKeeps(c, p); }
    case TurnEmits(k, event) => if k < |c.turns| && !c.turns[k].over { EmitsKeeps(c, k, event, p); }
    case TurnEnds(k, failed) =>
      if k < |c.turns| && !c.turns[k].over {
        LogKeepsAnyway(c.(turns := c.turns[k := c.turns[k].(over := true)]), p);
      }
    case KeysFlushed =>
      if c.flush && c.keys != "" && c.state == Connected {
        var c' := c.(keys := "", flush := false);
        SilencedKeeps(c', p);
        OpensKeeps(Silenced(c'), Dtmf, c.keys, None, p);
      }
    case Hangup =>
  }

  lemma NoFailures()
    ensures Failures([]) == 0
  {
  }

  lemma LogKeepsAnyway(c: Call, p: Policy)
    requires Inv(c, p) && c.turns != []
    ensures Inv(Logs(c, Prompt), p)
  {
    LogKeeps(c, Prompt, p);
  }

  lemma {:induction false} RunKeepsInv(c: Call, events: seq<Event>, p: Policy)
    requires Inv(c, p)
    ensures Inv(RunFrom(c, events, p), p)
    decreases |events|
  {
    hide Inv, Next;
    if events != [] {
      KeepsInv(c, events[0], p);
      RunKeepsInv(Next(c, events[0], p), events[1..], p);
    }
  }

  /**
    Over any call: an agent is only reached by a listed, unlocked caller after a PIN verified in
    this call; no more tests fail than are allowed; and what is tested is exactly what was keyed.
   */
  lemma GateHolds(events: seq<Event>, p: Policy)
    ensures var c := RunFrom(Start, events, p);
            && (Inside(c.state) ==> c.admitted && Passed(c.log))
            && OnlyAfterPassing(c.log) && Honest(c.log, p)
            && Failures(c.log) <= Tries(p)
            && Entered(c.log) + c.pin == c.typed
  {
    RunKeepsInv(Start, events, p);
  }

  /** Admission is the setup's own verdict: nothing else grants it. */
  lemma {:induction false} AdmittedOnlyBySetup(c: Call, events: seq<Event>, p: Policy)
    requires c.state == Idle && !c.admitted && RunFrom(c, events, p).admitted && c.turns == []
    ensures exists i :: 0 <= i < |events| && events[i] == Setup(true, false)
    decreases |events|
  {
    if events != [] {
      var e := events[0];
      if e == Setup(true, false) {
        assert events[0] == e;
      } else if e.Setup? || e.Hangup? {
        assert Next(c, e, p).state == Ending && !Next(c, e, p).admitted;
        EndingStays(Next(c, e, p), events[1..], p);
      } else {
        assert Next(c, e, p).admitted == c.admitted && Next(c, e, p).state == Idle && Next(c, e, p).turns == [];
        AdmittedOnlyBySetup(Next(c, e, p), events[1..], p);
        var i :| 0 <= i < |events[1..]| && events[1..][i] == Setup(true, false);
        assert events[i + 1] == Setup(true, false);
      }
    }
  }

  lemma {:induction false} EndingStays(c: Call, events: seq<Event>, p: Policy)
    requires c.state == Ending
    ensures RunFrom(c, events, p).state == Ending && RunFrom(c, events, p).admitted == c.admitted
    decreases |events|
  {
    if events != [] { EndingStays(Next(c, events[0], p), events[1..], p); }
  }
}
