/**
  The line: any number of calls, overlapping, and one registry. A call that runs out of tries is
  recorded against its number, and what is recorded decides who the next setup turns away.
 */
module PhoneLine {
  import opened Options
  import opened PhoneCall
  import opened PhoneGate
  import Lockout = PhoneLockout

  /**
    A call since it rang. `seen` and `events` are history: how many failures were known then, and
    all that happened to it.
   */
  datatype Ringing = Ringing(number: string, listed: bool, at: int, seen: nat, events: seq<Event>, call: Call)

  /** `failed` is history: every call that ran out of tries. */
  datatype Line = Line(tables: Lockout.Tables, calls: map<nat, Ringing>, failed: seq<Lockout.Failure>)

  datatype Rules = Rules(pin: Policy, lockout: Lockout.Policy)

  /** A call rings, or something happens to one. */
  datatype Moment = Rings(id: nat, number: string, listed: bool, at: int) | Comes(id: nat, event: Event, at: int)

  function GivenUp(log: seq<Out>): nat {
    if log == [] then 0 else GivenUp(log[..|log| - 1]) + (if log[|log| - 1].FailedCall? then 1 else 0)
  }

  function Locked(t: Lockout.Tables, number: string, now: int): bool {
    Lockout.LockedUntil(t, number, now).Some?
  }

  function Answer(l: Line, number: string, listed: bool, at: int, rules: Rules): Ringing {
    var setup := Setup(listed, Locked(l.tables, number, at));
    Ringing(number, listed, at, |l.failed|, [setup], Next(Start, setup, rules.pin))
  }

  function Step(l: Line, m: Moment, rules: Rules): Line {
    match m
    case Rings(id, number, listed, at) =>
      if id in l.calls then l else l.(calls := l.calls[id := Answer(l, number, listed, at, rules)])
    case Comes(id, e, at) =>
      if id !in l.calls then l
      else
        var r := l.calls[id];
        var call := Next(r.call, e, rules.pin);
        var calls := l.calls[id := r.(call := call, events := r.events + [e])];
        if GivenUp(call.log) == GivenUp(r.call.log) then l.(calls := calls)
        else
          var f := Lockout.Failure(r.number, at);
          Line(Lockout.Recorded(l.tables, f, rules.lockout).0, calls, l.failed + [f])
  }

  function After(run: seq<Moment>, rules: Rules): Line {
    if run == [] then Line(Lockout.Tables([], map[]), map[], [])
    else Step(After(run[..|run| - 1], rules), run[|run| - 1], rules)
  }

  /** The clock does not run backwards. */
  predicate InTime(run: seq<Moment>) {
    forall i, j | 0 <= i < j < |run| :: run[i].at <= run[j].at
  }

  // ------------------------------------------------------------- the registry

  predicate NoneLater(failed: seq<Lockout.Failure>, now: int) {
    forall i | 0 <= i < |failed| :: failed[i].at <= now
  }

  ghost predicate Kept(l: Line, rules: Rules) {
    && l.tables == Lockout.RecordAll(l.failed, rules.lockout)
    && Lockout.Ordered(l.failed)
    && (forall id :: id in l.calls ==> Faithful(l.calls[id], l.failed, rules))
  }

  /** The setup's verdict, from the failures before it alone. */
  predicate ShutOut(failed: seq<Lockout.Failure>, number: string, at: int, lockout: Lockout.Policy) {
    var end := Lockout.LastLock(failed, number, lockout);
    end.Some? && end.value > at
  }

  ghost predicate Faithful(r: Ringing, failed: seq<Lockout.Failure>, rules: Rules) {
    && r.seen <= |failed|
    && r.events != []
    && r.events[0] == Setup(r.listed, ShutOut(failed[..r.seen], r.number, r.at, rules.lockout))
    && r.call == RunFrom(Start, r.events, rules.pin)
  }

  lemma {:induction false} RunSnoc(c: Call, events: seq<Event>, e: Event, p: Policy)
    ensures RunFrom(c, events + [e], p) == Next(RunFrom(c, events, p), e, p)
    decreases |events|
  {
    hide Next;
    if events == [] {
      assert [] + [e] == [e] && [e][1..] == [];
    } else {
      assert (events + [e])[1..] == events[1..] + [e];
      RunSnoc(Next(c, events[0], p), events[1..], e, p);
    }
  }

  lemma RecordAllSnoc(failed: seq<Lockout.Failure>, f: Lockout.Failure, p: Lockout.Policy)
    ensures Lockout.RecordAll(failed + [f], p) == Lockout.Recorded(Lockout.RecordAll(failed, p), f, p).0
  {
    assert (failed + [f])[..|failed|] == failed;
  }

  lemma FaithfulLater(r: Ringing, failed: seq<Lockout.Failure>, f: Lockout.Failure, rules: Rules)
    requires Faithful(r, failed, rules)
    ensures Faithful(r, failed + [f], rules)
  {
    assert (failed + [f])[..r.seen] == failed[..r.seen];
  }

  lemma Rang(l: Line, number: string, listed: bool, at: int, rules: Rules)
    requires Kept(l, rules)
    ensures Faithful(Answer(l, number, listed, at, rules), l.failed, rules)
  {
    hide Next;
    Lockout.LockedUntilIsExact(l.failed, number, at, rules.lockout);
    assert l.failed[..|l.failed|] == l.failed;
    var r := Answer(l, number, listed, at, rules);
    assert r.events[1..] == [];
    assert RunFrom(Start, r.events, rules.pin) == RunFrom(Next(Start, r.events[0], rules.pin), [], rules.pin);
  }

  lemma StepKeeps(l: Line, m: Moment, rules: Rules)
    requires Kept(l, rules) && NoneLater(l.failed, m.at)
    ensures Kept(Step(l, m, rules), rules) && NoneLater(Step(l, m, rules).failed, m.at)
  {
    hide Next, Lockout.Recorded, Lockout.RecordAll, Faithful, GivenUp;
    match m
    case Rings(id, number, listed, at) =>
      Rang(l, number, listed, at, rules);
    case Comes(id, e, at) =>
      if id in l.calls {
        var r, l' := l.calls[id], Step(l, m, rules);
        Came(r, e, l.failed, rules);
        var f := Lockout.Failure(r.number, at);
        RecordAllSnoc(l.failed, f, rules.lockout);
        forall i | i in l'.calls ensures Faithful(l'.calls[i], l'.failed, rules) {
          var r' := Next(r.call, e, rules.pin);
          FaithfulLater(if i == id then r.(call := r', events := r.events + [e]) else l.calls[i], l.failed, f, rules);
        }
      }
  }

  lemma Came(r: Ringing, e: Event, failed: seq<Lockout.Failure>, rules: Rules)
    requires Faithful(r, failed, rules)
    ensures Faithful(r.(call := Next(r.call, e, rules.pin), events := r.events + [e]), failed, rules)
  {
    hide Next;
    RunSnoc(Start, r.events, e, rules.pin);
  }

  lemma {:induction false} RunKeeps(run: seq<Moment>, rules: Rules)
    requires InTime(run)
    ensures Kept(After(run, rules), rules)
    ensures forall now | run == [] || run[|run| - 1].at <= now :: NoneLater(After(run, rules).failed, now)
    decreases |run|
  {
    hide Step, Kept;
    if run == [] {
      NoneYet(rules);
    } else {
      var before, m := run[..|run| - 1], run[|run| - 1];
      RunKeeps(before, rules);
      StepKeeps(After(before, rules), m, rules);
    }
  }

  lemma NoneYet(rules: Rules)
    ensures Kept(After([], rules), rules)
  {
  }

  // ------------------------------------------------------------- who gets in

  lemma {:induction false} Turned(c: Call, events: seq<Event>, p: Policy)
    requires c.state == Ending && !c.admitted && c.turns == [] && c.log == [EndSession] && !c.flush
    ensures var c' := RunFrom(c, events, p); !c'.admitted && c'.log == [EndSession]
    decreases |events|
  {
    hide Emitted, Checked, Chosen;
    if events != [] { Turned(Next(c, events[0], p), events[1..], p); }
  }

  lemma {:induction false} Stays(c: Call, events: seq<Event>, p: Policy)
    requires c.state != Idle && c.admitted
    ensures RunFrom(c, events, p).admitted
    decreases |events|
  {
    hide Next;
    if events != [] {
      StillAdmitted(c, events[0], p);
      Stays(Next(c, events[0], p), events[1..], p);
    }
  }

  lemma StillAdmitted(c: Call, e: Event, p: Policy)
    requires c.state != Idle && c.admitted
    ensures Next(c, e, p).state != Idle && Next(c, e, p).admitted
  {
    hide Emitted, OnSpeech;
    if e.Speech? { SpeechAdmits(c, e); }
  }

  lemma SpeechAdmits(c: Call, e: Event)
    requires c.state != Idle && c.admitted && e.Speech?
    ensures OnSpeech(c, e).state != Idle && OnSpeech(c, e).admitted
  {
  }

  /** How a call goes on after its setup. */
  lemma SetupDecides(events: seq<Event>, listed: bool, locked: bool, p: Policy)
    requires events != [] && events[0] == Setup(listed, locked)
    ensures var c := RunFrom(Start, events, p);
            && (c.admitted <==> listed && !locked)
            && (!c.admitted ==> c.log == [EndSession])
  {
    var c := Next(Start, events[0], p);
    if listed && !locked { Stays(c, events[1..], p); } else { Turned(c, events[1..], p); }
  }

  // ------------------------------------------------------------- who fails

  /** A call gives up once, when it has failed all its tests, and is over then. */
  predicate GivesUp(c: Call, p: Policy) {
    && GivenUp(c.log) == (if Failures(c.log) == Tries(p) then 1 else 0)
    && (Failures(c.log) == Tries(p) ==> c.state == Ending && c.turns == [] && !c.flush)
  }

  lemma Counts(log: seq<Out>, out: Out)
    ensures GivenUp(log + [out]) == GivenUp(log) + (if out.FailedCall? then 1 else 0)
    ensures Failures(log + [out]) == Failures(log) + (if out.Verified? && !out.ok then 1 else 0)
  {
    assert (log + [out])[..|log|] == log;
  }

  /** As many tests failed, and as many times given up. */
  predicate CountsAsMany(c: Call, c': Call) {
    GivenUp(c'.log) == GivenUp(c.log) && Failures(c'.log) == Failures(c.log)
  }

  lemma LogCounts(c: Call, out: Out)
    requires !out.FailedCall? && !out.Verified?
    ensures CountsAsMany(c, Logs(c, out))
  {
    Counts(c.log, out);
  }

  lemma SilencedCounts(c: Call)
    ensures CountsAsMany(c, Silenced(c))
  {
    hide GivenUp, Failures;
    if HasTurn(c) && !c.turns[|c.turns| - 1].dropped && c.turns[|c.turns| - 1].task.Some? {
      LogCounts(c, Cancelled(c.turns[|c.turns| - 1].task.value));
    }
  }

  lemma OpensCounts(c: Call, kind: Kind, body: string, task: Option<string>)
    ensures CountsAsMany(c, Opens(c, kind, body, task))
  {
    hide GivenUp, Failures;
    LogCounts(c, Opened(|c.turns|, kind, body));
  }

  lemma ChosenCounts(c: Call, choice: Choice)
    ensures CountsAsMany(c, Chosen(c, choice))
  {
    hide GivenUp, Failures;
    LogCounts(c, Prompt);
    if choice.Connect? && choice.running.Some? {
      var c' := Logs(c.(state := Connected), Prompt);
      LogCounts(c', Prompt);
      OpensCounts(Logs(c', Prompt), Resubscribed, "", choice.running);
    }
  }

  lemma SpeechCounts(c: Call, e: Event)
    requires e.Speech?
    ensures CountsAsMany(c, OnSpeech(c, e))
  {
    hide GivenUp, Failures, Chosen, Silenced, Opens;
    if e.final && c.state == Choosing {
      ChosenCounts(c, e.choice);
    } else if e.final && c.state == Connected {
      match e.meaning
      case Goodbye =>
        LogCounts(c, Prompt);
        LogCounts(Logs(c, Prompt), EndSession);
      case Switch(choice) => ChosenCounts(Ends(c).(state := Choosing), choice);
      case Answered => LogCounts(c, Prompt);
      case Said =>
        SilencedCounts(c);
        OpensCounts(Silenced(c), Voice, e.text, None);
    }
  }

  lemma EmitsCounts(c: Call, k: nat, event: TurnEvent)
    requires k < |c.turns|
    ensures CountsAsMany(c, c.(log := c.log + Emitted(c.turns[k], k, event).1))
  {
    hide GivenUp, Failures, Emitted;
    var out := Emitted(c.turns[k], k, event).1;
    OneToken(c.turns[k], k, event);
    if out == [] { assert c.log + out == c.log; } else { Counts(c.log, out[0]); }
  }

  /** What is logged when nothing is put to the test. */
  lemma PlainStep(c: Call, e: Event, p: Policy)
    requires e.Key? ==> c.state != Authenticating
    ensures CountsAsMany(c, Next(c, e, p))
  {
    hide GivenUp, Failures, OnSpeech, Silenced, Opens, Emitted;
    match e
    case Setup(listed, locked) => LogCounts(c, EndSession);
    case Key(digit) =>
    case Speech(_, _, _, _) => SpeechCounts(c, e);
    case Interrupt => SilencedCounts(c);
    case TurnEmits(k, event) => if k < |c.turns| { EmitsCounts(c, k, event); }
    case TurnEnds(k, failed) => LogCounts(c, Prompt);
    case KeysFlushed =>
      var c' := c.(keys := "", flush := false);
      SilencedCounts(c');
      OpensCounts(Silenced(c'), Dtmf, c.keys, None);
    case Hangup =>
  }

  lemma EndedStays(c: Call, e: Event, p: Policy)
    requires c.state == Ending && c.turns == [] && !c.flush
    ensures var c' := Next(c, e, p); c'.state == Ending && c'.turns == [] && !c'.flush
  {
  }

  lemma CheckedGivesUp(c: Call, p: Policy)
    requires c.state == Authenticating && c.attempts == Failures(c.log) < Tries(p) && GivenUp(c.log) == 0
    requires c.turns == [] && !c.flush
    ensures GivesUp(Checked(c, p), p)
  {
    hide GivenUp, Failures;
    var log1 := c.log + [Verified(c.pin, p.verify(c.pin))];
    Counts(c.log, Verified(c.pin, p.verify(c.pin)));
    Counts(log1, FailedCall);
    Counts(log1, Prompt);
    Counts(log1 + [FailedCall], Prompt);
    Counts((log1 + [FailedCall]) + [Prompt], EndSession);
  }

  lemma StepGivesUp(c: Call, e: Event, p: Policy)
    requires Inv(c, p) && GivesUp(c, p) && Quiet(c)
    ensures GivesUp(Next(c, e, p), p) && Quiet(Next(c, e, p))
  {
    hide GivenUp, Failures, Passed, OnlyAfterPassing, Honest, Entered, Next, OnKey;
    if e.Key? && c.state == Authenticating {
      KeyGivesUp(c, e.digit, p);
      assert Next(c, e, p) == OnKey(c, e.digit, p) by { KeyNext(c, e.digit, p); }
    } else {
      PlainStep(c, e, p);
      if Failures(c.log) == Tries(p) { EndedStays(c, e, p); }
      QuietStays(c, e, p);
    }
  }

  lemma KeyNext(c: Call, digit: char, p: Policy)
    ensures Next(c, Key(digit), p) == OnKey(c, digit, p)
  {
  }

  /** Until a PIN has verified there are no turns and no keys to flush. */
  predicate Quiet(c: Call) {
    c.state == Idle || c.state == Authenticating ==> c.turns == [] && !c.flush
  }

  lemma QuietStays(c: Call, e: Event, p: Policy)
    requires Quiet(c) && !(e.Key? && c.state == Authenticating)
    ensures Quiet(Next(c, e, p))
  {
    hide Emitted;
  }

  lemma KeyGivesUp(c: Call, digit: char, p: Policy)
    requires Inv(c, p) && GivesUp(c, p) && Quiet(c) && c.state == Authenticating
    ensures GivesUp(OnKey(c, digit, p), p) && Quiet(OnKey(c, digit, p))
  {
    hide GivenUp, Failures, Passed, OnlyAfterPassing, Honest, Entered;
    CheckedGivesUp(c, p);
    CheckedGivesUp(c.(pin := c.pin + [digit], typed := c.typed + [digit]), p);
  }

  lemma {:induction false} RunGivesUp(c: Call, events: seq<Event>, p: Policy)
    requires Inv(c, p) && GivesUp(c, p) && Quiet(c)
    ensures GivesUp(RunFrom(c, events, p), p)
    decreases |events|
  {
    hide Inv, Next, GivesUp, Quiet;
    if events != [] {
      KeepsInv(c, events[0], p);
      StepGivesUp(c, events[0], p);
      RunGivesUp(Next(c, events[0], p), events[1..], p);
    }
  }

  /** Over every call: it is recorded as failed once if it fails every test it is allowed, and never otherwise. */
  lemma FailsOnceIff(events: seq<Event>, p: Policy)
    ensures var c := RunFrom(Start, events, p);
            GivenUp(c.log) == if Failures(c.log) == Tries(p) then 1 else 0
  {
    RunGivesUp(Start, events, p);
  }

  /**
    Over every run of the line, calls overlapping or not: a call is let to the PIN exactly when its
    number is listed, and is not within the cooldown of the lock that the calls that failed before
    it make; of any other, nothing is ever tested, and no agent reached. The registry holds just
    what the failed calls make of it.
   */
  lemma LockedNumbersAreShutOut(run: seq<Moment>, rules: Rules, id: nat)
    requires InTime(run) && id in After(run, rules).calls
    ensures var l := After(run, rules); var r := l.calls[id];
            && l.tables == Lockout.RecordAll(l.failed, rules.lockout)
            && r.seen <= |l.failed|
            && (r.call.admitted <==>
                  r.listed && !ShutOut(l.failed[..r.seen], r.number, r.at, rules.lockout))
            && (!r.call.admitted ==> r.call.log == [EndSession])
            && (Inside(r.call.state) ==> r.call.admitted && Passed(r.call.log))
  {
    hide RunFrom, After, ShutOut, Lockout.RecordAll, Lockout.Ordered, Passed, InTime;
    RunKeeps(run, rules);
    var l := After(run, rules);
    var r := l.calls[id];
    assert Faithful(r, l.failed, rules);
    SetupDecides(r.events, r.listed, ShutOut(l.failed[..r.seen], r.number, r.at, rules.lockout), rules.pin);
    GateHolds(r.events, rules.pin);
  }
}
