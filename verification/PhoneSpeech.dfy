/** Agent speech on a call: one voice at a time, and every word of it. */
module PhoneSpeech {
  import opened Options
  import opened PhoneCall

  // ------------------------------------------------------------- one stream

  function HearAll(s: Speaking, n: nat, es: seq<TurnEvent>): (Speaking, seq<Out>) {
    if es == [] then (s, []) else
      var (t, out) := HearAll(s, n, es[..|es| - 1]);
      var (t', more) := Hear(t, n, es[|es| - 1]);
      (t', out + more)
  }

  /** The text of the tokens. */
  function Text(out: seq<Out>): string {
    if out == [] then "" else Text(out[..|out| - 1]) + (if out[|out| - 1].Token? then out[|out| - 1].text else "")
  }

  function Artifacts(es: seq<TurnEvent>): string {
    if es == [] then "" else Artifacts(es[..|es| - 1]) + (if es[|es| - 1].Artifact? then es[|es| - 1].text else "")
  }

  predicate Running(es: seq<TurnEvent>) {
    forall i | 0 <= i < |es| :: !(es[i].Status? && es[i].terminal)
  }

  /** Tokens of one turn that say something, none of them the last. */
  predicate Unfinished(out: seq<Out>, n: nat) {
    forall i | 0 <= i < |out| :: out[i].Token? && out[i].turn == n && !out[i].last && out[i].text != ""
  }

  lemma TextGrows(out: seq<Out>, n: nat, token: Out)
    requires Unfinished(out, n)
    ensures Text(out + [token]) == Text(out) + (if token.Token? then token.text else "")
    ensures token.Token? && token.turn == n && !token.last && token.text != "" ==> Unfinished(out + [token], n)
  {
    assert (out + [token])[..|out|] == out;
  }

  lemma ArtifactsGrow(es: seq<TurnEvent>, e: TurnEvent)
    ensures Artifacts(es + [e]) == Artifacts(es) + (if e.Artifact? then e.text else "")
  {
    assert (es + [e])[..|es|] == es;
  }

  /** What is said and held of a running stream. */
  predicate HeldBack(s: Speaking, n: nat, es: seq<TurnEvent>, t: Speaking, out: seq<Out>) {
    && Unfinished(out, n)
    && Text(out) + t.held.GetOr("") == Artifacts(es)
    && t.spoken == s.spoken + Text(out)
    && (t.held.Some? ==> t.held.value != "")
    && (t.held.None? ==> out == [])
  }

  lemma HearOne(s: Speaking, n: nat, es: seq<TurnEvent>, t: Speaking, out: seq<Out>, e: TurnEvent)
    requires HeldBack(s, n, es, t, out) && !(e.Status? && e.terminal)
    ensures HeldBack(s, n, es + [e], Hear(t, n, e).0, out + Hear(t, n, e).1)
  {
    hide Text, Artifacts, Unfinished;
    var more := Hear(t, n, e).1;
    ArtifactsGrow(es, e);
    if more == [] {
      assert out + more == out;
      assert e.Artifact? && t.held.None? ==> Text(out) == "" by { NothingYet(); }
    } else {
      TextGrows(out, n, more[0]);
    }
  }

  lemma NothingYet()
    ensures Text([]) == ""
  {
  }

  /** Until the task is terminal all is said but the newest chunk: exactly that is lost if the stream just ends. */
  lemma {:induction false} OneChunkHeld(s: Speaking, n: nat, es: seq<TurnEvent>)
    requires s.held.None? && Running(es)
    ensures HeldBack(s, n, es, HearAll(s, n, es).0, HearAll(s, n, es).1)
    decreases |es|
  {
    if es != [] {
      hide Hear, HeldBack;
      var before, e := es[..|es| - 1], es[|es| - 1];
      OneChunkHeld(s, n, before);
      HearOne(s, n, before, HearAll(s, n, before).0, HearAll(s, n, before).1, e);
      assert before + [e] == es;
    }
  }

  /** What one stretch of a stream, up to a terminal status, ought to say. */
  function Utterance(es: seq<TurnEvent>, message: string): string {
    if Artifacts(es) != "" then Artifacts(es) else message
  }

  /** The tokens say exactly the text; the final one and no other carries `last`. */
  predicate SaidExactly(out: seq<Out>, n: nat, text: string, before: string) {
    if text == "" then out == (if before == "" then [] else [Token(n, "", true)])
    else
      && Text(out) == text && out != []
      && Unfinished(out[..|out| - 1], n)
      && out[|out| - 1].Token? && out[|out| - 1].turn == n && out[|out| - 1].last
  }

  /** A terminal status lets the held chunk go, or says its own message when there is none. */
  lemma Closing(s: Speaking, n: nat, es: seq<TurnEvent>, t: Speaking, out: seq<Out>, message: string)
    requires s.held.None? && HeldBack(s, n, es, t, out)
    ensures var (t', more) := Hear(t, n, Status(true, message));
            && SaidExactly(out + more, n, Utterance(es, message), s.spoken)
            && t' == Speaking(None, s.spoken + Utterance(es, message))
  {
    hide Text, Artifacts, Unfinished;
    NothingYet();
    var text := Utterance(es, message);
    var final := Token(n, text, true);
    if t.held.Some? {
      ClosingHeld(s, n, es, t, out, message);
    } else {
      assert text == message;
      if text != "" {
        assert [] + [final] == [final];
        TextGrows([], n, final);
        assert [final][..0] == [];
      }
    }
  }

  lemma ClosingHeld(s: Speaking, n: nat, es: seq<TurnEvent>, t: Speaking, out: seq<Out>, message: string)
    requires s.held.None? && HeldBack(s, n, es, t, out) && t.held.Some?
    ensures var (t', more) := Hear(t, n, Status(true, message));
            && SaidExactly(out + more, n, Utterance(es, message), s.spoken)
            && t' == Speaking(None, s.spoken + Utterance(es, message))
  {
    hide Text, Artifacts, Unfinished;
    var final := Token(n, t.held.value, true);
    assert Hear(t, n, Status(true, message)).1 == [final];
    TextGrows(out, n, final);
    assert (out + [final])[..|out|] == out;
    assert Text(out) + t.held.value != "";
    assert (s.spoken + Text(out)) + t.held.value == s.spoken + (Text(out) + t.held.value);
  }

  lemma UtteranceIsExact(s: Speaking, n: nat, es: seq<TurnEvent>, message: string)
    requires s.held.None? && Running(es)
    ensures var (t, out) := HearAll(s, n, es + [Status(true, message)]);
            && SaidExactly(out, n, Utterance(es, message), s.spoken)
            && t == Speaking(None, s.spoken + Utterance(es, message))
  {
    hide HearAll, Hear, SaidExactly, Utterance, HeldBack;
    OneChunkHeld(s, n, es);
    HearAppend(s, n, es, Status(true, message));
    Closing(s, n, es, HearAll(s, n, es).0, HearAll(s, n, es).1, message);
  }

  lemma HearAppend(s: Speaking, n: nat, es: seq<TurnEvent>, e: TurnEvent)
    ensures var before := HearAll(s, n, es); var after := Hear(before.0, n, e);
            HearAll(s, n, es + [e]) == (after.0, before.1 + after.1)
  {
    hide Hear;
    assert (es + [e])[..|es|] == es;
  }

  // ------------------------------------------------------------- a whole call

  /** What turn `k` contributed to the log. */
  function TokensOf(log: seq<Out>, k: nat): seq<Out> {
    if log == [] then [] else
      var out := log[|log| - 1];
      TokensOf(log[..|log| - 1], k) + (if out.Token? && out.turn == k then [out] else [])
  }

  lemma {:induction false} TokensSplit(a: seq<Out>, b: seq<Out>, k: nat)
    ensures TokensOf(a + b, k) == TokensOf(a, k) + TokensOf(b, k)
    decreases |b|
  {
    if b == [] {
      assert a + b == a;
    } else {
      assert (a + b)[..|a + b| - 1] == a + b[..|b| - 1];
      TokensSplit(a, b[..|b| - 1], k);
    }
  }

  /** Each turn's part of the log is what its own stream, as far as it was heard, makes it say. */
  ghost predicate Faithful(c: Call) {
    forall k | 0 <= k < |c.turns| ::
      (c.turns[k].speaking, TokensOf(c.log, k)) == HearAll(Silent, k, c.turns[k].heard)
  }

  /** At most one turn may still speak: the newest, and only while connected. */
  ghost predicate OneVoice(c: Call) {
    forall k | 0 <= k < |c.turns| && !c.turns[k].dropped && !c.turns[k].over ::
        k == |c.turns| - 1 && c.state == Connected
  }

  /** No token of a turn comes after a newer turn has opened. */
  ghost predicate InTurn(log: seq<Out>, count: nat) {
    && (forall i | 0 <= i < |log| && log[i].Token? :: log[i].turn < count)
    && (forall i | 0 <= i < |log| && log[i].Opened? :: log[i].turn < count)
    && (forall i, j | 0 <= i < j < |log| && log[i].Opened? && log[j].Token? :: log[i].turn <= log[j].turn)
  }

  /** Keys pressed while connected are waiting, or went to an agent, in the order pressed. */
  function Dialled(log: seq<Out>): string {
    if log == [] then "" else
      var out := log[|log| - 1];
      Dialled(log[..|log| - 1]) + (if out.Opened? && out.kind == Dtmf then out.body else "")
  }

  ghost predicate Voices(c: Call) {
    Faithful(c) && OneVoice(c) && InTurn(c.log, |c.turns|)
  }

  ghost predicate KeysKept(c: Call) {
    Dialled(c.log) + c.keys == c.dialled && (c.flush ==> c.keys != "" && c.state == Connected)
  }

  /** Nobody may speak. */
  ghost predicate Quiet(c: Call) {
    forall k | 0 <= k < |c.turns| :: c.turns[k].dropped || c.turns[k].over
  }

  lemma DialledGrows(log: seq<Out>, out: Out)
    ensures Dialled(log + [out]) == Dialled(log) + (if out.Opened? && out.kind == Dtmf then out.body else "")
  {
    assert (log + [out])[..|log|] == log;
  }

  lemma TokensGrow(log: seq<Out>, out: Out, k: nat)
    ensures TokensOf(log + [out], k) == TokensOf(log, k) + (if out.Token? && out.turn == k then [out] else [])
  {
    assert (log + [out])[..|log|] == log;
  }

  lemma LogKeeps(c: Call, out: Out)
    requires Voices(c) && !out.Token? && !out.Opened?
    ensures Voices(Logs(c, out)) && Dialled(Logs(c, out).log) == Dialled(c.log)
    ensures Quiet(c) ==> Quiet(Logs(c, out))
  {
    hide HearAll;
    DialledGrows(c.log, out);
    forall k | 0 <= k < |c.turns| ensures TokensOf(c.log + [out], k) == TokensOf(c.log, k) {
      TokensGrow(c.log, out, k);
    }
  }

  lemma DroppedKeeps(c: Call)
    requires Voices(c)
    ensures Voices(Dropped(c)) && Quiet(Dropped(c))
  {
    hide HearAll, TokensOf, InTurn;
  }

  lemma SilencedKeeps(c: Call)
    requires Voices(c)
    ensures Voices(Silenced(c)) && Quiet(Silenced(c)) && Dialled(Silenced(c).log) == Dialled(c.log)
  {
    if HasTurn(c) && !c.turns[|c.turns| - 1].dropped {
      hide Voices, Quiet, Dialled;
      DroppedKeeps(c);
      var task := c.turns[|c.turns| - 1].task;
      if task.Some? { LogKeeps(Dropped(c), Cancelled(task.value)); }
    } else {
      hide HearAll, TokensOf, InTurn, Dialled;
    }
  }

  lemma OpensKeeps(c: Call, kind: Kind, body: string, task: Option<string>)
    requires Voices(c) && Quiet(c) && c.state == Connected
    ensures Voices(Opens(c, kind, body, task))
    ensures Dialled(Opens(c, kind, body, task).log) == Dialled(c.log) + (if kind == Dtmf then body else "")
  {
    DialledGrows(c.log, Opened(|c.turns|, kind, body));
    hide HearAll, TokensOf, Dialled;
    OpensFaithfully(c, kind, body, task);
    hide Faithful;
  }

  lemma OpensFaithfully(c: Call, kind: Kind, body: string, task: Option<string>)
    requires Faithful(c) && InTurn(c.log, |c.turns|)
    ensures Faithful(Opens(c, kind, body, task))
  {
    hide HearAll, TokensOf;
    forall k | 0 <= k <= |c.turns| ensures TokensOf(c.log + [Opened(|c.turns|, kind, body)], k) == TokensOf(c.log, k) {
      TokensGrow(c.log, Opened(|c.turns|, kind, body), k);
    }
    NothingOfNewer(c.log, |c.turns|);
    HearNothing(|c.turns|);
  }

  lemma HearNothing(n: nat)
    ensures HearAll(Silent, n, []) == (Silent, [])
  {
  }

  lemma {:induction false} NothingOfNewer(log: seq<Out>, count: nat)
    requires forall i | 0 <= i < |log| && log[i].Token? :: log[i].turn < count
    ensures TokensOf(log, count) == []
    decreases |log|
  {
    if log != [] { NothingOfNewer(log[..|log| - 1], count); }
  }

  lemma EndsKeeps(c: Call)
    requires Voices(c)
    ensures Voices(Ends(c)) && Quiet(Ends(c))
  {
    if c.state != Ending {
      DroppedKeeps(c);
      hide HearAll, TokensOf, InTurn;
      assert Faithful(Ends(c)) && OneVoice(Ends(c));
    } else {
      hide HearAll, TokensOf, InTurn;
    }
  }

  lemma ChosenKeeps(c: Call, choice: Choice)
    requires Voices(c) && Quiet(c) && c.state == Choosing
    ensures Voices(Chosen(c, choice)) && Dialled(Chosen(c, choice).log) == Dialled(c.log)
  {
    hide HearAll, TokensOf, InTurn, Dialled;
    if choice.Ask? {
      LogKeeps(c, Prompt);
    } else {
      var c0 := c.(state := Connected);
      assert Voices(c0) && Quiet(c0);
      hide Voices, Quiet;
      LogKeeps(c0, Prompt);
      var c' := Logs(c0, Prompt);
      if choice.running.Some? {
        LogKeeps(c', Prompt);
        OpensKeeps(Logs(c', Prompt), Resubscribed, "", choice.running);
      }
    }
  }

  /** What is said goes to the end of the log, and only to the speaking turn's part of it. */
  lemma EmitsFaithfully(c: Call, k: nat, t: Turn, more: seq<Out>, event: TurnEvent)
    requires Faithful(c) && k < |c.turns|
    requires t.heard == c.turns[k].heard + [event] && (t.speaking, more) == Hear(c.turns[k].speaking, k, event)
    ensures Faithful(c.(turns := c.turns[k := t], log := c.log + more))
  {
    hide HearAll, Hear;
    HearAppend(Silent, k, c.turns[k].heard, event);
    SaysOnlyIts(c.turns[k].speaking, k, event);
    forall m | 0 <= m < |c.turns|
      ensures TokensOf(c.log + more, m) == if m == k then TokensOf(c.log, m) + more else TokensOf(c.log, m)
    {
      TokensSplit(c.log, more, m);
      OnlyIts(more, k, m);
      assert TokensOf(c.log, m) + [] == TokensOf(c.log, m);
    }
    var c' := c.(turns := c.turns[k := t], log := c.log + more);
    forall m | 0 <= m < |c'.turns|
      ensures (c'.turns[m].speaking, TokensOf(c'.log, m)) == HearAll(Silent, m, c'.turns[m].heard)
    {
      assert (c.turns[m].speaking, TokensOf(c.log, m)) == HearAll(Silent, m, c.turns[m].heard);
      if m == k {
        var before, after := HearAll(Silent, k, c.turns[k].heard), Hear(c.turns[k].speaking, k, event);
        assert HearAll(Silent, k, t.heard) == (after.0, before.1 + after.1);
      }
    }
  }

  predicate ItsOwn(out: seq<Out>, k: nat) {
    out == [] || (|out| == 1 && out[0].Token? && out[0].turn == k)
  }

  lemma SaysOnlyIts(s: Speaking, k: nat, event: TurnEvent)
    ensures ItsOwn(Hear(s, k, event).1, k)
  {
  }

  lemma OnlyIts(out: seq<Out>, k: nat, m: nat)
    requires ItsOwn(out, k)
    ensures TokensOf(out, m) == (if m == k then out else [])
    ensures Dialled(out) == ""
  {
    if out != [] { assert out[..0] == []; }
  }

  lemma EmitsInTurn(log: seq<Out>, count: nat, more: seq<Out>)
    requires InTurn(log, count) && count > 0 && ItsOwn(more, count - 1)
    ensures InTurn(log + more, count) && Dialled(log + more) == Dialled(log)
  {
    if more == [] {
      assert log + more == log;
    } else {
      DialledGrows(log, more[0]);
      assert more == [more[0]];
    }
  }

  lemma EmitsKeeps(c: Call, k: nat, event: TurnEvent, p: Policy)
    requires Voices(c) && k < |c.turns| && !c.turns[k].over && !c.turns[k].dropped
    ensures Voices(Next(c, TurnEmits(k, event), p)) && Dialled(Next(c, TurnEmits(k, event), p).log) == Dialled(c.log)
  {
    hide HearAll, Hear, TokensOf, InTurn, Dialled;
    var (t, more) := Emitted(c.turns[k], k, event);
    SaysOnlyIts(c.turns[k].speaking, k, event);
    EmitsFaithfully(c, k, t, more, event);
    EmitsInTurn(c.log, |c.turns|, more);
    hide Faithful;
  }

  lemma EndsStreamKeeps(c: Call, k: nat)
    requires Voices(c) && k < |c.turns|
    ensures Voices(c.(turns := c.turns[k := c.turns[k].(over := true)]))
  {
    hide HearAll, TokensOf, InTurn;
  }

  ghost predicate Inv(c: Call) {
    Voices(c) && KeysKept(c) && (c.state == Choosing || c.state == Authenticating || c.state == Idle ==> Quiet(c))
  }

  lemma CheckedKeeps(c: Call, p: Policy)
    requires Voices(c) && KeysKept(c) && c.state == Authenticating && Quiet(c)
    ensures Inv(Checked(c, p))
  {
    hide HearAll, TokensOf, InTurn, Dialled;
    var ok := p.verify(c.pin);
    var c0 := c.(pin := "");
    LogKeeps(c0, Verified(c.pin, ok));
    var c1 := Logs(c0, Verified(c.pin, ok));
    var c2 := if ok then c1.(attempts := 0, state := Choosing)
              else if c.attempts + 1 >= p.maxAttempts then c1.(attempts := c.attempts + 1, state := Ending)
              else c1.(attempts := c.attempts + 1);
    assert Voices(c2) && Quiet(c2);
    if !ok && c.attempts + 1 >= p.maxAttempts {
      LogKeeps(c2, FailedCall);
      LogKeeps(Logs(c2, FailedCall), Prompt);
      LogKeeps(Logs(Logs(c2, FailedCall), Prompt), EndSession);
    } else {
      LogKeeps(c2, Prompt);
    }
  }

  lemma KeyKeeps(c: Call, digit: char, p: Policy)
    requires Inv(c)
    ensures Inv(OnKey(c, digit, p))
  {
    hide HearAll, TokensOf, InTurn, Dialled;
    if c.state == Authenticating {
      var c' := c.(pin := c.pin + [digit], typed := c.typed + [digit]);
      assert Voices(c') && Quiet(c');
      hide Checked;
      if Terminator(digit) {
        if c.pin != "" { CheckedKeeps(c, p); }
      } else if |c'.pin| >= PIN_LENGTH {
        CheckedKeeps(c', p);
      }
    }
  }

  lemma SpeechKeeps(c: Call, e: Event)
    requires Inv(c) && e.Speech?
    ensures Inv(OnSpeech(c, e))
  {
    hide HearAll, TokensOf, InTurn, Dialled, Faithful, OneVoice, Chosen, StartTurn;
    if e.final && c.state == Choosing {
      ChoiceKeeps(c, e.choice);
    } else if e.final && c.state == Connected {
      match e.meaning
      case Goodbye => GoodbyeKeeps(c);
      case Switch(choice) => SwitchKeeps(c, choice);
      case Answered => LogKeeps(c, Prompt);
      case Said => SaidKeeps(c, e.text);
    }
  }

  lemma ChoiceKeeps(c: Call, choice: Choice)
    requires Inv(c) && c.state == Choosing
    ensures Inv(Chosen(c, choice))
  {
    hide Voices, Dialled;
    ChosenKeeps(c, choice);
  }

  lemma GoodbyeKeeps(c: Call)
    requires Inv(c)
    ensures Inv(Ends(Logs(Logs(c, Prompt), EndSession)))
  {
    hide Voices, Dialled;
    LogKeeps(c, Prompt);
    LogKeeps(Logs(c, Prompt), EndSession);
    EndsKeeps(Logs(Logs(c, Prompt), EndSession));
  }

  lemma SwitchKeeps(c: Call, choice: Choice)
    requires Inv(c) && c.state == Connected
    ensures Inv(Chosen(Ends(c).(state := Choosing), choice))
  {
    hide HearAll, TokensOf, InTurn, Dialled;
    EndsKeeps(c);
    var c' := Ends(c).(state := Choosing);
    assert Voices(c') && Quiet(c');
    hide Voices;
    ChosenKeeps(c', choice);
  }

  lemma SaidKeeps(c: Call, text: string)
    requires Inv(c) && c.state == Connected
    ensures Inv(StartTurn(c, Voice, text))
  {
    hide Voices, Dialled, Silenced;
    SilencedKeeps(c);
    SilencedFrame(c);
    OpensKeeps(Silenced(c), Voice, text, None);
  }

  lemma SilencedFrame(c: Call)
    ensures var c' := Silenced(c);
            c'.state == c.state && c'.keys == c.keys && c'.flush == c.flush && c'.dialled == c.dialled
  {
  }

  lemma FlushKeeps(c: Call, p: Policy)
    requires Inv(c)
    ensures Inv(Next(c, KeysFlushed, p))
  {
    if c.flush {
      var c' := c.(keys := "", flush := false);
      KeysTaken(c);
      hide Voices, Quiet, Dialled, Silenced;
      SilencedKeeps(c');
      SilencedFrame(c');
      OpensKeeps(Silenced(c'), Dtmf, c.keys, None);
    }
  }

  lemma KeysTaken(c: Call)
    requires Voices(c)
    ensures Voices(c.(keys := "", flush := false))
  {
    hide HearAll, TokensOf, InTurn;
  }

  lemma InterruptKeeps(c: Call)
    requires Inv(c)
    ensures Inv(Silenced(c))
  {
    hide HearAll, TokensOf, InTurn, Dialled, Silenced, Faithful, OneVoice;
    SilencedKeeps(c);
    SilencedFrame(c);
  }

  lemma HangupKeeps(c: Call)
    requires Inv(c)
    ensures Inv(Ends(c))
  {
    hide HearAll, TokensOf, InTurn, Dialled, Faithful, OneVoice;
    EndsKeeps(c);
  }

  lemma SetupKeeps(c: Call, listed: bool, locked: bool, p: Policy)
    requires Inv(c)
    ensures Inv(Next(c, Setup(listed, locked), p))
  {
    hide HearAll, TokensOf, InTurn, Dialled;
    if c.state == Idle {
      assert Voices(c.(state := Ending));
      LogKeeps(c.(state := Ending), EndSession);
    }
  }

  lemma EmitsKeepsInv(c: Call, k: nat, event: TurnEvent, p: Policy)
    requires Inv(c)
    ensures Inv(Next(c, TurnEmits(k, event), p))
  {
    hide Voices, Dialled, Hear;
    if k < |c.turns| && !c.turns[k].over && !c.turns[k].dropped {
      EmitsKeeps(c, k, event, p);
    } else {
      DrainedIsNothing(c, k, event, p);
    }
  }

  lemma StreamEndKeepsInv(c: Call, k: nat, failed: bool, p: Policy)
    requires Inv(c)
    ensures Inv(Next(c, TurnEnds(k, failed), p))
  {
    hide Voices, Dialled;
    if k < |c.turns| && !c.turns[k].over {
      EndsStreamKeeps(c, k);
      LogKeepsIf(c.(turns := c.turns[k := c.turns[k].(over := true)]), failed && !c.turns[k].dropped);
    }
  }

  lemma KeepsInv(c: Call, e: Event, p: Policy)
    requires Inv(c)
    ensures Inv(Next(c, e, p))
  {
    match e
    case Key(digit) => hide *; KeyKeeps(c, digit, p); KeyNext(c, digit, p);
    case Speech(_, _, _, _) => hide *; SpeechKeeps(c, e); SpeechNext(c, e, p);
    case KeysFlushed => hide *; FlushKeeps(c, p);
    case Interrupt => hide *; InterruptKeeps(c); OtherNext(c, e, p);
    case Hangup => hide *; HangupKeeps(c); OtherNext(c, e, p);
    case Setup(listed, locked) => hide *; SetupKeeps(c, listed, locked, p);
    case TurnEmits(k, event) => hide *; EmitsKeepsInv(c, k, event, p);
    case TurnEnds(k, failed) => hide *; StreamEndKeepsInv(c, k, failed, p);
  }

  lemma KeyNext(c: Call, digit: char, p: Policy)
    ensures Next(c, Key(digit), p) == OnKey(c, digit, p)
  {
    hide OnKey;
  }

  lemma SpeechNext(c: Call, e: Event, p: Policy)
    requires e.Speech?
    ensures Next(c, e, p) == OnSpeech(c, e)
  {
    hide OnSpeech;
  }

  lemma OtherNext(c: Call, e: Event, p: Policy)
    ensures e.Interrupt? ==> Next(c, e, p) == if c.state == Connected then Silenced(c) else c
    ensures e.Hangup? ==> Next(c, e, p) == Ends(c)
  {
    hide Silenced, Ends;
  }

  lemma LogKeepsIf(c: Call, logs: bool)
    requires Voices(c)
    ensures logs ==> Voices(Logs(c, Prompt)) && Dialled(Logs(c, Prompt).log) == Dialled(c.log)
  {
    LogKeeps(c, Prompt);
  }

  lemma DrainedIsNothing(c: Call, k: nat, event: TurnEvent, p: Policy)
    requires k < |c.turns| ==> c.turns[k].over || c.turns[k].dropped
    ensures Next(c, TurnEmits(k, event), p) == c
  {
    if k < |c.turns| && !c.turns[k].over {
      assert c.turns[k := c.turns[k]] == c.turns;
    }
  }

  lemma {:induction false} RunKeepsInv(c: Call, events: seq<Event>, p: Policy)
    requires Inv(c)
    ensures Inv(RunFrom(c, events, p))
    decreases |events|
  {
    hide Inv, Next;
    if events != [] {
      KeepsInv(c, events[0], p);
      RunKeepsInv(Next(c, events[0], p), events[1..], p);
    }
  }

  /** Over any call: one voice at a time, no word of a turn after a newer one opened, and no key lost or repeated. */
  lemma OneVoiceAtATime(events: seq<Event>, p: Policy)
    ensures var c := RunFrom(Start, events, p);
            OneVoice(c) && InTurn(c.log, |c.turns|) && Dialled(c.log) + c.keys == c.dialled
  {
    assert Inv(Start);
    RunKeepsInv(Start, events, p);
  }

  /** A turn heard to its one terminal status said exactly its text, and `last` on its final token only. */
  lemma TurnIsSpokenExactly(events: seq<Event>, p: Policy, k: nat, es: seq<TurnEvent>, message: string)
    requires k < |RunFrom(Start, events, p).turns|
    requires RunFrom(Start, events, p).turns[k].heard == es + [Status(true, message)] && Running(es)
    ensures SaidExactly(TokensOf(RunFrom(Start, events, p).log, k), k, Utterance(es, message), "")
  {
    assert Inv(Start);
    RunKeepsInv(Start, events, p);
    hide HearAll, TokensOf, RunFrom;
    UtteranceIsExact(Silent, k, es, message);
  }

  /** Keys typed to one agent and not sent when the call switches go to the next one, before its own. */
  lemma KeysFollowTheCall(c: Call, text: string, digit: char, p: Policy)
    requires c.state == Connected
    ensures var c' := RunFrom(c, [Speech(text, true, Ask, Switch(Connect(None))), Key(digit), KeysFlushed], p);
            c'.log != [] && c'.log[|c'.log| - 1] == Opened(|c.turns|, Dtmf, c.keys + [digit])
  {
    hide Silenced;
    var events := [Speech(text, true, Ask, Switch(Connect(None))), Key(digit), KeysFlushed];
    var c1 := Next(c, events[0], p);
    var c2 := Next(c1, events[1], p);
    var c3 := Next(c2, events[2], p);
    assert events[1..] == [events[1], events[2]] && events[1..][1..] == [events[2]] && [events[2]][1..] == [];
    assert RunFrom(c, events, p) == RunFrom(c1, events[1..], p);
    assert RunFrom(c1, events[1..], p) == RunFrom(c2, [events[2]], p) == c3;
    SameTurns(c2.(keys := "", flush := false));
  }

  lemma SameTurns(c: Call)
    ensures |Silenced(c).turns| == |c.turns|
  {
  }
}
