/** Whose keys an agent gets: those pressed since the call was connected to it, and any left over from before. */
module PhoneKeys {
  import opened Options
  import opened PhoneCall
  import opened PhoneSpeech

  /** The event connects the call to an agent, the first or another. */
  predicate Connects(c: Call, e: Event) {
    && e.Speech? && e.final
    && ((c.state == Choosing && e.choice.Connect?)
        || (c.state == Connected && e.meaning.Switch? && e.meaning.choice.Connect?))
  }

  predicate Flushes(c: Call, e: Event) {
    e.KeysFlushed? && c.flush && c.keys != "" && c.state == Connected
  }

  function Pressed(c: Call, e: Event): string {
    if e.Key? && c.state == Connected then [e.digit] else ""
  }

  /** The keys not sent yet: those pending when the call was last connected, and those pressed since. */
  datatype Trail = Trail(carried: string, own: string)

  function Follow(t: Trail, c: Call, e: Event): Trail {
    if Connects(c, e) then Trail(c.keys, "")
    else if Flushes(c, e) then Trail("", "")
    else Trail(t.carried, t.own + Pressed(c, e))
  }

  function TrailOf(c: Call, events: seq<Event>, p: Policy, t: Trail): Trail
    decreases |events|
  {
    if events == [] then t else TrailOf(Next(c, events[0], p), events[1..], p, Follow(t, c, events[0]))
  }

  lemma KeysStep(c: Call, e: Event, p: Policy, t: Trail)
    requires Inv(c) && c.keys == t.carried + t.own
    ensures var t' := Follow(t, c, e); Next(c, e, p).keys == t'.carried + t'.own
  {
    hide Voices, Quiet, Dialled, Checked, Emitted;
    assert (t.carried + t.own) + Pressed(c, e) == t.carried + (t.own + Pressed(c, e));
    assert t.own + "" == t.own;
    match e
    case Speech(text, final, choice, meaning) => SpeechKeepsKeys(c, e);
    case Key(digit) => KeyKeepsKeys(c, digit, p);
    case Interrupt => SilencedFrame(c);
    case KeysFlushed => SilencedFrame(c.(keys := "", flush := false));
    case _ =>
  }

  lemma SpeechKeepsKeys(c: Call, e: Event)
    requires e.Speech?
    ensures OnSpeech(c, e).keys == c.keys
  {
    SilencedFrame(c);
    hide Silenced;
  }

  lemma KeyKeepsKeys(c: Call, digit: char, p: Policy)
    ensures OnKey(c, digit, p).keys == if c.state == Connected then c.keys + [digit] else c.keys
  {
  }

  lemma {:induction false} KeysFollow(c: Call, events: seq<Event>, p: Policy, t: Trail)
    requires Inv(c) && c.keys == t.carried + t.own
    ensures var t' := TrailOf(c, events, p, t); RunFrom(c, events, p).keys == t'.carried + t'.own
    ensures Inv(RunFrom(c, events, p))
    decreases |events|
  {
    hide Inv, Next, Follow;
    if events != [] {
      KeysStep(c, events[0], p, t);
      KeepsInv(c, events[0], p);
      KeysFollow(Next(c, events[0], p), events[1..], p, Follow(t, c, events[0]));
    }
  }

  /**
    Over every call: what a flush sends are the keys pressed since the call was connected, after
    those left from before; so it sends only the agent's own exactly when no key was pending at
    the last connection, or those that were have been sent.
   */
  lemma OwnKeysIff(events: seq<Event>, p: Policy)
    requires Flushes(RunFrom(Start, events, p), KeysFlushed)
    ensures var c := RunFrom(Start, events, p);
            var t := TrailOf(Start, events, p, Trail("", ""));
            var log := Next(c, KeysFlushed, p).log;
            && log != [] && log[|log| - 1] == Opened(|c.turns|, Dtmf, t.carried + t.own)
            && (t.carried + t.own == t.own <==> t.carried == "")
  {
    hide RunFrom, TrailOf, Silenced;
    assert Inv(Start);
    KeysFollow(Start, events, p, Trail("", ""));
    var c := RunFrom(Start, events, p);
    SameTurns(c.(keys := "", flush := false));
    var t := TrailOf(Start, events, p, Trail("", ""));
    assert |t.carried + t.own| == |t.carried| + |t.own|;
  }
}
