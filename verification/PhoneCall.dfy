/**
  One phone call, from setup to hangup: the PIN gate, the choice of an agent, and the turns
  whose output is spoken. What was understood from speech comes in with the event.
 */
module PhoneCall {
  import opened Options

  datatype CallState = Idle | Authenticating | Choosing | Connected | Ending

  /** What an agent's stream brings. */
  datatype TurnEvent =
    | TaskStarted(task: string)
    | Artifact(text: string)
    | Status(terminal: bool, message: string)

  /** The chunk kept back, and all that was said. */
  datatype Speaking = Speaking(held: Option<string>, spoken: string)

  /** `heard` is history: what was taken from the stream before it was dropped. */
  datatype Turn = Turn(task: Option<string>, speaking: Speaking, dropped: bool, over: bool, heard: seq<TurnEvent>)

  datatype Kind = Voice | Dtmf | Resubscribed

  /** Everything with an effect outside the call, in order. */
  datatype Out =
    | Verified(digits: string, ok: bool)
    | Prompt
    | Token(turn: nat, text: string, last: bool)
    | Opened(turn: nat, kind: Kind, body: string)
    | Cancelled(task: string)
    | FailedCall
    | EndSession

  /**
    `flush` says the timer for the keys runs. `typed` and `dialled` are history: keys pressed
    at the gate and while connected.
   */
  datatype Call = Call(
    state: CallState, pin: string, attempts: nat, turns: seq<Turn>, keys: string, flush: bool,
    log: seq<Out>, typed: string, dialled: string, admitted: bool)

  /** What a choice came to. */
  datatype Choice = Ask | Connect(running: Option<string>)

  /** What an utterance to an agent came to. */
  datatype Meaning = Goodbye | Switch(choice: Choice) | Answered | Said

  datatype Event =
    | Setup(listed: bool, locked: bool)
    | Key(digit: char)
    | Speech(text: string, final: bool, choice: Choice, meaning: Meaning)
    | Interrupt
    | TurnEmits(turn: nat, event: TurnEvent)
    | TurnEnds(turn: nat, failed: bool)
    | KeysFlushed
    | Hangup

  datatype Policy = Policy(verify: string -> bool, maxAttempts: nat)

  const PIN_LENGTH: nat := 8
  const Start: Call := Call(Idle, "", 0, [], "", false, [], "", "", false)

  // ------------------------------------------------------------- one turn

  const Silent: Speaking := Speaking(None, "")
  const NewTurn: Turn := Turn(None, Silent, false, false, [])

  /** One chunk is held back: only the stream's end says which token was the last. */
  function Hear(s: Speaking, n: nat, e: TurnEvent): (Speaking, seq<Out>) {
    match e
    case TaskStarted(_) => (s, [])
    case Artifact(text) =>
      if text == "" then (s, [])
      else if s.held.None? then (s.(held := Some(text)), [])
      else (Speaking(Some(text), s.spoken + s.held.value), [Token(n, s.held.value, false)])
    case Status(terminal, message) =>
      if !terminal then (s, []) else
        var final := if s.held.Some? then s.held.value else message;
        if final != "" then (Speaking(None, s.spoken + final), [Token(n, final, true)])
        else if s.spoken != "" then (s.(held := None), [Token(n, "", true)])
        else (s.(held := None), [])
  }

  /** A dropped turn is drained and nothing of it forwarded. */
  function Emitted(turn: Turn, n: nat, e: TurnEvent): (Turn, seq<Out>) {
    if turn.dropped then (turn, []) else
      var (speaking, out) := Hear(turn.speaking, n, e);
      var task := if e.TaskStarted? then Some(e.task) else turn.task;
      (turn.(task := task, speaking := speaking, heard := turn.heard + [e]), out)
  }

  // ------------------------------------------------------------- the turns of a call

  /** The turn whose stream is open, if any: always the newest. */
  predicate HasTurn(c: Call) {
    c.turns != [] && !c.turns[|c.turns| - 1].over
  }

  function Dropped(c: Call): Call {
    if !HasTurn(c) then c
    else c.(turns := c.turns[|c.turns| - 1 := c.turns[|c.turns| - 1].(dropped := true)])
  }

  /** Dropping a turn by an interrupt or a newer utterance also cancels its task, once it has one. */
  function Silenced(c: Call): Call {
    if !HasTurn(c) || c.turns[|c.turns| - 1].dropped then c else
      var task := c.turns[|c.turns| - 1].task;
      var c' := Dropped(c);
      if task.Some? then c'.(log := c.log + [Cancelled(task.value)]) else c'
  }

  function Opens(c: Call, kind: Kind, body: string, task: Option<string>): Call {
    c.(turns := c.turns + [NewTurn.(task := task)], log := c.log + [Opened(|c.turns|, kind, body)])
  }

  function StartTurn(c: Call, kind: Kind, body: string): Call {
    Opens(Silenced(c), kind, body, None)
  }

  function Ends(c: Call): Call {
    if c.state == Ending then c else Dropped(c).(state := Ending, flush := false)
  }

  function Logs(c: Call, out: Out): Call {
    c.(log := c.log + [out])
  }

  /** The agent is chosen; a task still running there is picked up again. */
  function Chosen(c: Call, choice: Choice): Call {
    match choice
    case Ask => Logs(c, Prompt)
    case Connect(running) =>
      var c' := Logs(c.(state := Connected), Prompt);
      if running.Some? then Opens(Logs(c', Prompt), Resubscribed, "", running) else c'
  }

  // ------------------------------------------------------------- the gate

  predicate Terminator(digit: char) {
    digit == '#' || digit == '*'
  }

  function Checked(c: Call, p: Policy): Call {
    var entered := c.pin;
    var ok := p.verify(entered);
    var c' := Logs(c.(pin := ""), Verified(entered, ok));
    if ok then Logs(c'.(attempts := 0, state := Choosing), Prompt)
    else if c.attempts + 1 >= p.maxAttempts then
      Logs(Logs(Logs(c'.(attempts := c.attempts + 1, state := Ending), FailedCall), Prompt), EndSession)
    else Logs(c'.(attempts := c.attempts + 1), Prompt)
  }

  function PinDigit(c: Call, digit: char, p: Policy): Call {
    if Terminator(digit) then
      if c.pin == "" then c else Checked(c, p)
    else
      var c' := c.(pin := c.pin + [digit], typed := c.typed + [digit]);
      if |c'.pin| < PIN_LENGTH then c' else Checked(c', p)
  }

  // ------------------------------------------------------------- events

  function OnSpeech(c: Call, e: Event): Call
    requires e.Speech?
  {
    if !e.final then c
    else if c.state == Choosing then Chosen(c, e.choice)
    else if c.state == Connected then
      match e.meaning
      case Goodbye => Ends(Logs(Logs(c, Prompt), EndSession))
      case Switch(choice) => Chosen(Ends(c).(state := Choosing), choice)
      case Answered => Logs(c, Prompt)
      case Said => StartTurn(c, Voice, e.text)
    else c
  }

  function OnKey(c: Call, digit: char, p: Policy): Call {
    match c.state
    case Authenticating => PinDigit(c, digit, p)
    case Connected => c.(keys := c.keys + [digit], flush := true, dialled := c.dialled + [digit])
    case _ => c
  }

  function Next(c: Call, e: Event, p: Policy): Call {
    match e
    case Setup(listed, locked) =>
      if c.state != Idle then c
      else if !listed || locked then Logs(c.(state := Ending), EndSession)
      else c.(state := Authenticating, admitted := true)
    case Key(digit) => OnKey(c, digit, p)
    case Speech(_, _, _, _) => OnSpeech(c, e)
    case Interrupt => if c.state == Connected then Silenced(c) else c
    case TurnEmits(k, event) =>
      if k >= |c.turns| || c.turns[k].over then c else
        var (t, out) := Emitted(c.turns[k], k, event);
        c.(turns := c.turns[k := t], log := c.log + out)
    case TurnEnds(k, failed) =>
      if k >= |c.turns| || c.turns[k].over then c else
        var c' := c.(turns := c.turns[k := c.turns[k].(over := true)]);
        if failed && !c.turns[k].dropped then Logs(c', Prompt) else c'
    case KeysFlushed =>
      if !c.flush then c
      else if c.keys == "" || c.state != Connected then c.(keys := "", flush := false)
      else StartTurn(c.(keys := "", flush := false), Dtmf, c.keys)
    case Hangup => Ends(c)
  }

  function RunFrom(c: Call, events: seq<Event>, p: Policy): Call
    decreases |events|
  {
    if events == [] then c else RunFrom(Next(c, events[0], p), events[1..], p)
  }
}
