/** The call engine as it runs: one object per call, changed by each event in turn. */
module PhoneEngine {
  import opened Options
  import opened PhoneCall

  class CallEngine {
    const policy: Policy
    var state: CallState
    var pin: string
    var attempts: nat
    var turns: seq<Turn>
    var keys: string
    var flush: bool
    var log: seq<Out>
    ghost var typed: string
    ghost var dialled: string
    ghost var admitted: bool

    ghost function View(): Call
      reads this
    {
      Call(state, pin, attempts, turns, keys, flush, log, typed, dialled, admitted)
    }

    constructor (policy: Policy)
      ensures this.policy == policy && View() == Start
    {
      this.policy := policy;
      state, pin, attempts, turns, keys, flush, log := Idle, "", 0, [], "", false, [];
      typed, dialled, admitted := "", "", false;
    }

    method Log(out: Out)
      modifies this`log
      ensures View() == Logs(old(View()), out)
    {
      log := log + [out];
    }

    method OnSetup(listed: bool, locked: bool)
      requires state == Idle
      modifies this
      ensures View() == Next(old(View()), Setup(listed, locked), policy)
    {
      if !listed || locked {
        state := Ending;
        Log(EndSession);
        return;
      }
      state := Authenticating;
      admitted := true;
    }

    method OnPinDigit(digit: char)
      requires state == Authenticating
      modifies this
      ensures View() == PinDigit(old(View()), digit, policy)
    {
      if digit == '#' || digit == '*' {
        if |pin| == 0 {
          return;
        }
      } else {
        pin := pin + [digit];
        typed := typed + [digit];
        if |pin| < PIN_LENGTH {
          return;
        }
      }
      var entered := pin;
      pin := "";
      var ok := policy.verify(entered);
      Log(Verified(entered, ok));
      if ok {
        attempts := 0;
        state := Choosing;
        Log(Prompt);
        return;
      }
      attempts := attempts + 1;
      if attempts >= policy.maxAttempts {
        state := Ending;
        Log(FailedCall);
        Log(Prompt);
        Log(EndSession);
        return;
      }
      Log(Prompt);
    }

    /** A key: a digit of the PIN, one for the agent, or none at all. */
    method OnAnyKey(digit: char)
      modifies this
      ensures View() == Next(old(View()), Key(digit), policy)
    {
      match state
      case Authenticating => OnPinDigit(digit);
      case Connected => OnKey(digit);
      case _ =>
    }

    /** Drops the turn whose stream is open; its task keeps running. */
    method Drop()
      modifies this`turns
      ensures View() == Dropped(old(View()))
    {
      if turns != [] && !turns[|turns| - 1].over {
        turns := turns[|turns| - 1 := turns[|turns| - 1].(dropped := true)];
      }
    }

    method Hangup()
      modifies this
      ensures View() == Ends(old(View()))
    {
      if state == Ending {
        return;
      }
      state := Ending;
      flush := false;
      Drop();
    }

    method OnInterrupt()
      modifies this
      ensures View() == Silenced(old(View()))
    {
      if turns == [] || turns[|turns| - 1].over || turns[|turns| - 1].dropped {
        return;
      }
      var task := turns[|turns| - 1].task;
      Drop();
      if task.Some? {
        Log(Cancelled(task.value));
      }
    }

    /** One utterance is one turn; one still streaming is dropped and cancelled first. */
    method StartTurn(kind: Kind, body: string)
      modifies this
      ensures View() == PhoneCall.StartTurn(old(View()), kind, body)
    {
      OnInterrupt();
      Open(kind, body, None);
    }

    method Open(kind: Kind, body: string, task: Option<string>)
      modifies this
      ensures View() == Opens(old(View()), kind, body, task)
    {
      Log(Opened(|turns|, kind, body));
      turns := turns + [NewTurn.(task := task)];
    }

    method OnChoice(choice: Choice)
      modifies this
      ensures View() == Chosen(old(View()), choice)
    {
      match choice
      case Ask => Log(Prompt);
      case Connect(running) =>
        state := Connected;
        Log(Prompt);
        if running.Some? {
          Log(Prompt);
          Open(Resubscribed, "", running);
        }
    }

    method OnUtterance(text: string, meaning: Meaning, choice: Choice)
      requires state == Connected
      modifies this
      ensures View() == Next(old(View()), Speech(text, true, choice, meaning), policy)
    {
      match meaning
      case Goodbye =>
        Log(Prompt);
        Log(EndSession);
        Hangup();
      case Switch(to) =>
        Hangup();
        state := Choosing;
        OnChoice(to);
      case Answered => Log(Prompt);
      case Said => StartTurn(Voice, text);
    }

    method OnKey(digit: char)
      requires state == Connected
      modifies this
      ensures View() == Next(old(View()), Key(digit), policy)
    {
      keys := keys + [digit];
      dialled := dialled + [digit];
      flush := true;
    }

    method FlushKeys()
      requires flush
      modifies this
      ensures View() == Next(old(View()), KeysFlushed, policy)
    {
      var digits := keys;
      keys := "";
      flush := false;
      if digits != "" && state == Connected {
        StartTurn(Dtmf, digits);
      }
    }

    /** What the stream of turn `k` brings is spoken, one chunk behind. */
    method OnTurnEvent(k: nat, event: TurnEvent)
      requires k < |turns| && !turns[k].over && !turns[k].dropped
      modifies this
      ensures View() == Next(old(View()), TurnEmits(k, event), policy)
    {
      var turn := turns[k];
      var out: seq<Out> := [];
      match event {
        case TaskStarted(task) => turn := turn.(task := Some(task));
        case Artifact(text) =>
          if text != "" {
            if turn.speaking.held.Some? {
              var said := turn.speaking.held.value;
              out := [Token(k, said, false)];
              turn := turn.(speaking := Speaking(Some(text), turn.speaking.spoken + said));
            } else {
              turn := turn.(speaking := turn.speaking.(held := Some(text)));
            }
          }
        case Status(terminal, message) =>
          if terminal {
            var closing := turn.speaking.held.GetOr("");
            var trailing := if turn.speaking.held.None? then message else "";
            var final := closing + trailing;
            assert final == if turn.speaking.held.Some? then turn.speaking.held.value else message;
            if final != "" {
              out := [Token(k, final, true)];
            } else if turn.speaking.spoken != "" {
              out := [Token(k, "", true)];
            }
            turn := turn.(speaking := Speaking(None, turn.speaking.spoken + final));
            assert final == "" ==> turn.speaking.spoken == turns[k].speaking.spoken;
          }
      }
      turn := turn.(heard := turn.heard + [event]);
      turns := turns[k := turn];
      log := log + out;
    }

    method OnTurnEnd(k: nat, failed: bool)
      requires k < |turns| && !turns[k].over
      modifies this
      ensures View() == Next(old(View()), TurnEnds(k, failed), policy)
    {
      var dropped := turns[k].dropped;
      turns := turns[k := turns[k].(over := true)];
      if failed && !dropped {
        Log(Prompt);
      }
    }
  }
}
