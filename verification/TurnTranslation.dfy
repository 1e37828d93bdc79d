/**
  The turn translator as it runs: an object whose fields each frame updates in place, every
  method proved against the function of module Translator.
 */
module TurnTranslation {
  import opened Options
  import T = Translator
  import A = TurnAccounts

  class TurnTranslator {
    var pending: seq<T.Send>
    var seqCounter: nat
    var seqOf: map<nat, nat>
    var turn: Option<T.Turn>
    /** Uuids of the waiters not resolved yet, in insertion order. */
    var waiters: seq<nat>
    var cancelRequested: set<nat>
    var ended: bool
    /** What was published, journaled and resolved, in order. */
    var log: seq<T.Out>
    /** The last total recorded, of one counter, and what all its records add up to. */
    var cumulative: nat
    var journaled: nat

    ghost function View(): T.State
      reads this
    {
      T.State(pending, seqCounter, seqOf, turn, waiters, cancelRequested, ended, log)
    }

    ghost function Meter(): A.Meter
      reads this
    {
      A.Meter(View(), cumulative, journaled)
    }

    constructor ()
      ensures View() == T.FRESH && Meter() == A.NEW
    {
      pending, seqCounter, seqOf, turn := [], 0, map[], None;
      waiters, cancelRequested, ended, log := [], {}, false, [];
      cumulative, journaled := 0, 0;
    }

    /** Refused once the stream has ended. */
    method RegisterSend(send: T.Send) returns (accepted: bool)
      modifies this`pending, this`seqCounter, this`seqOf, this`waiters
      ensures View() == T.RegisterSend(old(View()), send)
      ensures accepted == !old(ended)
    {
      if ended {
        return false;
      }
      pending := pending + [send];
      seqCounter := seqCounter + 1;
      seqOf := seqOf[send.uuid := seqCounter];
      if send.uuid !in waiters {
        waiters := waiters + [send.uuid];
      }
      accepted := true;
    }

    method MarkCancelRequested(task: nat)
      modifies this`cancelRequested, this`turn
      ensures View() == T.MarkCancelRequested(old(View()), task)
    {
      cancelRequested := cancelRequested + {task};
      if turn.Some? && turn.value.send.task == task {
        turn := Some(turn.value.(interrupted := true));
      }
    }

    method MarkTerminalEmitted(task: nat)
      modifies this`turn
      ensures View() == T.MarkTerminalEmitted(old(View()), task)
    {
      if turn.Some? && turn.value.send.task == task {
        turn := Some(turn.value.(terminalEmitted := true));
      }
    }

    // ----------------------------------------------------------- text and cards

    method EmitChunk(text: string, last: bool)
      requires turn.Some?
      modifies this`turn, this`log
      ensures View() == T.WithTurn(old(View()), T.EmitChunk(old(turn.value), text, last))
    {
      var t := turn.value;
      log := log + [T.Chunk(t.send.task, text, t.chunksEmitted > 0, last)];
      turn := Some(t.(chunksEmitted := t.chunksEmitted + 1, emittedText := t.emittedText + text));
    }

    method PushText(text: string)
      requires turn.Some?
      modifies this`turn, this`log
      ensures View() == T.WithTurn(old(View()), T.PushText(old(turn.value), text))
    {
      assert log + [] == log;
      if text == "" {
        return;
      }
      if turn.value.pendingChunk.Some? {
        EmitChunk(turn.value.pendingChunk.value, false);
      }
      turn := Some(turn.value.(pendingChunk := Some(text)));
    }

    method FlushText(last: bool)
      requires turn.Some?
      modifies this`turn, this`log
      ensures View() == T.WithTurn(old(View()), T.FlushText(old(turn.value), last))
    {
      assert log + [] == log;
      if turn.value.pendingChunk.Some? {
        EmitChunk(turn.value.pendingChunk.value, last);
        turn := Some(turn.value.(pendingChunk := None));
      }
    }

    method EmitActivity(id: nat, status: T.CardStatus)
      requires turn.Some?
      modifies this`turn, this`log
      ensures View() == T.WithTurn(old(View()), T.EmitActivity(old(turn.value), id, status))
    {
      var t := turn.value;
      log := log + [T.ToolCard(t.send.task, id, status, t.activityEmitted > 0)];
      turn := Some(t.(activityEmitted := t.activityEmitted + 1));
    }

    method OpenActivity(id: nat, deferred: bool)
      requires turn.Some?
      modifies this`turn, this`log
      ensures View() == T.WithTurn(old(View()), T.OpenActivity(old(turn.value), id, deferred))
    {
      assert log + [] == log;
      ghost var before := log;
      var t := turn.value;
      if T.ToolAt(t.openTools, id) < |t.openTools| {
        return;
      }
      turn := Some(t.(openTools := t.openTools + [T.OpenTool(id, deferred)]));
      ghost var d := T.FlushText(turn.value, false);
      FlushText(false);
      if deferred {
        return;
      }
      EmitActivity(id, T.Running);
      assert log == (before + d.out) + T.EmitActivity(d.turn, id, T.Running).out;
    }

    method SettleActivity(id: nat, isError: bool, redundant: bool)
      requires turn.Some?
      modifies this`turn, this`log
      ensures View() == T.WithTurn(old(View()), T.SettleActivity(old(turn.value), id, isError, redundant))
    {
      assert log + [] == log;
      ghost var before := log;
      var t := turn.value;
      var i := T.ToolAt(t.openTools, id);
      if i == |t.openTools| {
        return;
      }
      var open := t.openTools[i];
      turn := Some(t.(openTools := t.openTools[..i] + t.openTools[i + 1..]));
      ghost var d := T.FlushText(turn.value, false);
      FlushText(false);
      if open.deferred && redundant {
        return;
      }
      var status := if isError then T.FailedCard else T.Done;
      EmitActivity(id, status);
      assert log == (before + d.out) + T.EmitActivity(d.turn, id, status).out;
    }

    method CloseOpenActivities(status: T.CardStatus)
      requires turn.Some?
      modifies this`turn, this`log
      ensures View() == T.WithTurn(old(View()), T.CloseOpenActivities(old(turn.value), status))
    {
      assert log + [] == log;
      ghost var before := log;
      ghost var out: seq<T.Out> := [];
      ghost var whole := T.CloseOpenActivities(turn.value, status);
      while turn.value.openTools != []
        invariant turn.Some? && log == before + out
        invariant T.Then(T.Did(turn.value, out), T.CloseOpenActivities(turn.value, status)) == whole
        invariant View() == old(View()).(turn := turn, log := log)
        decreases |turn.value.openTools|
      {
        var t := turn.value;
        var id := t.openTools[0].id;
        turn := Some(t.(openTools := t.openTools[1..]));
        ghost var d := T.EmitActivity(turn.value, id, status);
        ghost var rest := T.CloseOpenActivities(d.turn, status);
        T.ThenAgain(T.Did(t, out), d, rest);
        EmitActivity(id, status);
        out := out + d.out;
      }
      assert out + [] == out;
    }

    // ----------------------------------------------------------- frames

    method OpenTurn(stamp: Option<nat>)
      modifies this`turn, this`log
      ensures View() == T.OpenTurn(old(View()), stamp)
    {
      if pending == [] {
        return;
      }
      var send := pending[0];
      if stamp.Some? {
        var i := T.PendingAt(pending, stamp.value);
        if i < |pending| {
          send := pending[i];
        }
      }
      turn := Some(T.NewTurn(send, seqCounter, send.task in cancelRequested));
      log := log + [T.Working(send.task)];
    }

    method HandleStreamEvent(stamp: Option<nat>, delta: Option<string>)
      modifies this`turn, this`log
      ensures View() == T.HandleFrame(old(View()), T.StreamEvent(stamp, delta))
    {
      if turn.None? && stamp.Some? {
        OpenTurn(stamp);
      }
      assert log + [] == log;
      if delta.Some? {
        if turn.None? {
          OpenTurn(None);
        }
        if turn.Some? {
          turn := Some(turn.value.(sawStreamText := true));
          PushText(delta.value);
        }
      }
    }

    method HandleAssistant(stamp: Option<nat>, aborted: bool, blocks: seq<T.Block>)
      modifies this`turn, this`log
      ensures View() == T.HandleFrame(old(View()), T.Assistant(stamp, aborted, blocks))
    {
      hide T.OnBlocks, T.NewTurn, T.PendingAt;
      if turn.None? {
        OpenTurn(stamp);
      }
      if turn.None? {
        return;
      }
      if aborted {
        turn := Some(turn.value.(interrupted := true));
      }
      OnBlocks(blocks);
    }

    method OnBlocks(blocks: seq<T.Block>)
      requires turn.Some?
      modifies this`turn, this`log
      ensures View() == T.WithTurn(old(View()), T.OnBlocks(old(turn.value), blocks))
    {
      hide T.OnBlock;
      ghost var bound := View();
      ghost var out: seq<T.Out> := [];
      ghost var whole := T.OnBlocks(turn.value, blocks);
      assert log + [] == log;
      for i := 0 to |blocks|
        invariant turn.Some? && log == bound.log + out
        invariant T.Then(T.Did(turn.value, out), T.OnBlocks(turn.value, blocks[i..])) == whole
        invariant View() == bound.(turn := turn, log := log)
      {
        ghost var d := T.OnBlock(turn.value, blocks[i]);
        ghost var rest := T.OnBlocks(d.turn, blocks[i + 1..]);
        assert blocks[i..][0] == blocks[i] && blocks[i..][1..] == blocks[i + 1..];
        T.ThenAgain(T.Did(turn.value, out), d, rest);
        OnBlock(blocks[i]);
        out := out + d.out;
      }
      assert out + [] == out;
    }

    method OnBlock(block: T.Block)
      requires turn.Some?
      modifies this`turn, this`log
      ensures View() == T.WithTurn(old(View()), T.OnBlock(old(turn.value), block))
    {
      assert log + [] == log;
      match block
      case ToolUse(id, deferred) => OpenActivity(id, deferred);
      case TextBlock(text) =>
        if !turn.value.sawStreamText {
          PushText(text);
        }
    }

    method HandleUser(results: seq<T.ToolResult>)
      modifies this`turn, this`log
      ensures View() == T.HandleFrame(old(View()), T.User(results))
    {
      hide T.SettleActivity;
      if turn.None? {
        return;
      }
      ghost var out: seq<T.Out> := [];
      ghost var whole := T.OnResults(turn.value, results);
      assert log + [] == log;
      for i := 0 to |results|
        invariant turn.Some? && log == old(log) + out
        invariant T.Then(T.Did(turn.value, out), T.OnResults(turn.value, results[i..])) == whole
        invariant View() == old(View()).(turn := turn, log := log)
      {
        var r := results[i];
        ghost var d := T.SettleActivity(turn.value, r.id, r.isError, r.redundant);
        ghost var rest := T.OnResults(d.turn, results[i + 1..]);
        assert results[i..][0] == r && results[i..][1..] == results[i + 1..];
        T.ThenAgain(T.Did(turn.value, out), d, rest);
        SettleActivity(r.id, r.isError, r.redundant);
        out := out + d.out;
      }
      assert out + [] == out;
    }

    // ----------------------------------------------------------- settling

    method ResolveWaiter(uuid: nat)
      modifies this`waiters, this`seqOf, this`log
      ensures View() == T.ResolveWaiter(old(View()), uuid)
    {
      if uuid in waiters {
        log := log + [T.Resolved(uuid)];
      }
      waiters := T.Without(waiters, uuid);
      seqOf := seqOf - {uuid};
    }

    /** Which sends this turn consumed; the others stay pending. */
    method TakeFolded(primary: T.Send, openSeq: nat, queuedTurnCount: nat) returns (folded: seq<T.Send>)
      modifies this`pending
      ensures var fold := T.TakeFolded(old(View()), primary, openSeq, queuedTurnCount);
              folded == fold.folded && View() == old(View()).(pending := fold.pending)
    {
      var rest := T.Drop(pending, primary.uuid);
      var eligible := T.Eligible(rest, seqOf, openSeq);
      var ineligibleCount := |rest| - |eligible|;
      var queuedEligible := T.Max0(queuedTurnCount - ineligibleCount);
      var foldedExtra := T.Max0(|eligible| - queuedEligible);
      var extra := eligible[..T.Min(foldedExtra, |eligible|)];
      pending := T.DropAll(rest, T.Uuids(extra));
      folded := [primary] + extra;
    }

    method TerminalStateFor(t: T.Turn, outcome: T.Outcome) returns (state: T.TaskState)
      ensures state == T.TerminalState(View(), t, outcome)
    {
      if t.interrupted || t.send.task in cancelRequested {
        return T.Canceled;
      }
      match outcome
      case Success => state := T.Completed;
      case SuccessWithError => state := T.Failed;
      case DeferredToolUse => state := T.InputRequired;
      case Error => state := T.Failed;
    }

    /** Closes the turn's cards and flushes its text. */
    method FinishTurn(state: T.TaskState)
      requires turn.Some?
      modifies this`turn, this`log
      ensures View() == T.WithTurn(old(View()), T.Finish(old(turn.value), state))
    {
      hide T.CloseOpenActivities;
      ghost var before := log;
      var status := if state == T.Completed || state == T.InputRequired then T.Done else T.FailedCard;
      ghost var d := T.CloseOpenActivities(turn.value, status);
      CloseOpenActivities(status);
      ghost var f := T.FlushText(d.turn, true);
      FlushText(true);
      assert log == (before + d.out) + f.out == before + (d.out + f.out);
    }

    /** Answers every folded send with the primary's task. */
    method SettleFolded(folded: seq<T.Send>, primary: T.Send)
      modifies this`waiters, this`seqOf, this`log
      ensures View() == T.SettleFolded(old(View()), folded, primary)
    {
      hide T.ResolveWaiter;
      for i := 0 to |folded|
        invariant T.SettleFolded(View(), folded[i..], primary) == T.SettleFolded(old(View()), folded, primary)
      {
        var send := folded[i];
        assert folded[i..][0] == send && folded[i..][1..] == folded[i + 1..];
        if send.uuid != primary.uuid {
          log := log + [T.FoldedInto(send, primary.task)];
        }
        ResolveWaiter(send.uuid);
      }
    }

    /** A session process that starts says so. */
    method OnInit()
      modifies this`cumulative
      ensures Meter() == A.OnInit(old(Meter()))
    {
      cumulative := 0;
    }

    method RecordAccounting(total: nat)
      modifies this`cumulative, this`journaled
      ensures cumulative == total && journaled == old(journaled) + A.Delta(total, old(cumulative))
      ensures Meter() == A.RecordAccounting(old(Meter()), total)
    {
      journaled := journaled + (if total >= cumulative then total - cumulative else total);
      cumulative := total;
    }

    method HandleResult(stamp: Option<nat>, queued: nat, outcome: T.Outcome, total: nat)
      modifies this
      ensures View() == T.HandleResult(old(View()), stamp, queued, outcome)
      ensures Meter() == A.OnResult(old(Meter()), stamp, queued, outcome, total)
    {
      hide T.SettleTurn;
      if turn.None? {
        OpenTurn(stamp);
      }
      if turn.None? {
        return;
      }
      SettleTurn(queued, outcome, total);
    }

    method SettleTurn(queued: nat, outcome: T.Outcome, total: nat)
      requires turn.Some?
      modifies this
      ensures View() == T.SettleTurn(old(View()), queued, outcome)
      ensures cumulative == total && journaled == old(journaled) + A.Delta(total, old(cumulative))
    {
      hide T.TakeFolded, T.Finish, T.SettleFolded, T.TerminalState, A.RecordAccounting, A.Delta;
      ghost var bound := View();
      var t := turn.value;
      var folded := TakeFolded(t.send, t.openSeq, queued);
      var state := TerminalStateFor(t, outcome);
      SameTerminal(bound, View(), t, outcome);
      RecordAccounting(total);
      log := log + [T.Journaled(t.send.uuid, state)];
      ghost var st1 := View();
      FinishTurn(state);
      KeepsTerminal(t, state);
      assert View().(turn := Some(t)) == T.Log(st1, T.Finish(t, state).out);
      if !turn.value.terminalEmitted {
        log := log + [T.Ended(t.send.task, state)];
        turn := Some(turn.value.(terminalEmitted := true));
      }
      ghost var st3 := View().(turn := Some(t));
      IgnoresTurn(st3, folded, t.send, turn);
      assert st3.(turn := turn) == View();
      SettleFolded(folded, t.send);
      cancelRequested := cancelRequested - {t.send.task};
      turn := None;
    }

    static lemma SameTerminal(a: T.State, b: T.State, t: T.Turn, outcome: T.Outcome)
      requires a.cancelRequested == b.cancelRequested
      ensures T.TerminalState(a, t, outcome) == T.TerminalState(b, t, outcome)
    {
    }

    static lemma {:induction false} CloseKeepsTerminal(t: T.Turn, status: T.CardStatus)
      ensures T.CloseOpenActivities(t, status).turn.terminalEmitted == t.terminalEmitted
      decreases |t.openTools|
    {
      if t.openTools != [] {
        CloseKeepsTerminal(T.EmitActivity(t.(openTools := t.openTools[1..]), t.openTools[0].id, status).turn, status);
      }
    }

    static lemma KeepsTerminal(t: T.Turn, state: T.TaskState)
      ensures T.Finish(t, state).turn.terminalEmitted == t.terminalEmitted
    {
      hide T.CloseOpenActivities;
      CloseKeepsTerminal(t, if state == T.Completed || state == T.InputRequired then T.Done else T.FailedCard);
    }

    /** Settling sends looks only at the waiters. */
    static lemma {:induction false} IgnoresTurn(st: T.State, folded: seq<T.Send>, primary: T.Send, turn: Option<T.Turn>)
      ensures T.SettleFolded(st.(turn := turn), folded, primary) == T.SettleFolded(st, folded, primary).(turn := turn)
      decreases |folded|
    {
      if folded != [] {
        var s := folded[0];
        var st1 := if s.uuid != primary.uuid then T.Log(st, [T.FoldedInto(s, primary.task)]) else st;
        IgnoresTurn(T.ResolveWaiter(st1, s.uuid), folded[1..], primary, turn);
      }
    }

    // ----------------------------------------------------------- the end of the stream

    method EndStream()
      modifies this`pending, this`turn, this`waiters, this`seqOf, this`ended, this`log
      ensures View() == T.EndStream(old(View()))
    {
      hide T.Finish, T.ResolveWaiter;
      if ended {
        return;
      }
      ended := true;
      var recorded: Option<nat> := None;
      if turn.Some? && !turn.value.terminalEmitted {
        ghost var before := View();
        var t := turn.value;
        FinishTurn(T.Failed);
        assert log == before.log + T.Finish(t, T.Failed).out;
        log := log + [T.Ended(t.send.task, T.Failed), T.Journaled(t.send.uuid, T.Failed)];
        assert log == before.log
            + (T.Finish(t, T.Failed).out + [T.Ended(t.send.task, T.Failed), T.Journaled(t.send.uuid, T.Failed)]);
        recorded := Some(t.send.uuid);
        ResolveIgnoresTurn(View(), t.send.uuid, before.turn);
        ResolveWaiter(t.send.uuid);
        turn := None;
        assert View() == T.FailTurn(before);
      }
      ghost var mid := View();
      for i := 0 to |pending|
        invariant pending == mid.pending
        invariant T.FailAll(View(), pending[i..], recorded) == T.FailAll(mid, mid.pending, recorded)
      {
        var send := pending[i];
        assert pending[i..][0] == send && pending[i..][1..] == pending[i + 1..];
        log := log + [T.NeverAnswered(send)];
        if recorded != Some(send.uuid) {
          log := log + [T.Journaled(send.uuid, T.Failed)];
        }
        ResolveWaiter(send.uuid);
        ResolveKeepsPending(mid, send.uuid);
      }
      pending := [];
    }

    static lemma ResolveIgnoresTurn(st: T.State, uuid: nat, turn: Option<T.Turn>)
      ensures T.ResolveWaiter(st.(turn := turn), uuid).(turn := None) == T.ResolveWaiter(st, uuid).(turn := None)
    {
    }

    static lemma ResolveKeepsPending(st: T.State, uuid: nat)
      ensures T.ResolveWaiter(st, uuid).pending == st.pending
    {
    }

    /** A frame; a result comes with the running total it reports. */
    method HandleFrame(frame: T.Frame, total: nat)
      modifies this
      ensures View() == T.HandleFrame(old(View()), frame)
      ensures Meter() == A.OnFrame(old(Meter()), frame, total)
    {
      match frame
      case StreamEvent(stamp, delta) => HandleStreamEvent(stamp, delta);
      case Assistant(stamp, aborted, blocks) => HandleAssistant(stamp, aborted, blocks);
      case User(results) => HandleUser(results);
      case Result(stamp, queued, outcome) => HandleResult(stamp, queued, outcome, total);
      case Other =>
    }
  }
}
