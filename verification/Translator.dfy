/**
  The turn translator: frames of a Claude Code session become events of tasks. A turn may
  consume several sends, and which ones is inferred from a queue count; every send is settled
  once.

  The steps are functions of the translator's state and log what it publishes, journals and
  resolves; module TurnTranslation runs them in place.
 */
module Translator {
  import opened Options

  /** One send awaiting its turn: the uuid stamped on it, and the task it claims when it is a turn's primary. */
  datatype Send = Send(uuid: nat, task: nat)

  datatype CardStatus = Running | Done | FailedCard

  datatype TaskState = Completed | Failed | Canceled | InputRequired

  /** What the translator does that others see. */
  datatype Out =
    | Working(task: nat)
    | Chunk(task: nat, text: string, append: bool, last: bool)
    | ToolCard(task: nat, id: nat, status: CardStatus, append: bool)
    | Ended(task: nat, state: TaskState)
    | FoldedInto(send: Send, primary: nat)
    | NeverAnswered(send: Send)
    | Journaled(uuid: nat, state: TaskState)
    | Resolved(uuid: nat)

  // ------------------------------------------------------------- one turn

  /** A drawn tool card, or a toolbelt call whose card is held until it settles. */
  datatype OpenTool = OpenTool(id: nat, deferred: bool)

  datatype Turn = Turn(
    send: Send,
    openSeq: nat,
    emittedText: string,
    pendingChunk: Option<string>,
    chunksEmitted: nat,
    sawStreamText: bool,
    openTools: seq<OpenTool>,
    activityEmitted: nat,
    interrupted: bool,
    terminalEmitted: bool)

  /** A turn after a step, and what the step published. */
  datatype Did = Did(turn: Turn, out: seq<Out>)

  function Then(a: Did, b: Did): Did { Did(b.turn, a.out + b.out) }

  lemma ThenAgain(a: Did, b: Did, c: Did)
    ensures Then(a, Then(b, c)) == Then(Then(a, b), c)
  {
    assert a.out + (b.out + c.out) == (a.out + b.out) + c.out;
  }

  function EmitChunk(t: Turn, text: string, last: bool): Did {
    Did(t.(chunksEmitted := t.chunksEmitted + 1, emittedText := t.emittedText + text),
        [Chunk(t.send.task, text, t.chunksEmitted > 0, last)])
  }

  /** One chunk is held back, so that the final one can say it is. */
  function PushText(t: Turn, text: string): Did {
    if text == "" then Did(t, [])
    else
      match t.pendingChunk
      case None => Did(t.(pendingChunk := Some(text)), [])
      case Some(held) =>
        var d := EmitChunk(t, held, false);
        Did(d.turn.(pendingChunk := Some(text)), d.out)
  }

  function FlushText(t: Turn, last: bool): Did {
    match t.pendingChunk
    case None => Did(t, [])
    case Some(held) =>
      var d := EmitChunk(t, held, last);
      Did(d.turn.(pendingChunk := None), d.out)
  }

  function EmitActivity(t: Turn, id: nat, status: CardStatus): Did {
    Did(t.(activityEmitted := t.activityEmitted + 1), [ToolCard(t.send.task, id, status, t.activityEmitted > 0)])
  }

  /** Where a tool is among the open ones, or their number. */
  function ToolAt(tools: seq<OpenTool>, id: nat): (i: nat)
    ensures i <= |tools|
    ensures i < |tools| ==> tools[i].id == id
    ensures forall j :: 0 <= j < i ==> tools[j].id != id
  {
    if tools == [] then 0 else if tools[0].id == id then 0 else 1 + ToolAt(tools[1..], id)
  }

  function OpenActivity(t: Turn, id: nat, deferred: bool): Did {
    if ToolAt(t.openTools, id) < |t.openTools| then Did(t, [])
    else
      var d := FlushText(t.(openTools := t.openTools + [OpenTool(id, deferred)]), false);
      if deferred then d else Then(d, EmitActivity(d.turn, id, Running))
  }

  function SettleActivity(t: Turn, id: nat, isError: bool, redundant: bool): Did {
    var i := ToolAt(t.openTools, id);
    if i == |t.openTools| then Did(t, [])
    else
      var d := FlushText(t.(openTools := t.openTools[..i] + t.openTools[i + 1..]), false);
      if t.openTools[i].deferred && redundant then d
      else Then(d, EmitActivity(d.turn, id, if isError then FailedCard else Done))
  }

  /** Settles the cards whose result never arrived. */
  function CloseOpenActivities(t: Turn, status: CardStatus): Did
    decreases |t.openTools|
  {
    if t.openTools == [] then Did(t, [])
    else
      var d := EmitActivity(t.(openTools := t.openTools[1..]), t.openTools[0].id, status);
      Then(d, CloseOpenActivities(d.turn, status))
  }

  // ------------------------------------------------------------- frames

  datatype Block = TextBlock(text: string) | ToolUse(id: nat, deferred: bool)

  datatype ToolResult = ToolResult(id: nat, isError: bool, redundant: bool)

  datatype Outcome = Success | SuccessWithError | DeferredToolUse | Error

  /** A frame of the session's own; what a subagent emits, and every other kind, is `Other`. */
  datatype Frame =
    | StreamEvent(stamp: Option<nat>, delta: Option<string>)
    | Assistant(stamp: Option<nat>, aborted: bool, blocks: seq<Block>)
    | User(results: seq<ToolResult>)
    | Result(stamp: Option<nat>, queued: nat, outcome: Outcome)
    | Other

  function OnDelta(t: Turn, text: string): Did {
    PushText(t.(sawStreamText := true), text)
  }

  function OnBlock(t: Turn, b: Block): Did {
    match b
    case ToolUse(id, deferred) => OpenActivity(t, id, deferred)
    case TextBlock(text) => if t.sawStreamText then Did(t, []) else PushText(t, text)
  }

  function OnBlocks(t: Turn, blocks: seq<Block>): Did
    decreases |blocks|
  {
    if blocks == [] then Did(t, [])
    else
      var d := OnBlock(t, blocks[0]);
      Then(d, OnBlocks(d.turn, blocks[1..]))
  }

  function OnResults(t: Turn, results: seq<ToolResult>): Did
    decreases |results|
  {
    if results == [] then Did(t, [])
    else
      var d := SettleActivity(t, results[0].id, results[0].isError, results[0].redundant);
      Then(d, OnResults(d.turn, results[1..]))
  }

  /** What a frame does to the open turn. */
  function TurnFrame(t: Turn, f: Frame): Did {
    match f
    case StreamEvent(_, delta) => if delta.Some? then OnDelta(t, delta.value) else Did(t, [])
    case Assistant(_, aborted, blocks) => OnBlocks(t.(interrupted := t.interrupted || aborted), blocks)
    case User(results) => OnResults(t, results)
    case Result(_, _, _) => Did(t, [])
    case Other => Did(t, [])
  }

  /** How a turn's text and cards end, when its result has come. */
  function Finish(t: Turn, state: TaskState): Did {
    var d := CloseOpenActivities(t, if state == Completed || state == InputRequired then Done else FailedCard);
    Then(d, FlushText(d.turn, true))
  }

  // ------------------------------------------------------------- the translator

  datatype State = State(
    pending: seq<Send>,
    seqCounter: nat,
    seqOf: map<nat, nat>,
    turn: Option<Turn>,
    waiters: seq<nat>,
    cancelRequested: set<nat>,
    ended: bool,
    log: seq<Out>)

  const FRESH := State([], 0, map[], None, [], {}, false, [])

  function Log(st: State, out: seq<Out>): State { st.(log := st.log + out) }

  function Without(waiters: seq<nat>, uuid: nat): seq<nat> {
    if waiters == [] then []
    else if waiters[0] == uuid then waiters[1..]
    else [waiters[0]] + Without(waiters[1..], uuid)
  }

  /** A waiter is resolved once: one already gone stays gone. */
  function ResolveWaiter(st: State, uuid: nat): State {
    var st1 := st.(waiters := Without(st.waiters, uuid), seqOf := st.seqOf - {uuid});
    if uuid in st.waiters then Log(st1, [Resolved(uuid)]) else st1
  }

  /** A send is registered; refused once the stream has ended. */
  function RegisterSend(st: State, send: Send): State {
    if st.ended then st
    else
      st.(pending := st.pending + [send],
          seqCounter := st.seqCounter + 1,
          seqOf := st.seqOf[send.uuid := st.seqCounter + 1],
          waiters := if send.uuid in st.waiters then st.waiters else st.waiters + [send.uuid])
  }

  function MarkCancelRequested(st: State, task: nat): State {
    var st1 := st.(cancelRequested := st.cancelRequested + {task});
    if st.turn.Some? && st.turn.value.send.task == task
    then st1.(turn := Some(st.turn.value.(interrupted := true)))
    else st1
  }

  /** A terminal event for the task was published elsewhere. */
  function MarkTerminalEmitted(st: State, task: nat): State {
    if st.turn.Some? && st.turn.value.send.task == task
    then st.(turn := Some(st.turn.value.(terminalEmitted := true)))
    else st
  }

  /** The first pending send with this uuid, or their number. */
  function PendingAt(pending: seq<Send>, uuid: nat): (i: nat)
    ensures i <= |pending|
    ensures i < |pending| ==> pending[i].uuid == uuid
    ensures forall j :: 0 <= j < i ==> pending[j].uuid != uuid
  {
    if pending == [] then 0 else if pending[0].uuid == uuid then 0 else 1 + PendingAt(pending[1..], uuid)
  }

  /** The send a turn is bound to: the one stamped on its frame, else the oldest waiting. */
  function Primary(pending: seq<Send>, stamp: Option<nat>): Option<Send> {
    if pending == [] then None
    else
      match stamp
      case None => Some(pending[0])
      case Some(uuid) =>
        var i := PendingAt(pending, uuid);
        Some(if i < |pending| then pending[i] else pending[0])
  }

  function NewTurn(send: Send, openSeq: nat, interrupted: bool): Turn {
    Turn(send, openSeq, "", None, 0, false, [], 0, interrupted, false)
  }

  function OpenTurn(st: State, stamp: Option<nat>): State {
    match Primary(st.pending, stamp)
    case None => st
    case Some(send) =>
      Log(st.(turn := Some(NewTurn(send, st.seqCounter, send.task in st.cancelRequested))), [Working(send.task)])
  }

  function OpenIfNone(st: State, stamp: Option<nat>): State {
    if st.turn.None? then OpenTurn(st, stamp) else st
  }

  function WithTurn(st: State, d: Did): State {
    Log(st.(turn := Some(d.turn)), d.out)
  }

  // ------------------------------------------------------------- folding

  function Drop(sends: seq<Send>, uuid: nat): seq<Send> {
    if sends == [] then []
    else if sends[0].uuid == uuid then Drop(sends[1..], uuid)
    else [sends[0]] + Drop(sends[1..], uuid)
  }

  function DropAll(sends: seq<Send>, uuids: set<nat>): seq<Send> {
    if sends == [] then []
    else if sends[0].uuid in uuids then DropAll(sends[1..], uuids)
    else [sends[0]] + DropAll(sends[1..], uuids)
  }

  /** The sends registered by `openSeq`: those a turn opened then may have consumed. */
  function Eligible(sends: seq<Send>, seqOf: map<nat, nat>, openSeq: nat): (r: seq<Send>)
    ensures |r| <= |sends|
  {
    if sends == [] then []
    else
      var s := sends[0];
      (if s.uuid in seqOf && seqOf[s.uuid] <= openSeq then [s] else []) + Eligible(sends[1..], seqOf, openSeq)
  }

  function Max0(x: int): nat { if x < 0 then 0 else x }

  /** How many eligible sends the turn folded, from the queue count its result reports. */
  function FoldCount(eligible: nat, ineligible: nat, queued: nat): nat {
    Max0(eligible - Max0(queued - ineligible))
  }

  function Uuids(sends: seq<Send>): set<nat> {
    set s | s in sends :: s.uuid
  }

  datatype Fold = Fold(folded: seq<Send>, pending: seq<Send>)

  /** Which sends the turn consumed, the primary first, and which are still pending. */
  function TakeFolded(st: State, primary: Send, openSeq: nat, queued: nat): Fold {
    var rest := Drop(st.pending, primary.uuid);
    var eligible := Eligible(rest, st.seqOf, openSeq);
    var extra := FoldCount(|eligible|, |rest| - |eligible|, queued);
    var folded := eligible[..Min(extra, |eligible|)];
    Fold([primary] + folded, DropAll(rest, Uuids(folded)))
  }

  function Min(a: nat, b: nat): nat { if a < b then a else b }

  function TerminalState(st: State, t: Turn, outcome: Outcome): TaskState {
    if t.interrupted || t.send.task in st.cancelRequested then Canceled
    else
      match outcome
      case Success => Completed
      case SuccessWithError => Failed
      case DeferredToolUse => InputRequired
      case Error => Failed
  }

  /** Every folded send is answered by the primary's task, and its waiter resolved. */
  function SettleFolded(st: State, folded: seq<Send>, primary: Send): State
    decreases |folded|
  {
    if folded == [] then st
    else
      var s := folded[0];
      var st1 := if s.uuid != primary.uuid then Log(st, [FoldedInto(s, primary.task)]) else st;
      SettleFolded(ResolveWaiter(st1, s.uuid), folded[1..], primary)
  }

  function SettleTurn(st: State, queued: nat, outcome: Outcome): State
    requires st.turn.Some?
  {
    var t := st.turn.value;
    var fold := TakeFolded(st, t.send, t.openSeq, queued);
    var state := TerminalState(st, t, outcome);
    var st1 := Log(st.(pending := fold.pending), [Journaled(t.send.uuid, state)]);
    var st2 := Log(st1, Finish(t, state).out);
    var st3 := if t.terminalEmitted then st2 else Log(st2, [Ended(t.send.task, state)]);
    var st4 := SettleFolded(st3, fold.folded, t.send);
    st4.(cancelRequested := st4.cancelRequested - {t.send.task}, turn := None)
  }

  function HandleResult(st: State, stamp: Option<nat>, queued: nat, outcome: Outcome): State {
    var st1 := OpenIfNone(st, stamp);
    if st1.turn.None? then st1 else SettleTurn(st1, queued, outcome)
  }

  function HandleFrame(st: State, f: Frame): State {
    match f
    case StreamEvent(stamp, delta) =>
      var st1 := if stamp.Some? then OpenIfNone(st, stamp) else st;
      var st2 := if delta.Some? then OpenIfNone(st1, None) else st1;
      if st2.turn.None? then st2 else WithTurn(st2, TurnFrame(st2.turn.value, f))
    case Assistant(stamp, _, _) =>
      var st1 := OpenIfNone(st, stamp);
      if st1.turn.None? then st1 else WithTurn(st1, TurnFrame(st1.turn.value, f))
    case User(_) =>
      if st.turn.None? then st else WithTurn(st, TurnFrame(st.turn.value, f))
    case Result(stamp, queued, outcome) => HandleResult(st, stamp, queued, outcome)
    case Other => st
  }

  // ------------------------------------------------------------- the end of the stream

  /** Every send still pending fails; the one already journaled is not journaled again. */
  function FailAll(st: State, sends: seq<Send>, recorded: Option<nat>): State
    decreases |sends|
  {
    if sends == [] then st
    else
      var s := sends[0];
      var st1 := Log(st, [NeverAnswered(s)]);
      var st2 := if recorded == Some(s.uuid) then st1 else Log(st1, [Journaled(s.uuid, Failed)]);
      FailAll(ResolveWaiter(st2, s.uuid), sends[1..], recorded)
  }

  /** The open turn fails loudly, unless its terminal event was already published. */
  function FailTurn(st: State): State
    requires st.turn.Some?
  {
    var t := st.turn.value;
    var st1 := Log(st, Finish(t, Failed).out + [Ended(t.send.task, Failed), Journaled(t.send.uuid, Failed)]);
    ResolveWaiter(st1, t.send.uuid).(turn := None)
  }

  function EndStream(st: State): State {
    if st.ended then st
    else
      var st1 := st.(ended := true);
      var failing := st.turn.Some? && !st.turn.value.terminalEmitted;
      var recorded := if failing then Some(st.turn.value.send.uuid) else None;
      var st2 := if failing then FailTurn(st1) else st1;
      FailAll(st2, st2.pending, recorded).(pending := [])
  }

  // ------------------------------------------------------------- runs

  datatype Event =
    | Register(send: Send)
    | CancelRequested(task: nat)
    | TerminalEmitted(task: nat)
    | Arrives(frame: Frame)
    | StreamEnds

  function Handle(st: State, e: Event): State {
    match e
    case Register(send) => RegisterSend(st, send)
    case CancelRequested(task) => MarkCancelRequested(st, task)
    case TerminalEmitted(task) => MarkTerminalEmitted(st, task)
    case Arrives(frame) => HandleFrame(st, frame)
    case StreamEnds => EndStream(st)
  }

  function Run(st: State, events: seq<Event>): State
    decreases |events|
  {
    if events == [] then st else Run(Handle(st, events[0]), events[1..])
  }
}
