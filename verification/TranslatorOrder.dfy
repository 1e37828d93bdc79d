/**
  In which order a turn publishes: text and cards interleave just as they were heard. Every text
  is a chunk of its own, what is heard before a tool call or its result is out before its card,
  and only what is still held at the result comes last.
 */
module TranslatorOrder {
  import opened Options
  import opened Translator
  import opened TranslatorTurn

  /** What others see of a turn: text, and cards. */
  datatype Item = Said(task: nat, text: string, last: bool) | Drew(task: nat, id: nat, status: CardStatus)

  function ItemOf(o: Out): seq<Item> {
    match o
    case Chunk(task, text, _, last) => [Said(task, text, last)]
    case ToolCard(task, id, status, _) => [Drew(task, id, status)]
    case _ => []
  }

  function Items(out: seq<Out>): seq<Item> {
    if out == [] then [] else ItemOf(out[0]) + Items(out[1..])
  }

  // ------------------------------------------------------------- what is heard

  /** What the frames bring, one thing after another. */
  datatype Input =
    | Words(text: string)
    | Call(id: nat, deferred: bool)
    | Return(id: nat, isError: bool, redundant: bool)

  /** Text blocks are heard only where no delta was. */
  function BlockInputs(blocks: seq<Block>, streamed: bool): seq<Input> {
    if blocks == [] then []
    else
      (match blocks[0]
       case ToolUse(id, deferred) => [Call(id, deferred)]
       case TextBlock(text) => if streamed then [] else [Words(text)])
      + BlockInputs(blocks[1..], streamed)
  }

  function ReturnInputs(results: seq<ToolResult>): seq<Input> {
    if results == [] then []
    else [Return(results[0].id, results[0].isError, results[0].redundant)] + ReturnInputs(results[1..])
  }

  function FrameInputs(f: Frame, streamed: bool): seq<Input> {
    match f
    case StreamEvent(_, delta) => if delta.Some? then [Words(delta.value)] else []
    case Assistant(_, _, blocks) => BlockInputs(blocks, streamed)
    case User(results) => ReturnInputs(results)
    case _ => []
  }

  predicate Streams(f: Frame) {
    f.StreamEvent? && f.delta.Some?
  }

  function Inputs(frames: seq<Frame>, streamed: bool): seq<Input>
    decreases |frames|
  {
    if frames == [] then []
    else FrameInputs(frames[0], streamed) + Inputs(frames[1..], streamed || Streams(frames[0]))
  }

  // ------------------------------------------------------------- telling it at once

  /** The calls open, in the order they were opened, and the text not told yet when a result would come. */
  datatype Telling = Telling(open: seq<OpenTool>, held: Option<string>, told: seq<Item>)

  predicate IsOpen(open: seq<OpenTool>, id: nat) {
    exists i :: 0 <= i < |open| && open[i].id == id
  }

  function Deferred(open: seq<OpenTool>, id: nat): bool {
    exists i :: 0 <= i < |open| && open[i].id == id && open[i].deferred
  }

  function Closed(open: seq<OpenTool>, id: nat): seq<OpenTool> {
    if open == [] then [] else (if open[0].id == id then [] else [open[0]]) + Closed(open[1..], id)
  }

  /**
    A teller who holds nothing back: text is told when it is heard, a card is drawn when a call is
    opened or returns. A call made twice and a return of none are nothing; a deferred call is drawn
    only when it returns, unless as redundant.
   */
  function Tell(task: nat, t: Telling, input: Input): Telling {
    match input
    case Words(text) =>
      if text == "" then t else Telling(t.open, Some(text), t.told + [Said(task, text, false)])
    case Call(id, deferred) =>
      if IsOpen(t.open, id) then t
      else
        Telling(t.open + [OpenTool(id, deferred)], None, t.told + if deferred then [] else [Drew(task, id, Running)])
    case Return(id, isError, redundant) =>
      if !IsOpen(t.open, id) then t
      else
        Telling(Closed(t.open, id), None,
                t.told + if Deferred(t.open, id) && redundant then []
                    else [Drew(task, id, if isError then FailedCard else Done)])
  }

  function TellAll(task: nat, t: Telling, inputs: seq<Input>): Telling
    decreases |inputs|
  {
    if inputs == [] then t else TellAll(task, Tell(task, t, inputs[0]), inputs[1..])
  }

  lemma {:induction false} TellTwice(task: nat, t: Telling, a: seq<Input>, b: seq<Input>)
    ensures TellAll(task, t, a + b) == TellAll(task, TellAll(task, t, a), b)
    decreases |a|
  {
    hide Tell;
    if a == [] {
      assert a + b == b;
    } else {
      assert (a + b)[0] == a[0] && (a + b)[1..] == a[1..] + b;
      TellTwice(task, Tell(task, t, a[0]), a[1..], b);
    }
  }

  function HeldItem(task: nat, held: Option<string>, last: bool): seq<Item> {
    if held.Some? then [Said(task, held.value, last)] else []
  }

  /** The turn is where the teller is, but for the text it holds. */
  ghost predicate Behind(t: Turn, out: seq<Out>, told: Telling) {
    && Distinct(t.openTools)
    && t.openTools == told.open && t.pendingChunk == told.held
    && (told.held.Some? ==> told.held.value != "")
    && told.told == Items(out) + HeldItem(t.send.task, told.held, false)
  }

  ghost predicate Distinct(tools: seq<OpenTool>) {
    forall i, j :: 0 <= i < j < |tools| ==> tools[i].id != tools[j].id
  }

  lemma {:induction false} ItemsAppend(a: seq<Out>, b: seq<Out>)
    ensures Items(a + b) == Items(a) + Items(b)
    decreases |a|
  {
    hide ItemOf;
    if a == [] {
      assert a + b == b;
    } else {
      assert (a + b)[0] == a[0] && (a + b)[1..] == a[1..] + b;
      ItemsAppend(a[1..], b);
    }
  }

  lemma OneItem(o: Out)
    ensures Items([o]) == ItemOf(o) && Items([]) == []
  {
    assert [o][1..] == [] && ItemOf(o) + [] == ItemOf(o);
  }

  // ------------------------------------------------------------- step by step

  lemma PushTells(t: Turn, out: seq<Out>, told: Telling, text: string)
    requires Behind(t, out, told)
    ensures var d := PushText(t, text);
            Behind(d.turn, out + d.out, Tell(t.send.task, told, Words(text))) && d.turn.send == t.send
  {
    hide Items;
    var d := PushText(t, text);
    ItemsAppend(out, d.out);
    if d.out != [] { OneItem(d.out[0]); } else { OneItem(Working(0)); }
  }

  lemma FlushTells(t: Turn, last: bool)
    ensures var d := FlushText(t, last);
            && d.turn == t.(pendingChunk := None, chunksEmitted := d.turn.chunksEmitted,
                            emittedText := d.turn.emittedText)
            && Items(d.out) == HeldItem(t.send.task, t.pendingChunk, last)
  {
    hide Items;
    var d := FlushText(t, last);
    if d.out != [] { OneItem(d.out[0]); } else { OneItem(Working(0)); }
  }

  lemma EmitTells(t: Turn, id: nat, status: CardStatus)
    ensures var d := EmitActivity(t, id, status);
            && d.turn == t.(activityEmitted := d.turn.activityEmitted)
            && Items(d.out) == [Drew(t.send.task, id, status)]
  {
    hide Items;
    OneItem(EmitActivity(t, id, status).out[0]);
  }

  lemma OpenIff(tools: seq<OpenTool>, id: nat)
    ensures ToolAt(tools, id) < |tools| <==> IsOpen(tools, id)
  {
  }

  /** The text held goes out ahead of a card. */
  lemma CardTells(t: Turn, out: seq<Out>, id: nat, status: CardStatus)
    ensures var d := FlushText(t, false);
            var e := EmitActivity(d.turn, id, status);
            && Items(out + d.out) == Items(out) + HeldItem(t.send.task, t.pendingChunk, false)
            && Items(out + (d.out + e.out))
               == Items(out) + HeldItem(t.send.task, t.pendingChunk, false) + [Drew(t.send.task, id, status)]
  {
    hide Items, FlushText, EmitActivity;
    FlushTells(t, false);
    var d := FlushText(t, false);
    EmitTells(d.turn, id, status);
    ItemsAppend(out, d.out);
    ItemsAppend(d.out, EmitActivity(d.turn, id, status).out);
    ItemsAppend(out, d.out + EmitActivity(d.turn, id, status).out);
  }

  lemma CallTells(t: Turn, out: seq<Out>, told: Telling, id: nat, deferred: bool)
    requires Behind(t, out, told)
    ensures var d := OpenActivity(t, id, deferred);
            Behind(d.turn, out + d.out, Tell(t.send.task, told, Call(id, deferred))) && d.turn.send == t.send
  {
    hide Items, FlushText, EmitActivity;
    OpenIff(t.openTools, id);
    assert out + [] == out;
    if !IsOpen(t.openTools, id) {
      var t1 := t.(openTools := t.openTools + [OpenTool(id, deferred)]);
      FlushTells(t1, false);
      var d := FlushText(t1, false);
      EmitTells(d.turn, id, Running);
      CardTells(t1, out, id, Running);
    }
  }

  lemma {:induction false} ClosedIs(tools: seq<OpenTool>, i: nat)
    requires Distinct(tools) && i < |tools|
    ensures Closed(tools, tools[i].id) == tools[..i] + tools[i + 1..]
    decreases |tools|
  {
    var rest := tools[1..];
    if i == 0 {
      NoneClosed(rest, tools[0].id);
      assert [] + rest == rest;
    } else {
      assert rest[i - 1] == tools[i];
      ClosedIs(rest, i - 1);
      assert [tools[0]] + (rest[..i - 1] + rest[i..]) == tools[..i] + tools[i + 1..];
    }
  }

  lemma {:induction false} NoneClosed(tools: seq<OpenTool>, id: nat)
    requires !IsOpen(tools, id)
    ensures Closed(tools, id) == tools
    decreases |tools|
  {
    if tools != [] {
      assert forall i :: 0 <= i < |tools[1..]| ==> tools[1..][i] == tools[i + 1];
      NoneClosed(tools[1..], id);
    }
  }

  lemma ReturnTells(t: Turn, out: seq<Out>, told: Telling, id: nat, isError: bool, redundant: bool)
    requires Behind(t, out, told)
    ensures var d := SettleActivity(t, id, isError, redundant);
            && Behind(d.turn, out + d.out, Tell(t.send.task, told, Return(id, isError, redundant)))
            && d.turn.send == t.send && d.turn.sawStreamText == t.sawStreamText
  {
    hide Items, FlushText, EmitActivity;
    OpenIff(t.openTools, id);
    if IsOpen(t.openTools, id) {
      var i := ToolAt(t.openTools, id);
      var t1 := t.(openTools := t.openTools[..i] + t.openTools[i + 1..]);
      hide IsOpen, Deferred, Closed;
      ClosedIs(t.openTools, i);
      DeferredIs(t.openTools, i);
      StaysDistinct(t.openTools, i);
      FlushTells(t1, false);
      var d := FlushText(t1, false);
      var status := if isError then FailedCard else Done;
      EmitTells(d.turn, id, status);
      CardTells(t1, out, id, status);
    } else {
      assert out + [] == out;
    }
  }

  lemma StaysDistinct(tools: seq<OpenTool>, i: nat)
    requires Distinct(tools) && i < |tools|
    ensures Distinct(tools[..i] + tools[i + 1..])
  {
  }

  lemma DeferredIs(tools: seq<OpenTool>, i: nat)
    requires Distinct(tools) && i < |tools|
    ensures Deferred(tools, tools[i].id) == tools[i].deferred
  {
  }

  lemma {:induction false} BlocksTell(t: Turn, out: seq<Out>, told: Telling, blocks: seq<Block>)
    requires Behind(t, out, told)
    ensures var d := OnBlocks(t, blocks);
            && Behind(d.turn, out + d.out, TellAll(t.send.task, told, BlockInputs(blocks, t.sawStreamText)))
            && d.turn.send == t.send && d.turn.sawStreamText == t.sawStreamText
    decreases |blocks|
  {
    hide Behind, Tell, OpenActivity, PushText;
    if blocks == [] {
      assert out + [] == out;
    } else {
      var d := OnBlock(t, blocks[0]);
      var first := if blocks[0].ToolUse? then [Call(blocks[0].id, blocks[0].deferred)]
                   else if t.sawStreamText then [] else [Words(blocks[0].text)];
      OneBlockTells(t, out, told, blocks[0]);
      BlocksTell(d.turn, out + d.out, TellAll(t.send.task, told, first), blocks[1..]);
      TellTwice(t.send.task, told, first, BlockInputs(blocks[1..], t.sawStreamText));
      assert (out + d.out) + OnBlocks(d.turn, blocks[1..]).out == out + (d.out + OnBlocks(d.turn, blocks[1..]).out);
    }
  }

  lemma OneBlockTells(t: Turn, out: seq<Out>, told: Telling, b: Block)
    requires Behind(t, out, told)
    ensures var d := OnBlock(t, b);
            && Behind(d.turn, out + d.out,
                TellAll(t.send.task, told,
                    if b.ToolUse? then [Call(b.id, b.deferred)] else if t.sawStreamText then [] else [Words(b.text)]))
            && d.turn.send == t.send && d.turn.sawStreamText == t.sawStreamText
  {
    hide Behind, Tell;
    assert out + [] == out;
    match b
    case ToolUse(id, deferred) =>
      CallTells(t, out, told, id, deferred);
      TellOne(t.send.task, told, Call(id, deferred));
    case TextBlock(text) =>
      PushTells(t, out, told, text);
      TellOne(t.send.task, told, Words(text));
  }

  lemma TellOne(task: nat, told: Telling, input: Input)
    ensures TellAll(task, told, [input]) == Tell(task, told, input)
  {
    assert [input][1..] == [];
  }

  lemma {:induction false} ReturnsTell(t: Turn, out: seq<Out>, told: Telling, results: seq<ToolResult>)
    requires Behind(t, out, told)
    ensures var d := OnResults(t, results);
            && Behind(d.turn, out + d.out, TellAll(t.send.task, told, ReturnInputs(results)))
            && d.turn.send == t.send && d.turn.sawStreamText == t.sawStreamText
    decreases |results|
  {
    hide Behind, Tell, SettleActivity, TellAll;
    TellNone(t.send.task, told);
    if results == [] {
      assert out + [] == out;
    } else {
      var r := results[0];
      var first := Return(r.id, r.isError, r.redundant);
      var d := SettleActivity(t, r.id, r.isError, r.redundant);
      ReturnTells(t, out, told, r.id, r.isError, r.redundant);
      TellOne(t.send.task, told, first);
      ReturnsTell(d.turn, out + d.out, Tell(t.send.task, told, first), results[1..]);
      TellTwice(t.send.task, told, [first], ReturnInputs(results[1..]));
      assert (out + d.out) + OnResults(d.turn, results[1..]).out == out + (d.out + OnResults(d.turn, results[1..]).out);
    }
  }

  lemma TellNone(task: nat, told: Telling)
    ensures TellAll(task, told, []) == told
  {
  }

  lemma FrameTells(t: Turn, out: seq<Out>, told: Telling, f: Frame)
    requires Behind(t, out, told)
    ensures var d := TurnFrame(t, f);
            && Behind(d.turn, out + d.out, TellAll(t.send.task, told, FrameInputs(f, t.sawStreamText)))
            && d.turn.send == t.send && d.turn.sawStreamText == (t.sawStreamText || Streams(f))
  {
    hide Items, Tell, OnBlocks, OnResults;
    assert out + [] == out;
    match f
    case StreamEvent(_, delta) =>
      if delta.Some? {
        TellOne(t.send.task, told, Words(delta.value));
        PushTells(t.(sawStreamText := true), out, told, delta.value);
      }
    case Assistant(_, aborted, blocks) =>
      BlocksTell(t.(interrupted := t.interrupted || aborted), out, told, blocks);
    case User(results) => ReturnsTell(t, out, told, results);
    case _ =>
  }

  lemma {:induction false} FramesTell(t: Turn, out: seq<Out>, told: Telling, frames: seq<Frame>)
    requires Behind(t, out, told)
    ensures var d := TurnFrames(t, frames);
            && Behind(d.turn, out + d.out, TellAll(t.send.task, told, Inputs(frames, t.sawStreamText)))
            && d.turn.send == t.send
    decreases |frames|
  {
    hide Behind, Tell, TurnFrame, FrameInputs;
    if frames == [] {
      assert out + [] == out;
    } else {
      var d := TurnFrame(t, frames[0]);
      var first := FrameInputs(frames[0], t.sawStreamText);
      FrameTells(t, out, told, frames[0]);
      FramesTell(d.turn, out + d.out, TellAll(t.send.task, told, first), frames[1..]);
      TellTwice(t.send.task, told, first, Inputs(frames[1..], d.turn.sawStreamText));
      assert (out + d.out) + TurnFrames(d.turn, frames[1..]).out == out + (d.out + TurnFrames(d.turn, frames[1..]).out);
    }
  }

  // ------------------------------------------------------------- at the result

  /** The calls that never returned are closed, in order. */
  function Closings(task: nat, open: seq<OpenTool>, status: CardStatus): seq<Item> {
    if open == [] then [] else [Drew(task, open[0].id, status)] + Closings(task, open[1..], status)
  }

  lemma {:induction false} ClosingsTell(t: Turn, status: CardStatus)
    ensures var d := CloseOpenActivities(t, status);
            && Items(d.out) == Closings(t.send.task, t.openTools, status)
            && d.turn.pendingChunk == t.pendingChunk && d.turn.send == t.send
    decreases |t.openTools|
  {
    hide Items;
    if t.openTools == [] {
      OneItem(Working(0));
    } else {
      var d := EmitActivity(t.(openTools := t.openTools[1..]), t.openTools[0].id, status);
      EmitTells(t.(openTools := t.openTools[1..]), t.openTools[0].id, status);
      ClosingsTell(d.turn, status);
      ItemsAppend(d.out, CloseOpenActivities(d.turn, status).out);
    }
  }

  /** A turn that completed or asks a question leaves its steps done; any other leaves them failed. */
  function ClosedAs(state: TaskState): CardStatus {
    match state
    case Completed => Done
    case InputRequired => Done
    case Failed => FailedCard
    case Canceled => FailedCard
  }

  lemma FinishTells(t: Turn, state: TaskState)
    ensures Items(Finish(t, state).out)
         == Closings(t.send.task, t.openTools, ClosedAs(state)) + HeldItem(t.send.task, t.pendingChunk, true)
  {
    hide Items, CloseOpenActivities, FlushText;
    var d := CloseOpenActivities(t, ClosedAs(state));
    ClosingsTell(t, ClosedAs(state));
    FlushTells(d.turn, true);
    ItemsAppend(d.out, FlushText(d.turn, true).out);
  }

  /**
    A turn from its start to its result: what is told at once, but what is still held comes last,
    after the cards left open.
   */
  function InOrder(task: nat, frames: seq<Frame>, state: TaskState): seq<Item> {
    var told := TellAll(task, Telling([], None, []), Inputs(frames, false));
    (if told.held.Some? && told.told != [] then told.told[..|told.told| - 1] else told.told)
    + Closings(task, told.open, ClosedAs(state))
    + HeldItem(task, told.held, true)
  }

  /**
    A turn publishes its text and cards in the order it heard them, each text a chunk of its own;
    only a chunk still held when the result comes is published last, and marked so.
   */
  lemma TurnTellsInOrder(send: Send, openSeq: nat, interrupted: bool, frames: seq<Frame>, state: TaskState)
    ensures Items(TurnOut(send, openSeq, interrupted, frames, state)) == InOrder(send.task, frames, state)
  {
    hide Items, TurnFrames, TellAll, Inputs, Closings, Finish;
    var t := NewTurn(send, openSeq, interrupted);
    OneItem(Working(0));
    assert Behind(t, [], Telling([], None, []));
    FramesTell(t, [], Telling([], None, []), frames);
    var d := TurnFrames(t, frames);
    assert [] + d.out == d.out;
    FinishTells(d.turn, state);
    ItemsAppend(d.out, Finish(d.turn, state).out);
  }
}
