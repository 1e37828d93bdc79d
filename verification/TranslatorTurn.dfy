/**
  What one turn publishes: the text it heard, exactly, in chunks that say whether they append
  and which is last; and one closing for every tool card it drew.
 */
module TranslatorTurn {
  import opened Options
  import opened Translator

  function TurnFrames(t: Turn, frames: seq<Frame>): Did
    decreases |frames|
  {
    if frames == [] then Did(t, [])
    else
      var d := TurnFrame(t, frames[0]);
      Then(d, TurnFrames(d.turn, frames[1..]))
  }

  // ------------------------------------------------------------- the text heard

  function BlocksText(blocks: seq<Block>): string {
    if blocks == [] then ""
    else (if blocks[0].TextBlock? then blocks[0].text else "") + BlocksText(blocks[1..])
  }

  /** The text of a turn: its deltas, and the text blocks that came before any delta. */
  function Heard(frames: seq<Frame>, streamed: bool): string
    decreases |frames|
  {
    if frames == [] then ""
    else
      match frames[0]
      case StreamEvent(_, delta) =>
        if delta.Some? then delta.value + Heard(frames[1..], true) else Heard(frames[1..], streamed)
      case Assistant(_, _, blocks) => (if streamed then "" else BlocksText(blocks)) + Heard(frames[1..], streamed)
      case _ => Heard(frames[1..], streamed)
  }

  /** All the text of the assistant frames. */
  function AssistantText(frames: seq<Frame>): string {
    if frames == [] then ""
    else (if frames[0].Assistant? then BlocksText(frames[0].blocks) else "") + AssistantText(frames[1..])
  }

  /** All the text of the deltas. */
  function DeltaText(frames: seq<Frame>): string {
    if frames == [] then ""
    else
      (if frames[0].StreamEvent? && frames[0].delta.Some? then frames[0].delta.value else "") + DeltaText(frames[1..])
  }

  /** The frames from the first delta on. */
  function FromDelta(frames: seq<Frame>): seq<Frame> {
    if frames == [] || (frames[0].StreamEvent? && frames[0].delta.Some?) then frames else FromDelta(frames[1..])
  }

  lemma {:induction false} OnceStreamed(frames: seq<Frame>)
    ensures Heard(frames, true) == DeltaText(frames)
    decreases |frames|
  {
    if frames != [] { OnceStreamed(frames[1..]); }
  }

  /** The text heard is all that the assistant frames say exactly when from the first delta on the deltas say it too. */
  lemma {:induction false} HeardIsAllIff(frames: seq<Frame>)
    ensures Heard(frames, false) == AssistantText(frames) <==>
              DeltaText(FromDelta(frames)) == AssistantText(FromDelta(frames))
    decreases |frames|
  {
    if frames != [] {
      if frames[0].StreamEvent? && frames[0].delta.Some? {
        OnceStreamed(frames[1..]);
      } else {
        HeardIsAllIff(frames[1..]);
        var before := if frames[0].Assistant? then BlocksText(frames[0].blocks) else "";
        SameStart(before, Heard(frames[1..], false), AssistantText(frames[1..]));
        assert "" + Heard(frames[1..], false) == Heard(frames[1..], false);
      }
    }
  }

  lemma SameStart(a: string, b: string, c: string)
    ensures a + b == a + c <==> b == c
  {
    assert (a + b)[|a|..] == b && (a + c)[|a|..] == c;
  }

  /** The chunks among what was published. */
  function Chunks(out: seq<Out>): seq<Out> {
    if out == [] then []
    else (if out[0].Chunk? then [out[0]] else []) + Chunks(out[1..])
  }

  function ToolCards(out: seq<Out>): seq<Out> {
    if out == [] then []
    else (if out[0].ToolCard? then [out[0]] else []) + ToolCards(out[1..])
  }

  function Text(out: seq<Out>): string {
    if out == [] then ""
    else (if out[0].Chunk? then out[0].text else "") + Text(out[1..])
  }

  lemma {:induction false} PartsOfAppend(a: seq<Out>, b: seq<Out>)
    ensures Chunks(a + b) == Chunks(a) + Chunks(b)
    ensures ToolCards(a + b) == ToolCards(a) + ToolCards(b)
    ensures Text(a + b) == Text(a) + Text(b)
    decreases |a|
  {
    if a == [] {
      assert a + b == b;
    } else {
      assert (a + b)[0] == a[0] && (a + b)[1..] == a[1..] + b;
      PartsOfAppend(a[1..], b);
      PartsUnfold(a);
      PartsUnfold(a + b);
      hide Chunks, ToolCards, Text;
    }
  }

  lemma PartsUnfold(out: seq<Out>)
    requires out != []
    ensures Chunks(out) == (if out[0].Chunk? then [out[0]] else []) + Chunks(out[1..])
    ensures ToolCards(out) == (if out[0].ToolCard? then [out[0]] else []) + ToolCards(out[1..])
    ensures Text(out) == (if out[0].Chunk? then out[0].text else "") + Text(out[1..])
  {
  }

  lemma {:induction false} ChunksAreChunks(out: seq<Out>)
    ensures forall i :: 0 <= i < |Chunks(out)| ==> Chunks(out)[i].Chunk?
    ensures forall i :: 0 <= i < |ToolCards(out)| ==> ToolCards(out)[i].ToolCard?
    ensures Text(out) == Text(Chunks(out))
    decreases |out|
  {
    if out != [] {
      ChunksAreChunks(out[1..]);
      if out[0].Chunk? {
        assert Chunks(out)[1..] == Chunks(out[1..]);
      } else {
        assert Chunks(out) == Chunks(out[1..]);
        assert Text(out) == "" + Text(out[1..]) == Text(out[1..]);
      }
    }
  }

  /** From the n-th on, every chunk but the very first appends. */
  ghost predicate Numbered(out: seq<Out>, chunks: nat, cards: nat) {
    && (forall i :: 0 <= i < |Chunks(out)| ==>
                      Chunks(out)[i].Chunk? && Chunks(out)[i].append == (chunks + i > 0) && Chunks(out)[i].text != "")
    && (forall i :: 0 <= i < |ToolCards(out)| ==>
        ToolCards(out)[i].ToolCard? && ToolCards(out)[i].append == (cards + i > 0))
  }

  ghost predicate NoneLast(out: seq<Out>) {
    forall i :: 0 <= i < |Chunks(out)| ==> Chunks(out)[i].Chunk? && !Chunks(out)[i].last
  }

  function Held(t: Turn): string { t.pendingChunk.GetOr("") }

  ghost predicate HoldsText(t: Turn) { t.pendingChunk.Some? ==> t.pendingChunk.value != "" }

  /** A step of the turn that takes in `text`: what it publishes, and what it holds back. */
  ghost predicate Carries(t: Turn, d: Did, text: string) {
    && d.turn.send == t.send
    && HoldsText(d.turn)
    && Text(d.out) + Held(d.turn) == Held(t) + text
    && Numbered(d.out, t.chunksEmitted, t.activityEmitted)
    && d.turn.chunksEmitted == t.chunksEmitted + |Chunks(d.out)|
    && d.turn.activityEmitted == t.activityEmitted + |ToolCards(d.out)|
    && d.turn.emittedText == t.emittedText + Text(d.out)
  }

  lemma CarriesThen(t: Turn, a: Did, b: Did, x: string, y: string)
    requires Carries(t, a, x) && Carries(a.turn, b, y)
    ensures Carries(t, Then(a, b), x + y)
    ensures NoneLast(a.out) && NoneLast(b.out) ==> NoneLast(Then(a, b).out)
  {
    hide Chunks, ToolCards, Text;
    PartsOfAppend(a.out, b.out);
    calc {
      Text(a.out + b.out) + Held(b.turn);
      Text(a.out) + (Text(b.out) + Held(b.turn));
      Text(a.out) + (Held(a.turn) + y);
      (Text(a.out) + Held(a.turn)) + y;
      Held(t) + (x + y);
    }
  }

  lemma CarriesNothing(t: Turn, t': Turn)
    requires HoldsText(t) && t'.send == t.send && t'.pendingChunk == t.pendingChunk && t'.emittedText == t.emittedText
    requires t'.chunksEmitted == t.chunksEmitted && t'.activityEmitted == t.activityEmitted
    ensures Carries(t, Did(t', []), "") && NoneLast([])
  {
  }

  lemma PushCarries(t: Turn, text: string)
    requires HoldsText(t)
    ensures Carries(t, PushText(t, text), text) && NoneLast(PushText(t, text).out)
  {
    var out := PushText(t, text).out;
    if out != [] {
      assert out[1..] == [];
      assert Chunks(out) == [out[0]] && ToolCards(out) == [] && Text(out) == out[0].text + "";
    }
  }

  lemma FlushCarries(t: Turn, last: bool)
    requires HoldsText(t)
    ensures Carries(t, FlushText(t, last), "")
    ensures FlushText(t, last).turn.pendingChunk == None
    ensures !last ==> NoneLast(FlushText(t, last).out)
    ensures |Chunks(FlushText(t, last).out)| <= 1
  {
    var out := FlushText(t, last).out;
    if out != [] {
      assert out[1..] == [];
      assert Chunks(out) == [out[0]] && ToolCards(out) == [] && Text(out) == out[0].text + "";
    }
  }

  lemma EmitCarries(t: Turn, id: nat, status: CardStatus)
    requires HoldsText(t)
    ensures Carries(t, EmitActivity(t, id, status), "") && Chunks(EmitActivity(t, id, status).out) == []
  {
    var out := EmitActivity(t, id, status).out;
    assert out[1..] == [];
    assert Chunks(out) == [] && ToolCards(out) == [out[0]] && Text(out) == "" + "";
  }

  lemma OpenCarries(t: Turn, id: nat, deferred: bool)
    requires HoldsText(t)
    ensures Carries(t, OpenActivity(t, id, deferred), "") && NoneLast(OpenActivity(t, id, deferred).out)
  {
    CarriesNothing(t, t);
    if ToolAt(t.openTools, id) == |t.openTools| {
      var t1 := t.(openTools := t.openTools + [OpenTool(id, deferred)]);
      FlushCarries(t1, false);
      var d := FlushText(t1, false);
      assert Carries(t, d, "");
      if !deferred {
        EmitCarries(d.turn, id, Running);
        CarriesThen(t, d, EmitActivity(d.turn, id, Running), "", "");
      }
    }
  }

  lemma SettleCarries(t: Turn, id: nat, isError: bool, redundant: bool)
    requires HoldsText(t)
    ensures Carries(t, SettleActivity(t, id, isError, redundant), "")
        && NoneLast(SettleActivity(t, id, isError, redundant).out)
  {
    hide Chunks, ToolCards, Text, FlushText;
    CarriesNothing(t, t);
    var i := ToolAt(t.openTools, id);
    if i < |t.openTools| {
      var t1 := t.(openTools := t.openTools[..i] + t.openTools[i + 1..]);
      FlushCarries(t1, false);
      var d := FlushText(t1, false);
      assert Carries(t, d, "");
      var status := if isError then FailedCard else Done;
      EmitCarries(d.turn, id, status);
      CarriesThen(t, d, EmitActivity(d.turn, id, status), "", "");
    }
  }

  lemma {:induction false} BlocksCarry(t: Turn, blocks: seq<Block>)
    requires HoldsText(t)
    ensures Carries(t, OnBlocks(t, blocks), if t.sawStreamText then "" else BlocksText(blocks))
    ensures NoneLast(OnBlocks(t, blocks).out)
    ensures OnBlocks(t, blocks).turn.sawStreamText == t.sawStreamText
    decreases |blocks|
  {
    hide Carries;
    if blocks == [] {
      CarriesNothing(t, t);
    } else {
      var d := OnBlock(t, blocks[0]);
      var x := if t.sawStreamText || blocks[0].ToolUse? then "" else blocks[0].text;
      match blocks[0] {
        case ToolUse(id, deferred) => OpenCarries(t, id, deferred);
        case TextBlock(text) =>
          CarriesNothing(t, t);
          PushCarries(t, text);
      }
      assert Carries(t, d, x) && HoldsText(d.turn) by { CarriesHolds(t, d, x); }
      BlocksCarry(d.turn, blocks[1..]);
      CarriesThen(t, d, OnBlocks(d.turn, blocks[1..]), x, if t.sawStreamText then "" else BlocksText(blocks[1..]));
      assert "" + "" == "";
    }
  }

  lemma CarriesHolds(t: Turn, d: Did, text: string)
    requires Carries(t, d, text)
    ensures HoldsText(d.turn)
  {
  }

  lemma {:induction false} ResultsCarry(t: Turn, results: seq<ToolResult>)
    requires HoldsText(t)
    ensures Carries(t, OnResults(t, results), "") && NoneLast(OnResults(t, results).out)
    ensures OnResults(t, results).turn.sawStreamText == t.sawStreamText
    decreases |results|
  {
    hide Carries;
    if results == [] {
      CarriesNothing(t, t);
    } else {
      var r := results[0];
      var d := SettleActivity(t, r.id, r.isError, r.redundant);
      SettleCarries(t, r.id, r.isError, r.redundant);
      CarriesHolds(t, d, "");
      ResultsCarry(d.turn, results[1..]);
      CarriesThen(t, d, OnResults(d.turn, results[1..]), "", "");
      assert "" + "" == "";
    }
  }

  lemma {:induction false} FramesCarry(t: Turn, frames: seq<Frame>)
    requires HoldsText(t)
    ensures Carries(t, TurnFrames(t, frames), Heard(frames, t.sawStreamText)) && NoneLast(TurnFrames(t, frames).out)
    decreases |frames|
  {
    hide Carries, OnBlocks, OnResults;
    if frames == [] {
      CarriesNothing(t, t);
    } else {
      var f := frames[0];
      var d := TurnFrame(t, f);
      var x := "";
      CarriesNothing(t, t);
      match f {
        case StreamEvent(_, delta) =>
          if delta.Some? {
            x := delta.value;
            var t1 := t.(sawStreamText := true);
            PushCarries(t1, x);
            FromFlag(t, t1, d, x);
          }
        case Assistant(_, aborted, blocks) =>
          x := if t.sawStreamText then "" else BlocksText(blocks);
          var t1 := t.(interrupted := t.interrupted || aborted);
          BlocksCarry(t1, blocks);
          FromFlag(t, t1, d, x);
        case User(results) =>
          ResultsCarry(t, results);
        case Result(_, _, _) =>
        case Other =>
      }
      CarriesHolds(t, d, x);
      FramesCarry(d.turn, frames[1..]);
      CarriesThen(t, d, TurnFrames(d.turn, frames[1..]), x, Heard(frames[1..], d.turn.sawStreamText));
      assert Heard(frames, t.sawStreamText) == x + Heard(frames[1..], d.turn.sawStreamText);
    }
  }

  lemma FromFlag(t: Turn, t1: Turn, d: Did, x: string)
    requires Carries(t1, d, x)
    requires t1 == t.(sawStreamText := t1.sawStreamText, interrupted := t1.interrupted)
    ensures Carries(t, d, x)
  {
  }

  lemma {:induction false} CloseAllCarries(t: Turn, status: CardStatus)
    requires HoldsText(t)
    ensures Carries(t, CloseOpenActivities(t, status), "") && Chunks(CloseOpenActivities(t, status).out) == []
    ensures CloseOpenActivities(t, status).turn.openTools == []
    decreases |t.openTools|
  {
    hide Carries;
    if t.openTools == [] {
      CarriesNothing(t, t);
    } else {
      var t1 := t.(openTools := t.openTools[1..]);
      var d := EmitActivity(t1, t.openTools[0].id, status);
      EmitCarries(t1, t.openTools[0].id, status);
      assert Carries(t, d, "") by { WithoutTools(t, t1, d); }
      CarriesHolds(t, d, "");
      CloseAllCarries(d.turn, status);
      CarriesThen(t, d, CloseOpenActivities(d.turn, status), "", "");
      PartsOfAppend(d.out, CloseOpenActivities(d.turn, status).out);
      assert "" + "" == "";
    }
  }

  lemma WithoutTools(t: Turn, t1: Turn, d: Did)
    requires Carries(t1, d, "") && t1 == t.(openTools := t1.openTools)
    ensures Carries(t, d, "")
  {
  }

  /** The chunks of a settled turn. */
  ghost predicate ExactText(out: seq<Out>, text: string) {
    var chunks := Chunks(out);
    && Text(chunks) == text
    && (forall i :: 0 <= i < |chunks| ==>
                      && chunks[i].Chunk? && chunks[i].text != ""
                      && chunks[i].append == (i > 0)
                      && (chunks[i].last ==> i == |chunks| - 1))
  }

  /** Everything a turn publishes of text and cards, from its first frame to its result. */
  function TurnOut(send: Send, openSeq: nat, interrupted: bool, frames: seq<Frame>, state: TaskState): seq<Out> {
    var d := TurnFrames(NewTurn(send, openSeq, interrupted), frames);
    d.out + Finish(d.turn, state).out
  }

  /**
    The chunks of a turn concatenate to the text it heard; only the first does not append; at
    most one says it is last, and it is; and the cards are numbered the same way.
   */
  lemma TurnTextIsExact(send: Send, openSeq: nat, interrupted: bool, frames: seq<Frame>, state: TaskState)
    ensures var out := TurnOut(send, openSeq, interrupted, frames, state);
            ExactText(out, Heard(frames, false)) && Numbered(out, 0, 0)
  {
    hide TurnFrames, Heard, Carries;
    var t := NewTurn(send, openSeq, interrupted);
    var d := TurnFrames(t, frames);
    FramesCarry(t, frames);
    CarriesHolds(t, d, Heard(frames, false));
    FinishCarries(d.turn, state);
    var f := Finish(d.turn, state);
    CarriesThen(t, d, f, Heard(frames, false), "");
    WholeTurn(t, d, f, Heard(frames, false));
  }

  lemma FinishCarries(t: Turn, state: TaskState)
    requires HoldsText(t)
    ensures var f := Finish(t, state);
            && Carries(t, f, "") && f.turn.pendingChunk == None && f.turn.openTools == []
            && |Chunks(f.out)| <= 1
  {
    hide Carries;
    var status := if state == Completed || state == InputRequired then Done else FailedCard;
    var c := CloseOpenActivities(t, status);
    CloseAllCarries(t, status);
    CarriesHolds(t, c, "");
    FlushCarries(c.turn, true);
    var f := FlushText(c.turn, true);
    CarriesThen(t, c, f, "", "");
    assert "" + "" == "";
    PartsOfAppend(c.out, f.out);
  }

  /** A turn from its start, all its text emitted, and only its last chunk marked so. */
  lemma WholeTurn(t: Turn, d: Did, f: Did, text: string)
    requires Carries(t, Then(d, f), text + "") && NoneLast(d.out) && |Chunks(f.out)| <= 1
    requires t.pendingChunk == None && t.chunksEmitted == 0 && t.activityEmitted == 0
    requires f.turn.pendingChunk == None
    ensures ExactText(d.out + f.out, text) && Numbered(d.out + f.out, 0, 0)
  {
    var out := d.out + f.out;
    PartsOfAppend(d.out, f.out);
    ChunksAreChunks(out);
    assert "" + (text + "") == text && Text(out) + "" == Text(out);
    var chunks := Chunks(out);
    forall i | 0 <= i < |chunks|
      ensures chunks[i].Chunk? && chunks[i].text != ""
      ensures chunks[i].append == (i > 0) && (chunks[i].last ==> i == |chunks| - 1)
    {
      if i < |Chunks(d.out)| {
        assert chunks[i] == Chunks(d.out)[i];
      }
    }
  }
}
