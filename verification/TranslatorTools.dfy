/**
  Tool cards: every card a turn draws is closed exactly once, a toolbelt call held back shows
  one settled card, and one refused as redundant shows nothing.
 */
module TranslatorTools {
  import opened Options
  import opened Translator
  import opened TranslatorTurn

  /** What the frames say of tools: calls, and their results. */
  datatype Token = Use(id: nat, deferred: bool) | Settle(id: nat, isError: bool, redundant: bool)

  function BlockTokens(blocks: seq<Block>): seq<Token> {
    if blocks == [] then []
    else
      (if blocks[0].ToolUse? then [Use(blocks[0].id, blocks[0].deferred)] else []) + BlockTokens(blocks[1..])
  }

  function ResultTokens(results: seq<ToolResult>): seq<Token> {
    if results == [] then []
    else [Settle(results[0].id, results[0].isError, results[0].redundant)] + ResultTokens(results[1..])
  }

  function FrameTokens(f: Frame): seq<Token> {
    match f
    case Assistant(_, _, blocks) => BlockTokens(blocks)
    case User(results) => ResultTokens(results)
    case _ => []
  }

  function Tokens(frames: seq<Frame>): seq<Token> {
    if frames == [] then [] else FrameTokens(frames[0]) + Tokens(frames[1..])
  }

  function Settled(isError: bool): CardStatus { if isError then FailedCard else Done }

  /** What one token shows of the card of `id`, and whether the call is open after it. */
  function Step(now: Option<bool>, token: Token, id: nat): (Option<bool>, seq<CardStatus>) {
    if token.id != id then (now, [])
    else
      match token
      case Use(_, deferred) =>
        if now.Some? then (now, []) else (Some(deferred), if deferred then [] else [Running])
      case Settle(_, isError, redundant) =>
        if now.None? then (now, [])
        else (None, if now.value && redundant then [] else [Settled(isError)])
  }

  /** Where the call of `id` stands after some tokens, and what its card has shown. */
  function Story(now: Option<bool>, tokens: seq<Token>, id: nat): (Option<bool>, seq<CardStatus>)
    decreases |tokens|
  {
    if tokens == [] then (now, [])
    else
      var (next, shown) := Step(now, tokens[0], id);
      var (end, rest) := Story(next, tokens[1..], id);
      (end, shown + rest)
  }

  /** The statuses published for `id`. */
  function Statuses(out: seq<Out>, id: nat): seq<CardStatus> {
    if out == [] then []
    else (if out[0].ToolCard? && out[0].id == id then [out[0].status] else []) + Statuses(out[1..], id)
  }

  lemma {:induction false} StatusesAppend(a: seq<Out>, b: seq<Out>, id: nat)
    ensures Statuses(a + b, id) == Statuses(a, id) + Statuses(b, id)
    decreases |a|
  {
    if a == [] {
      assert a + b == b;
    } else {
      assert (a + b)[1..] == a[1..] + b;
      StatusesAppend(a[1..], b, id);
    }
  }

  /** Whether the call is open, and if so whether its card is held back. */
  function Now(t: Turn, id: nat): Option<bool> {
    var i := ToolAt(t.openTools, id);
    if i < |t.openTools| then Some(t.openTools[i].deferred) else None
  }

  ghost predicate Distinct(tools: seq<OpenTool>) {
    forall i, j :: 0 <= i < j < |tools| ==> tools[i].id != tools[j].id
  }

  /** A step of the turn follows the story of `id`. */
  ghost predicate Follows(t: Turn, d: Did, id: nat, next: Option<bool>, shown: seq<CardStatus>) {
    Distinct(d.turn.openTools) && Now(d.turn, id) == next && Statuses(d.out, id) == shown
  }

  lemma NowMeans(tools: seq<OpenTool>, id: nat, i: nat)
    requires Distinct(tools) && i < |tools| && tools[i].id == id
    ensures ToolAt(tools, id) == i
  {
  }

  lemma FlushShowsNothing(t: Turn, last: bool, id: nat)
    ensures Statuses(FlushText(t, last).out, id) == [] && FlushText(t, last).turn.openTools == t.openTools
  {
    var out := FlushText(t, last).out;
    assert out != [] ==> out[1..] == [];
  }

  lemma EmitShows(t: Turn, id': nat, status: CardStatus, id: nat)
    ensures Statuses(EmitActivity(t, id', status).out, id) == if id' == id then [status] else []
  {
    assert EmitActivity(t, id', status).out[1..] == [];
  }

  lemma OpenFollows(t: Turn, id': nat, deferred: bool, id: nat)
    requires Distinct(t.openTools)
    ensures var (next, shown) := Step(Now(t, id), Use(id', deferred), id);
            Follows(t, OpenActivity(t, id', deferred), id, next, shown)
  {
    if ToolAt(t.openTools, id') == |t.openTools| {
      var tools := t.openTools + [OpenTool(id', deferred)];
      var t1 := t.(openTools := tools);
      var d := FlushText(t1, false);
      FlushShowsNothing(t1, false, id);
      assert Distinct(tools);
      if id' == id {
        NowMeans(tools, id, |t.openTools|);
      } else if ToolAt(t.openTools, id) < |t.openTools| {
        assert tools[ToolAt(t.openTools, id)].id == id;
        NowMeans(tools, id, ToolAt(t.openTools, id));
      }
      EmitShows(d.turn, id', Running, id);
      StatusesAppend(d.out, EmitActivity(d.turn, id', Running).out, id);
    }
  }

  lemma SettleFollows(t: Turn, id': nat, isError: bool, redundant: bool, id: nat)
    requires Distinct(t.openTools)
    ensures var (next, shown) := Step(Now(t, id), Settle(id', isError, redundant), id);
            Follows(t, SettleActivity(t, id', isError, redundant), id, next, shown)
  {
    hide FlushText;
    var i := ToolAt(t.openTools, id');
    if i < |t.openTools| {
      var tools := t.openTools[..i] + t.openTools[i + 1..];
      var t1 := t.(openTools := tools);
      var d := FlushText(t1, false);
      FlushShowsNothing(t1, false, id);
      RemovedTool(t.openTools, i, id);
      var status := if isError then FailedCard else Done;
      EmitShows(d.turn, id', status, id);
      StatusesAppend(d.out, EmitActivity(d.turn, id', status).out, id);
    }
  }

  lemma RemovedTool(tools: seq<OpenTool>, i: nat, id: nat)
    requires Distinct(tools) && i < |tools|
    ensures var rest := tools[..i] + tools[i + 1..];
            && Distinct(rest)
            && (tools[i].id == id ==> ToolAt(rest, id) == |rest|)
            && (tools[i].id != id ==>
                (ToolAt(rest, id) < |rest| <==> ToolAt(tools, id) < |tools|)
                && (ToolAt(tools, id) < |tools| ==> rest[ToolAt(rest, id)] == tools[ToolAt(tools, id)]))
  {
    var rest := tools[..i] + tools[i + 1..];
    var k := ToolAt(tools, id);
    if k < |tools| && k != i {
      assert rest[if k < i then k else k - 1] == tools[k];
      NowMeans(rest, id, if k < i then k else k - 1);
    }
  }

  /** A step of the turn follows what its tokens say of `id`. */
  ghost predicate FollowsStory(t: Turn, d: Did, id: nat, tokens: seq<Token>) {
    Distinct(d.turn.openTools) && Story(Now(t, id), tokens, id) == (Now(d.turn, id), Statuses(d.out, id))
  }

  lemma {:induction false} StoryAppend(now: Option<bool>, a: seq<Token>, b: seq<Token>, id: nat)
    ensures var (mid, shown) := Story(now, a, id);
            var (end, rest) := Story(mid, b, id);
            Story(now, a + b, id) == (end, shown + rest)
    decreases |a|
  {
    hide Step;
    if a == [] {
      assert a + b == b;
      assert [] + Story(now, b, id).1 == Story(now, b, id).1;
    } else {
      assert (a + b)[1..] == a[1..] + b;
      var (next, first) := Step(now, a[0], id);
      StoryAppend(next, a[1..], b, id);
      var (mid, shown) := Story(next, a[1..], id);
      var (end, rest) := Story(mid, b, id);
      assert (first + shown) + rest == first + (shown + rest);
    }
  }

  lemma FollowsThen(t: Turn, a: Did, b: Did, id: nat, x: seq<Token>, y: seq<Token>)
    requires FollowsStory(t, a, id, x) && FollowsStory(a.turn, b, id, y)
    ensures FollowsStory(t, Then(a, b), id, x + y)
  {
    hide Story, Now;
    StoryAppend(Now(t, id), x, y, id);
    StatusesAppend(a.out, b.out, id);
  }

  lemma FollowsOne(t: Turn, d: Did, id: nat, token: Token)
    requires var (next, shown) := Step(Now(t, id), token, id);
             Follows(t, d, id, next, shown)
    ensures FollowsStory(t, d, id, [token])
  {
    var (next, shown) := Step(Now(t, id), token, id);
    assert [token][1..] == [];
    assert Story(next, [], id) == (next, []);
    assert Story(Now(t, id), [token], id) == (next, shown + []);
    assert shown + [] == shown;
  }

  lemma FollowsNothing(t: Turn, d: Did, id: nat)
    requires Distinct(t.openTools) && d.turn.openTools == t.openTools && Statuses(d.out, id) == []
    ensures FollowsStory(t, d, id, [])
  {
  }

  lemma PushShowsNothing(t: Turn, text: string, id: nat)
    ensures Statuses(PushText(t, text).out, id) == [] && PushText(t, text).turn.openTools == t.openTools
  {
    var out := PushText(t, text).out;
    assert out != [] ==> out[1..] == [];
  }

  lemma {:induction false} BlocksFollow(t: Turn, blocks: seq<Block>, id: nat)
    requires Distinct(t.openTools)
    ensures FollowsStory(t, OnBlocks(t, blocks), id, BlockTokens(blocks))
    decreases |blocks|
  {
    hide FollowsStory, Follows;
    if blocks == [] {
      FollowsNothing(t, Did(t, []), id);
    } else {
      var d := OnBlock(t, blocks[0]);
      var x: seq<Token> := [];
      match blocks[0] {
        case ToolUse(id', deferred) =>
          x := [Use(id', deferred)];
          OpenFollows(t, id', deferred, id);
          FollowsOne(t, d, id, Use(id', deferred));
        case TextBlock(text) =>
          PushShowsNothing(t, text, id);
          FollowsNothing(t, d, id);
      }
      FollowsDistinct(t, d, id, x);
      BlocksFollow(d.turn, blocks[1..], id);
      FollowsThen(t, d, OnBlocks(d.turn, blocks[1..]), id, x, BlockTokens(blocks[1..]));
    }
  }

  lemma FollowsDistinct(t: Turn, d: Did, id: nat, tokens: seq<Token>)
    requires FollowsStory(t, d, id, tokens)
    ensures Distinct(d.turn.openTools)
  {
  }

  lemma {:induction false} ResultsFollow(t: Turn, results: seq<ToolResult>, id: nat)
    requires Distinct(t.openTools)
    ensures FollowsStory(t, OnResults(t, results), id, ResultTokens(results))
    decreases |results|
  {
    hide FollowsStory, Follows;
    if results == [] {
      FollowsNothing(t, Did(t, []), id);
    } else {
      var r := results[0];
      var d := SettleActivity(t, r.id, r.isError, r.redundant);
      SettleFollows(t, r.id, r.isError, r.redundant, id);
      FollowsOne(t, d, id, Settle(r.id, r.isError, r.redundant));
      FollowsDistinct(t, d, id, [Settle(r.id, r.isError, r.redundant)]);
      ResultsFollow(d.turn, results[1..], id);
      FollowsThen(t, d, OnResults(d.turn, results[1..]), id, [Settle(r.id, r.isError, r.redundant)],
          ResultTokens(results[1..]));
    }
  }

  lemma {:induction false} FramesFollow(t: Turn, frames: seq<Frame>, id: nat)
    requires Distinct(t.openTools)
    ensures FollowsStory(t, TurnFrames(t, frames), id, Tokens(frames))
    decreases |frames|
  {
    hide FollowsStory, OnBlocks, OnResults;
    if frames == [] {
      FollowsNothing(t, Did(t, []), id);
    } else {
      var f := frames[0];
      var d := TurnFrame(t, f);
      match f {
        case StreamEvent(_, delta) =>
          if delta.Some? {
            PushShowsNothing(t.(sawStreamText := true), delta.value, id);
          }
          FollowsNothing(t, d, id);
        case Assistant(_, aborted, blocks) =>
          var t1 := t.(interrupted := t.interrupted || aborted);
          BlocksFollow(t1, blocks, id);
          assert FollowsStory(t, d, id, FrameTokens(f)) by { SameTools(t, t1, d, id, BlockTokens(blocks)); }
        case User(results) =>
          ResultsFollow(t, results, id);
        case Result(_, _, _) =>
          FollowsNothing(t, d, id);
        case Other =>
          FollowsNothing(t, d, id);
      }
      FollowsDistinct(t, d, id, FrameTokens(f));
      FramesFollow(d.turn, frames[1..], id);
      FollowsThen(t, d, TurnFrames(d.turn, frames[1..]), id, FrameTokens(f), Tokens(frames[1..]));
    }
  }

  lemma SameTools(t: Turn, t1: Turn, d: Did, id: nat, tokens: seq<Token>)
    requires FollowsStory(t1, d, id, tokens) && t1.openTools == t.openTools
    ensures FollowsStory(t, d, id, tokens)
  {
  }

  lemma {:induction false} CloseAllShows(t: Turn, status: CardStatus, id: nat)
    requires Distinct(t.openTools)
    ensures Statuses(CloseOpenActivities(t, status).out, id) == if Now(t, id).Some? then [status] else []
    decreases |t.openTools|
  {
    if t.openTools != [] {
      var first := t.openTools[0].id;
      var t1 := t.(openTools := t.openTools[1..]);
      var d := EmitActivity(t1, first, status);
      EmitShows(t1, first, status, id);
      CloseAllShows(d.turn, status, id);
      StatusesAppend(d.out, CloseOpenActivities(d.turn, status).out, id);
      if first == id {
        assert forall j :: 0 <= j < |t1.openTools| ==> t1.openTools[j].id != id;
        assert Now(t1, id) == None;
      }
    }
  }

  /** What the card of `id` shows over a whole turn: its story, and a settling if the call is still open. */
  lemma TurnCards(send: Send, openSeq: nat, interrupted: bool, frames: seq<Frame>, state: TaskState, id: nat)
    ensures var (end, shown) := Story(None, Tokens(frames), id);
            var final := if state == Completed || state == InputRequired then Done else FailedCard;
            Statuses(TurnOut(send, openSeq, interrupted, frames, state), id)
            == shown + (if end.Some? then [final] else [])
  {
    hide TurnFrames, CloseOpenActivities, Story, FlushText, Statuses, Tokens;
    var t := NewTurn(send, openSeq, interrupted);
    var d := TurnFrames(t, frames);
    FramesFollow(t, frames, id);
    var final := if state == Completed || state == InputRequired then Done else FailedCard;
    var c := CloseOpenActivities(d.turn, final);
    CloseAllShows(d.turn, final, id);
    FlushShowsNothing(c.turn, true, id);
    StatusesAppend(c.out, FlushText(c.turn, true).out, id);
    StatusesAppend(d.out, c.out + FlushText(c.turn, true).out, id);
    assert Now(t, id) == None;
  }

  // ------------------------------------------------------------- distinct ids

  function Uses(tokens: seq<Token>, id: nat): seq<bool> {
    if tokens == [] then []
    else (if tokens[0].Use? && tokens[0].id == id then [tokens[0].deferred] else []) + Uses(tokens[1..], id)
  }

  /** The first result for the call says it was refused as redundant. */
  predicate RefusedNext(tokens: seq<Token>, id: nat) {
    tokens != [] &&
    if tokens[0].Settle? && tokens[0].id == id then tokens[0].redundant else RefusedNext(tokens[1..], id)
  }

  predicate Refused(tokens: seq<Token>, id: nat) {
    tokens != [] &&
    if tokens[0].Use? && tokens[0].id == id then RefusedNext(tokens[1..], id) else Refused(tokens[1..], id)
  }

  lemma StoryUnfolds(now: Option<bool>, tokens: seq<Token>, id: nat)
    requires tokens != []
    ensures var (next, shown) := Step(now, tokens[0], id);
            var (end, rest) := Story(next, tokens[1..], id);
            && Story(now, tokens, id) == (end, shown + rest)
            && (shown == [] ==> shown + rest == rest)
            && (rest == [] ==> shown + rest == shown)
  {
  }

  lemma {:induction false} StoryAfterUse(tokens: seq<Token>, id: nat)
    requires Uses(tokens, id) == []
    ensures Story(None, tokens, id) == (None, [])
    ensures Story(Some(false), tokens, id) in {(Some(false), []), (None, [Done]), (None, [FailedCard])}
    ensures Story(Some(true), tokens, id) in {(Some(true), []), (None, []), (None, [Done]), (None, [FailedCard])}
    ensures Story(Some(true), tokens, id) == (None, []) <==> RefusedNext(tokens, id)
    decreases |tokens|
  {
    if tokens != [] {
      StoryAfterUse(tokens[1..], id);
      StoryUnfolds(None, tokens, id);
      StoryUnfolds(Some(false), tokens, id);
      StoryUnfolds(Some(true), tokens, id);
    }
  }

  lemma {:induction false} StoryOfOneUse(tokens: seq<Token>, id: nat)
    requires |Uses(tokens, id)| == 1
    ensures Uses(tokens, id) == [false] ==>
              Story(None, tokens, id) in {(Some(false), [Running]), (None, [Running, Done]),
                  (None, [Running, FailedCard])}
    ensures Uses(tokens, id) == [true] ==>
              && Story(None, tokens, id) in {(Some(true), []), (None, []), (None, [Done]), (None, [FailedCard])}
              && (Story(None, tokens, id) == (None, []) <==> Refused(tokens, id))
    decreases |tokens|
  {
    if tokens[0].Use? && tokens[0].id == id {
      var deferred := tokens[0].deferred;
      assert Uses(tokens, id) == [deferred] + Uses(tokens[1..], id);
      assert Uses(tokens, id)[0] == deferred;
      StoryAfterUse(tokens[1..], id);
      StoryUnfolds(None, tokens, id);
      assert [Running] + [Done] == [Running, Done] && [Running] + [FailedCard] == [Running, FailedCard];
    } else {
      assert Uses(tokens, id) == Uses(tokens[1..], id);
      StoryOfOneUse(tokens[1..], id);
      StoryUnfolds(None, tokens, id);
    }
  }

  /**
    A tool call's id is used once. Then its card, by the time the turn has settled, was drawn
    and closed once; that of a held toolbelt call was shown once, closed, unless it was refused as
    redundant, when nothing was; and an id never used shows nothing.
   */
  lemma CardsCloseOnce(send: Send, openSeq: nat, interrupted: bool, frames: seq<Frame>, state: TaskState, id: nat)
    requires |Uses(Tokens(frames), id)| <= 1
    ensures var shown := Statuses(TurnOut(send, openSeq, interrupted, frames, state), id);
            && (Uses(Tokens(frames), id) == [] ==> shown == [])
            && (Uses(Tokens(frames), id) == [false] ==> shown == [Running, Done] || shown == [Running, FailedCard])
            && (Uses(Tokens(frames), id) == [true] ==>
                && (Refused(Tokens(frames), id) ==> shown == [])
                && (!Refused(Tokens(frames), id) ==> shown == [Done] || shown == [FailedCard]))
  {
    hide TurnOut, Story;
    TurnCards(send, openSeq, interrupted, frames, state, id);
    if Uses(Tokens(frames), id) == [] {
      StoryAfterUse(Tokens(frames), id);
    } else {
      StoryOfOneUse(Tokens(frames), id);
    }
  }
}
