/**
  The streaming half of the Slack engine as it runs: an object whose tables are updated in
  place, step by step, each method proved against the function of module SlackStream.
 */
module SlackEngine {
  import opened Options
  import opened Text
  import opened Markdown
  import Splitter
  import opened MarkdownSize
  import S = SlackStream
  import Order = SlackOrder

  class ThreadEngine {
    const streamTextBudget: int
    var streams: map<S.Task, S.Stream>
    var next: nat
    /** What Slack has been sent, and who spoke, in order. */
    var log: seq<S.Call>

    ghost function World(): S.World
      reads this
    {
      S.World(streamTextBudget, streams, next, log)
    }

    constructor (streamTextBudget: int)
      ensures World() == S.Idle(streamTextBudget)
    {
      this.streamTextBudget := streamTextBudget;
      streams, next, log := map[], 0, [];
    }

    function Stream(t: S.Task): S.Stream
      reads this
    {
      if t in streams then streams[t] else S.FRESH
    }

    method CloseStream(t: S.Task)
      modifies this`streams, this`log
      ensures World() == S.Close(old(World()), t)
    {
      var s := Stream(t);
      s := s.(chars := 0, charged := {});
      var cursor := s.cursor;
      if cursor.fence.Some? {
        s := s.(cursor := Cursor(cursor.fence, ""), owes := true);
      }
      if s.message.None? {
        streams := streams[t := s];
        return;
      }
      var m := s.message.value;
      streams := streams[t := s.(message := None)];
      log := log + [S.Stopped(m, cursor)];
    }

    method SealFence(t: S.Task)
      modifies this`log
      ensures World() == S.SealFence(old(World()), t)
    {
      var s := Stream(t);
      if s.cursor.fence.None? || s.message.None? {
        return;
      }
      var eol := if s.cursor.partial == "" then "" else "\n";
      log := log + [S.Seal(s.message.value, eol + s.cursor.fence.value.marker)];
    }

    method CloseIfStale(t: S.Task)
      modifies this`streams, this`log
      ensures World() == S.CloseIfStale(old(World()), t)
    {
      if !Stream(t).stale {
        return;
      }
      streams := streams[t := Stream(t).(stale := false)];
      SealFence(t);
      CloseStream(t);
    }

    method EnsureStream(t: S.Task) returns (m: S.Message)
      modifies this
      ensures World() == S.Ensure(old(World()), t)
      ensures Stream(t).message == Some(m)
    {
      CloseIfStale(t);
      var s := Stream(t);
      if s.message.Some? {
        return s.message.value;
      }
      m := S.Message(t, next);
      next := next + 1;
      log := log + [S.Opened(m)];
      streams := streams[t := s.(message := Some(m))];
    }

    /** One turn of the loop. */
    static lemma AppendsOn(w: S.World, t: S.Task, text: string)
      requires text != ""
      ensures S.Append(w, t, text) ==
                if S.MustRollOver(w.budget, S.At(w, t)) then S.Append(S.Close(w, t), t, text)
                else S.Append(S.AppendChunk(w, t, text), t, S.NextOf(w, t, text).rest)
    {
      hide S.Close, S.AppendChunk, S.NextOf, S.MustRollOver;
    }

    static lemma AppendsNothing(t: S.Task)
      ensures forall w :: S.Append(w, t, "") == w
    {
    }

    method AppendWithRollover(t: S.Task, deltaText: string, lastChunk: bool)
      modifies this
      ensures var w := S.Append(old(World()), t, deltaText);
              World() == if lastChunk then S.Close(w, t) else w
    {
      hide TakeChunk, S.Append, S.NextOf, S.Close, S.Ensure, Reopen, CloseCost;
      AppendsNothing(t);
      var text := deltaText;
      while text != ""
        invariant S.Append(World(), t, text) == S.Append(old(World()), t, deltaText)
        decreases |text|, if Stream(t).chars > 0 then 1 else 0
      {
        ghost var w := World();
        AppendsOn(w, t, text);
        var s := Stream(t);
        var used := s.chars;
        var cursor := s.cursor;
        var prefix := if s.owes then Reopen(cursor) else "";
        var left := streamTextBudget - used - |prefix|;
        if used > 0 && left < 1 + CloseCost(cursor) {
          CloseStream(t);
          Order.CloseEmpties(w, t);
          continue;
        }
        Order.Shorter(w, t, text);
        var chunk := Splitter.TakeChunk(text, Max(left, 1), cursor);
        assert chunk == S.NextOf(w, t, text) by { Order.Unfold(w, t, text); }
        if chunk.head != "" {
          var m := EnsureStream(t);
          log := log + [S.Answer(m, prefix + chunk.head, |text| > Max(left, 1), cursor)];
          streams := streams[t := Stream(t).(chars := used + |prefix + chunk.head|, owes := false)];
        }
        assert World() == S.SendHead(w, t, chunk.head, S.TooLong(w, t, text));
        streams := streams[t := Stream(t).(cursor := chunk.cursor)];
        ghost var taken := text;
        text := chunk.rest;
        if text != "" {
          CloseStream(t);
        }
        assert World() == S.AppendChunk(w, t, taken);
      }
      if lastChunk {
        CloseStream(t);
      }
    }

    method ChargeCard(t: S.Task, card: S.Card)
      modifies this`streams, this`log
      ensures World() == S.Charge(old(World()), t, card)
    {
      if card.id in Stream(t).charged {
        return;
      }
      var cost := S.CardCost(card);
      var used := Stream(t).chars;
      if used > 0 && used + cost > streamTextBudget {
        SealFence(t);
        CloseStream(t);
      }
      var s := Stream(t);
      streams := streams[t := s.(charged := s.charged + {card.id}, chars := s.chars + cost)];
    }

    /** An artifact event of a task's stream. */
    method OnArtifact(t: S.Task, text: string, lastChunk: bool)
      modifies this
      ensures World() == S.Handle(old(World()), S.Artifact(t, text, lastChunk))
    {
      CloseIfStale(t);
      AppendWithRollover(t, text, lastChunk);
    }

    /** An activity event: task cards to draw. */
    method OnActivity(t: S.Task, activities: seq<S.Card>)
      modifies this
      ensures World() == S.Handle(old(World()), S.Activity(t, activities))
    {
      hide S.Charge, S.Ensure;
      CloseIfStale(t);
      ghost var w := World();
      for i := 0 to |activities|
        invariant S.DrawAll(World(), t, activities[i..]) == S.DrawAll(w, t, activities)
      {
        ghost var before := World();
        var card := activities[i];
        assert activities[i..][0] == card && activities[i..][1..] == activities[i + 1..];
        ChargeCard(t, card);
        var m := EnsureStream(t);
        log := log + [S.Drawn(m, card)];
        assert World() == S.Draw(before, t, card);
      }
    }

    /** A terminal status: the message is closed and the task forgotten. */
    method OnTerminal(t: S.Task)
      modifies this
      ensures World() == S.Handle(old(World()), S.Terminal(t))
    {
      CloseStream(t);
      streams := streams - {t};
    }

    /** A person's message: the thread's open streams are marked before it reaches the agent. */
    method MarkStreamsStale(thread: nat)
      modifies this
      ensures World() == S.Handle(old(World()), S.Human(thread))
    {
      log := log + [S.Spoke(thread)];
      var tasks := streams.Keys;
      while tasks != {}
        invariant tasks <= old(streams).Keys && streams.Keys == old(streams).Keys
        invariant log == old(log) + [S.Spoke(thread)] && next == old(next)
        invariant forall t :: t in old(streams) ==>
                                streams[t] == if t in tasks then old(streams)[t]
                                    else S.MarkOne(t, old(streams)[t], thread)
        decreases |tasks|
      {
        var t :| t in tasks;
        if t.thread == thread && streams[t].message.Some? {
          streams := streams[t := streams[t].(stale := true)];
        }
        tasks := tasks - {t};
      }
    }
  }
}
