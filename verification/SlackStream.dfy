/**
  How the Slack bridge streams an answer: text and task cards are charged against one budget
  per streamed message, a message that is full or that a person has spoken below is closed,
  and a code block open at the break is owed to the next message.

  The steps are functions of the bridge's state and of the calls Slack has seen; module
  SlackEngine runs them in place. One event is one step: every Slack call is answered before
  the next event is handled, and none is refused.
 */
module SlackStream {
  import opened Options
  import opened Text
  import opened Markdown
  import opened MarkdownSize

  /** A task, and the thread it answers in. */
  datatype Task = Task(thread: nat, id: nat)

  /** A streamed message, named by the task that opened it and a serial number. */
  datatype Message = Message(task: Task, serial: nat)

  datatype Card = Card(id: nat, title: string, details: string)

  /** What Slack draws around a card weighs as much as this many characters. */
  const CARD_OVERHEAD := 40

  function CardCost(card: Card): nat { |card.title| + |card.details| + CARD_OVERHEAD }

  /** What the bridge keeps for one task: each field is an entry of one of its per-task maps and sets. */
  datatype Stream = Stream(
    message: Option<Message>,
    chars: nat,
    charged: set<nat>,
    cursor: Cursor,
    owes: bool,
    stale: bool)

  const FRESH := Stream(None, 0, {}, START, false, false)

  /**
    What happens in a thread, in order. An answer records whether it is `cut` from a longer text and
    where the scan stood before it, a stop where the scan stands.
   */
  datatype Call =
    | Opened(message: Message)
    | Answer(message: Message, text: string, cut: bool, from: Cursor)
    | Seal(message: Message, text: string)
    | Drawn(message: Message, card: Card)
    | Stopped(message: Message, at: Cursor)
    | Spoke(thread: nat)

  datatype World = World(budget: int, streams: map<Task, Stream>, next: nat, log: seq<Call>)

  function At(w: World, t: Task): Stream {
    if t in w.streams then w.streams[t] else FRESH
  }

  function Put(w: World, t: Task, s: Stream): World {
    w.(streams := w.streams[t := s])
  }

  function Say(w: World, call: Call): World {
    w.(log := w.log + [call])
  }

  // ------------------------------------------------------------- the steps

  /** Ends the current message; an open fence is owed to the next one, which starts a fresh line. */
  function Close(w: World, t: Task): World {
    var s := At(w, t);
    var s1 := s.(chars := 0, charged := {});
    var s2 := if s.cursor.fence.Some? then s1.(cursor := Cursor(s.cursor.fence, ""), owes := true) else s1;
    match s.message
    case None => Put(w, t, s2)
    case Some(m) => Say(Put(w, t, s2.(message := None)), Stopped(m, s.cursor))
  }

  /** Before a stop the splitter knows nothing of, an open block is closed on its message. */
  function SealFence(w: World, t: Task): World {
    var s := At(w, t);
    if s.cursor.fence.None? || s.message.None? then w
    else
      var eol := if s.cursor.partial == "" then "" else "\n";
      Say(w, Seal(s.message.value, eol + s.cursor.fence.value.marker))
  }

  function CloseIfStale(w: World, t: Task): World {
    if !At(w, t).stale then w
    else Close(SealFence(Put(w, t, At(w, t).(stale := false)), t), t)
  }

  /** The task's message, opened on first use. */
  function Ensure(w: World, t: Task): (r: World)
    ensures At(r, t).message.Some?
  {
    var w := CloseIfStale(w, t);
    var s := At(w, t);
    if s.message.Some? then w
    else
      var m := Message(t, w.next);
      Say(Put(w, t, s.(message := Some(m))), Opened(m)).(next := w.next + 1)
  }

  /** Room left in the message for text, once the fence it owes is paid. */
  function Prefix(s: Stream): string { if s.owes then Reopen(s.cursor) else "" }

  function Left(budget: int, s: Stream): int { budget - s.chars - |Prefix(s)| }

  function MustRollOver(budget: int, s: Stream): bool {
    s.chars > 0 && Left(budget, s) < 1 + CloseCost(s.cursor)
  }

  /** Appends one chunk's head, if there is any. */
  function SendHead(w: World, t: Task, head: string, cut: bool): World {
    if head == "" then w
    else
      var s := At(w, t);
      var text := Prefix(s) + head;
      var w1 := Ensure(w, t);
      var w2 := Say(w1, Answer(At(w1, t).message.value, text, cut, s.cursor));
      Put(w2, t, At(w2, t).(chars := s.chars + |text|, owes := false))
  }

  function NextOf(w: World, t: Task, text: string): Chunk {
    TakeChunk(text, Max(Left(w.budget, At(w, t)), 1), At(w, t).cursor)
  }

  /** The text does not fit in what is left of the message. */
  predicate TooLong(w: World, t: Task, text: string) {
    |text| > Max(Left(w.budget, At(w, t)), 1)
  }

  /** Takes one chunk of `text` into the current message, and closes the message if there is more. */
  function AppendChunk(w: World, t: Task, text: string): World {
    var chunk := NextOf(w, t, text);
    var w1 := SendHead(w, t, chunk.head, TooLong(w, t, text));
    var w2 := Put(w1, t, At(w1, t).(cursor := chunk.cursor));
    if chunk.rest == "" then w2 else Close(w2, t)
  }

  /** Appends text, rolling over to fresh messages as the budget demands. */
  function Append(w: World, t: Task, text: string): World
    decreases |text|, if At(w, t).chars > 0 then 1 else 0
  {
    if text == "" then w
    else if MustRollOver(w.budget, At(w, t)) then Append(Close(w, t), t, text)
    else
      TakeChunkProgress(text, Max(Left(w.budget, At(w, t)), 1), At(w, t).cursor);
      Append(AppendChunk(w, t, text), t, NextOf(w, t, text).rest)
  }

  /** A card counts once against a message; where it is too much, a new message takes it. */
  function Charge(w: World, t: Task, card: Card): World {
    if card.id in At(w, t).charged then w
    else
      var w1 :=
        if At(w, t).chars > 0 && At(w, t).chars + CardCost(card) > w.budget
        then Close(SealFence(w, t), t)
        else w;
      var s := At(w1, t);
      Put(w1, t, s.(charged := s.charged + {card.id}, chars := s.chars + CardCost(card)))
  }

  function Draw(w: World, t: Task, card: Card): World {
    var w1 := Ensure(Charge(w, t, card), t);
    Say(w1, Drawn(At(w1, t).message.value, card))
  }

  function DrawAll(w: World, t: Task, cards: seq<Card>): World
    decreases |cards|
  {
    if cards == [] then w else DrawAll(Draw(w, t, cards[0]), t, cards[1..])
  }

  /** A person spoke in a thread: its open messages are marked for the cut. */
  function Mark(w: World, thread: nat): World {
    Say(w, Spoke(thread)).(streams := map t | t in w.streams :: MarkOne(t, w.streams[t], thread))
  }

  function MarkOne(t: Task, s: Stream, thread: nat): Stream {
    if t.thread == thread && s.message.Some? then s.(stale := true) else s
  }

  // ------------------------------------------------------------- events

  datatype Event =
    | Artifact(task: Task, text: string, lastChunk: bool)
    | Activity(task: Task, cards: seq<Card>)
    | Terminal(task: Task)
    | Human(thread: nat)

  function OnArtifact(w: World, t: Task, text: string, lastChunk: bool): World {
    var w1 := Append(CloseIfStale(w, t), t, text);
    if lastChunk then Close(w1, t) else w1
  }

  function OnActivity(w: World, t: Task, cards: seq<Card>): World {
    DrawAll(CloseIfStale(w, t), t, cards)
  }

  /** The task is over: its message is closed and everything kept for it forgotten. */
  function OnTerminal(w: World, t: Task): World {
    var w1 := Close(w, t);
    w1.(streams := w1.streams - {t})
  }

  function Handle(w: World, e: Event): World {
    match e
    case Artifact(t, text, last) => OnArtifact(w, t, text, last)
    case Activity(t, cards) => OnActivity(w, t, cards)
    case Terminal(t) => OnTerminal(w, t)
    case Human(thread) => Mark(w, thread)
  }

  function RunAll(w: World, events: seq<Event>): World
    decreases |events|
  {
    if events == [] then w else RunAll(Handle(w, events[0]), events[1..])
  }

  function Idle(budget: int): World { World(budget, map[], 0, []) }
}
