# Thicket bridges, verified

A Dafny model of the parts of Thicket that carry state or transform text: the fence-aware
Markdown splitter, the Slack stream rollover built on it, the executor's turn translator, the
Discord card editor, the Discord Gateway's resume protocol, the phone bridge's call engine with
its lockout and name matching, the executor's session pool, manifest drift, and question forms.

`dafny verify dfyconfig.toml` checks everything.

## How it is laid out

For each component one module holds the data and the steps as functions of the state
(`Markdown`, `SlackStream`, `Translator`, `CardLane`, `Gateway`, `SessionPool`, `PhoneCall`,
`PhoneLockout`, `Drift`, `Questions`). Where the original changes objects in place, a class does
the same and each of its methods is proved to do exactly what the function says
(`Splitter`, `SlackEngine`, `TurnTranslation`, `CardEdits`, `GatewayClient`, `SessionManagement`,
`PhoneEngine`, `PhoneLockout.Registry`). The remaining modules prove what those functions promise:
over every text, or over every run of events in any order.

- Splitter: `Text`, `Markdown`, `MarkdownScan` (the scanner), `Splitter` (the loops),
  `MarkdownRules` (its rules in their own terms), `MarkdownFaithful`, `MarkdownSize`, `MarkdownMeaning`.
- Slack rollover: `SlackStream`, `SlackEngine`, `SlackOrder`, `SlackBudget`, `SlackReading`,
  `SlackFences`, `SlackNewlines`, `SlackClosing`, `SlackStops`, `SlackExamples` (runs), `SlackText`.
- Translator: `Translator`, `TurnTranslation`, `TranslatorTurn`, `TranslatorTools`,
  `TranslatorRuns`, `TranslatorOrder`, `TranslatorOutcome`, `TranslatorSends`, `TranslatorFifo`,
  `TurnAccounts`.
- Card editor: `CardLane`, `CardEdits`, `CardLaneProofs`, `CardLaneTimes`.
- Gateway: `Gateway`, `GatewayClient`, `GatewayDelivery`, `GatewayOnce`, `GatewayLast`.
- Phone: `Levenshtein`, `AgentPicker`, `PhoneCall`, `PhoneEngine`, `PhoneSpeech`, `PhoneTurns`,
  `PhoneKeys`, `PhoneStates`, `PhoneGate`, `PhoneLockout`, `PhoneLine` (many calls and one registry).
- Session pool: `SessionPool`, `SessionManagement`, `SessionSteps`, `SessionPoolProofs`,
  `SessionPoolCap`.
- Drift and questions: `Decimals`, `Drift`, `DriftPrint`, `DriftProofs`, `DriftPaths`, `Questions`.

## Where the code does less than it says

Each of these is a lemma; where a property fails, another says exactly when it holds.

- Pieces of at most `max` characters (`apps/slack/src/markdown.ts:205`) are not guaranteed:
  `SplitCanOverrun` is a ten-character text split at 8. `SplitWithinExactly` says when pieces fit,
  `SplitWithinMax` gives a simple bound that suffices.
- A tilde fence whose info string starts with `~` does not come back from its own reopening line
  (`apps/slack/src/markdown.ts:39-41`): `ReopensExactly`.
- A fence line that ends in a carriage return is no fence line, because `.` does not match one
  (`apps/slack/src/markdown.ts:48-58`): `CarriageReturnHidesFence`.
- A Slack message can carry its closing line twice: once from the splitter, when a delta ends
  inside an opening line and the cut takes all that is left, and once from the seal before a
  message that someone has spoken below is closed (`apps/slack/src/engine.ts:971-986`, `1066-1082`).
  `ClosesTwice` is such a run. What is charged to a message stays within the budget and its closing
  line; what it weighs when stopped does exactly unless it is sealed though over its budget by more
  than a newline: `SealKeepsToBudgetIff`, and over the whole log `MessagesStayWithinBudget`.
- A code block that spans a break is not always closed (`apps/slack/src/engine.ts:942-949`). Over
  every run, a message with answer text in it that is stopped inside a block ends with a closing
  line of the block exactly if it was sealed, or if its own last line is one, as it is when its
  last answer was cut: `StopClosesBlockIff`. So a message the loop stops with text to come ends so
  if a piece was cut for it, and if it is stopped for want of room
  (`apps/slack/src/engine.ts:967-969`) only when its last line happens to be a closing line already:
  `BreakClosesBlockIff`. Stops at a last chunk or a task's end are of the second kind.
- Nor does a closing line always close. Where a line is broken, or a seal ends a line, that line may
  close the block itself, and the marker after it opens another (`apps/slack/src/markdown.ts:192-202`,
  `apps/slack/src/engine.ts:1066-1082`): `StoppedAloneIff` says exactly when a stopped message shown
  alone leaves no block open, `CutAlone` what the line of a cut does, and `SealReopens` is a run.
- A text can be cut, with nothing left over, and its message go on
  (`apps/slack/src/engine.ts:971-982`, `apps/slack/src/markdown.ts:175-203`). `GoesOnAfterCutIff` says
  exactly when. A line that trails off into spaces is broken though all of it was taken: inside a
  block the message goes on after the closing line, and what comes next is shown outside the block
  (`GoesOnClosed`); outside any block, an opening line is forgotten (`OpenerForgotten`). A delta that
  is one character too long, with nothing reserved, and ends a paragraph outside any block loses its
  newlines, so that two paragraphs run together (`NewlinesLostIff`, `ParagraphsRunTogether`).
- The seal before a message is closed (`apps/slack/src/engine.ts:1066-1082`) does not ask whether the
  message has reopened the block. One that holds only cards gets a lone marker, which opens a block
  in it instead: exactly when the reopening line is still owed, `SealOpensBlockIff`; `SealOpensBlock`
  is such a run.
- Text blocks of assistant frames are ignored once a delta has come
  (`packages/executor/src/translator.ts:336-345`): a turn's text is all that its assistant frames say
  exactly when from the first delta on the deltas say the same: `HeardIsAllIff`.
- When a stream ends inside a turn, the turn's task is reported failed twice, unless a terminal
  event was already published for it (`packages/executor/src/translator.ts:258-291`):
  `OpenTurnFailsTwice`.
- Which sends a turn consumed is inferred exactly if and only if nothing is in flight or every
  older send was consumed: `FoldIsExactIff`.
- What is journaled as spent is not all that was spent. A result that finds no turn and no pending
  send is dropped before it is recorded (`packages/executor/src/translator.ts:452-461`), and a total
  that has not fallen is taken for the same process's (`528-531`). What was spent is what was
  journaled, what is lost in these two ways, and what is not recorded yet: `SpendingIsConserved`.
  It is all journaled exactly when no process ended with spending not recorded, none is missing at
  the end, and after every restart not announced the first total recorded is below the last:
  `JournaledIsSpentIff`. `ResultDroppedIff` and `DroppedIsLost` are about the dropped results.
- `settle` without a body returns at once when the card's last body is already in flight
  (`apps/discord/src/editor.ts:66-79`): `SettleReturnsAtOnce`.
- A RESUMED that finds dispatches still queued moves the stored sequence past them
  (`apps/discord/src/gateway.ts:315-320`); a crash before the next handler returns loses them:
  `ResumedIsSafeIff`, `ResumedCanSkip`. A handler that threw gets another chance
  (`apps/discord/src/gateway.ts:281-286`) only until the next one succeeds: `FailureIsPassedIff`.
  And one that threw, or crashed, after recording its message id never acts on it again, however
  often it is redelivered: `RecordedIsActedOnIff`, for every run.
- A spawn checks the pool before it waits for the session to be looked up
  (`packages/executor/src/session-manager.ts:398-441`), so the pool can be over its cap with idle
  sessions: after another spawn (`OverlappingSpawnsOvershoot`) or a turn that ended meanwhile
  (`FrameBetweenOvershoots`). It is within the cap, or all the others are busy, exactly when just
  before there was room for one more or no hot session was idle: `SpawnKeepsTheCapIff`.
- A stream that ends with no terminal status leaves its newest chunk unsaid
  (`apps/phone/src/engine.ts:891-904`): `OneChunkHeld`.
- Keys typed to one agent and not yet sent when the call switches are sent, ahead of the next keys,
  to the next agent (`apps/phone/src/engine.ts:762-773`, `297-304`): `KeysFollowTheCall`. What is
  sent is the agent's own exactly when no key was pending when the call was last connected, or
  those that were have been sent: `OwnKeysIff`.
- The length pre-filter of the name picker (`apps/phone/src/engine.ts:446`) loses matches among the
  words that can be heard exactly for handles of eight characters or more that have no more spaces
  than the edits they forgive: `PrefilterHarmlessIff`.
- A list against an object goes unseen exactly when the object's keys are the list's positions and
  every item goes unseen (`apps/cli/src/provision.ts:93-114`): `MixUnseenIff`; the smallest case is
  `ListAgainstObjectUnseen`.
- A path that is reported can be read back from its dots exactly when no key has a dot and the first
  is not empty (`apps/cli/src/provision.ts:108`): `DottedReadsBackIff`.

## Assumptions

- A string is a sequence of characters of length one each; text outside the Basic Multilingual
  Plane, where a character takes two units, is left out. `Math.floor(budget * 0.1)` is `budget / 10` and
  `Math.floor(n / 2.5)` is `2 * n / 5`.
- One event is one step: each awaited call is answered before the next event is handled. Timers,
  flushes, handlers, spawns and streams that really overlap are separate events in any order.
- Clocks do not run backwards, and a timer does not fire before it is due.
- A process's running totals never fall, and an `init` frame means that they start from zero.
- Maps keyed by task id are gathered into one record per task (`SlackStream.Stream`).

## Model
| member | source | states |
|---|---|---|
| MarkdownScan.AdvanceAction | apps/slack/src/markdown.ts:78-86 | scanning is incremental: advancing over `a` and then `b` is advancing over `a + b`, for every cursor and every two texts |
| MarkdownScan.AdvanceIsFeed | apps/slack/src/markdown.ts:60-86 | the scanner agrees with an automaton that reads one character at a time |
| MarkdownScan.CandidatesAreBoundaries | apps/slack/src/markdown.ts:122-141 | the candidates are exactly the line boundaries within reach, ascending, each with the fence and rank a whole scan up to it would find |
| MarkdownScan.PickIsBest | apps/slack/src/markdown.ts:144-157 | the pick is a candidate within a tenth of the budget of the latest, none in that window ranks better, the latest wins a tie and otherwise the earliest of the best |
| MarkdownScan.CarriageReturnHidesFence | apps/slack/src/markdown.ts:48-58 | a line that ends in a carriage return opens and closes nothing |
| MarkdownRules.FenceLineIff | apps/slack/src/markdown.ts:48-58 | a line is a fence exactly when it is at most three spaces, a run of three or more of one fence character, and an info string on the same line, trimmed |
| MarkdownRules.StepIff | apps/slack/src/markdown.ts:60-76 | which lines open a block and which close it, both ways |
| MarkdownRules.ReserveIs | apps/slack/src/markdown.ts:93-99 | what is reserved is one more than the longest run any line starts with, or than the open block's marker, and nothing where there is none |
| MarkdownRules.BreakPointIs | apps/slack/src/markdown.ts:192-196 | a line too long is broken at the last space past its start and within the limit, and at the limit where there is none |
| MarkdownRules.ChunkIsRight | apps/slack/src/markdown.ts:175-203 | every piece, for every text, budget and cursor: all of a text that fits; else up to the best boundary within reach; else a line broken at its last space, or at the limit; closed if a block is open, without the newlines or spaces at the cut |
| Splitter.Advance | apps/slack/src/markdown.ts:78-86 | the loop over complete lines computes the cursor whose laws are proved in MarkdownScan |
| Splitter.Reserve | apps/slack/src/markdown.ts:93-99 | the loop over matches yields the longest marker of the text or cursor and one, or nothing |
| Splitter.Candidates | apps/slack/src/markdown.ts:122-141 | the loop collects exactly the candidates |
| Splitter.Pick | apps/slack/src/markdown.ts:144-157 | the loop returns exactly the pick |
| Splitter.TakeChunk | apps/slack/src/markdown.ts:175-203 | one chunk: all of a text that fits, a cut at the pick, or a broken line |
| Splitter.BreakLine | apps/slack/src/markdown.ts:192-202 | a line too long breaks at its last space that fits, closing the fence open there |
| Splitter.SplitMarkdown | apps/slack/src/markdown.ts:209-223 | the loop terminates for every text and size and returns the pieces the following lemmas speak of |
| MarkdownFaithful.SplitIsFaithful | apps/slack/src/markdown.ts:159-223 | for every text and size the pieces are the text cut somewhere: only newlines or spaces dropped at cuts, only the closing and reopening lines of the fence a scan finds open there added |
| MarkdownSize.ChunkSize | apps/slack/src/markdown.ts:175-203 | a chunk overruns its budget by at most the closing line it ends with, whatever the cursor holds |
| MarkdownSize.ChunkFitsExactly | apps/slack/src/markdown.ts:93-99 | when a chunk taken at a line start fits its budget, if and only if |
| MarkdownSize.SplitWithinExactly | apps/slack/src/markdown.ts:205-223 | all pieces are at most `max` long if and only if every step has room for its piece |
| MarkdownSize.SplitWithinMax | apps/slack/src/markdown.ts:205-223 | a size of twice the longest line and three is always kept to |
| MarkdownSize.SplitCanOverrun | apps/slack/src/markdown.ts:205-223 | a text and a size the promise fails for |
| MarkdownMeaning.ReopensExactly | apps/slack/src/markdown.ts:39-41 | the reopening line restores the fence exactly when the info string does not extend the marker |
| MarkdownMeaning.SplitKeepsMeaning | apps/slack/src/markdown.ts:205-223 | given room for the longest line, reopening line, marker and one more, the pieces rendered alone show line for line what the text shows, and all but the last close their blocks |
| SlackEngine.ThreadEngine.CloseStream | apps/slack/src/engine.ts:1089-1112 | closing frees the budget and owes an open fence to the next message, on a fresh line |
| SlackEngine.ThreadEngine.SealFence | apps/slack/src/engine.ts:1066-1082 | an open block is closed on the message it is in, on a line of its own |
| SlackEngine.ThreadEngine.CloseIfStale | apps/slack/src/engine.ts:440-446 | a marked message is sealed and closed, and the mark cleared |
| SlackEngine.ThreadEngine.EnsureStream | apps/slack/src/engine.ts:990-1012 | the task's message, cut first if marked, opened on first use |
| SlackEngine.ThreadEngine.AppendWithRollover | apps/slack/src/engine.ts:950-987 | the loop terminates and does what the appending function does, whose text, budget and order are proved below |
| SlackEngine.ThreadEngine.ChargeCard | apps/slack/src/engine.ts:1041-1059 | a card is charged once per message, after a rollover if it would not fit |
| SlackEngine.ThreadEngine.OnArtifact | apps/slack/src/engine.ts:841-862 | an artifact cuts a marked message before anything of it is appended |
| SlackEngine.ThreadEngine.OnActivity | apps/slack/src/engine.ts:863-888 | cards cut a marked message, then each is charged and drawn in turn |
| SlackEngine.ThreadEngine.OnTerminal | apps/slack/src/engine.ts:1148-1166 | a settled task's message is closed and all that was kept for it forgotten |
| SlackEngine.ThreadEngine.MarkStreamsStale | apps/slack/src/engine.ts:425-431 | exactly the open messages of the thread are marked |
| SlackOrder.NothingAboveAPerson | apps/slack/src/engine.ts:425-446 | over every run of any tasks and marks, no answer text or card goes to a message opened before the last person to speak in its thread |
| SlackOrder.MarkedIffSpokenBelow | apps/slack/src/engine.ts:425-446 | over every run, a stream is marked for the cut if and only if a person has spoken in its own thread since its open message was opened |
| SlackBudget.MessagesStayWithinBudget | apps/slack/src/engine.ts:950-1112 | over every run whose budget exceeds each reopening line and is no less than any card: what is charged to a message is what was sent to it, within budget and closing line; so is its weight at every stop, except exactly if it is sealed though over budget by more than a newline; and never more than one marker more |
| SlackBudget.SealKeepsToBudgetIff | apps/slack/src/engine.ts:1066-1082 | over the same runs, sealing keeps a message within budget and closing line exactly when it is charged no more than the budget, and the newline a fresh line saves |
| SlackExamples.ClosesTwice | apps/slack/src/engine.ts:971-986 | a run in which a message is closed by the cut and again by the seal, and carries two markers and one more than its budget |
| SlackFences.StopClosesBlockIff | apps/slack/src/engine.ts:942-1112 | over every run and at every stop inside a block, a message with answer text ends with a closing line of the block if and only if it was sealed or its own last line (after a cut, the closing line of the cut and what follows on it) is one; so it does when its last answer was cut |
| SlackFences.StoppedAloneIff | apps/slack/src/engine.ts:942-1112 | over every run and at every stop inside a block, a message whose pieces are read alone as in the whole leaves no block open, shown alone, if and only if: cut last, the line of the cut does not close the block itself; sealed, the line before the seal does not; otherwise, its last line does |
| SlackReading.CutAlone | apps/slack/src/markdown.ts:175-203 | before the closing line of a cut the block is open exactly when the cut is at a boundary, or the line that is broken does not close it |
| SlackExamples.SealReopens | apps/slack/src/engine.ts:1066-1082 | a run in which the seal ends the agent's own closing line and opens a block |
| SlackFences.SealOpensBlockIff | apps/slack/src/engine.ts:1066-1082 | over every run, a seal is all the text of its message, and opens a block there, if and only if the reopening line is still owed; otherwise the message ends with a closing line of the open block |
| SlackExamples.SealOpensBlock | apps/slack/src/engine.ts:440-446 | a run in which a card's message gets such a seal |
| SlackClosing.BreakClosesBlockIff | apps/slack/src/engine.ts:942-987 | over every run, a message that the loop stops inside a block with text to come ends with a closing line of the block if and only if a piece was cut for it, or it was stopped for want of room and its own last line is one |
| SlackClosing.GoesOnAfterCutIff | apps/slack/src/engine.ts:963-983 | a text too long is cut with nothing left over, and its message goes on, if and only if it is one line that trails off into spaces with room for two closing lines and one more, or is one character too long and ends a paragraph outside any block |
| SlackClosing.TrailsOffBreaks | apps/slack/src/markdown.ts:192-202 | in the first of these cases the line is broken at the limit and the scan forgets it, and an open block is closed |
| SlackExamples.GoesOnClosed | apps/slack/src/engine.ts:963-983 | a run whose message closes a block and goes on: the scan is inside the block and the message shows it outside |
| SlackExamples.OpenerForgotten | apps/slack/src/engine.ts:963-983 | a run whose message is inside a block that the scan has forgotten |
| SlackNewlines.NewlinesLostIff | apps/slack/src/engine.ts:971-982 | exactly when a delta loses newlines at its end though its message goes on |
| SlackExamples.ParagraphsRunTogether | apps/slack/src/markdown.ts:175-191 | a run of two deltas whose paragraphs end up as one word in one message |
| SlackStops.StaleIsCut | apps/slack/src/engine.ts:440-446 | a marked message is sealed and stopped, and any other left as it is |
| SlackStops.CardStopsIff | apps/slack/src/engine.ts:1041-1059 | over every run of `MessagesStayWithinBudget`, a card stops the message it comes to, sealed, exactly when it is new there, the message weighs something, and the two together weigh more than the budget |
| SlackStops.TextStopsIff | apps/slack/src/engine.ts:963-970 | over every run of `MessagesStayWithinBudget`, text starts a new message exactly when what is sent to the open one leaves no room, reopening line included, for a character and the closing line |
| SlackStops.LastChunkStops | apps/slack/src/engine.ts:983-987 | over every run, the last of an answer stops its message, and any other text that ends in no newline leaves it open |
| SlackStops.OverIsForgotten | apps/slack/src/engine.ts:1148-1166 | a task that is over is not marked, owes and holds nothing, and its message is stopped |
| SlackExamples.CardWeighs | apps/slack/src/engine.ts:96-101 | a card weighs its title, its details and forty |
| SlackText.RolloverLosesNothing | apps/slack/src/engine.ts:942-987 | over every run: what Slack was sent for a task is its text, cut somewhere, only whitespace dropped, only the closing line of the block that scanning from the previous cut finds open added, and a message opened inside that block starts by reopening it |
| TurnTranslation.TurnTranslator.RegisterSend | packages/executor/src/translator.ts:191-203 | a send joins the end of the pending ones with the next serial and a waiter |
| TurnTranslation.TurnTranslator.MarkCancelRequested | packages/executor/src/translator.ts:206-211 | a cancel is remembered, and interrupts the task's open turn |
| TurnTranslation.TurnTranslator.MarkTerminalEmitted | packages/executor/src/translator.ts:218-222 | the open turn of that task publishes no second terminal event |
| TurnTranslation.TurnTranslator.PushText | packages/executor/src/translator.ts:723-731 | one chunk is held back |
| TurnTranslation.TurnTranslator.FlushText | packages/executor/src/translator.ts:733-738 | the held chunk is emitted, marked last or not |
| TurnTranslation.TurnTranslator.OpenActivity | packages/executor/src/translator.ts:386-411 | a tool call opens once; text before it is flushed; a toolbelt call draws nothing yet |
| TurnTranslation.TurnTranslator.SettleActivity | packages/executor/src/translator.ts:352-384 | a result closes its open call, drawing nothing for a redundant toolbelt call |
| TurnTranslation.TurnTranslator.CloseOpenActivities | packages/executor/src/translator.ts:414-419 | the loop closes every call still open, in order |
| TurnTranslation.TurnTranslator.OpenTurn | packages/executor/src/translator.ts:672-716 | the turn is bound to the stamped pending send, or to the first |
| TurnTranslation.TurnTranslator.HandleStreamEvent | packages/executor/src/translator.ts:293-310 | a delta opens a turn if none is open and is pushed to it |
| TurnTranslation.TurnTranslator.HandleAssistant | packages/executor/src/translator.ts:312-346 | the loop over blocks: tools are opened, text counts only if no delta came |
| TurnTranslation.TurnTranslator.HandleUser | packages/executor/src/translator.ts:352-384 | the loop over tool results settles each |
| TurnTranslation.TurnTranslator.ResolveWaiter | packages/executor/src/translator.ts:820-824 | the waiter of a uuid is released and removed |
| TurnTranslation.TurnTranslator.TakeFolded | packages/executor/src/translator.ts:660-670 | the primary and the sends inferred folded leave the pending ones |
| TurnTranslation.TurnTranslator.SettleTurn | packages/executor/src/translator.ts:451-503 | the whole effect of a result on an open turn: cards, text, status, accounting and waiters |
| TurnTranslation.TurnTranslator.HandleResult | packages/executor/src/translator.ts:451-503 | a result with no turn open opens one first, and does nothing when nothing is pending |
| TurnTranslation.TurnTranslator.EndStream | packages/executor/src/translator.ts:258-291 | the loops fail what is open and what is pending, once the stream ends |
| TurnTranslation.TurnTranslator.HandleFrame | packages/executor/src/translator.ts:224-251 | each frame goes to its handler |
| TranslatorTurn.TurnTextIsExact | packages/executor/src/translator.ts:723-768 | a turn's chunks concatenate to exactly the text heard (the deltas, and text blocks before any delta), only the first does not append, at most one is last and it is the final one; cards are numbered the same way |
| TranslatorTurn.HeardIsAllIff | packages/executor/src/translator.ts:293-346 | the text heard is all the text of the assistant frames if and only if from the first delta on the deltas say what the assistant frames say |
| TranslatorRuns.TurnGoesOn | packages/executor/src/translator.ts:224-251 | while a turn is open, whatever is registered, cancelled or reported elsewhere between the frames, the translator publishes and holds exactly what the turn alone does |
| TranslatorRuns.TurnTextIsExactInRuns | packages/executor/src/translator.ts:293-503 | in any run, for any turn from the frame that opens it to its result with any other events between: its chunks are exactly the text received, numbered and marked as above |
| TranslatorRuns.CardsCloseOnceInRuns | packages/executor/src/translator.ts:352-503 | in any run, for any such turn: every drawn card of a once-used id is closed exactly once, and a redundant toolbelt call leaves none |
| TranslatorRuns.ResultAloneIsSilent | packages/executor/src/translator.ts:451-456 | a turn that only its result opens publishes no text and no card |
| TranslatorOrder.TurnTellsInOrder | packages/executor/src/translator.ts:352-419 | a turn's chunks and cards come in the order its frames brought them, each text a chunk of its own and every text ahead of the card it precedes; only what is held at the result comes last, after the cards left open |
| TranslatorOutcome.TurnSoFarIsTold | packages/executor/src/translator.ts:386-411 | in any run, while a turn is open: what is published and the text held are all that was heard so far, in order, and text is held only where nothing but text came after it |
| TranslatorOutcome.TurnIsTold | packages/executor/src/translator.ts:451-503 | in any run, a turn answers the send its first frame is stamped with, or else the oldest; reports its task working first, then text and cards in order, then journals and reports its task over as the result says, unless it was to stop, and reports none twice |
| TranslatorOutcome.TurnOpensIff | packages/executor/src/translator.ts:293-346 | with no turn open, a frame opens one if and only if something is pending and it is an assistant frame, or a stream event that is stamped or has a delta |
| TranslatorOutcome.EndIsTold | packages/executor/src/translator.ts:258-291 | when the stream ends, the open turn closes its cards as failed, lets its text go and is reported and journaled as failed, unless reported over already; then so is each send still pending, none journaled twice |
| TranslatorOutcome.ResultAloneIsTold | packages/executor/src/translator.ts:451-461 | the same of a turn that only its result opens |
| TranslatorOutcome.CancelsAreRemembered | packages/executor/src/translator.ts:206-211 | over every run, a task's cancel is remembered exactly until a turn of it is settled |
| TranslatorTools.CardsCloseOnce | packages/executor/src/translator.ts:352-419 | every drawn card of a once-used id is closed exactly once, and a redundant toolbelt call leaves none |
| TranslatorTools.TurnCards | packages/executor/src/translator.ts:352-419 | what a card shows over a turn, for ids used any number of times |
| TranslatorSends.SendsAreConserved | packages/executor/src/translator.ts:191-291 | over every run: pending sends and waiters stand in registration order, an open turn's send is pending, each send is settled and accounted once, nothing is pending after the end |
| TranslatorSends.TakeFoldedParts | packages/executor/src/translator.ts:660-670 | a turn takes its primary and older pending sends, once each, and never one registered after it opened |
| TranslatorSends.SettleTurnKeeps | packages/executor/src/translator.ts:451-503 | a result settles what the turn took and nothing else, keeping the books |
| TranslatorSends.EndKeeps | packages/executor/src/translator.ts:258-291 | the end of the stream settles all that is left |
| TranslatorSends.OpenTurnFailsTwice | packages/executor/src/translator.ts:258-291 | the open turn's task is reported failed a second time exactly when no terminal event was published |
| TranslatorFifo.FoldLeaves | packages/executor/src/translator.ts:650-670 | for any queue count the number left is max(ineligible, min(queued, rest)), and they are the latest, in order |
| TranslatorFifo.FoldIsExactIff | packages/executor/src/translator.ts:650-670 | against the CLI as a FIFO: the inference is what the turn consumed if and only if nothing is in flight or all older sends were consumed |
| TranslatorFifo.PendingMatchesTheCli | packages/executor/src/translator.ts:650-716 | over every run meeting that condition at each result, the pending sends are what the CLI has not finished, in its order |
| TurnTranslation.TurnTranslator.RecordAccounting | packages/executor/src/translator.ts:519-564 | a result journals the difference to the last total recorded, or the total when it has fallen |
| TurnTranslation.TurnTranslator.OnInit | packages/executor/src/translator.ts:226-233 | an announced start counts from zero |
| TurnAccounts.ResultDroppedIff | packages/executor/src/translator.ts:451-461 | a result changes nothing, its total included, if and only if no turn is open and no send is pending; any other is recorded |
| TurnAccounts.SpendingIsConserved | packages/executor/src/translator.ts:451-564 | over every run of translator events and restarts, announced or not: what was spent is what was journaled, what is lost and what is not recorded yet |
| TurnAccounts.JournaledIsSpentIff | packages/executor/src/translator.ts:451-564 | over every such run, what is journaled never exceeds what was spent, and is all of it if and only if no process ended with spending unrecorded, none is unrecorded at the end, and the first total recorded after a restart not announced is below the last |
| TurnAccounts.DroppedIsLost | packages/executor/src/translator.ts:457-461 | a result nobody waited for and an announced restart: all of its total is lost |
| CardEdits.CardEditor.Schedule | apps/discord/src/editor.ts:50-59 | the latest body replaces the queued one in place, and the timer is armed |
| CardEdits.CardEditor.Settle | apps/discord/src/editor.ts:66-79 | a settle queues its body and waits, or returns at once |
| CardEdits.CardEditor.Forget | apps/discord/src/editor.ts:82-90 | a queued card is dropped and its waiters released |
| CardEdits.CardEditor.Arm | apps/discord/src/editor.ts:110-120 | the timer is armed for the interval's end when there is work, no timer and no flush |
| CardEdits.CardEditor.Tick | apps/discord/src/editor.ts:122-133 | the timer takes the card first in line into flight |
| CardEdits.CardEditor.FlushFinished | apps/discord/src/editor.ts:133-142 | the flush ends, its waiters are released in a loop, and the next is armed |
| CardLaneProofs.NoWakeupIsLost | apps/discord/src/editor.ts:110-142 | over every run: queued work has a timer or a flush in progress, one flush at a time, starts at least an interval apart |
| CardLaneTimes.FlushIsDueInTime | apps/discord/src/editor.ts:110-121 | over every run, a card waiting with no flush in progress has a timer due no sooner than an interval after the last flush started, and no later than that or the time work began to wait |
| CardLaneProofs.RefinesImmediateEditing | apps/discord/src/editor.ts:50-142 | over every run: no older body lands after a newer one, and an idle lane shows each unforgotten card's last body |
| CardLaneProofs.WaitersReleasedOnce | apps/discord/src/editor.ts:66-142 | over every run: no waiter is released more often than it waited, and none is left on an idle lane |
| CardLaneProofs.FlushKeepsItsPromise | apps/discord/src/editor.ts:66-142 | a flush releases only waiters of its card, with the body they waited for or a later one |
| CardLaneProofs.SettleReturnsAtOnce | apps/discord/src/editor.ts:66-79 | exactly when a settle waits for nothing |
| CardLaneProofs.OvertakenOnlyByThoseAhead | apps/discord/src/editor.ts:122-142 | while a card is in line, no more flushes start than there were cards ahead of it |
| GatewayClient.HandledTable.MarkHandled | apps/discord/src/state.ts:442-447 | true the first time an id is seen, and recorded |
| GatewayClient.GatewayConnection.constructor | apps/discord/src/gateway.ts:141-145 | a resuming connection starts from the stored sequence |
| GatewayClient.GatewayConnection.OnDispatchFrame | apps/discord/src/gateway.ts:270-277 | a dispatch updates the last sequence and joins the chain |
| GatewayClient.GatewayConnection.HandlerStarts | apps/discord/src/engine.ts:247-250 | the handler of the next dispatch records its id and acts only if it is new |
| GatewayClient.GatewayConnection.HandlerSettles | apps/discord/src/gateway.ts:277-294 | the sequence is stored once the handler returned, and left alone if it threw |
| GatewayClient.GatewayConnection.OnResumed | apps/discord/src/gateway.ts:315-324 | RESUMED stores the last sequence seen at once |
| GatewayDelivery.CrashLosesNothing | apps/discord/src/gateway.ts:270-325 | over every run with no failing handler and RESUMED only on an empty chain, connections overlapping or not: the stored sequence passes no unhandled dispatch, so after a crash at any step the resume queues every one still owed |
| GatewayLast.LastIsWhatWasSent | apps/discord/src/gateway.ts:270-325 | over every run at all, the live connection's last sequence is that of exactly what it was sent, and the next one starts from the stored |
| GatewayDelivery.ResumedIsSafeIff | apps/discord/src/gateway.ts:315-320 | a numbered RESUMED is safe exactly when nothing queued is unhandled |
| GatewayDelivery.FailureIsPassedIff | apps/discord/src/gateway.ts:277-294 | after a failed handler the next success passes it, safe exactly when it was handled some other time |
| GatewayDelivery.ResumedCanSkip | apps/discord/src/gateway.ts:315-320 | a run in which a queued message is lost to a crash |
| GatewayOnce.ActedOnAtMostOnce | apps/discord/src/state.ts:437-447 | over every run at all, with failures, crashes and overlapping connections, an id is acted on or cut short at most once, and once more for each time it was pruned |
| GatewayOnce.ExactlyOnceIff | apps/discord/src/engine.ts:247-250 | a careful run at rest has acted on each remembered message exactly once, unless its handler was cut short after recording it |
| GatewayOnce.RecordedIsActedOnIff | apps/discord/src/engine.ts:247-250 | over every run, failures included: a message recorded and remembered, with no handler in the middle of it, was acted on exactly once, unless its handler was cut short |
| PhoneEngine.CallEngine.OnSetup | apps/phone/src/engine.ts:347-371 | an unlisted or locked caller is turned away |
| PhoneEngine.CallEngine.OnPinDigit | apps/phone/src/engine.ts:373-407 | eight digits or a terminator put the entry to the test; a failed one counts and the last ends the call |
| PhoneEngine.CallEngine.Hangup | apps/phone/src/engine.ts:297-343 | the call ends once, the open turn is dropped and the key timer cancelled |
| PhoneEngine.CallEngine.OnInterrupt | apps/phone/src/engine.ts:775-785 | the turn is dropped, and its task cancelled if known |
| PhoneEngine.CallEngine.StartTurn | apps/phone/src/engine.ts:801-813 | a turn still streaming is dropped and cancelled before the next opens |
| PhoneEngine.CallEngine.OnChoice | apps/phone/src/engine.ts:598-629 | a chosen agent connects, and a task still running there is picked up |
| PhoneEngine.CallEngine.OnUtterance | apps/phone/src/engine.ts:724-760 | goodbye, switch, an answer of the bridge's own, or a turn |
| PhoneEngine.CallEngine.OnAnyKey | apps/phone/src/engine.ts:268-294 | a key is a digit of the PIN, one for the agent, or nothing |
| PhoneEngine.CallEngine.OnKey | apps/phone/src/engine.ts:762-773 | a key is buffered and the flush timer restarted |
| PhoneEngine.CallEngine.FlushKeys | apps/phone/src/engine.ts:762-773 | the buffered keys become one turn |
| PhoneEngine.CallEngine.OnTurnEvent | apps/phone/src/engine.ts:883-935 | one chunk is held back and let go with `last` at a terminal status |
| PhoneEngine.CallEngine.OnTurnEnd | apps/phone/src/engine.ts:847-866 | a stream's end closes its turn, with an apology if it failed undropped |
| PhoneSpeech.OneVoiceAtATime | apps/phone/src/engine.ts:801-866 | over every call: at most one undropped open turn, the newest and only while connected; no token of a turn after a newer one opened; every key pressed while connected is pending or was sent, once and in order |
| PhoneTurns.CancelledExactly | apps/phone/src/engine.ts:775-813 | over every call: a live turn's task is cancelled exactly when the caller speaks over it, once; a hangup or a switch cancels none; and turns are opened exactly for what is said or keyed to an agent, and for a task still running at one chosen |
| PhoneTurns.DroppedExactly | apps/phone/src/engine.ts:775-813 | over every call, an event drops a turn exactly when it is live and is spoken over or left |
| PhoneTurns.DroppedSaysNoMore | apps/phone/src/engine.ts:883-890 | a dropped turn says no more, whatever comes |
| PhoneTurns.TurnsMoveExactly | apps/phone/src/engine.ts:820-866 | each turn ends, hears and learns its task from its own stream alone, and a new one starts afresh |
| PhoneSpeech.KeysFollowTheCall | apps/phone/src/engine.ts:762-773 | keys left unsent when the call switches are sent to the next agent, ahead of the next key |
| PhoneKeys.OwnKeysIff | apps/phone/src/engine.ts:762-773 | over every call: a flush sends the keys pressed since the call was connected after those left from before, so only the agent's own exactly when none was pending then, or those were sent |
| PhoneSpeech.TurnIsSpokenExactly | apps/phone/src/engine.ts:883-935 | over every call, a turn heard to one terminal status said its artifacts' text, or the status text when there was none, with `last` on exactly the final token |
| PhoneSpeech.UtteranceIsExact | apps/phone/src/engine.ts:883-935 | the same for each stretch of a stream up to a terminal status, from any turn with nothing held |
| PhoneSpeech.OneChunkHeld | apps/phone/src/engine.ts:891-904 | before a terminal status what was said and what is held are the text so far, and nothing said carries `last` |
| PhoneGate.GateHolds | apps/phone/src/engine.ts:268-294 | over every call: choosing or connected implies an admitted caller and a verified PIN in this call, no agent is reached before that, no more tests fail than allowed, and what was tested is what was keyed |
| PhoneStates.TestedExactly | apps/phone/src/engine.ts:373-407 | over every call, what is put to the test are exactly the entries that the keys at the gate make: eight digits, or fewer and a terminator |
| PhoneStates.GoesExactly | apps/phone/src/engine.ts:268-407 | over every call, each event takes it where its state allows, and the bridge says just what there is to say |
| PhoneGate.AdmittedOnlyBySetup | apps/phone/src/engine.ts:347-371 | admission comes only from a setup by a listed caller who is not locked out |
| PhoneLockout.Registry.RecordFailedCall | apps/phone/src/registry.ts:171-184 | delete, insert, count, and at the limit lock and delete again: the tables after are those the lemmas speak of |
| PhoneLockout.LocksExactly | apps/phone/src/registry.ts:171-184 | over every history, a failure locks its number exactly when enough of that number's own failures since its last lock fall in the window |
| PhoneLockout.TableIsExact | apps/phone/src/registry.ts:171-184 | a number's rows are its failures since its last lock but those out of the window |
| PhoneLockout.LockedUntilIsExact | apps/phone/src/registry.ts:159-164 | a number is locked exactly until its last lock runs out |
| PhoneLine.LockedNumbersAreShutOut | apps/phone/src/engine.ts:347-398 | over every run of overlapping calls with one registry: a call is let to the PIN if and only if its number is listed and not within the cooldown of the last lock that the failed calls before it make; of any other nothing is tested and no agent reached |
| PhoneLine.FailsOnceIff | apps/phone/src/engine.ts:373-407 | over every call, it is recorded as failed once if it fails every test it is allowed, and never otherwise |
| Levenshtein.EditDistance | apps/phone/src/engine.ts:170-182 | the one-row loop computes the Levenshtein distance |
| Levenshtein.DistanceIsCheapest | apps/phone/src/engine.ts:170-182 | that distance is the cost of the cheapest edit script |
| Levenshtein.Symmetric | apps/phone/src/engine.ts:170-182 | the distance is symmetric |
| Levenshtein.Triangle | apps/phone/src/engine.ts:170-182 | the distance obeys the triangle inequality |
| Levenshtein.ZeroIffEqual | apps/phone/src/engine.ts:170-182 | the distance is zero exactly between equal words |
| Levenshtein.AtLeastLengthDifference | apps/phone/src/engine.ts:170-182 | the distance is at least the difference in length |
| AgentPicker.AgentNearlyNamed | apps/phone/src/engine.ts:437-459 | nothing is offered when no word tried is admissible, else the nearest agent, the earliest of those as near |
| AgentPicker.HeardIff | apps/phone/src/engine.ts:438-440 | the words tried are, over all texts, exactly those of three characters or more without a space |
| AgentPicker.AllowedIs | apps/phone/src/engine.ts:451-453 | a handle forgives the most edits that are no more than two in five of its characters, and one in any case |
| AgentPicker.AsIntended | apps/phone/src/engine.ts:451-453 | "hurth" is Hearth, "forj" is Forge, and "one" is not Home |
| AgentPicker.PrefilterHarmlessIff | apps/phone/src/engine.ts:437-459 | the length pre-filter drops no admissible word that can be heard if and only if the handle is under eight characters or has more spaces than edits it forgives |
| SessionManagement.SessionManager.SessionFor | packages/executor/src/session-manager.ts:249-261 | a session is found or added at the end, and homed |
| SessionManagement.SessionManager.Touch | packages/executor/src/session-manager.ts:326-331 | the session moves to the end and its timer is restarted |
| SessionManagement.SessionManager.OnTtlExpired | packages/executor/src/session-manager.ts:349-360 | an idle session is evicted, a busy one re-armed |
| SessionManagement.SessionManager.Evict | packages/executor/src/session-manager.ts:363-375 | a hot session loses its subprocess and its timer |
| SessionManagement.SessionManager.EnsureGeneration | packages/executor/src/session-manager.ts:377-396 | a re-homed idle session lets its process go; a cold one that is not spawning makes room and spawns |
| SessionManagement.SessionManager.EnforcePoolCap | packages/executor/src/session-manager.ts:500-516 | the sweep over the map evicts exactly the first idle hot sessions it must |
| SessionManagement.SessionManager.CountHot | packages/executor/src/session-manager.ts:264-272 | the number of sessions with a subprocess |
| SessionManagement.SessionManager.Spawned | packages/executor/src/session-manager.ts:427-441 | a spawned session runs in its directory and is the most recently used |
| SessionManagement.SessionManager.Send | packages/executor/src/session-manager.ts:182-189 | a send that wants an answer counts as pending, and touches |
| SessionManagement.SessionManager.OnFrame | packages/executor/src/session-manager.ts:449-456 | a result sets what is pending, and every frame touches |
| SessionPoolProofs.MakesRoomExactly | packages/executor/src/session-manager.ts:500-516 | exactly min(idle hot, max(0, hot - cap + 1)) sessions are let go, idle ones, none used more recently than an idle one kept; it ends below the cap or with every hot session busy |
| SessionSteps.StepIsExact | packages/executor/src/session-manager.ts:182-456 | what each event makes of its session, field by field, and of every other nothing, but that making room may let an idle one go |
| SessionSteps.MadeCold | packages/executor/src/session-manager.ts:249-261 | a session asked for that is not there is made cold, in its directory |
| SessionSteps.EnsuredRunsWhereAsked | packages/executor/src/session-manager.ts:377-396 | over every run, a session that was ensured runs in its own directory or is being spawned there, unless it is still busy |
| SessionPoolProofs.PoolIsOrderedAndTimed | packages/executor/src/session-manager.ts:326-347 | over every run map order is last-activity order, and an idle hot session's timer is due exactly its time to live after its last activity |
| SessionPoolProofs.LetGoForAReason | packages/executor/src/session-manager.ts:349-396 | over every run a session loses its subprocess only when its own process ended, or idle: out of time, re-homed, or the least recently used of a full pool |
| SessionPoolCap.SpawnKeepsTheCapIff | packages/executor/src/session-manager.ts:398-441 | over every run, a spawn that completes leaves the pool within its cap or every other hot session busy exactly when just before there was room for one more or no hot session idle |
| SessionPoolCap.SpawnKeepsTheCap | packages/executor/src/session-manager.ts:398-441 | so it does from the check to the spawn, whatever happens between but another spawn that completes or a turn that ends |
| SessionPoolCap.FrameBetweenOvershoots | packages/executor/src/session-manager.ts:398-441 | a turn that ends between leaves one pool over its cap with both sessions idle |
| SessionPoolCap.OverlappingSpawnsOvershoot | packages/executor/src/session-manager.ts:398-441 | two that overlap overshoot, with both sessions idle |
| Drift.ProjectOnto | apps/cli/src/provision.ts:64-90 | the recursive loops compute the projection |
| Drift.DiffPaths | apps/cli/src/provision.ts:93-114 | the recursive loop computes the differing paths, written with dots, skipping what prints the same |
| DriftProofs.NoDriftIff | apps/cli/src/provision.ts:50-114 | for all values, no drift is reported exactly when both agree on every key both have and lists of one length item by item, anything else being the same once lists are read as objects |
| DriftProofs.DiffEmptyIff | apps/cli/src/provision.ts:93-114 | no path is reported exactly when the values are equal up to the order of keys, every list read as an object keyed by position |
| DriftProofs.DiffEmptyWhereUnmixed | apps/cli/src/provision.ts:93-114 | where no list stands opposite an object, no path is reported exactly when the values are equal up to the order of keys |
| DriftProofs.MixUnseenIff | apps/cli/src/provision.ts:93-114 | exactly when a list against an object goes unseen |
| DriftProofs.PathsAreReal | apps/cli/src/provision.ts:93-114 | every reported path leads to a real difference |
| DriftPaths.PathReportedIff | apps/cli/src/provision.ts:93-114 | a path is reported if and only if the two values differ at its end and are made of parts all along it |
| DriftPaths.DriftReportedIff | apps/cli/src/provision.ts:50-114 | a path is reported as drift if and only if the stored value has drifted there: through objects only by keys both have, through lists of one length by position, and an entry added to a list or taken from it is named |
| DriftPaths.DottedReadsBackIff | apps/cli/src/provision.ts:108-108 | the keys of a path can be read back from its dots if and only if no key has a dot and the first is not empty |
| DriftPaths.WrittenAs | apps/cli/src/provision.ts:95-95 | a difference at the top is written as the root's, any other with its path |
| DriftPrint.PrintsSameIff | apps/cli/src/provision.ts:109-109 | two values print the same text, quoting and all, exactly when they are the same |
| DriftProofs.ShortcutChangesNothing | apps/cli/src/provision.ts:109-111 | skipping values that print the same text changes no result |
| DriftProofs.UnmanagedNeverMatters | apps/cli/src/provision.ts:54-90 | two stored values that say the same on every managed key, at every depth, project alike, whatever their other keys |
| DriftProofs.ProjectTwice | apps/cli/src/provision.ts:64-90 | the projection is idempotent |
| DriftProofs.ListAgainstObjectUnseen | apps/cli/src/provision.ts:93-114 | an empty list against an empty object is not seen |
| Questions.DecodeAnswers | apps/slack/src/questions.ts:151-187 | the loop over questions decodes complete answers, an incomplete form or nothing |
| Questions.FormRoundTrip | apps/slack/src/questions.ts:151-187 | picks made on a form's elements, submitted, decode to exactly those picks, or to incomplete when a question has none |
| Questions.FallbackRoundTrip | apps/slack/src/questions.ts:174-176 | the same where only the elements' own selections come with the Submit |
| Questions.TapIff | apps/slack/src/questions.ts:159-166 | one question with one answer is answered exactly when what was tapped first names one of its options; all else is nothing |
| Questions.PicksAreNamed | apps/slack/src/questions.ts:177-181 | of a question's values, in order, those that name an option it has are its picks, and all others are ignored |
| Questions.OthersAreNothing | apps/slack/src/questions.ts:156-158 | actions that are not of the bridge's own elements mean nothing |
| Questions.SelectionChangeIsNothing | apps/slack/src/questions.ts:167-169 | a changed selection means nothing until Submit |
| Questions.TapRoundTrip | apps/slack/src/questions.ts:159-166 | a tap on a single question's button decodes to its option |
| Questions.ParsesBack | apps/slack/src/questions.ts:51-61 | option values print and parse inversely |
| Questions.ParsesIff | apps/slack/src/questions.ts:55-61 | a value is read as an option exactly when it is two numbers in decimal with a colon between |
| Questions.IdsAreDistinct | apps/slack/src/questions.ts:42-48 | block and action ids are injective |
| Questions.AnswersAreReal | apps/slack/src/questions.ts:151-187 | whatever comes in, decoded answers are complete and name options that exist |

## Left out

- Sockets, HTTP, SQLite, subprocesses, timers' clocks and signals: they are events and parameters.
- Slack's refusals: the fallback to a plain message after a refused stream or card, and the
  bridge's status lines, prose and queue counts.
- `apps/discord/src/markdown.ts`, which holds the same splitter, and Discord card rendering.
- TurnTranslation.TurnTranslator.SettleTurn: one counter stands for the five usage totals of a record; its other fields and the wording of messages are left out.
- TurnTranslation.TurnTranslator.HandleResult: as `SettleTurn`.
- SlackFences.StoppedAloneIff: asks that every piece starts where a scan of the message alone stands; what a message shows alone whose text goes on after a cut, that starts in the middle of a line, or whose reopening line does not come back, is left out but for the runs of `SlackExamples`.
- Frames that arrive after the stream has ended, and a task of the same id announced twice.
- CardLaneProofs.RefinesImmediateEditing: bodies are serial numbers in the order they were asked; a flush that fails counts as landed, since the code releases its waiters and does not retry it.
- CardLaneProofs.WaitersReleasedOnce: one channel's lane; lanes do not share anything.
- GatewayDelivery.CrashLosesNothing: one Gateway session; a READY, an invalidated session and a fatal close start another and are left out, as are dispatches the engine ignores before it asks whether they are new.
- GatewayClient.GatewayConnection.constructor: a connection that resumes; identifying afresh and the heartbeat are left out.
- PhoneEngine.CallEngine.OnChoice: what was understood from speech (the confirm and resume offers, the phrases) comes in with the event; wording, alerts, latencies and the re-asked prompt are left out.
- PhoneEngine.CallEngine.OnUtterance: what an utterance means comes in with the event; the phrases and the note on what an interruption cut off are left out.
- PhoneEngine.CallEngine.OnAnyKey: the prompt that is asked again after a key at the picker is left out.
- PhoneEngine.CallEngine.Hangup: the saved session record and the question left open for the next call are left out.
- AgentPicker.AgentNearlyNamed: the text and the handles are normalized (case, punctuation, runs of white space) beforehand.
- SessionManagement.SessionManager.OnFrame: the manager's shutdown, and a pump of a closed subprocess that ends only after the next has been spawned, are left out.
- Drift.DiffPaths: keys found on JavaScript prototypes and a key named `length` against a list are left out; numbers are whole, so printing a fraction is too.
- DriftProofs.ProjectTwice: asks that no object of the desired value repeats a key, which JavaScript objects cannot.
- Questions.DecodeAnswers: labels, layout and the answer's wording are left out; numbers are unbounded.
- The rest of the repository: configuration, provisioning over the network, `netd`, routines, the command line and the other bridges' payload translation.
