/**
  What turns are charged: the CLI reports running totals, and the record of each result journals
  the difference to the last one recorded. One counter stands for each of cost, tokens in and
  out, and cache tokens.
 */
module TurnAccounts {
  import opened Options
  import opened Translator

  /** The journaled difference: a total below the last one counts from zero again. */
  function Delta(current: nat, previous: nat): nat {
    if current >= previous then current - previous else current
  }

  /**
    The translator and what it keeps of the counter: the last total recorded. `journaled` is what
    its records add up to.
   */
  datatype Meter = Meter(st: State, cumulative: nat, journaled: nat)

  const NEW := Meter(FRESH, 0, 0)

  function RecordAccounting(m: Meter, total: nat): Meter {
    m.(cumulative := total, journaled := m.journaled + Delta(total, m.cumulative))
  }

  /** A result that finds no turn and can open none is dropped before it is recorded. */
  function OnResult(m: Meter, stamp: Option<nat>, queued: nat, outcome: Outcome, total: nat): Meter {
    (if OpenIfNone(m.st, stamp).turn.None? then m else RecordAccounting(m, total)).(
    st := HandleResult(m.st, stamp, queued, outcome))
  }

  /** A process that starts says so: its totals count from zero. */
  function OnInit(m: Meter): Meter {
    m.(cumulative := 0)
  }

  function OnFrame(m: Meter, f: Frame, total: nat): Meter {
    match f
    case Result(stamp, queued, outcome) => OnResult(m, stamp, queued, outcome, total)
    case _ => m.(st := HandleFrame(m.st, f))
  }

  // ------------------------------------------------------------- runs

  /** A process starts, and says so or not; or something happens to the translator, where a result reports a total. */
  datatype Happening = Restart(announced: bool) | Happens(event: Event, total: nat)

  function Step(m: Meter, h: Happening): Meter {
    match h
    case Restart(announced) => if announced then OnInit(m) else m
    case Happens(Arrives(f), total) => OnFrame(m, f, total)
    case Happens(e, _) => m.(st := Handle(m.st, e))
  }

  function After(run: seq<Happening>): Meter
    decreases |run|
  {
    if run == [] then NEW else Step(After(run[..|run| - 1]), run[|run| - 1])
  }

  predicate Reports(h: Happening) {
    h.Happens? && h.event.Arrives? && h.event.frame.Result?
  }

  /** A result now would be recorded. */
  predicate Recorded(st: State) {
    st.turn.Some? || st.pending != []
  }

  /** The last total the process reported, recorded or not. */
  function Last(run: seq<Happening>): nat
    decreases |run|
  {
    if run == [] then 0
    else
      var h := run[|run| - 1];
      if h.Restart? then 0 else if Reports(h) then h.total else Last(run[..|run| - 1])
  }

  /** A process's totals never fall. */
  predicate Sound(run: seq<Happening>)
    decreases |run|
  {
    run == [] ||
    var before, h := run[..|run| - 1], run[|run| - 1];
    Sound(before) && (Reports(h) ==> h.total >= Last(before))
  }

  /** All that was spent: each process counts from zero. */
  function Spent(run: seq<Happening>): nat
    requires Sound(run)
    decreases |run|
  {
    if run == [] then 0
    else
      var before, h := run[..|run| - 1], run[|run| - 1];
      Spent(before) + if Reports(h) then h.total - Last(before) else 0
  }

  /** The last total recorded is the running process's own, or zero. */
  predicate Own(run: seq<Happening>)
    decreases |run|
  {
    run == [] ||
    var before, h := run[..|run| - 1], run[|run| - 1];
    match h
    case Restart(announced) => announced || After(before).cumulative == 0
    case Happens(_, _) => (Reports(h) && Recorded(After(before).st)) || Own(before)
  }

  /** What the running process spent since its last result that was recorded. */
  function Missing(run: seq<Happening>): int {
    if Own(run) then Last(run) - After(run).cumulative else Last(run)
  }

  /**
    What no record will ever say: what a process still missed when it was gone, and a stale total
    taken for its own.
   */
  function Lost(run: seq<Happening>): int
    decreases |run|
  {
    if run == [] then 0
    else
      var before, h := run[..|run| - 1], run[|run| - 1];
      Lost(before) +
      if h.Restart? then Missing(before)
      else if Reports(h) && Recorded(After(before).st) && !Own(before) && h.total >= After(before).cumulative
      then After(before).cumulative
      else 0
  }

  /**
    Nothing gets lost: a process is gone only when all it spent is recorded; and where a restart
    was not announced, the first total recorded after it is below the last one before.
   */
  predicate Telling(run: seq<Happening>)
    decreases |run|
  {
    run == [] ||
    var before, h := run[..|run| - 1], run[|run| - 1];
    && Telling(before)
    && (h.Restart? ==> Missing(before) == 0)
    && (Reports(h) && Recorded(After(before).st) && !Own(before) ==> h.total < After(before).cumulative)
  }

  // ------------------------------------------------------------- results that are dropped

  lemma OpensIff(st: State, stamp: Option<nat>)
    ensures OpenIfNone(st, stamp).turn.Some? <==> Recorded(st)
  {
  }

  lemma {:induction false} SettlingLogs(st: State, folded: seq<Send>, primary: Send)
    ensures |SettleFolded(st, folded, primary).log| >= |st.log|
    decreases |folded|
  {
    if folded != [] {
      var s := folded[0];
      var st1 := if s.uuid != primary.uuid then Log(st, [FoldedInto(s, primary.task)]) else st;
      SettlingLogs(ResolveWaiter(st1, s.uuid), folded[1..], primary);
    }
  }

  lemma SettlingShows(st: State, queued: nat, outcome: Outcome)
    requires st.turn.Some?
    ensures |SettleTurn(st, queued, outcome).log| > |st.log|
  {
    hide TakeFolded, Finish, SettleFolded, TerminalState;
    var t := st.turn.value;
    var fold := TakeFolded(st, t.send, t.openSeq, queued);
    var state := TerminalState(st, t, outcome);
    var st2 := Log(Log(st.(pending := fold.pending), [Journaled(t.send.uuid, state)]), Finish(t, state).out);
    SettlingLogs(if t.terminalEmitted then st2 else Log(st2, [Ended(t.send.task, state)]), fold.folded, t.send);
  }

  /**
    A result leaves no trace, and what it reports is not recorded, exactly when no turn is open and
    nothing is pending.
   */
  lemma ResultDroppedIff(m: Meter, stamp: Option<nat>, queued: nat, outcome: Outcome, total: nat)
    ensures OnResult(m, stamp, queued, outcome, total) == m <==> m.st.turn.None? && m.st.pending == []
    ensures Recorded(m.st) ==>
              OnResult(m, stamp, queued, outcome, total).journaled == m.journaled + Delta(total, m.cumulative)
  {
    hide SettleTurn;
    OpensIff(m.st, stamp);
    if Recorded(m.st) {
      SettlingShows(OpenIfNone(m.st, stamp), queued, outcome);
    }
  }

  // ------------------------------------------------------------- the balance

  lemma OwnStep(m: Meter, h: Happening)
    ensures Step(m, h).cumulative ==
              if h.Restart? && h.announced then 0
              else if Reports(h) && Recorded(m.st) then h.total else m.cumulative
    ensures Step(m, h).journaled == m.journaled +
              if Reports(h) && Recorded(m.st) then Delta(h.total, m.cumulative) else 0
  {
    hide HandleResult, HandleFrame, Recorded;
    if Reports(h) { OpensIff(m.st, h.event.frame.stamp); }
  }

  /** Over every run, what was spent is what was journaled, what is lost, and what is not recorded yet. */
  lemma {:induction false} SpendingIsConserved(run: seq<Happening>)
    requires Sound(run)
    ensures Spent(run) == After(run).journaled + Lost(run) + Missing(run)
    ensures Lost(run) >= 0 && Missing(run) >= 0
    ensures !Own(run) ==> After(run).cumulative > 0
    ensures Lost(run) == 0 <==> Telling(run)
    decreases |run|
  {
    hide Step, Recorded;
    if run != [] {
      var before, h := run[..|run| - 1], run[|run| - 1];
      SpendingIsConserved(before);
      OwnStep(After(before), h);
    }
  }

  /**
    Over every run, what is journaled never exceeds what was spent, and is all of it exactly when
    nothing is missing at the end or was when a process ended, and every restart that was not
    announced shows in the total first recorded after it.
   */
  lemma JournaledIsSpentIff(run: seq<Happening>)
    requires Sound(run)
    ensures After(run).journaled <= Spent(run)
    ensures After(run).journaled == Spent(run) <==> Telling(run) && Missing(run) == 0
  {
    hide *;
    SpendingIsConserved(run);
  }

  /** A result nobody waited for, and then a restart that is announced: what it reports is lost. */
  lemma DroppedIsLost(stamp: Option<nat>, outcome: Outcome, total: nat)
    ensures var run := [Happens(Arrives(Result(stamp, 0, outcome)), total), Restart(true)];
            Sound(run) && Spent(run) == total && After(run).journaled == 0
  {
    var result := Happens(Arrives(Result(stamp, 0, outcome)), total);
    var run := [result, Restart(true)];
    assert run[..|run| - 1] == [result] && [result][..0] == [];
    assert Sound([result]) && Spent([result]) == total && After([result]) == NEW by {
      hide Step;
      assert After([result]) == Step(NEW, result);
      assert Step(NEW, result) == NEW by { ResultDroppedIff(NEW, stamp, 0, outcome, total); OnlyResult(result); }
    }
  }

  lemma OnlyResult(h: Happening)
    requires Reports(h)
    ensures var f := h.event.frame; Step(NEW, h) == OnResult(NEW, f.stamp, f.queued, f.outcome, h.total)
  {
  }
}
