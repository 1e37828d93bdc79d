/** When a card's flush is due: as soon as the interval since the last flush allows. */
module CardLaneTimes {
  import opened Options
  import opened CardLane
  import opened CardLaneProofs

  predicate InTime(ticks: seq<Tick>) {
    forall i, j :: 0 <= i < j < |ticks| ==> ticks[i].now <= ticks[j].now
  }

  /** Work is waiting and no flush is in progress. */
  predicate Waiting(l: Lane) {
    l.pending != [] && l.inFlight.None?
  }

  /** Since when work has been waiting with no flush in progress, if it is. */
  function Since(interval: nat, ticks: seq<Tick>): Option<int>
    decreases |ticks|
  {
    if ticks == [] || !Waiting(Run(EMPTY, interval, ticks)) then None
    else
      var before := ticks[..|ticks| - 1];
      if Since(interval, before).Some? then Since(interval, before) else Some(ticks[|ticks| - 1].now)
  }

  /** A timer is due no sooner than the interval after the last flush, and no later than that or this time. */
  predicate DueBy(l: Lane, interval: nat, time: int) {
    l.timer.Some? ==>
      && l.lastFlushAt + interval <= l.timer.value
      && (l.timer.value <= l.lastFlushAt + interval || l.timer.value <= time)
  }

  /** The timer stays as it is, is gone, or has just been set. */
  predicate TimerMoves(l: Lane, l': Lane, interval: nat, now: int) {
    || l'.timer == None
    || (l'.timer == l.timer && l'.lastFlushAt == l.lastFlushAt)
    || (l.timer == None && Waiting(l') && l'.timer == Some(if l'.lastFlushAt + interval < now then now
                                                            else l'.lastFlushAt + interval))
  }

  lemma ArmMoves(l: Lane, interval: nat, now: int)
    ensures TimerMoves(l, Arm(l, interval, now), interval, now)
    ensures var l' := Arm(l, interval, now);
            l' == l.(timer := l'.timer) && (Waiting(l) ==> l'.timer.Some?) && (l.timer.Some? ==> l' == l)
  {
  }

  lemma ScheduleMoves(l: Lane, interval: nat, now: int, id: nat, body: nat)
    ensures var l' := Schedule(l, interval, now, id, body);
            && TimerMoves(l, l', interval, now) && l'.pending != [] && l'.inFlight == l.inFlight
            && (Waiting(l') ==> l'.timer.Some?)
  {
    hide Arm, Queue;
    var l1 := Log(l.(pending := Queue(l.pending, id, body)), [Asked(id, body)]);
    QueueIsWork(l.pending, id, body);
    ArmMoves(l1, interval, now);
  }

  lemma QueueIsWork(pending: seq<Pending>, id: nat, body: nat)
    ensures Queue(pending, id, body) != []
  {
  }

  lemma WaitMoves(l: Lane, interval: nat, now: int, id: nat, waiter: nat)
    ensures var l' := Wait(l, interval, now, id, waiter);
            && TimerMoves(l, l', interval, now) && l'.inFlight == l.inFlight && |l'.pending| == |l.pending|
            && (l.timer.Some? ==> l'.timer == l.timer && l'.lastFlushAt == l.lastFlushAt)
  {
    hide Arm;
    var i := Find(l.pending, id);
    if i < |l.pending| {
      var p := l.pending[i];
      ArmMoves(Log(l.(pending := l.pending[i := p.(waiters := p.waiters + [waiter])]),
                   [Waits(waiter, id, Some(p.body))]),
          interval, now);
    }
  }

  lemma HandleMoves(l: Lane, interval: nat, now: int, e: Event)
    requires l.inFlight.Some? ==> l.timer.None?
    ensures TimerMoves(l, Handle(l, interval, now, e), interval, now)
  {
    hide Schedule, Wait, Land, Arm, Release, Find;
    if Possible(l, now, e) {
      match e
      case Scheduled(id, body) => ScheduleMoves(l, interval, now, id, body);
      case Settled(id, edit, waiter) => SettleMoves(l, interval, now, id, edit, waiter);
      case Forgotten(id) =>
      case TimerFires =>
      case FlushFinishes =>
        LandParts(l);
        ArmMoves(Land(l), interval, now);
    }
  }

  lemma SettleMoves(l: Lane, interval: nat, now: int, id: nat, edit: Option<nat>, waiter: nat)
    requires l.inFlight.Some? ==> l.timer.None?
    ensures TimerMoves(l, Settle(l, interval, now, id, edit, waiter), interval, now)
  {
    hide Schedule, Wait;
    if edit.Some? {
      var l1 := Schedule(l, interval, now, id, edit.value);
      ScheduleMoves(l, interval, now, id, edit.value);
      WaitMoves(l1, interval, now, id, waiter);
    } else {
      WaitMoves(l, interval, now, id, waiter);
    }
  }

  // ------------------------------------------------------------- when the last flush started

  /** When the last flush started, by the log; zero where none has. */
  function LastStart(log: seq<Act>): int
    decreases |log|
  {
    if log == [] then 0
    else if log[|log| - 1].Started? then log[|log| - 1].at
    else LastStart(log[..|log| - 1])
  }

  lemma {:induction false} QuietActs(log: seq<Act>, acts: seq<Act>)
    requires forall i :: 0 <= i < |acts| ==> !acts[i].Started?
    ensures LastStart(log + acts) == LastStart(log)
    decreases |acts|
  {
    if acts == [] {
      assert log + acts == log;
    } else {
      assert (log + acts)[..|log + acts| - 1] == log + acts[..|acts| - 1];
      QuietActs(log, acts[..|acts| - 1]);
    }
  }

  lemma HandleStarts(l: Lane, interval: nat, now: int, e: Event)
    requires l.lastFlushAt == LastStart(l.log)
    ensures var l' := Handle(l, interval, now, e); l'.lastFlushAt == LastStart(l'.log)
  {
    hide LastStart, Release, Arm, Find, Queue;
    if Possible(l, now, e) {
      match e
      case Scheduled(id, body) => ScheduleStarts(l, interval, now, id, body);
      case Settled(id, edit, waiter) =>
        if edit.Some? { ScheduleStarts(l, interval, now, id, edit.value); }
        WaitStarts(if edit.Some? then Schedule(l, interval, now, id, edit.value) else l, interval, now, id, waiter);
      case Forgotten(id) =>
        var i := Find(l.pending, id);
        var waiters := if i < |l.pending| then l.pending[i].waiters else [];
        ReleaseActs(waiters, Dropped);
        QuietActs(l.log, [Forgot(id)] + Release(waiters, Dropped));
        QuietActs(l.log, [Forgot(id)]);
      case TimerFires => FireStarts(l, now);
      case FlushFinishes =>
        var p := l.inFlight.value;
        ReleaseActs(p.waiters, Flushed(p.id, p.body));
        QuietActs(l.log, [Landed(p.id, p.body)] + Release(p.waiters, Flushed(p.id, p.body)));
        ArmMoves(Land(l), interval, now);
    }
  }

  lemma ScheduleStarts(l: Lane, interval: nat, now: int, id: nat, body: nat)
    requires l.lastFlushAt == LastStart(l.log)
    ensures var l' := Schedule(l, interval, now, id, body); l'.lastFlushAt == LastStart(l'.log)
  {
    hide LastStart, Arm, Queue;
    QuietActs(l.log, [Asked(id, body)]);
    ArmMoves(Log(l.(pending := Queue(l.pending, id, body)), [Asked(id, body)]), interval, now);
  }

  lemma WaitStarts(l: Lane, interval: nat, now: int, id: nat, waiter: nat)
    requires l.lastFlushAt == LastStart(l.log)
    ensures var l' := Wait(l, interval, now, id, waiter); l'.lastFlushAt == LastStart(l'.log)
  {
    hide LastStart, Arm, Find;
    var i := Find(l.pending, id);
    QuietActs(l.log, [Waits(waiter, id, None), Released(waiter, NothingQueued)]);
    if i < |l.pending| {
      var p := l.pending[i];
      var acts := [Waits(waiter, id, Some(p.body))];
      QuietActs(l.log, acts);
      ArmMoves(Log(l.(pending := l.pending[i := p.(waiters := p.waiters + [waiter])]), acts), interval, now);
    }
  }

  lemma FireStarts(l: Lane, now: int)
    requires l.lastFlushAt == LastStart(l.log)
    ensures Fire(l, now).lastFlushAt == LastStart(Fire(l, now).log)
  {
  }

  lemma {:induction false} RunThen(l: Lane, interval: nat, ticks: seq<Tick>, tick: Tick)
    ensures Run(l, interval, ticks + [tick]) == Handle(Run(l, interval, ticks), interval, tick.now, tick.event)
    decreases |ticks|
  {
    hide Handle;
    if ticks == [] {
      assert [] + [tick] == [tick] && [tick][1..] == [];
    } else {
      assert (ticks + [tick])[0] == ticks[0] && (ticks + [tick])[1..] == ticks[1..] + [tick];
      RunThen(Handle(l, interval, ticks[0].now, ticks[0].event), interval, ticks[1..], tick);
    }
  }

  lemma {:induction false} RunIsDue(interval: nat, ticks: seq<Tick>)
    requires InTime(ticks)
    ensures var l := Run(EMPTY, interval, ticks);
            && Scheduling(l, interval)
            && (Since(interval, ticks).Some? <==> Waiting(l))
            && (ticks == [] ==> l.timer == None)
            && l.lastFlushAt == LastStart(l.log)
            && (ticks != [] ==>
                  DueBy(l, interval, if Waiting(l) then Since(interval, ticks).value else ticks[|ticks| - 1].now))
            && (Waiting(l) ==> Since(interval, ticks).value <= ticks[|ticks| - 1].now)
    decreases |ticks|
  {
    hide Handle, Run, Paced, Single, LastStart;
    if ticks == [] {
      NothingYet(interval);
    } else {
      var before, tick := ticks[..|ticks| - 1], ticks[|ticks| - 1];
      assert ticks == before + [tick];
      RunIsDue(interval, before);
      RunThen(EMPTY, interval, before, tick);
      var l := Run(EMPTY, interval, before);
      HandleMoves(l, interval, tick.now, tick.event);
      HandleKeepsSchedule(l, interval, tick.now, tick.event);
      HandleStarts(l, interval, tick.now, tick.event);
    }
  }

  lemma NothingYet(interval: nat)
    ensures Run(EMPTY, interval, []) == EMPTY && Scheduling(EMPTY, interval) && LastStart(EMPTY.log) == 0
  {
  }

  /**
    Over every run: a card waiting with no flush in progress has a timer, due as soon as the
    interval since the last flush started allows, or else no later than work began to wait.
   */
  lemma FlushIsDueInTime(interval: nat, ticks: seq<Tick>)
    requires InTime(ticks) && Waiting(Run(EMPTY, interval, ticks))
    ensures var l := Run(EMPTY, interval, ticks);
            var rested := LastStart(l.log) + interval;
            && Since(interval, ticks).Some? && l.timer.Some?
            && rested <= l.timer.value
            && (l.timer.value <= rested || l.timer.value <= Since(interval, ticks).value)
  {
    hide Run, Paced, Single, LastStart;
    RunIsDue(interval, ticks);
    assert ticks != [] by { NothingYet(interval); }
  }
}
