/**
  The card editor refines immediate editing: over every run it loses no wakeup, keeps its
  rate, never lands an older body after a newer one, ends with what was last asked, and
  releases every waiter once, when its body or a later one has landed.
 */
module CardLaneProofs {
  import opened Options
  import opened CardLane

  // ------------------------------------------------------------- the schedule

  /** Work is always due: an armed timer or a flush in progress, never both. */
  ghost predicate Awake(l: Lane, interval: nat) {
    && (l.pending != [] ==> l.timer.Some? || l.inFlight.Some?)
    && !(l.timer.Some? && l.inFlight.Some?)
    && (l.timer.Some? ==> l.lastFlushAt + interval <= l.timer.value)
  }

  /** Flushes start at least an interval apart. */
  ghost predicate RateKept(log: seq<Act>, interval: nat) {
    forall i, j :: 0 <= i < j < |log| && log[i].Started? && log[j].Started? ==> log[i].at + interval <= log[j].at
  }

  ghost predicate Paced(l: Lane, interval: nat) {
    RateKept(l.log, interval) && forall i :: 0 <= i < |l.log| && l.log[i].Started? ==> l.log[i].at <= l.lastFlushAt
  }

  /** The flush in progress, by the log. */
  function Flying(log: seq<Act>): Option<(nat, nat)>
    decreases |log|
  {
    if log == [] then None
    else
      var a := log[|log| - 1];
      if a.Started? then Some((a.id, a.body)) else if a.Landed? then None else Flying(log[..|log| - 1])
  }

  /** One flush at a time: it starts when none is in progress, and what lands is what started. */
  ghost predicate OneAtATime(log: seq<Act>)
    decreases |log|
  {
    log != [] ==>
      var before, a := log[..|log| - 1], log[|log| - 1];
      && OneAtATime(before)
      && (a.Started? ==> Flying(before) == None)
      && (a.Landed? ==> Flying(before) == Some((a.id, a.body)))
  }

  ghost predicate Single(l: Lane) {
    && OneAtATime(l.log)
    && Flying(l.log) == (if l.inFlight.Some? then Some((l.inFlight.value.id, l.inFlight.value.body)) else None)
  }

  // ------------------------------------------------------------- bodies

  /** The body last asked for a card, unless it was forgotten since: what immediate editing would show. */
  function Wanted(log: seq<Act>, id: nat): Option<nat>
    decreases |log|
  {
    if log == [] then None
    else
      var a := log[|log| - 1];
      if a.Asked? && a.id == id then Some(a.body)
      else if a == Forgot(id) then None
      else Wanted(log[..|log| - 1], id)
  }

  /** The body last landed for a card: what coalesced editing shows. */
  function Shown(log: seq<Act>, id: nat): Option<nat>
    decreases |log|
  {
    if log == [] then None
    else
      var a := log[|log| - 1];
      if a.Landed? && a.id == id then Some(a.body) else Shown(log[..|log| - 1], id)
  }

  ghost predicate DistinctIds(pending: seq<Pending>) {
    forall i, j :: 0 <= i < j < |pending| ==> pending[i].id != pending[j].id
  }

  function QueuedBody(l: Lane, id: nat): Option<nat> {
    var i := Find(l.pending, id);
    if i < |l.pending| then Some(l.pending[i].body) else None
  }

  function FlightBody(l: Lane, id: nat): Option<nat> {
    if l.inFlight.Some? && l.inFlight.value.id == id then Some(l.inFlight.value.body) else None
  }

  /** What the card shows once the lane has gone idle with nothing more asked. */
  function Eventually(l: Lane, id: nat): Option<nat> {
    if QueuedBody(l, id).Some? then QueuedBody(l, id)
    else if FlightBody(l, id).Some? then FlightBody(l, id)
    else Shown(l.log, id)
  }

  ghost predicate Below(a: Option<nat>, b: Option<nat>) {
    a.Some? && b.Some? ==> a.value < b.value
  }

  /** The bodies of a card: landed before in flight before queued, none newer than the newest asked. */
  ghost predicate Ordered(l: Lane, id: nat, newest: int) {
    && Below(Shown(l.log, id), FlightBody(l, id))
    && Below(Shown(l.log, id), QueuedBody(l, id))
    && Below(FlightBody(l, id), QueuedBody(l, id))
    && (QueuedBody(l, id).Some? ==> QueuedBody(l, id).value <= newest)
    && (FlightBody(l, id).Some? ==> FlightBody(l, id).value <= newest)
    && (Shown(l.log, id).Some? ==> Shown(l.log, id).value <= newest)
  }

  /** For each card, bodies land in the order they were asked. */
  ghost predicate LandsForward(log: seq<Act>) {
    forall i, j :: 0 <= i < j < |log| && log[i].Landed? && log[j].Landed? && log[i].id == log[j].id ==>
        log[i].body < log[j].body
  }

  /** No landed body of the card is newer than the one it shows. */
  ghost predicate ShownIsNewest(log: seq<Act>, id: nat) {
    forall i :: 0 <= i < |log| && log[i].Landed? && log[i].id == id ==>
                  Shown(log, id).Some? && log[i].body <= Shown(log, id).value
  }

  ghost predicate Bodies(l: Lane, newest: int) {
    && DistinctIds(l.pending)
    && LandsForward(l.log)
    && (forall id :: Body(l, id, newest))
  }

  ghost predicate Body(l: Lane, id: nat, newest: int) {
    && Ordered(l, id, newest)
    && ShownIsNewest(l.log, id)
    && (Wanted(l.log, id).Some? ==> Eventually(l, id) == Wanted(l.log, id))
  }

  // ------------------------------------------------------------- waiters

  function Held(pending: seq<Pending>): multiset<nat> {
    if pending == [] then multiset{} else multiset(pending[0].waiters) + Held(pending[1..])
  }

  function HeldBy(l: Lane): multiset<nat> {
    Held(l.pending) + (if l.inFlight.Some? then multiset(l.inFlight.value.waiters) else multiset{})
  }

  function Registered(log: seq<Act>): multiset<nat>
    decreases |log|
  {
    if log == [] then multiset{}
    else
      var a := log[|log| - 1];
      Registered(log[..|log| - 1]) + (if a.Waits? then multiset{a.waiter} else multiset{})
  }

  function Freed(log: seq<Act>): multiset<nat>
    decreases |log|
  {
    if log == [] then multiset{}
    else
      var a := log[|log| - 1];
      Freed(log[..|log| - 1]) + (if a.Released? then multiset{a.waiter} else multiset{})
  }

  /** Every waiter has been released, once for each time it waited, or is held. */
  ghost predicate WaitersKept(l: Lane) {
    Registered(l.log) == Freed(l.log) + HeldBy(l)
  }

  // ------------------------------------------------------------- growing logs

  lemma Grows(log: seq<Act>, a: Act)
    ensures forall id :: Wanted(log + [a], id)
                         == if a.Asked? && a.id == id then Some(a.body) else if a == Forgot(id) then None
                             else Wanted(log, id)
    ensures forall id :: Shown(log + [a], id) == if a.Landed? && a.id == id then Some(a.body) else Shown(log, id)
    ensures Flying(log + [a]) == if a.Started? then Some((a.id, a.body)) else if a.Landed? then None else Flying(log)
    ensures OneAtATime(log + [a]) <==>
              (&& OneAtATime(log)
               && (a.Started? ==> Flying(log) == None)
               && (a.Landed? ==> Flying(log) == Some((a.id, a.body))))
    ensures Registered(log + [a]) == Registered(log) + (if a.Waits? then multiset{a.waiter} else multiset{})
    ensures Freed(log + [a]) == Freed(log) + (if a.Released? then multiset{a.waiter} else multiset{})
  {
    assert (log + [a])[..|log|] == log;
  }

  /** Releasing waiters changes nothing but who has been freed. */
  lemma {:induction false} ReleaseGrows(log: seq<Act>, waiters: seq<nat>, why: Why)
    ensures var log' := log + Release(waiters, why);
            && (forall id :: Wanted(log', id) == Wanted(log, id) && Shown(log', id) == Shown(log, id))
            && Flying(log') == Flying(log) && (OneAtATime(log) ==> OneAtATime(log'))
            && Registered(log') == Registered(log)
            && Freed(log') == Freed(log) + multiset(waiters)
            && (forall i :: |log| <= i < |log'| ==> log'[i].Released?)
    decreases |waiters|
  {
    hide Wanted, Shown, Flying, OneAtATime, Registered, Freed;
    if waiters == [] {
      assert log + [] == log && multiset(waiters) == multiset{};
    } else {
      var first := Released(waiters[0], why);
      Grows(log, first);
      ReleaseGrows(log + [first], waiters[1..], why);
      assert log + Release(waiters, why) == (log + [first]) + Release(waiters[1..], why);
      assert waiters == [waiters[0]] + waiters[1..];
    }
  }

  // ------------------------------------------------------------- the schedule is kept

  ghost predicate Scheduling(l: Lane, interval: nat) {
    Awake(l, interval) && Paced(l, interval) && Single(l)
  }

  /** Acts that start and land nothing change nothing of the schedule. */
  lemma QuietPaced(l: Lane, l': Lane, interval: nat)
    requires Paced(l, interval) && l'.lastFlushAt == l.lastFlushAt
    requires |l.log| <= |l'.log| && l'.log[..|l.log|] == l.log
    requires forall i :: |l.log| <= i < |l'.log| ==> !l'.log[i].Started?
    ensures Paced(l', interval)
  {
    forall i | 0 <= i < |l'.log| && l'.log[i].Started?
      ensures i < |l.log| && l.log[i] == l'.log[i]
    {
      if i < |l.log| {
        assert l'.log[..|l.log|][i] == l'.log[i];
      }
    }
  }

  lemma ScheduleKeeps(l: Lane, interval: nat, now: int, id: nat, body: nat)
    requires Scheduling(l, interval)
    ensures Scheduling(Schedule(l, interval, now, id, body), interval)
  {
    Grows(l.log, Asked(id, body));
    QuietPaced(l, Schedule(l, interval, now, id, body), interval);
  }

  lemma WaitKeeps(l: Lane, interval: nat, now: int, id: nat, waiter: nat)
    requires Scheduling(l, interval)
    ensures Scheduling(Wait(l, interval, now, id, waiter), interval)
  {
    var waits := Waits(waiter, id, QueuedBody(l, id));
    Grows(l.log, waits);
    Grows(l.log + [waits], Released(waiter, NothingQueued));
    assert l.log + [waits, Released(waiter, NothingQueued)] == (l.log + [waits]) + [Released(waiter, NothingQueued)];
    QuietPaced(l, Wait(l, interval, now, id, waiter), interval);
  }

  lemma ForgetFlight(l: Lane, id: nat)
    ensures var l1 := Forget(l, id);
            && |l.log| <= |l1.log| && l1.log[..|l.log|] == l.log
            && (forall i :: |l.log| <= i < |l1.log| ==> !l1.log[i].Started? && !l1.log[i].Landed?)
            && Flying(l1.log) == Flying(l.log) && (OneAtATime(l.log) ==> OneAtATime(l1.log))
            && l1 == l.(pending := l1.pending, log := l1.log)
            && (l.pending == [] ==> l1.pending == [])
  {
    hide Find, Wanted, Shown, Registered, Freed, Flying, OneAtATime;
    Grows(l.log, Forgot(id));
    var i := Find(l.pending, id);
    if i < |l.pending| {
      var waiters := l.pending[i].waiters;
      ReleaseGrows(l.log + [Forgot(id)], waiters, Dropped);
      assert l.log + ([Forgot(id)] + Release(waiters, Dropped)) == (l.log + [Forgot(id)]) + Release(waiters, Dropped);
    }
  }

  lemma ForgetKeeps(l: Lane, interval: nat, id: nat)
    requires Scheduling(l, interval)
    ensures Scheduling(Forget(l, id), interval)
  {
    hide Find, Wanted, Shown, Registered, Freed, RateKept, Flying, OneAtATime, Paced;
    ForgetFlight(l, id);
    QuietPaced(l, Forget(l, id), interval);
  }

  lemma FireKeeps(l: Lane, interval: nat, now: int)
    requires Scheduling(l, interval) && Possible(l, now, TimerFires)
    ensures Scheduling(Fire(l, now), interval)
  {
    if l.pending != [] {
      var p := l.pending[0];
      Grows(l.log, Started(now, p.id, p.body));
      var l' := Fire(l, now);
      forall i, j | 0 <= i < j < |l'.log| && l'.log[i].Started? && l'.log[j].Started?
        ensures l'.log[i].at + interval <= l'.log[j].at
      {
        assert i < |l.log| && l'.log[i] == l.log[i];
      }
    }
  }

  /** What the log says once the body in flight has landed. */
  lemma LandGrows(l: Lane)
    requires l.inFlight.Some?
    ensures var p := l.inFlight.value;
            var log := Land(l).log;
            && |l.log| < |log| && log[..|l.log|] == l.log && log[|l.log|] == Landed(p.id, p.body)
            && (forall i :: |l.log| < i < |log| ==> log[i].Released?)
            && (forall id :: Wanted(log, id) == Wanted(l.log, id))
            && (forall id :: Shown(log, id) == if id == p.id then Some(p.body) else Shown(l.log, id))
            && Flying(log) == None
            && (OneAtATime(l.log) && Flying(l.log) == Some((p.id, p.body)) ==> OneAtATime(log))
            && Registered(log) == Registered(l.log)
            && Freed(log) == Freed(l.log) + multiset(p.waiters)
  {
    hide Wanted, Shown, Flying, OneAtATime, Registered, Freed;
    var p := l.inFlight.value;
    var landed := Landed(p.id, p.body);
    var why := Flushed(p.id, p.body);
    Grows(l.log, landed);
    ReleaseGrows(l.log + [landed], p.waiters, why);
    assert l.log + ([landed] + Release(p.waiters, why)) == (l.log + [landed]) + Release(p.waiters, why);
  }

  lemma FlushOverKeeps(l: Lane, interval: nat, now: int)
    requires Scheduling(l, interval) && Possible(l, now, FlushFinishes)
    ensures Scheduling(FlushOver(l, interval, now), interval)
  {
    hide Land, Flying, OneAtATime, RateKept;
    LandGrows(l);
    QuietPaced(l, FlushOver(l, interval, now), interval) by { LandParts(l); }
    LandParts(l);
  }

  lemma LandParts(l: Lane)
    requires l.inFlight.Some?
    ensures Land(l) == l.(inFlight := None, log := Land(l).log)
  {
  }

  lemma HandleKeepsSchedule(l: Lane, interval: nat, now: int, e: Event)
    requires Scheduling(l, interval)
    ensures Scheduling(Handle(l, interval, now, e), interval)
  {
    hide Scheduling, Schedule, Wait, Fire, FlushOver, Forget;
    if Possible(l, now, e) {
      match e
      case Scheduled(id, body) => ScheduleKeeps(l, interval, now, id, body);
      case Settled(id, edit, waiter) =>
        if edit.Some? { ScheduleKeeps(l, interval, now, id, edit.value); }
        WaitKeeps(if edit.Some? then Schedule(l, interval, now, id, edit.value) else l, interval, now, id, waiter);
      case Forgotten(id) => ForgetKeeps(l, interval, id);
      case TimerFires => FireKeeps(l, interval, now);
      case FlushFinishes => FlushOverKeeps(l, interval, now);
    }
  }

  lemma {:induction false} RunKeepsSchedule(l: Lane, interval: nat, ticks: seq<Tick>)
    requires Scheduling(l, interval)
    ensures Scheduling(Run(l, interval, ticks), interval)
    decreases |ticks|
  {
    hide Scheduling, Handle;
    if ticks != [] {
      HandleKeepsSchedule(l, interval, ticks[0].now, ticks[0].event);
      RunKeepsSchedule(Handle(l, interval, ticks[0].now, ticks[0].event), interval, ticks[1..]);
    }
  }

  /**
    Over every run: queued work always has an armed timer or a flush in progress, one flush is
    in progress at a time and what lands is what started, and flushes start at least an
    interval apart.
   */
  lemma NoWakeupIsLost(interval: nat, ticks: seq<Tick>)
    ensures var l := Run(EMPTY, interval, ticks);
            && (l.pending != [] ==> l.timer.Some? || l.inFlight.Some?)
            && OneAtATime(l.log) && (l.inFlight.Some? <==> Flying(l.log).Some?)
            && RateKept(l.log, interval)
  {
    hide Run;
    RunKeepsSchedule(EMPTY, interval, ticks);
  }

  // ------------------------------------------------------------- bodies in order

  lemma FindAt(pending: seq<Pending>, i: nat)
    requires DistinctIds(pending) && i < |pending|
    ensures Find(pending, pending[i].id) == i
  {
  }

  lemma Queued(l: Lane, id: nat, body: nat)
    requires DistinctIds(l.pending)
    ensures var l' := l.(pending := Queue(l.pending, id, body));
            && DistinctIds(l'.pending)
            && (forall id' :: QueuedBody(l', id') == if id' == id then Some(body) else QueuedBody(l, id'))
  {
    var i := Find(l.pending, id);
    var q := Queue(l.pending, id, body);
    forall id' ensures QueuedBody(l.(pending := q), id') == if id' == id then Some(body) else QueuedBody(l, id') {
      var k := Find(l.pending, id');
      if k < |l.pending| {
        assert q[k].id == id';
        FindAt(q, k);
      } else if id' == id {
        FindAt(q, |l.pending|);
      }
    }
  }

  /** Taking a card out of line. */
  lemma Unqueued(pending: seq<Pending>, i: nat, id: nat)
    requires DistinctIds(pending) && i < |pending|
    ensures var rest := pending[..i] + pending[i + 1..];
            && DistinctIds(rest)
            && (pending[i].id == id ==> Find(rest, id) == |rest|)
            && (pending[i].id != id ==>
                && (Find(rest, id) < |rest| <==> Find(pending, id) < |pending|)
                && (Find(pending, id) < |pending| ==> rest[Find(rest, id)] == pending[Find(pending, id)]))
  {
    var rest := pending[..i] + pending[i + 1..];
    var k := Find(pending, id);
    hide Find;
    assert forall j :: 0 <= j < |rest| ==> rest[j] == pending[if j < i then j else j + 1];
    if k < |pending| && k != i {
      assert rest[if k < i then k else k - 1] == pending[k];
      FindAt(rest, if k < i then k else k - 1);
    }
  }

  /** Bodies do not depend on the clock. */
  lemma TimerBodies(l: Lane, l': Lane, newest: int)
    requires Bodies(l, newest) && l' == l.(timer := l'.timer, lastFlushAt := l'.lastFlushAt)
    ensures Bodies(l', newest)
  {
    forall id ensures Body(l', id, newest) {
      assert Body(l, id, newest);
    }
  }

  lemma ScheduleArms(l: Lane, interval: nat, now: int, id: nat, body: nat)
    ensures var l1 := Log(l.(pending := Queue(l.pending, id, body)), [Asked(id, body)]);
            Schedule(l, interval, now, id, body) == l1.(timer := Schedule(l, interval, now, id, body).timer)
  {
    hide Queue;
  }

  /** A newer body is asked of one card; the others are as they were. */
  lemma AskedBody(l: Lane, l1: Lane, newest: int, id: nat, body: nat, id': nat)
    requires Body(l, id', newest) && newest < body && l1.log == l.log + [Asked(id, body)] && l1.inFlight == l.inFlight
    requires QueuedBody(l1, id') == if id' == id then Some(body) else QueuedBody(l, id')
    requires Shown(l1.log, id') == Shown(l.log, id')
    requires Wanted(l1.log, id') == if id' == id then Some(body) else Wanted(l.log, id')
    ensures Body(l1, id', body)
  {
    hide Shown, Wanted, QueuedBody;
    assert forall i :: 0 <= i < |l.log| ==> l1.log[i] == l.log[i];
  }

  lemma ScheduleBodies(l: Lane, newest: int, interval: nat, now: int, id: nat, body: nat)
    requires Bodies(l, newest) && newest < body
    ensures Bodies(Schedule(l, interval, now, id, body), body)
  {
    var l1 := Log(l.(pending := Queue(l.pending, id, body)), [Asked(id, body)]);
    Queued(l, id, body);
    Grows(l.log, Asked(id, body));
    assert DistinctIds(l1.pending) && LandsForward(l1.log);
    forall id' ensures Body(l1, id', body) {
      assert Body(l, id', newest);
      AskedBody(l, l1, newest, id, body, id');
    }
    hide Body, Schedule, Queue;
    assert Bodies(l1, body);
    assert Schedule(l, interval, now, id, body) == l1.(timer := Schedule(l, interval, now, id, body).timer)
        by { ScheduleArms(l, interval, now, id, body); }
    TimerBodies(l1, Schedule(l, interval, now, id, body), body);
  }

  /** Nothing of the card changes, and nothing lands. */
  lemma QuietBody(l: Lane, l': Lane, newest: int, id: nat)
    requires Body(l, id, newest)
    requires QueuedBody(l', id) == QueuedBody(l, id) && FlightBody(l', id) == FlightBody(l, id)
    requires |l.log| <= |l'.log| && l'.log[..|l.log|] == l.log
    requires forall i :: |l.log| <= i < |l'.log| ==> !l'.log[i].Landed?
    requires Shown(l'.log, id) == Shown(l.log, id) && Wanted(l'.log, id) == Wanted(l.log, id)
    ensures Body(l', id, newest)
  {
    hide Shown, Wanted, QueuedBody, FlightBody;
    forall i | 0 <= i < |l'.log| && l'.log[i].Landed? && l'.log[i].id == id
      ensures Shown(l'.log, id).Some? && l'.log[i].body <= Shown(l'.log, id).value
    {
      assert l'.log[..|l.log|][i] == l'.log[i];
    }
  }

  lemma QuietForward(log: seq<Act>, log': seq<Act>)
    requires LandsForward(log) && |log| <= |log'| && log'[..|log|] == log
    requires forall i :: |log| <= i < |log'| ==> !log'[i].Landed?
    ensures LandsForward(log')
  {
    assert forall i :: 0 <= i < |log| ==> log'[..|log|][i] == log'[i];
  }

  lemma WaitBody(l: Lane, newest: int, interval: nat, now: int, id: nat, waiter: nat, id': nat)
    requires Body(l, id', newest)
    ensures Body(Wait(l, interval, now, id, waiter), id', newest)
  {
    hide Body, Shown, Wanted, QueuedBody, Find, Arm, Flying, OneAtATime, Registered, Freed;
    var l1 := Wait(l, interval, now, id, waiter);
    var i := Find(l.pending, id);
    var waits := Waits(waiter, id, if i < |l.pending| then Some(l.pending[i].body) else None);
    Grows(l.log, waits);
    Grows(l.log + [waits], Released(waiter, NothingQueued));
    assert l.log + [waits, Released(waiter, NothingQueued)] == (l.log + [waits]) + [Released(waiter, NothingQueued)];
    WaitLine(l, interval, now, id, waiter);
    SameLine(l.pending, l1.pending, id');
    QueuedBodyIs(l, id');
    QueuedBodyIs(l1, id');
    QuietBody(l, l1, newest, id');
  }

  /** Waiting moves no card and changes no body. */
  lemma WaitLine(l: Lane, interval: nat, now: int, id: nat, waiter: nat)
    ensures var l1 := Wait(l, interval, now, id, waiter);
            && |l1.pending| == |l.pending|
            && (forall i :: 0 <= i < |l.pending| ==>
                l1.pending[i].id == l.pending[i].id && l1.pending[i].body == l.pending[i].body)
            && l1.inFlight == l.inFlight
            && |l.log| <= |l1.log| && l1.log[..|l.log|] == l.log
            && (forall i :: |l.log| <= i < |l1.log| ==> l1.log[i].Waits? || l1.log[i].Released?)
            && l1.log == l.log + l1.log[|l.log|..]
            && (if Find(l.pending, id) < |l.pending|
                then l1.log == l.log + [Waits(waiter, id, Some(l.pending[Find(l.pending, id)].body))]
                else l1.log == l.log + [Waits(waiter, id, None), Released(waiter, NothingQueued)])
  {
  }

  lemma WaitBodies(l: Lane, newest: int, interval: nat, now: int, id: nat, waiter: nat)
    requires Bodies(l, newest)
    ensures Bodies(Wait(l, interval, now, id, waiter), newest)
  {
    hide Body, Wait, LandsForward;
    WaitLine(l, interval, now, id, waiter);
    QuietForward(l.log, Wait(l, interval, now, id, waiter).log);
    forall id' ensures Body(Wait(l, interval, now, id, waiter), id', newest) {
      WaitBody(l, newest, interval, now, id, waiter, id');
    }
  }

  lemma QueuedBodyIs(l: Lane, id: nat)
    ensures QueuedBody(l, id)
        == (if Find(l.pending, id) < |l.pending| then Some(l.pending[Find(l.pending, id)].body) else None)
  {
  }

  /** The same cards with the same bodies, in the same places. */
  lemma {:induction false} SameLine(a: seq<Pending>, b: seq<Pending>, id: nat)
    requires |a| == |b| && forall i :: 0 <= i < |a| ==> a[i].id == b[i].id && a[i].body == b[i].body
    ensures Find(a, id) == Find(b, id)
    decreases |a|
  {
    if a != [] {
      assert forall i :: 0 <= i < |a[1..]| ==> a[1..][i] == a[i + 1] && b[1..][i] == b[i + 1];
      SameLine(a[1..], b[1..], id);
    }
  }

  /** A card leaves the line: it is forgotten, or its flush starts. */
  lemma LeavingBody(l: Lane, l': Lane, newest: int, id: nat)
    requires Body(l, id, newest) && QueuedBody(l', id) == None && Shown(l'.log, id) == Shown(l.log, id)
    requires || (Wanted(l'.log, id) == None && FlightBody(l', id) == FlightBody(l, id))
             || (Wanted(l'.log, id) == Wanted(l.log, id) && FlightBody(l', id) == QueuedBody(l, id)
                 && FlightBody(l, id) == None)
    requires |l.log| <= |l'.log| && l'.log[..|l.log|] == l.log
    requires forall i :: |l.log| <= i < |l'.log| ==> !l'.log[i].Landed?
    ensures Body(l', id, newest)
  {
    hide Shown, Wanted, QueuedBody, FlightBody;
    forall i | 0 <= i < |l'.log| && l'.log[i].Landed? && l'.log[i].id == id
      ensures Shown(l'.log, id).Some? && l'.log[i].body <= Shown(l'.log, id).value
    {
      assert l'.log[..|l.log|][i] == l'.log[i];
    }
  }

  /** Forgetting lands nothing, and only touches its own card. */
  lemma ForgetLog(l: Lane, id: nat)
    ensures var l1 := Forget(l, id);
            && |l.log| <= |l1.log| && l1.log[..|l.log|] == l.log
            && (forall i :: |l.log| <= i < |l1.log| ==> !l1.log[i].Landed?)
            && l1.inFlight == l.inFlight
            && (forall id' :: Shown(l1.log, id') == Shown(l.log, id'))
            && (forall id' :: Wanted(l1.log, id') == if id' == id then None else Wanted(l.log, id'))
  {
    hide Shown, Wanted, Find, Flying, OneAtATime, Registered, Freed;
    var i := Find(l.pending, id);
    Grows(l.log, Forgot(id));
    if i < |l.pending| {
      var waiters := l.pending[i].waiters;
      ReleaseGrows(l.log + [Forgot(id)], waiters, Dropped);
      assert l.log + ([Forgot(id)] + Release(waiters, Dropped)) == (l.log + [Forgot(id)]) + Release(waiters, Dropped);
    }
  }

  lemma ForgetLine(l: Lane, id: nat, id': nat)
    requires DistinctIds(l.pending)
    ensures DistinctIds(Forget(l, id).pending)
    ensures QueuedBody(Forget(l, id), id') == if id' == id then None else QueuedBody(l, id')
  {
    var i := Find(l.pending, id);
    if i < |l.pending| { Unqueued(l.pending, i, id'); }
  }

  lemma ForgetBodies(l: Lane, newest: int, id: nat)
    requires Bodies(l, newest)
    ensures Bodies(Forget(l, id), newest)
  {
    hide Body, Forget, Shown, Wanted, QueuedBody, LandsForward, DistinctIds;
    var l1 := Forget(l, id);
    ForgetLog(l, id);
    ForgetLine(l, id, id);
    QuietForward(l.log, l1.log);
    forall id' ensures Body(l1, id', newest) {
      ForgetLine(l, id, id');
      if id' == id { LeavingBody(l, l1, newest, id'); } else { QuietBody(l, l1, newest, id'); }
    }
  }

  lemma FireBody(l: Lane, newest: int, now: int, id: nat)
    requires DistinctIds(l.pending) && l.pending != [] && l.inFlight.None? && Body(l, id, newest)
    ensures Body(Fire(l, now), id, newest)
  {
    var p := l.pending[0];
    var l1 := Fire(l, now);
    FiredLine(l, now, id);
    hide Body, Shown, Wanted, DistinctIds, Find, QueuedBody;
    Grows(l.log, Started(now, p.id, p.body));
    if id == p.id { LeavingBody(l, l1, newest, id); } else { QuietBody(l, l1, newest, id); }
  }

  lemma FiredLine(l: Lane, now: int, id: nat)
    requires DistinctIds(l.pending) && l.pending != []
    ensures var p := l.pending[0];
            && QueuedBody(Fire(l, now), id) == (if id == p.id then None else QueuedBody(l, id))
            && QueuedBody(l, p.id) == Some(p.body)
  {
    assert l.pending[..0] + l.pending[1..] == l.pending[1..];
    Unqueued(l.pending, 0, id);
    FindAt(l.pending, 0);
  }

  lemma FireBodies(l: Lane, newest: int, now: int)
    requires Bodies(l, newest) && l.inFlight.None?
    ensures Bodies(Fire(l, now), newest)
  {
    hide Body;
    var l1 := Fire(l, now);
    if l.pending == [] {
      TimerBodies(l, l1, newest);
    } else {
      forall id ensures Body(l1, id, newest) {
        FireBody(l, newest, now, id);
      }
    }
  }

  lemma LandBody(l: Lane, newest: int, id: nat)
    requires l.inFlight.Some? && Body(l, id, newest)
    ensures Body(Land(l), id, newest)
  {
    hide Land, Wanted, Shown;
    LandGrows(l);
    LandParts(l);
    var log := Land(l).log;
    forall i | 0 <= i < |log| && log[i].Landed? && log[i].id == id
      ensures Shown(log, id).Some? && log[i].body <= Shown(log, id).value
    {
      assert i < |l.log| ==> log[..|l.log|][i] == log[i];
    }
  }

  lemma LandForward(l: Lane, newest: int)
    requires l.inFlight.Some? && LandsForward(l.log) && Body(l, l.inFlight.value.id, newest)
    ensures LandsForward(Land(l).log)
  {
    hide Land, Wanted, Shown;
    LandGrows(l);
    var log := Land(l).log;
    assert forall i :: 0 <= i < |l.log| ==> log[..|l.log|][i] == log[i];
  }

  lemma FlushOverBodies(l: Lane, newest: int, interval: nat, now: int)
    requires Bodies(l, newest) && l.inFlight.Some?
    ensures Bodies(FlushOver(l, interval, now), newest)
  {
    hide Body, Land, LandsForward;
    LandParts(l);
    LandForward(l, newest);
    forall id ensures Body(Land(l), id, newest) {
      LandBody(l, newest, id);
    }
    TimerBodies(Land(l), FlushOver(l, interval, now), newest);
  }

  // ------------------------------------------------------------- whole runs

  function AskedBy(e: Event): Option<nat> {
    match e
    case Scheduled(_, body) => Some(body)
    case Settled(_, edit, _) => edit
    case _ => None
  }

  function Newer(newest: int, e: Event): int {
    if AskedBy(e).Some? then AskedBy(e).value else newest
  }

  /** Bodies are numbered in the order they are asked. */
  ghost predicate Numbered(ticks: seq<Tick>, newest: int)
    decreases |ticks|
  {
    ticks != [] ==>
      && (AskedBy(ticks[0].event).Some? ==> newest < AskedBy(ticks[0].event).value)
      && Numbered(ticks[1..], Newer(newest, ticks[0].event))
  }

  lemma HandleKeepsBodies(l: Lane, newest: int, interval: nat, now: int, e: Event)
    requires Bodies(l, newest) && Scheduling(l, interval)
    requires AskedBy(e).Some? ==> newest < AskedBy(e).value
    ensures Bodies(Handle(l, interval, now, e), Newer(newest, e))
  {
    hide Bodies, Schedule, Wait, Fire, FlushOver, Forget, Paced, Single;
    match e
    case Scheduled(id, body) => ScheduleBodies(l, newest, interval, now, id, body);
    case Settled(id, edit, waiter) =>
      if edit.Some? { ScheduleBodies(l, newest, interval, now, id, edit.value); }
      var l1 := if edit.Some? then Schedule(l, interval, now, id, edit.value) else l;
      WaitBodies(l1, Newer(newest, e), interval, now, id, waiter);
    case Forgotten(id) => ForgetBodies(l, newest, id);
    case TimerFires => if Possible(l, now, e) { FireBodies(l, newest, now); }
    case FlushFinishes => if Possible(l, now, e) { FlushOverBodies(l, newest, interval, now); }
  }

  lemma {:induction false} RunKeepsBodies(l: Lane, newest: int, interval: nat, ticks: seq<Tick>)
    requires Bodies(l, newest) && Scheduling(l, interval) && Numbered(ticks, newest)
    ensures exists newest' :: Bodies(Run(l, interval, ticks), newest')
    decreases |ticks|
  {
    hide Bodies, Scheduling, Handle;
    if ticks != [] {
      var Tick(now, e) := ticks[0];
      HandleKeepsBodies(l, newest, interval, now, e);
      HandleKeepsSchedule(l, interval, now, e);
      RunKeepsBodies(Handle(l, interval, now, e), Newer(newest, e), interval, ticks[1..]);
      assert Run(l, interval, ticks) == Run(Handle(l, interval, now, e), interval, ticks[1..]);
    } else {
      assert Bodies(Run(l, interval, ticks), newest);
    }
  }

  ghost predicate Idle(l: Lane) {
    l.pending == [] && l.inFlight.None?
  }

  /**
    Over every run: no body of a card lands after a newer one, and an idle lane shows for each
    card, unless it was forgotten since, the body last asked, as if every edit had been applied
    at once.
   */
  lemma RefinesImmediateEditing(interval: nat, ticks: seq<Tick>)
    requires Numbered(ticks, -1)
    ensures var l := Run(EMPTY, interval, ticks);
            && LandsForward(l.log)
            && (Idle(l) ==> forall id :: Wanted(l.log, id).Some? ==> Shown(l.log, id) == Wanted(l.log, id))
  {
    hide Run;
    assert Bodies(EMPTY, -1);
    RunKeepsBodies(EMPTY, -1, interval, ticks);
    var l := Run(EMPTY, interval, ticks);
    var newest :| Bodies(l, newest);
    if Idle(l) {
      forall id | Wanted(l.log, id).Some? ensures Shown(l.log, id) == Wanted(l.log, id) {
        assert Body(l, id, newest);
      }
    }
  }

  // ------------------------------------------------------------- waiters

  lemma {:induction false} HeldAppend(a: seq<Pending>, b: seq<Pending>)
    ensures Held(a + b) == Held(a) + Held(b)
    decreases |a|
  {
    if a == [] {
      assert a + b == b;
    } else {
      assert (a + b)[1..] == a[1..] + b;
      HeldAppend(a[1..], b);
    }
  }

  lemma HeldSplit(pending: seq<Pending>, i: nat)
    requires i < |pending|
    ensures Held(pending) == Held(pending[..i]) + multiset(pending[i].waiters) + Held(pending[i + 1..])
    ensures Held(pending[..i] + pending[i + 1..]) == Held(pending[..i]) + Held(pending[i + 1..])
  {
    hide Held;
    var tail := [pending[i]] + pending[i + 1..];
    HeldAppend(pending[..i], pending[i + 1..]);
    assert pending == pending[..i] + tail;
    HeldAppend(pending[..i], tail);
    HeldFirst(tail);
    assert tail[1..] == pending[i + 1..];
    assert Held(pending[..i]) + (multiset(pending[i].waiters) + Held(pending[i + 1..]))
        == Held(pending[..i]) + multiset(pending[i].waiters) + Held(pending[i + 1..]);
  }

  lemma HeldFirst(pending: seq<Pending>)
    requires pending != []
    ensures Held(pending) == multiset(pending[0].waiters) + Held(pending[1..])
  {
  }

  lemma HeldByNone(id: nat, body: nat)
    ensures Held([Pending(id, body, [])]) == multiset{}
  {
    assert [Pending(id, body, [])][1..] == [];
  }

  lemma HeldUpdate(pending: seq<Pending>, i: nat, p: Pending)
    requires i < |pending|
    ensures Held(pending[i := p]) == Held(pending[..i]) + multiset(p.waiters) + Held(pending[i + 1..])
  {
    HeldSplit(pending[i := p], i);
    assert pending[i := p][..i] == pending[..i] && pending[i := p][i + 1..] == pending[i + 1..];
  }

  lemma ScheduleWaiters(l: Lane, interval: nat, now: int, id: nat, body: nat)
    requires WaitersKept(l)
    ensures WaitersKept(Schedule(l, interval, now, id, body))
  {
    hide Registered, Freed, Held;
    Grows(l.log, Asked(id, body));
    var i := Find(l.pending, id);
    if i < |l.pending| {
      HeldSplit(l.pending, i);
      HeldUpdate(l.pending, i, l.pending[i].(body := body));
    } else {
      HeldAppend(l.pending, [Pending(id, body, [])]);
      HeldByNone(id, body);
    }
  }

  lemma WaitWaiters(l: Lane, interval: nat, now: int, id: nat, waiter: nat)
    requires WaitersKept(l)
    ensures WaitersKept(Wait(l, interval, now, id, waiter))
  {
    hide Registered, Freed, Held;
    var waits := Waits(waiter, id, QueuedBody(l, id));
    Grows(l.log, waits);
    var i := Find(l.pending, id);
    if i < |l.pending| {
      HeldSplit(l.pending, i);
      HeldUpdate(l.pending, i, l.pending[i].(waiters := l.pending[i].waiters + [waiter]));
      assert multiset(l.pending[i].waiters + [waiter]) == multiset(l.pending[i].waiters) + multiset{waiter};
    } else {
      Grows(l.log + [waits], Released(waiter, NothingQueued));
      assert l.log + [waits, Released(waiter, NothingQueued)] == (l.log + [waits]) + [Released(waiter, NothingQueued)];
    }
  }

  lemma ForgetWaiters(l: Lane, id: nat)
    requires WaitersKept(l)
    ensures WaitersKept(Forget(l, id))
  {
    hide Registered, Freed, Held;
    Grows(l.log, Forgot(id));
    var i := Find(l.pending, id);
    if i < |l.pending| {
      var waiters := l.pending[i].waiters;
      HeldSplit(l.pending, i);
      ReleaseGrows(l.log + [Forgot(id)], waiters, Dropped);
      assert l.log + ([Forgot(id)] + Release(waiters, Dropped)) == (l.log + [Forgot(id)]) + Release(waiters, Dropped);
    }
  }

  lemma FireWaiters(l: Lane, now: int)
    requires WaitersKept(l) && l.inFlight.None?
    ensures WaitersKept(Fire(l, now))
  {
    hide Registered, Freed;
    if l.pending != [] {
      Grows(l.log, Started(now, l.pending[0].id, l.pending[0].body));
    }
  }

  lemma FlushOverWaiters(l: Lane, interval: nat, now: int)
    requires WaitersKept(l) && l.inFlight.Some?
    ensures WaitersKept(FlushOver(l, interval, now))
  {
    hide Registered, Freed, Land;
    LandGrows(l);
    LandParts(l);
  }

  lemma HandleKeepsWaiters(l: Lane, interval: nat, now: int, e: Event)
    requires WaitersKept(l) && Scheduling(l, interval)
    ensures WaitersKept(Handle(l, interval, now, e))
  {
    hide WaitersKept, Schedule, Wait, Fire, FlushOver, Forget, Paced, Single;
    match e
    case Scheduled(id, body) => ScheduleWaiters(l, interval, now, id, body);
    case Settled(id, edit, waiter) =>
      if edit.Some? { ScheduleWaiters(l, interval, now, id, edit.value); }
      WaitWaiters(if edit.Some? then Schedule(l, interval, now, id, edit.value) else l, interval, now, id, waiter);
    case Forgotten(id) => ForgetWaiters(l, id);
    case TimerFires => if Possible(l, now, e) { FireWaiters(l, now); }
    case FlushFinishes => if Possible(l, now, e) { FlushOverWaiters(l, interval, now); }
  }

  lemma {:induction false} RunKeepsWaiters(l: Lane, interval: nat, ticks: seq<Tick>)
    requires WaitersKept(l) && Scheduling(l, interval)
    ensures WaitersKept(Run(l, interval, ticks))
    decreases |ticks|
  {
    hide WaitersKept, Scheduling, Handle;
    if ticks != [] {
      HandleKeepsWaiters(l, interval, ticks[0].now, ticks[0].event);
      HandleKeepsSchedule(l, interval, ticks[0].now, ticks[0].event);
      RunKeepsWaiters(Handle(l, interval, ticks[0].now, ticks[0].event), interval, ticks[1..]);
    }
  }

  /**
    Over every run: a waiter is released as often as it waited, less the times it is still
    held; so none is released twice for one wait, and an idle lane holds none back.
   */
  lemma WaitersReleasedOnce(interval: nat, ticks: seq<Tick>)
    ensures var l := Run(EMPTY, interval, ticks);
            && Freed(l.log) <= Registered(l.log)
            && (Idle(l) ==> Freed(l.log) == Registered(l.log))
  {
    hide Run;
    RunKeepsWaiters(EMPTY, interval, ticks);
  }

  // ------------------------------------------------------------- what a waiter waited for

  /** The waiter waited for this card when its queued body was this one or an older one. */
  ghost predicate Promised(log: seq<Act>, waiter: nat, id: nat, body: nat) {
    exists i :: 0 <= i < |log| && log[i].Waits? && log[i].waiter == waiter && log[i].card == id
                && log[i].queued.Some? && log[i].queued.value <= body
  }

  /** A waiter is released by a flush of its card only, with the body it waited for or a later one. */
  ghost predicate ReleasedRightly(log: seq<Act>) {
    forall k :: 0 <= k < |log| && log[k].Released? && log[k].why.Flushed? ==>
                  Promised(log[..k], log[k].waiter, log[k].why.id, log[k].why.body)
  }

  ghost predicate PromisedTo(log: seq<Act>, p: Pending) {
    forall w :: w in p.waiters ==> Promised(log, w, p.id, p.body)
  }

  ghost predicate Promises(l: Lane) {
    && ReleasedRightly(l.log)
    && (forall i :: 0 <= i < |l.pending| ==> PromisedTo(l.log, l.pending[i]))
    && (l.inFlight.Some? ==> PromisedTo(l.log, l.inFlight.value))
  }

  lemma PromisedGrows(log: seq<Act>, acts: seq<Act>, p: Pending, p': Pending)
    requires PromisedTo(log, p) && p'.id == p.id && p.body <= p'.body && p'.waiters == p.waiters
    ensures PromisedTo(log + acts, p')
  {
    forall w | w in p'.waiters ensures Promised(log + acts, w, p'.id, p'.body) {
      assert Promised(log, w, p.id, p.body);
      var i :| 0 <= i < |log| && log[i].Waits? && log[i].waiter == w && log[i].card == p.id
               && log[i].queued.Some? && log[i].queued.value <= p.body;
      assert (log + acts)[i] == log[i];
    }
  }

  lemma RightlyGrows(log: seq<Act>, acts: seq<Act>)
    requires ReleasedRightly(log)
    requires forall j :: 0 <= j < |acts| && acts[j].Released? && acts[j].why.Flushed? ==>
                           Promised(log, acts[j].waiter, acts[j].why.id, acts[j].why.body)
    ensures ReleasedRightly(log + acts)
  {
    var log' := log + acts;
    forall k | 0 <= k < |log'| && log'[k].Released? && log'[k].why.Flushed?
      ensures Promised(log'[..k], log'[k].waiter, log'[k].why.id, log'[k].why.body)
    {
      if k < |log| {
        assert log'[..k] == log[..k];
      } else {
        var w, id, b := log'[k].waiter, log'[k].why.id, log'[k].why.body;
        assert Promised(log, w, id, b) by { assert acts[k - |log|] == log'[k]; }
        var i :| 0 <= i < |log| && log[i].Waits? && log[i].waiter == w && log[i].card == id
                 && log[i].queued.Some? && log[i].queued.value <= b;
        assert log'[..k][i] == log[i];
      }
    }
  }

  lemma SchedulePromises(l: Lane, newest: int, interval: nat, now: int, id: nat, body: nat)
    requires Promises(l) && Bodies(l, newest) && newest < body
    ensures Promises(Schedule(l, interval, now, id, body))
  {
    hide ReleasedRightly, PromisedTo, Ordered, ShownIsNewest, Wanted, Shown, LandsForward;
    var l1 := Schedule(l, interval, now, id, body);
    var acts := [Asked(id, body)];
    RightlyGrows(l.log, acts);
    var i := Find(l.pending, id);
    assert i < |l.pending| ==> l.pending[i].body <= body by {
      assert Body(l, id, newest);
      BodyBound(l, id, newest);
    }
    forall k | 0 <= k < |l1.pending| ensures PromisedTo(l1.log, l1.pending[k]) {
      if k < |l.pending| {
        PromisedGrows(l.log, acts, l.pending[k], l1.pending[k]);
      } else {
        NoWaiters(l1.log, l1.pending[k]);
      }
    }
    if l.inFlight.Some? {
      PromisedGrows(l.log, acts, l.inFlight.value, l.inFlight.value);
    }
  }

  lemma BodyBound(l: Lane, id: nat, newest: int)
    requires Body(l, id, newest)
    ensures var i := Find(l.pending, id);
            i < |l.pending| ==> l.pending[i].body <= newest
  {
    hide Wanted, Shown;
  }

  lemma NoWaiters(log: seq<Act>, p: Pending)
    requires p.waiters == []
    ensures PromisedTo(log, p)
  {
  }

  lemma WaitPromises(l: Lane, interval: nat, now: int, id: nat, waiter: nat)
    requires Promises(l)
    ensures Promises(Wait(l, interval, now, id, waiter))
  {
    hide ReleasedRightly, PromisedTo;
    var l1 := Wait(l, interval, now, id, waiter);
    var i := Find(l.pending, id);
    var acts := if i < |l.pending| then [Waits(waiter, id, Some(l.pending[i].body))]
                else [Waits(waiter, id, None), Released(waiter, NothingQueued)];
    RightlyGrows(l.log, acts);
    forall k | 0 <= k < |l1.pending| ensures PromisedTo(l1.log, l1.pending[k]) {
      PromisedGrows(l.log, acts, l.pending[k], l.pending[k]);
      if k == i {
        OneMoreWaits(l.log, l.pending[i], waiter);
      }
    }
    if l.inFlight.Some? {
      PromisedGrows(l.log, acts, l.inFlight.value, l.inFlight.value);
    }
  }

  lemma OneMoreWaits(log: seq<Act>, p: Pending, waiter: nat)
    requires PromisedTo(log + [Waits(waiter, p.id, Some(p.body))], p)
    ensures PromisedTo(log + [Waits(waiter, p.id, Some(p.body))], p.(waiters := p.waiters + [waiter]))
  {
    var log' := log + [Waits(waiter, p.id, Some(p.body))];
    assert log'[|log|] == Waits(waiter, p.id, Some(p.body));
    assert Promised(log', waiter, p.id, p.body);
  }

  lemma {:induction false} ReleaseActs(waiters: seq<nat>, why: Why)
    ensures forall j :: 0 <= j < |Release(waiters, why)| ==>
                          Release(waiters, why)[j].Released? && Release(waiters, why)[j].why == why
                          && Release(waiters, why)[j].waiter in waiters
    decreases |waiters|
  {
    if waiters != [] {
      ReleaseActs(waiters[1..], why);
    }
  }

  lemma ForgetPromises(l: Lane, id: nat)
    requires Promises(l)
    ensures Promises(Forget(l, id))
  {
    hide ReleasedRightly, PromisedTo;
    var l1 := Forget(l, id);
    var i := Find(l.pending, id);
    var waiters := if i < |l.pending| then l.pending[i].waiters else [];
    ReleaseActs(waiters, Dropped);
    var acts := [Forgot(id)] + Release(waiters, Dropped);
    assert l1.log == l.log + acts;
    RightlyGrows(l.log, acts);
    forall k | 0 <= k < |l1.pending| ensures PromisedTo(l1.log, l1.pending[k]) {
      var p := l1.pending[k];
      assert p == l.pending[if k < i then k else k + 1];
      PromisedGrows(l.log, acts, p, p);
    }
    if l.inFlight.Some? {
      PromisedGrows(l.log, acts, l.inFlight.value, l.inFlight.value);
    }
  }

  lemma FirePromises(l: Lane, now: int)
    requires Promises(l)
    ensures Promises(Fire(l, now))
  {
    hide ReleasedRightly, PromisedTo;
    if l.pending != [] {
      var acts := [Started(now, l.pending[0].id, l.pending[0].body)];
      RightlyGrows(l.log, acts);
      forall k | 0 <= k < |l.pending| ensures PromisedTo(l.log + acts, l.pending[k]) {
        PromisedGrows(l.log, acts, l.pending[k], l.pending[k]);
      }
    }
  }

  lemma FlushOverPromises(l: Lane, interval: nat, now: int)
    requires Promises(l) && l.inFlight.Some?
    ensures Promises(FlushOver(l, interval, now))
  {
    hide ReleasedRightly, PromisedTo;
    var p := l.inFlight.value;
    var why := Flushed(p.id, p.body);
    ReleaseActs(p.waiters, why);
    var acts := [Landed(p.id, p.body)] + Release(p.waiters, why);
    assert forall w :: w in p.waiters ==> Promised(l.log, w, p.id, p.body) by { PromisedMeans(l.log, p); }
    RightlyGrows(l.log, acts);
    forall k | 0 <= k < |l.pending| ensures PromisedTo(l.log + acts, l.pending[k]) {
      PromisedGrows(l.log, acts, l.pending[k], l.pending[k]);
    }
  }

  lemma PromisedMeans(log: seq<Act>, p: Pending)
    requires PromisedTo(log, p)
    ensures forall w :: w in p.waiters ==> Promised(log, w, p.id, p.body)
  {
  }

  lemma HandleKeepsPromises(l: Lane, newest: int, interval: nat, now: int, e: Event)
    requires Promises(l) && Bodies(l, newest)
    requires AskedBy(e).Some? ==> newest < AskedBy(e).value
    ensures Promises(Handle(l, interval, now, e))
  {
    hide Promises, Bodies, Schedule, Wait, Fire, FlushOver, Forget;
    match e
    case Scheduled(id, body) => SchedulePromises(l, newest, interval, now, id, body);
    case Settled(id, edit, waiter) =>
      if edit.Some? { SchedulePromises(l, newest, interval, now, id, edit.value); }
      WaitPromises(if edit.Some? then Schedule(l, interval, now, id, edit.value) else l, interval, now, id, waiter);
    case Forgotten(id) => ForgetPromises(l, id);
    case TimerFires => if Possible(l, now, e) { FirePromises(l, now); }
    case FlushFinishes => if Possible(l, now, e) { FlushOverPromises(l, interval, now); }
  }

  lemma {:induction false} RunKeepsPromises(l: Lane, newest: int, interval: nat, ticks: seq<Tick>)
    requires Promises(l) && Bodies(l, newest) && Scheduling(l, interval) && Numbered(ticks, newest)
    ensures Promises(Run(l, interval, ticks))
    decreases |ticks|
  {
    hide Promises, Bodies, Scheduling, Handle;
    if ticks != [] {
      var Tick(now, e) := ticks[0];
      HandleKeepsPromises(l, newest, interval, now, e);
      HandleKeepsBodies(l, newest, interval, now, e);
      HandleKeepsSchedule(l, interval, now, e);
      RunKeepsPromises(Handle(l, interval, now, e), Newer(newest, e), interval, ticks[1..]);
    }
  }

  /**
    Over every run: a flush releases only those who waited for its card, with the body they
    waited for or a later one.
   */
  lemma FlushKeepsItsPromise(interval: nat, ticks: seq<Tick>)
    requires Numbered(ticks, -1)
    ensures ReleasedRightly(Run(EMPTY, interval, ticks).log)
  {
    hide Run, Numbered;
    assert Bodies(EMPTY, -1);
    RunKeepsPromises(EMPTY, -1, interval, ticks);
  }

  /**
    A settle returns at once, waiting for nothing, exactly when it carries no body and none is
    queued for the card: a body of the card still in flight is not waited for.
   */
  lemma SettleReturnsAtOnce(l: Lane, interval: nat, now: int, id: nat, edit: Option<nat>, waiter: nat)
    requires DistinctIds(l.pending)
    ensures var log := Settle(l, interval, now, id, edit, waiter).log;
            log[|log| - 1] == Released(waiter, NothingQueued) <==> (edit.None? && QueuedBody(l, id).None?)
  {
    hide Wait, Queue;
    var l1 := if edit.Some? then Schedule(l, interval, now, id, edit.value) else l;
    if edit.Some? {
      Queued(l, id, edit.value);
      QueuedBodyIs(l.(pending := Queue(l.pending, id, edit.value)), id);
    }
    QueuedBodyIs(l, id);
    WaitLine(l1, interval, now, id, waiter);
  }

  // ------------------------------------------------------------- overtaking

  function Starts(log: seq<Act>): nat
    decreases |log|
  {
    if log == [] then 0 else Starts(log[..|log| - 1]) + (if log[|log| - 1].Started? then 1 else 0)
  }

  lemma {:induction false} StartsGrow(log: seq<Act>, acts: seq<Act>)
    ensures (forall j :: 0 <= j < |acts| ==> !acts[j].Started?) ==> Starts(log + acts) == Starts(log)
    ensures |acts| == 1 && acts[0].Started? ==> Starts(log + acts) == Starts(log) + 1
    decreases |acts|
  {
    if acts == [] {
      assert log + acts == log;
    } else {
      assert (log + acts)[..|log + acts| - 1] == log + acts[..|acts| - 1];
      StartsGrow(log, acts[..|acts| - 1]);
      if |acts| == 1 {
        assert log + acts[..0] == log;
      }
    }
  }

  predicate InLine(l: Lane, id: nat) {
    Find(l.pending, id) < |l.pending|
  }

  /** The card stays in line throughout: it is neither flushed nor forgotten. */
  predicate StaysInLine(l: Lane, interval: nat, ticks: seq<Tick>, id: nat)
    decreases |ticks|
  {
    InLine(l, id) && (ticks != [] ==>
        StaysInLine(Handle(l, interval, ticks[0].now, ticks[0].event), interval, ticks[1..], id))
  }

  lemma ArmKeepsLine(l: Lane, interval: nat, now: int)
    ensures Arm(l, interval, now).pending == l.pending && Arm(l, interval, now).log == l.log
  {
  }

  lemma {:induction false} PlaceKept(a: seq<Pending>, b: seq<Pending>, id: nat)
    requires |a| <= |b| && forall i :: 0 <= i < |a| ==> a[i].id == b[i].id
    requires Find(a, id) < |a|
    ensures Find(b, id) == Find(a, id)
    decreases |a|
  {
    if a[0].id != id {
      assert forall i :: 0 <= i < |a[1..]| ==> a[1..][i] == a[i + 1] && b[1..][i] == b[i + 1];
      PlaceKept(a[1..], b[1..], id);
    }
  }

  lemma PlaceAfterRemoval(pending: seq<Pending>, i: nat, id: nat)
    requires DistinctIds(pending) && i < |pending|
    requires var rest := pending[..i] + pending[i + 1..];
             Find(pending, id) < |pending| && Find(rest, id) < |rest|
    ensures var rest := pending[..i] + pending[i + 1..];
            && Find(rest, id) <= Find(pending, id)
            && (i == 0 ==> Find(rest, id) + 1 == Find(pending, id))
  {
    var rest := pending[..i] + pending[i + 1..];
    var k := Find(pending, id);
    Unqueued(pending, i, id);
    assert k != i;
    assert rest[if k < i then k else k - 1] == pending[k];
    FindAt(rest, if k < i then k else k - 1);
  }

  /** From one lane to the next: the place in line only improves, by one for a flush that starts. */
  ghost predicate Advances(l: Lane, l': Lane, id: nat) {
    Find(l'.pending, id) + (Starts(l'.log) - Starts(l.log)) <= Find(l.pending, id)
  }

  lemma ScheduleAdvances(l: Lane, interval: nat, now: int, id': nat, body: nat, id: nat)
    requires InLine(l, id)
    ensures Advances(l, Schedule(l, interval, now, id', body), id) && InLine(Schedule(l, interval, now, id', body), id)
  {
    hide Starts, Arm, Find;
    var l1 := Log(l.(pending := Queue(l.pending, id', body)), [Asked(id', body)]);
    StartsGrow(l.log, [Asked(id', body)]);
    PlaceKept(l.pending, l1.pending, id);
    ArmKeepsLine(l1, interval, now);
  }

  lemma WaitAdvances(l: Lane, interval: nat, now: int, id': nat, waiter: nat, id: nat)
    ensures Advances(l, Wait(l, interval, now, id', waiter), id)
  {
    hide Starts, Wait, Find;
    var l' := Wait(l, interval, now, id', waiter);
    WaitLine(l, interval, now, id', waiter);
    StartsGrow(l.log, l'.log[|l.log|..]);
    SameLine(l.pending, l'.pending, id);
  }

  lemma ForgetAdvances(l: Lane, id': nat, id: nat)
    requires DistinctIds(l.pending) && InLine(l, id) && InLine(Forget(l, id'), id)
    ensures Advances(l, Forget(l, id'), id)
  {
    hide Starts, Find, DistinctIds;
    var i := Find(l.pending, id');
    var waiters := if i < |l.pending| then l.pending[i].waiters else [];
    var acts := [Forgot(id')] + Release(waiters, Dropped);
    ReleaseActs(waiters, Dropped);
    StartsGrow(l.log, acts);
    assert Forget(l, id').log == l.log + acts;
    if i < |l.pending| {
      PlaceAfterRemoval(l.pending, i, id);
    }
  }

  lemma FireAdvances(l: Lane, now: int, id: nat)
    requires DistinctIds(l.pending) && InLine(l, id) && InLine(Fire(l, now), id)
    ensures Advances(l, Fire(l, now), id)
  {
    hide Starts, Find, DistinctIds, Arm;
    assert l.pending != [];
    StartsGrow(l.log, [Started(now, l.pending[0].id, l.pending[0].body)]);
    assert l.pending[..0] + l.pending[1..] == l.pending[1..];
    PlaceAfterRemoval(l.pending, 0, id);
  }

  lemma FlushOverAdvances(l: Lane, interval: nat, now: int, id: nat)
    requires l.inFlight.Some?
    ensures Advances(l, FlushOver(l, interval, now), id)
  {
    hide Starts, Arm, Find;
    var p := l.inFlight.value;
    ReleaseActs(p.waiters, Flushed(p.id, p.body));
    StartsGrow(l.log, [Landed(p.id, p.body)] + Release(p.waiters, Flushed(p.id, p.body)));
    ArmKeepsLine(Land(l), interval, now);
  }

  lemma PlaceImproves(l: Lane, interval: nat, now: int, e: Event, id: nat)
    requires DistinctIds(l.pending) && InLine(l, id) && InLine(Handle(l, interval, now, e), id)
    ensures Advances(l, Handle(l, interval, now, e), id)
  {
    hide Schedule, Wait, Forget, Fire, FlushOver, InLine, DistinctIds, Starts, Find;
    match e
    case Scheduled(id', body) => ScheduleAdvances(l, interval, now, id', body, id);
    case Settled(id', edit, waiter) =>
      if edit.Some? { ScheduleAdvances(l, interval, now, id', edit.value, id); }
      var l1 := if edit.Some? then Schedule(l, interval, now, id', edit.value) else l;
      WaitAdvances(l1, interval, now, id', waiter, id);
    case Forgotten(id') => ForgetAdvances(l, id', id);
    case TimerFires => if Possible(l, now, e) { FireAdvances(l, now, id); }
    case FlushFinishes => if Possible(l, now, e) { FlushOverAdvances(l, interval, now, id); }
  }

  /**
    A card in line is overtaken only by those queued before it: while it stays in line, no more
    flushes start than there were cards ahead of it, whatever is asked meanwhile.
   */
  lemma {:induction false} OvertakenOnlyByThoseAhead(l: Lane, newest: int, interval: nat, ticks: seq<Tick>, id: nat)
    requires Bodies(l, newest) && Scheduling(l, interval) && Numbered(ticks, newest)
    requires StaysInLine(l, interval, ticks, id)
    ensures Advances(l, Run(l, interval, ticks), id)
    decreases |ticks|
  {
    hide Bodies, Scheduling, Handle, Starts;
    if ticks != [] {
      var Tick(now, e) := ticks[0];
      assert DistinctIds(l.pending) by { BodiesDistinct(l, newest); }
      PlaceImproves(l, interval, now, e, id);
      HandleKeepsBodies(l, newest, interval, now, e);
      HandleKeepsSchedule(l, interval, now, e);
      OvertakenOnlyByThoseAhead(Handle(l, interval, now, e), Newer(newest, e), interval, ticks[1..], id);
    }
  }

  lemma BodiesDistinct(l: Lane, newest: int)
    requires Bodies(l, newest)
    ensures DistinctIds(l.pending)
  {
  }
}
