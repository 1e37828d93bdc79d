/** What every run of the pool keeps, and who is let go. */
module SessionPoolProofs {
  import opened Options
  import opened SessionPool

  // ------------------------------------------------------------- the invariant

  ghost predicate Distinct(s: seq<Session>) {
    forall i, j | 0 <= i < j < |s| :: s[i].id != s[j].id
  }

  /** Map order is the order of last activity. */
  ghost predicate Ordered(s: seq<Session>) {
    forall i, j | 0 <= i < j < |s| :: s[i].lastActivity <= s[j].lastActivity
  }

  /**
    A subprocess always has its idle timer running: due exactly `ttl` after the last activity
    when idle, never earlier than that when busy.
   */
  predicate TimerOk(s: Session, now: nat, ttl: nat) {
    && s.lastActivity <= now
    && (s.Hot() ==> s.timer.Some? && s.lastActivity + ttl <= s.timer.value <= now + ttl)
    && (s.IdleHot() ==> s.timer.value == s.lastActivity + ttl)
  }

  ghost predicate Timers(s: seq<Session>, now: nat, ttl: nat) {
    forall i | 0 <= i < |s| :: TimerOk(s[i], now, ttl)
  }

  ghost predicate Inv(p: Pool, c: Config) {
    Distinct(p.sessions) && Ordered(p.sessions) && Timers(p.sessions, p.now, c.ttl)
  }

  lemma UpdateKeeps(p: Pool, s: Session, c: Config)
    requires Inv(p, c) && Has(p, s.id) && TimerOk(s, p.now, c.ttl)
    requires s.lastActivity == Get(p, s.id).lastActivity
    ensures Inv(Update(p, s), c) && Has(Update(p, s), s.id) && Get(Update(p, s), s.id) == s
  {
    var i, i' := IndexOf(p.sessions, s.id), IndexOf(Update(p, s).sessions, s.id);
    assert Update(p, s).sessions[i].id == s.id;
    assert Distinct(Update(p, s).sessions);
    assert i == i';
  }

  lemma WithoutKeeps(s: seq<Session>, i: nat, now: nat, ttl: nat)
    requires i < |s| && Distinct(s) && Ordered(s) && Timers(s, now, ttl)
    ensures var rest := s[..i] + s[i + 1..];
            Distinct(rest) && Ordered(rest) && Timers(rest, now, ttl) && forall t | t in rest ::
                t in s && t.id != s[i].id
  {
    hide TimerOk;
    var rest := s[..i] + s[i + 1..];
    assert forall j | 0 <= j < |rest| :: rest[j] == s[if j < i then j else j + 1];
  }

  lemma AppendKeeps(s: seq<Session>, t: Session, now: nat, ttl: nat)
    requires Distinct(s) && Ordered(s) && Timers(s, now, ttl)
    requires TimerOk(t, now, ttl) && t.lastActivity == now && forall u | u in s :: u.id != t.id
    ensures Distinct(s + [t]) && Ordered(s + [t]) && Timers(s + [t], now, ttl)
  {
    forall i | 0 <= i < |s| ensures s[i].id != t.id && s[i].lastActivity <= now && (s + [t])[i] == s[i] {
      assert TimerOk(s[i], now, ttl);
    }
  }

  lemma TouchKeeps(p: Pool, s: Session, c: Config)
    requires Inv(p, c) && Has(p, s.id)
    ensures Inv(Touched(p, s, c.ttl), c)
  {
    hide Distinct, Ordered, Timers;
    var i := IndexOf(p.sessions, s.id);
    WithoutKeeps(p.sessions, i, p.now, c.ttl);
    AppendKeeps(p.sessions[..i] + p.sessions[i + 1..], Armed(s.(lastActivity := p.now), p.now, c.ttl), p.now, c.ttl);
  }

  // ------------------------------------------------------------- making room

  lemma {:induction false} EvictFirstAt(s: seq<Session>, k: nat, i: nat)
    requires i < |s|
    ensures |EvictFirst(s, k)| == |s|
    ensures EvictFirst(s, k)[i] == if s[i].IdleHot() && IdleHotCount(s[..i]) < k then Evicted(s[i]) else s[i]
    decreases |s|
  {
    if k > 0 {
      var k' := if s[0].IdleHot() then k - 1 else k;
      if i > 0 {
        EvictFirstAt(s[1..], k', i - 1);
        assert s[..i][1..] == s[1..][..i - 1];
      } else if |s| > 1 {
        EvictFirstAt(s[1..], k', 0);
      } else {
        assert s[1..] == [];
      }
    }
  }

  lemma {:induction false} EvictFirstCounts(s: seq<Session>, k: nat)
    requires k <= IdleHotCount(s)
    ensures |EvictFirst(s, k)| == |s|
    ensures HotCount(EvictFirst(s, k)) == HotCount(s) - k
    ensures IdleHotCount(EvictFirst(s, k)) == IdleHotCount(s) - k
    decreases |s|
  {
    if s != [] && k > 0 {
      var k' := if s[0].IdleHot() then k - 1 else k;
      EvictFirstCounts(s[1..], k');
      var head := if s[0].IdleHot() then Evicted(s[0]) else s[0];
      assert EvictFirst(s, k) == [head] + EvictFirst(s[1..], k');
      assert EvictFirst(s, k)[1..] == EvictFirst(s[1..], k');
    }
  }

  /** More of a prefix, more idle hot sessions; an idle hot one in between makes it strictly more. */
  lemma {:induction false} CountGrows(s: seq<Session>, i: nat, j: nat)
    requires i < j <= |s|
    ensures IdleHotCount(s[..j]) >= IdleHotCount(s[..i]) + (if s[i].IdleHot() then 1 else 0)
    decreases i
  {
    if i > 0 {
      CountGrows(s[1..], i - 1, j - 1);
      assert s[..i][1..] == s[1..][..i - 1] && s[..j][1..] == s[1..][..j - 1];
    } else {
      assert s[..i] == [];
    }
  }

  /** A hot session that making room lets go. */
  predicate LetGo(s: seq<Session>, s': seq<Session>, i: nat)
    requires i < |s| == |s'|
  {
    s[i].Hot() && !s'[i].Hot()
  }

  /**
    Making room lets go of exactly as many idle sessions as it takes, or of all there are: the
    least recently used ones, and no busy one. It ends below the cap or with every one busy.
   */
  lemma MakesRoomExactly(p: Pool, c: Config)
    requires Inv(p, c)
    ensures var p' := Enforced(p, c.cap);
            var hot, idle := HotCount(p.sessions), IdleHotCount(p.sessions);
            && |p'.sessions| == |p.sessions|
            && HotCount(p'.sessions)
                == hot - (if hot < c.cap then 0 else if idle < hot - c.cap + 1 then idle else hot - c.cap + 1)
            && (HotCount(p'.sessions) < c.cap || IdleHotCount(p'.sessions) == 0)
            && (forall i: nat | i < |p.sessions| ::
                  p'.sessions[i] == if LetGo(p.sessions, p'.sessions, i) then Evicted(p.sessions[i]) else p.sessions[i])
            && (forall i: nat | i < |p.sessions| && LetGo(p.sessions, p'.sessions, i) ::
                  && !p.sessions[i].Busy()
                  && forall j: nat | j < |p.sessions| && p'.sessions[j].IdleHot() ::
                       p.sessions[i].lastActivity <= p.sessions[j].lastActivity)
  {
    hide HotCount, EvictFirst, Distinct, Timers;
    var s, k := p.sessions, Quota(p.sessions, c.cap);
    var s' := EvictFirst(s, k);
    EvictFirstCounts(s, k);
    forall i: nat | i < |s| ensures s'[i] == if s[i].IdleHot() && IdleHotCount(s[..i]) < k then Evicted(s[i])
        else s[i] {
      EvictFirstAt(s, k, i);
    }
    forall i: nat, j: nat | i < |s| && j < |s| && LetGo(s, s', i) && s'[j].IdleHot()
      ensures s[i].lastActivity <= s[j].lastActivity
    {
      if j < i { CountGrows(s, j, i); }
    }
  }

  lemma EnforceKeeps(p: Pool, c: Config)
    requires Inv(p, c)
    ensures Inv(Enforced(p, c.cap), c)
  {
    hide HotCount, IdleHotCount, EvictFirst, Quota;
    MakesRoomExactly(p, c);
  }

  lemma EnsureKeeps(p: Pool, id: string, c: Config)
    requires Inv(p, c) && Has(p, id)
    ensures Inv(Ensured(p, id, c), c)
  {
    hide Inv;
    var s := Rehomed(Get(p, id));
    assert TimerOk(Get(p, id), p.now, c.ttl) by { TimerHere(p, id, c); }
    UpdateKeeps(p, s, c);
    UpdateKeeps(p, s.(spawning := true), c);
    EnforceKeeps(Update(p, s.(spawning := true)), c);
  }

  lemma TimerHere(p: Pool, id: string, c: Config)
    requires Inv(p, c) && Has(p, id)
    ensures TimerOk(Get(p, id), p.now, c.ttl)
  {
  }

  lemma KeepsInv(p: Pool, e: Event, c: Config)
    requires Inv(p, c)
    ensures Inv(Next(p, e, c), c)
  {
    hide Distinct, Ordered, Timers, Ensured;
    if Enabled(p, e) {
      match e
      case SessionFor(id, cwd) =>
        if Has(p, id) {
          TimerHere(p, id, c);
          UpdateKeeps(p, Get(p, id).(cwd := cwd), c);
        } else {
          Unknown(p, id);
          AppendKeeps(p.sessions, Session(id, cwd, None, 0, false, p.now, None), p.now, c.ttl);
        }
      case EnsureGeneration(id) => EnsureKeeps(p, id, c);
      case Spawned(id) => TouchKeeps(p, Get(p, id).(home := Some(Get(p, id).cwd), spawning := false), c);
      case Send(id, query) => TouchKeeps(p, Get(p, id).(pending := Get(p, id).pending + (if query then 1 else 0)), c);
      case Frame(id, queued) => TouchKeeps(p, Get(p, id).(pending := queued.GetOr(Get(p, id).pending)), c);
      case Interrupt(id) => if Get(p, id).Hot() { TouchKeeps(p, Get(p, id), c); }
      case PumpEnds(id) =>
        TimerHere(p, id, c);
        UpdateKeeps(p, Get(p, id).(home := None, pending := 0), c);
      case TimerFires(id) =>
        var s := Get(p, id).(timer := None);
        TimerHere(p, id, c);
        UpdateKeeps(p, if !s.Hot() then s else if s.Busy() then Armed(s, p.now, c.ttl) else Evicted(s), c);
      case Wait(ms) => LaterKeeps(p.sessions, p.now, p.now + ms, c.ttl);
    }
  }

  lemma Unknown(p: Pool, id: string)
    requires !Has(p, id)
    ensures forall u | u in p.sessions :: u.id != id
  {
  }

  lemma LaterKeeps(s: seq<Session>, now: nat, later: nat, ttl: nat)
    requires Timers(s, now, ttl) && now <= later
    ensures Timers(s, later, ttl)
  {
  }

  lemma {:induction false} RunKeepsInv(p: Pool, events: seq<Event>, c: Config)
    requires Inv(p, c)
    ensures Inv(RunFrom(p, events, c), c)
    decreases |events|
  {
    hide Inv, Next;
    if events != [] {
      KeepsInv(p, events[0], c);
      RunKeepsInv(Next(p, events[0], c), events[1..], c);
    }
  }

  // ------------------------------------------------------------- who is let go, and why

  /** The only ways a session loses its subprocess. */
  ghost predicate Reason(p: Pool, e: Event, p': Pool, s: Session, c: Config) {
    match e
    case PumpEnds(id) => id == s.id
    case TimerFires(id) => id == s.id && !s.Busy() && s.lastActivity + c.ttl <= p.now
    case EnsureGeneration(id) =>
      && !s.Busy()
      && (if id == s.id then s.home != Some(s.cwd)
          else HotCount(p.sessions) >= c.cap
               && forall t | t in p'.sessions && t.IdleHot() :: s.lastActivity <= t.lastActivity)
    case _ => false
  }

  lemma SameSession(p: Pool, s: Session, t: Session)
    requires Distinct(p.sessions) && s in p.sessions && t in p.sessions && s.id == t.id
    ensures s == t
  {
  }

  lemma TouchedHolds(p: Pool, u: Session, ttl: nat, s: Session, s': Session)
    requires Distinct(p.sessions) && Has(p, u.id) && s in p.sessions && s' in Touched(p, u, ttl).sessions
        && s.id == s'.id
    ensures if s.id == u.id then s'.home == u.home || s' == s else s' == s
    ensures s.id == u.id ==> s == Get(p, u.id)
  {
    var i := IndexOf(p.sessions, u.id);
    assert Get(p, u.id) in p.sessions;
    if s.id == u.id { SameSession(p, s, Get(p, u.id)); }
    var rest := p.sessions[..i] + p.sessions[i + 1..];
    if s' in rest {
      assert s' in p.sessions;
      SameSession(p, s, s');
    }
  }

  lemma UpdatedHolds(p: Pool, u: Session, s: Session, s': Session)
    requires Distinct(p.sessions) && Has(p, u.id) && s in p.sessions && s' in Update(p, u).sessions && s.id == s'.id
    ensures s' == if s.id == u.id then u else s
    ensures s.id == u.id ==> s == Get(p, u.id)
  {
    var i := IndexOf(p.sessions, u.id);
    assert p.sessions[i] in p.sessions;
    if s.id == u.id { SameSession(p, s, Get(p, u.id)); }
    var j :| 0 <= j < |p.sessions| && Update(p, u).sessions[j] == s';
    if j != i {
      assert p.sessions[j] == s' && s' in p.sessions;
      SameSession(p, s, s');
      assert p.sessions[j].id != p.sessions[i].id by { if j < i {} }
    }
  }

  lemma EnforcedHolds(p: Pool, c: Config, s: Session, s': Session)
    requires Inv(p, c) && s in p.sessions && s' in Enforced(p, c.cap).sessions && s.id == s'.id
    requires s.Hot() && !s'.Hot()
    ensures !s.Busy() && HotCount(p.sessions) >= c.cap
    ensures forall t | t in Enforced(p, c.cap).sessions && t.IdleHot() :: s.lastActivity <= t.lastActivity
  {
    var p' := Enforced(p, c.cap);
    MakesRoomExactly(p, c);
    var i :| 0 <= i < |p.sessions| && p'.sessions[i] == s';
    assert p.sessions[i].id == s'.id;
    assert p.sessions[i] in p.sessions;
    SameSession(p, s, p.sessions[i]);
    assert LetGo(p.sessions, p'.sessions, i);
    forall t | t in p'.sessions && t.IdleHot() ensures s.lastActivity <= t.lastActivity {
      var j :| 0 <= j < |p'.sessions| && p'.sessions[j] == t;
    }
    if HotCount(p.sessions) < c.cap {
      EvictNone(p.sessions);
    }
  }

  lemma EvictNone(s: seq<Session>)
    ensures EvictFirst(s, 0) == s
  {
  }

  lemma {:induction false} SameHotCount(s: seq<Session>, i: nat, t: Session)
    requires i < |s| && (t.Hot() ==> s[i].Hot())
    ensures HotCount(s[i := t]) <= HotCount(s)
    decreases |s|
  {
    if i > 0 {
      SameHotCount(s[1..], i - 1, t);
      assert s[i := t][1..] == s[1..][i - 1 := t];
    } else {
      assert s[0 := t][1..] == s[1..];
    }
  }

  lemma EnsureReason(p: Pool, id: string, c: Config, s: Session, s': Session)
    requires Inv(p, c) && Has(p, id) && s in p.sessions && s' in Ensured(p, id, c).sessions && s.id == s'.id
    requires s.Hot() && !s'.Hot()
    ensures Reason(p, EnsureGeneration(id), Ensured(p, id, c), s, c)
  {
    hide EvictFirst, Quota, HotCount, Ordered, Timers;
    var u := Rehomed(Get(p, id));
    assert Get(p, id) in p.sessions;
    if s.id == id {
      SameSession(p, s, Get(p, id));
    }
    if u.Hot() || u.spawning {
      UpdatedHolds(p, u, s, s');
    } else {
      var u' := u.(spawning := true);
      var mid := Update(p, u');
      TimerHere(p, id, c);
      UpdateKeeps(p, u', c);
      assert s.id != id ==> s in mid.sessions by {
        var j :| 0 <= j < |p.sessions| && p.sessions[j] == s;
        assert s.id != id ==> mid.sessions[j] == s;
      }
      if s.id != id {
        EnforcedHolds(mid, c, s, s');
        SameHotCount(p.sessions, IndexOf(p.sessions, id), u');
      }
    }
  }

  /** A session loses its subprocess only when idle: for lack of activity, re-homed, or as the least recently used. */
  lemma LetGoForAReason(events: seq<Event>, e: Event, c: Config, s: Session, s': Session)
    requires s in RunFrom(Empty, events, c).sessions
    requires s' in Next(RunFrom(Empty, events, c), e, c).sessions && s.id == s'.id
    requires s.Hot() && !s'.Hot()
    ensures Reason(RunFrom(Empty, events, c), e, Next(RunFrom(Empty, events, c), e, c), s, c)
  {
    assert Inv(Empty, c);
    RunKeepsInv(Empty, events, c);
    var p := RunFrom(Empty, events, c);
    hide RunFrom;
    StepReason(p, e, c, s, s');
  }

  lemma StepReason(p: Pool, e: Event, c: Config, s: Session, s': Session)
    requires Inv(p, c) && s in p.sessions && s' in Next(p, e, c).sessions && s.id == s'.id
    requires s.Hot() && !s'.Hot()
    ensures Reason(p, e, Next(p, e, c), s, c)
  {
    hide Ordered, Ensured, HotCount;
    if !Enabled(p, e) {
      SameSession(p, s, s');
    } else {
      match e
      case SessionFor(id, cwd) =>
        if Has(p, id) {
          UpdatedHolds(p, Get(p, id).(cwd := cwd), s, s');
        } else if s' in p.sessions {
          SameSession(p, s, s');
        }
      case EnsureGeneration(id) => EnsureReason(p, id, c, s, s');
      case Spawned(id) => TouchedHolds(p, Get(p, id).(home := Some(Get(p, id).cwd), spawning := false), c.ttl, s, s');
      case Send(id, query) =>
        TouchedHolds(p, Get(p, id).(pending := Get(p, id).pending + (if query then 1 else 0)), c.ttl, s, s');
      case Frame(id, queued) => TouchedHolds(p, Get(p, id).(pending := queued.GetOr(Get(p, id).pending)), c.ttl, s, s');
      case Interrupt(id) =>
        if Get(p, id).Hot() { TouchedHolds(p, Get(p, id), c.ttl, s, s'); } else { SameSession(p, s, s'); }
      case PumpEnds(id) => UpdatedHolds(p, Get(p, id).(home := None, pending := 0), s, s');
      case TimerFires(id) =>
        var u := Get(p, id).(timer := None);
        UpdatedHolds(p, if !u.Hot() then u else if u.Busy() then Armed(u, p.now, c.ttl) else Evicted(u), s, s');
      case Wait(ms) => SameSession(p, s, s');
    }
  }

  /** In any run: map order is activity order, and an idle subprocess exits exactly `ttl` after its last activity. */
  lemma PoolIsOrderedAndTimed(events: seq<Event>, c: Config)
    ensures Ordered(RunFrom(Empty, events, c).sessions) && Distinct(RunFrom(Empty, events, c).sessions)
    ensures Timers(RunFrom(Empty, events, c).sessions, RunFrom(Empty, events, c).now, c.ttl)
  {
    assert Inv(Empty, c);
    RunKeepsInv(Empty, events, c);
  }

  const Empty: Pool := Pool([], 0)
}
