/** When spawning keeps the pool within its cap: over every run, with anything happening between. */
module SessionPoolCap {
  import opened Options
  import opened SessionPool
  import opened SessionPoolProofs

  // ------------------------------------------------------------- counting

  lemma {:induction false} HotCountSplit(a: seq<Session>, b: seq<Session>)
    ensures HotCount(a + b) == HotCount(a) + HotCount(b)
    ensures IdleHotCount(a + b) == IdleHotCount(a) + IdleHotCount(b)
    decreases |a|
  {
    if a == [] {
      assert a + b == b;
    } else {
      assert (a + b)[0] == a[0] && (a + b)[1..] == a[1..] + b;
      HotCountSplit(a[1..], b);
    }
  }

  function HotOne(s: Session): nat { if s.Hot() then 1 else 0 }

  function IdleOne(s: Session): nat { if s.IdleHot() then 1 else 0 }

  lemma OneCounts(s: Session)
    ensures HotCount([s]) == HotOne(s) && IdleHotCount([s]) == IdleOne(s)
  {
    assert [s][1..] == [];
  }

  /** One session changed, where it stood or at the end. */
  lemma ChangeCounts(s: seq<Session>, i: nat, t: Session)
    requires i < |s|
    ensures HotCount(s[i := t]) + HotOne(s[i]) == HotCount(s) + HotOne(t)
    ensures IdleHotCount(s[i := t]) + IdleOne(s[i]) == IdleHotCount(s) + IdleOne(t)
    ensures HotCount(s[..i] + s[i + 1..] + [t]) + HotOne(s[i]) == HotCount(s) + HotOne(t)
    ensures IdleHotCount(s[..i] + s[i + 1..] + [t]) + IdleOne(s[i]) == IdleHotCount(s) + IdleOne(t)
  {
    var a, b := s[..i], s[i + 1..];
    assert s == a + ([s[i]] + b) && s[i := t] == a + ([t] + b);
    OneCounts(s[i]);
    OneCounts(t);
    HotCountSplit(a, [s[i]] + b);
    HotCountSplit([s[i]], b);
    HotCountSplit(a, [t] + b);
    HotCountSplit([t], b);
    HotCountSplit(a, b);
    HotCountSplit(a + b, [t]);
  }

  lemma UpdateCounts(p: Pool, u: Session)
    requires Has(p, u.id)
    ensures HotCount(Update(p, u).sessions) + HotOne(Get(p, u.id)) == HotCount(p.sessions) + HotOne(u)
    ensures IdleHotCount(Update(p, u).sessions) + IdleOne(Get(p, u.id)) == IdleHotCount(p.sessions) + IdleOne(u)
  {
    hide HotCount, IdleHotCount;
    ChangeCounts(p.sessions, IndexOf(p.sessions, u.id), u);
  }

  lemma TouchedCounts(p: Pool, u: Session, ttl: nat)
    requires Has(p, u.id)
    ensures HotCount(Touched(p, u, ttl).sessions) + HotOne(Get(p, u.id)) == HotCount(p.sessions) + HotOne(u)
    ensures IdleHotCount(Touched(p, u, ttl).sessions) + IdleOne(Get(p, u.id)) == IdleHotCount(p.sessions) + IdleOne(u)
  {
    hide HotCount, IdleHotCount;
    ChangeCounts(p.sessions, IndexOf(p.sessions, u.id), Armed(u.(lastActivity := p.now), p.now, ttl));
  }

  // ------------------------------------------------------------- room

  /** There is room for one more, or nobody to let go. */
  predicate Roomy(p: Pool, c: Config) {
    HotCount(p.sessions) < c.cap || IdleHotCount(p.sessions) == 0
  }

  /** What can take the room away: another spawn that completes, or a turn that ends. */
  predicate Spoils(p: Pool, e: Event) {
    match e
    case Spawned(_) => true
    case Frame(id, queued) => queued == Some(0) && Has(p, id) && Get(p, id).Hot() && Get(p, id).Busy()
    case _ => false
  }

  lemma EnsureKeepsRoom(p: Pool, id: string, c: Config)
    requires Inv(p, c) && Has(p, id) && Roomy(p, c)
    ensures Roomy(Ensured(p, id, c), c)
  {
    hide HotCount, IdleHotCount, EvictFirst, Quota, Distinct, Ordered, Timers;
    var s := Rehomed(Get(p, id));
    UpdateCounts(p, s);
    if !(s.Hot() || s.spawning) { EnsureMakesRoom(p, id, c); }
  }

  /** A session that starts to spawn finds room, or nobody to let go. */
  lemma EnsureMakesRoom(p: Pool, id: string, c: Config)
    requires Inv(p, c) && Has(p, id)
    requires !Rehomed(Get(p, id)).Hot() && !Get(p, id).spawning
    ensures Roomy(Ensured(p, id, c), c)
  {
    hide HotCount, IdleHotCount, EvictFirst, Quota, Distinct, Ordered, Timers;
    var u := Rehomed(Get(p, id)).(spawning := true);
    TimerHere(p, id, c);
    UpdateKeeps(p, u, c);
    MakesRoomExactly(Update(p, u), c);
  }

  lemma AddedCounts(s: seq<Session>, t: Session)
    ensures HotCount(s + [t]) == HotCount(s) + HotOne(t) && IdleHotCount(s + [t]) == IdleHotCount(s) + IdleOne(t)
  {
    HotCountSplit(s, [t]);
    OneCounts(t);
  }

  /** Nothing else takes the room away. */
  lemma RoomLasts(p: Pool, e: Event, c: Config)
    requires Inv(p, c) && Roomy(p, c) && !Spoils(p, e)
    ensures Roomy(Next(p, e, c), c)
  {
    hide HotCount, IdleHotCount, Inv, Ensured;
    if Enabled(p, e) {
      match e
      case SessionFor(id, cwd) =>
        if Has(p, id) {
          UpdateCounts(p, Get(p, id).(cwd := cwd));
        } else {
          AddedCounts(p.sessions, Session(id, cwd, None, 0, false, p.now, None));
        }
      case EnsureGeneration(id) => EnsureKeepsRoom(p, id, c);
      case Send(id, query) =>
        TouchedCounts(p, Get(p, id).(pending := Get(p, id).pending + (if query then 1 else 0)), c.ttl);
      case Frame(id, queued) => TouchedCounts(p, Get(p, id).(pending := queued.GetOr(Get(p, id).pending)), c.ttl);
      case Interrupt(id) => TouchedCounts(p, Get(p, id), c.ttl);
      case PumpEnds(id) => UpdateCounts(p, Get(p, id).(home := None, pending := 0));
      case TimerFires(id) =>
        var s := Get(p, id).(timer := None);
        UpdateCounts(p, if !s.Hot() then s else if s.Busy() then Armed(s, p.now, c.ttl) else Evicted(s));
      case Wait(ms) =>
    }
  }

  /** No event of the run spoils the room. */
  predicate Unspoiled(p: Pool, events: seq<Event>, c: Config)
    decreases |events|
  {
    events == [] || (!Spoils(p, events[0]) && Unspoiled(Next(p, events[0], c), events[1..], c))
  }

  lemma {:induction false} RoomLastsThrough(p: Pool, events: seq<Event>, c: Config)
    requires Inv(p, c) && Roomy(p, c) && Unspoiled(p, events, c)
    ensures Roomy(RunFrom(p, events, c), c) && Inv(RunFrom(p, events, c), c)
    decreases |events|
  {
    hide Inv, Next, Roomy, Spoils;
    if events != [] {
      RoomLasts(p, events[0], c);
      KeepsInv(p, events[0], c);
      RoomLastsThrough(Next(p, events[0], c), events[1..], c);
    }
  }

  // ------------------------------------------------------------- the guard at the spawn

  /** A session that is spawning has no subprocess yet. */
  ghost predicate SpawningCold(p: Pool) {
    forall s | s in p.sessions :: !(s.spawning && s.Hot())
  }

  lemma UpdateCold(p: Pool, u: Session)
    requires SpawningCold(p) && Has(p, u.id) && !(u.spawning && u.Hot())
    ensures SpawningCold(Update(p, u))
  {
  }

  lemma TouchedCold(p: Pool, u: Session, ttl: nat)
    requires SpawningCold(p) && Has(p, u.id) && !(u.spawning && u.Hot())
    ensures SpawningCold(Touched(p, u, ttl))
  {
  }

  lemma GetCold(p: Pool, id: string)
    requires SpawningCold(p) && Has(p, id)
    ensures !(Get(p, id).spawning && Get(p, id).Hot())
  {
    assert Get(p, id) in p.sessions;
  }

  lemma EnsuredCold(p: Pool, id: string, c: Config)
    requires Inv(p, c) && SpawningCold(p) && Has(p, id)
    ensures SpawningCold(Ensured(p, id, c))
  {
    hide HotCount, IdleHotCount, EvictFirst, Quota, Distinct, Ordered, Timers, SpawningCold;
    GetCold(p, id);
    var s := Rehomed(Get(p, id));
    UpdateCold(p, s);
    var u := s.(spawning := true);
    if !(s.Hot() || s.spawning) {
      TimerHere(p, id, c);
      UpdateKeeps(p, u, c);
      UpdateCold(p, u);
      EnforcedCold(Update(p, u), c);
    }
  }

  lemma EnforcedCold(p: Pool, c: Config)
    requires Inv(p, c) && SpawningCold(p)
    ensures SpawningCold(Enforced(p, c.cap))
  {
    MakesRoomExactly(p, c);
    var p' := Enforced(p, c.cap);
    forall s | s in p'.sessions ensures !(s.spawning && s.Hot()) {
      var i :| 0 <= i < |p'.sessions| && p'.sessions[i] == s;
      assert p.sessions[i] in p.sessions;
    }
  }

  lemma KeepsCold(p: Pool, e: Event, c: Config)
    requires Inv(p, c) && SpawningCold(p)
    ensures SpawningCold(Next(p, e, c))
  {
    hide Inv, Ensured;
    if Enabled(p, e) {
      match e
      case SessionFor(id, cwd) =>
        if Has(p, id) { GetCold(p, id); UpdateCold(p, Get(p, id).(cwd := cwd)); }
      case EnsureGeneration(id) => EnsuredCold(p, id, c);
      case Spawned(id) => TouchedCold(p, Get(p, id).(home := Some(Get(p, id).cwd), spawning := false), c.ttl);
      case Send(id, query) =>
        GetCold(p, id);
        TouchedCold(p, Get(p, id).(pending := Get(p, id).pending + (if query then 1 else 0)), c.ttl);
      case Frame(id, queued) =>
        GetCold(p, id);
        TouchedCold(p, Get(p, id).(pending := queued.GetOr(Get(p, id).pending)), c.ttl);
      case Interrupt(id) => GetCold(p, id); TouchedCold(p, Get(p, id), c.ttl);
      case PumpEnds(id) => UpdateCold(p, Get(p, id).(home := None, pending := 0));
      case TimerFires(id) =>
        var s := Get(p, id).(timer := None);
        GetCold(p, id);
        UpdateCold(p, if !s.Hot() then s else if s.Busy() then Armed(s, p.now, c.ttl) else Evicted(s));
      case Wait(ms) =>
    }
  }

  lemma {:induction false} RunKeepsCold(p: Pool, events: seq<Event>, c: Config)
    requires Inv(p, c) && SpawningCold(p)
    ensures Inv(RunFrom(p, events, c), c) && SpawningCold(RunFrom(p, events, c))
    decreases |events|
  {
    hide Inv, Next, SpawningCold;
    if events != [] {
      KeepsInv(p, events[0], c);
      KeepsCold(p, events[0], c);
      RunKeepsCold(Next(p, events[0], c), events[1..], c);
    }
  }

  /** Within the cap, or with every other hot session busy. */
  predicate KeepsTheCap(p: Pool, id: string, c: Config)
    requires Has(p, id)
  {
    HotCount(p.sessions) <= c.cap || IdleHotCount(p.sessions) == IdleOne(Get(p, id))
  }

  lemma TouchedGet(p: Pool, u: Session, ttl: nat, c: Config)
    requires Inv(p, c) && Has(p, u.id)
    ensures var p' := Touched(p, u, ttl); Has(p', u.id) && Get(p', u.id) == Armed(u.(lastActivity := p.now), p.now, ttl)
  {
    var i := IndexOf(p.sessions, u.id);
    var p' := Touched(p, u, ttl);
    var rest := p.sessions[..i] + p.sessions[i + 1..];
    forall j | 0 <= j < |rest| ensures rest[j].id != u.id {
      assert rest[j] == p.sessions[if j < i then j else j + 1];
    }
    var t := Armed(u.(lastActivity := p.now), p.now, ttl);
    assert p'.sessions == rest + [t] && p'.sessions[|rest|] == t;
    var k := IndexOf(p'.sessions, u.id);
    assert k >= |rest|;
  }

  lemma SpawnedCounts(p: Pool, id: string, c: Config)
    requires Inv(p, c) && SpawningCold(p) && Enabled(p, Spawned(id))
    ensures var p' := Next(p, Spawned(id), c);
            && Has(p', id)
            && HotCount(p'.sessions) == HotCount(p.sessions) + 1
            && IdleHotCount(p'.sessions) == IdleHotCount(p.sessions) + IdleOne(Get(p', id))
  {
    hide HotCount, IdleHotCount, Distinct, Ordered, Timers;
    GetCold(p, id);
    var u := Get(p, id).(home := Some(Get(p, id).cwd), spawning := false);
    TouchedCounts(p, u, c.ttl);
    TouchedGet(p, u, c.ttl, c);
  }

  /**
    Over every run: a spawn that completes leaves the pool within its cap, or with every other hot
    session busy, exactly when just before there was room for one more, or no hot session idle.
   */
  lemma SpawnKeepsTheCapIff(events: seq<Event>, id: string, c: Config)
    requires Enabled(RunFrom(Empty, events, c), Spawned(id))
    ensures var p := RunFrom(Empty, events, c); var p' := Next(p, Spawned(id), c);
            Has(p', id) && (KeepsTheCap(p', id, c) <==> Roomy(p, c))
  {
    hide RunFrom, Next;
    assert Inv(Empty, c) && SpawningCold(Empty);
    RunKeepsCold(Empty, events, c);
    SpawnedCounts(RunFrom(Empty, events, c), id, c);
  }

  /** From the check to the spawn, whatever happens between but another spawn that completes or a turn that ends. */
  lemma SpawnKeepsTheCap(p: Pool, id: string, between: seq<Event>, c: Config)
    requires Inv(p, c) && SpawningCold(p) && Has(p, id) && !Rehomed(Get(p, id)).Hot() && !Get(p, id).spawning
    requires Unspoiled(Next(p, EnsureGeneration(id), c), between, c)
    requires Enabled(RunFrom(Next(p, EnsureGeneration(id), c), between, c), Spawned(id))
    ensures var p' := Next(RunFrom(Next(p, EnsureGeneration(id), c), between, c), Spawned(id), c);
            Has(p', id) && KeepsTheCap(p', id, c)
  {
    hide RunFrom, Inv, SpawningCold, HotCount, IdleHotCount, Unspoiled;
    EnsureMakesRoom(p, id, c);
    KeepsInv(p, EnsureGeneration(id), c);
    KeepsCold(p, EnsureGeneration(id), c);
    var p1 := Next(p, EnsureGeneration(id), c);
    assert p1 == Ensured(p, id, c);
    RoomLastsThrough(p1, between, c);
    RunKeepsCold(p1, between, c);
    SpawnedCounts(RunFrom(p1, between, c), id, c);
  }

  // ------------------------------------------------------------- runs that overshoot

  function Fresh(id: string, spawning: bool, hot: bool): Session {
    Session(id, "/", if hot then Some("/") else None, 0, spawning, 0, if hot then Some(0) else None)
  }

  lemma {:induction false} NoneHot(s: seq<Session>)
    requires forall i | 0 <= i < |s| :: !s[i].Hot()
    ensures HotCount(s) == 0 && IdleHotCount(s) == 0
  {
    if s != [] {
      assert forall i | 0 <= i < |s[1..]| :: s[1..][i] == s[i + 1];
      NoneHot(s[1..]);
    }
  }

  lemma EnsuresCold(s: Session, t: Session, c: Config, first: bool)
    requires s.id != t.id && !s.Hot() && !t.Hot() && !s.spawning && c.cap > 0
    ensures Next(Pool(if first then [s, t] else [t, s], 0), EnsureGeneration(s.id), c)
         == Pool(if first then [s.(spawning := true), t] else [t, s.(spawning := true)], 0)
  {
    var p := Pool(if first then [s, t] else [t, s], 0);
    assert IndexOf(p.sessions, s.id) == (if first then 0 else 1);
    var mid := Update(p, s.(spawning := true));
    assert mid.sessions == if first then [s.(spawning := true), t] else [t, s.(spawning := true)];
    NoneHot(mid.sessions);
    EvictNone(mid.sessions);
  }

  lemma Spawns(s: Session, t: Session, c: Config)
    requires s.id != t.id && s.spawning
    ensures Next(Pool([s, t], 0), Spawned(s.id), c)
         == Pool([t, s.(home := Some(s.cwd), spawning := false, lastActivity := 0, timer := Some(c.ttl))], 0)
  {
  }

  lemma {:induction false} RunThen(p: Pool, a: seq<Event>, b: seq<Event>, c: Config)
    ensures RunFrom(p, a + b, c) == RunFrom(RunFrom(p, a, c), b, c)
    decreases |a|
  {
    hide Next;
    if a == [] {
      assert a + b == b;
    } else {
      assert (a + b)[1..] == a[1..] + b;
      RunThen(Next(p, a[0], c), a[1..], b, c);
    }
  }

  lemma FourSteps(p: Pool, a: Event, b: Event, d: Event, e: Event, c: Config)
    ensures RunFrom(p, [a, b, d, e], c) == Next(Next(Next(Next(p, a, c), b, c), d, c), e, c)
  {
    hide Next;
    assert [a, b, d, e][1..] == [b, d, e] && [b, d, e][1..] == [d, e] && [d, e][1..] == [e] && [e][1..] == [];
    assert RunFrom(p, [a, b, d, e], c) == RunFrom(Next(p, a, c), [b, d, e], c);
    assert RunFrom(Next(p, a, c), [b, d, e], c) == RunFrom(Next(Next(p, a, c), b, c), [d, e], c);
    assert RunFrom(Next(Next(p, a, c), b, c), [d, e], c) == RunFrom(Next(Next(Next(p, a, c), b, c), d, c), [e], c);
  }

  /** Two sessions are made, and both are cold. */
  lemma TwoCold(a: string, b: string, c: Config)
    requires a != b
    ensures RunFrom(Empty, [SessionFor(a, "/"), SessionFor(b, "/")], c)
         == Pool([Fresh(a, false, false), Fresh(b, false, false)], 0)
  {
    var a0, b0 := Fresh(a, false, false), Fresh(b, false, false);
    TwoMore(Empty, SessionFor(a, "/"), SessionFor(b, "/"), c);
    assert [] + [a0] == [a0] && [a0] + [b0] == [a0, b0];
    assert Next(Empty, SessionFor(a, "/"), c) == Pool([a0], 0);
    assert IndexOf([a0], b) == 1 by { assert [a0][1..] == []; }
    assert Next(Pool([a0], 0), SessionFor(b, "/"), c) == Pool([a0, b0], 0);
  }

  function Overlapping(a: string, b: string): seq<Event> {
    [SessionFor(a, "/"), SessionFor(b, "/")] + [EnsureGeneration(a), EnsureGeneration(b), Spawned(a), Spawned(b)]
  }

  /** Two spawns that overlap each find room, and run over the cap with both sessions idle. */
  lemma OverlappingSpawnsOvershoot(a: string, b: string)
    requires a != b
    ensures var c := Config(1, 0);
            var p := RunFrom(Empty, Overlapping(a, b), c);
            HotCount(p.sessions) == 2 > c.cap && IdleHotCount(p.sessions) == 2
  {
    var c := Config(1, 0);
    var a0, a1, a2 := Fresh(a, false, false), Fresh(a, true, false), Fresh(a, false, true);
    var b0, b1, b2 := Fresh(b, false, false), Fresh(b, true, false), Fresh(b, false, true);
    TwoCold(a, b, c);
    EnsuresCold(a0, b0, c, true);
    EnsuresCold(b0, a1, c, false);
    Spawns(a1, b1, c);
    Spawns(b1, a2, c);
    FourSteps(Pool([a0, b0], 0), EnsureGeneration(a), EnsureGeneration(b), Spawned(a), Spawned(b), c);
    RunThen(Empty, [SessionFor(a, "/"), SessionFor(b, "/")],
        [EnsureGeneration(a), EnsureGeneration(b), Spawned(a), Spawned(b)], c);
    BothIdle(a2, b2);
  }

  lemma BothIdle(s: Session, t: Session)
    requires s.IdleHot() && t.IdleHot()
    ensures HotCount([s, t]) == 2 && IdleHotCount([s, t]) == 2
  {
    assert [s, t][1..] == [t] && [t][1..] == [];
    assert HotCount([t]) == 1 && IdleHotCount([t]) == 1;
  }

  function Between(a: string, b: string): seq<Event> {
    [SessionFor(b, "/"), SessionFor(a, "/")]
    + [EnsureGeneration(a), Spawned(a), Send(a, true), EnsureGeneration(b)]
    + [Frame(a, Some(0)), Spawned(b)]
  }

  /**
    A turn that ends between the check and the spawn: one spawn at a time, and the pool is over
    its cap with both idle.
   */
  lemma FrameBetweenOvershoots(a: string, b: string)
    requires a != b
    ensures var c := Config(1, 0);
            var p := RunFrom(Empty, Between(a, b), c);
            HotCount(p.sessions) == 2 > c.cap && IdleHotCount(p.sessions) == 2
  {
    var c := Config(1, 0);
    var a2, b2 := Fresh(a, false, true), Fresh(b, false, true);
    var made := [SessionFor(b, "/"), SessionFor(a, "/")];
    var checked := [EnsureGeneration(a), Spawned(a), Send(a, true), EnsureGeneration(b)];
    var p := Checked(a, b);
    RunThen(Empty, made, checked, c);
    assert RunFrom(Empty, made + checked, c) == p;
    RunThen(Empty, made + checked, [Frame(a, Some(0)), Spawned(b)], c);
    TwoMore(p, Frame(a, Some(0)), Spawned(b), c);
    TurnEnds(Fresh(b, true, false), Fresh(a, false, true).(pending := 1), c);
    Spawns(Fresh(b, true, false), a2, c);
    BothIdle(a2, b2);
  }

  lemma TwoMore(p: Pool, a: Event, b: Event, c: Config)
    ensures RunFrom(p, [a, b], c) == Next(Next(p, a, c), b, c)
  {
    hide Next;
    assert [a, b][1..] == [b] && [b][1..] == [];
    assert RunFrom(Next(p, a, c), [b], c) == RunFrom(Next(Next(p, a, c), b, c), [], c);
  }

  /** One session is busy, so the check for the other lets nothing go. */
  lemma Checked(a: string, b: string) returns (p: Pool)
    requires a != b
    ensures p == Pool([Fresh(b, true, false), Fresh(a, false, true).(pending := 1)], 0)
    ensures p == RunFrom(RunFrom(Empty, [SessionFor(b, "/"), SessionFor(a, "/")], Config(1, 0)),
                     [EnsureGeneration(a), Spawned(a), Send(a, true), EnsureGeneration(b)], Config(1, 0))
  {
    var c := Config(1, 0);
    var b0, b1 := Fresh(b, false, false), Fresh(b, true, false);
    var busy := Fresh(a, false, true).(pending := 1);
    TwoCold(b, a, c);
    EnsuresCold(Fresh(a, false, false), b0, c, false);
    Spawns'(b0, Fresh(a, true, false), c);
    Sends(b0, Fresh(a, false, true), c);
    p := Pool([b0, busy], 0);
    assert IndexOf(p.sessions, b) == 0;
    var mid := Update(p, b1);
    assert mid.sessions == [b1, busy];
    assert [b1, busy][1..] == [busy] && [busy][1..] == [];
    assert HotCount([busy]) == 1 && IdleHotCount([busy]) == 0;
    EvictNone(mid.sessions);
    assert Next(p, EnsureGeneration(b), c) == mid;
    FourSteps(Pool([b0, Fresh(a, false, false)], 0), EnsureGeneration(a), Spawned(a), Send(a, true),
        EnsureGeneration(b), c);
    p := mid;
  }

  lemma Spawns'(s: Session, t: Session, c: Config)
    requires s.id != t.id && t.spawning
    ensures Next(Pool([s, t], 0), Spawned(t.id), c)
         == Pool([s, t.(home := Some(t.cwd), spawning := false, lastActivity := 0, timer := Some(c.ttl))], 0)
  {
    assert IndexOf([s, t], t.id) == 1;
  }

  lemma Sends(s: Session, t: Session, c: Config)
    requires s.id != t.id && t.Hot()
    ensures Next(Pool([s, t], 0), Send(t.id, true), c)
         == Pool([s, t.(pending := t.pending + 1, lastActivity := 0, timer := Some(c.ttl))], 0)
  {
    assert IndexOf([s, t], t.id) == 1;
  }

  lemma TurnEnds(s: Session, t: Session, c: Config)
    requires s.id != t.id && t.Hot()
    ensures Next(Pool([s, t], 0), Frame(t.id, Some(0)), c)
         == Pool([s, t.(pending := 0, lastActivity := 0, timer := Some(c.ttl))], 0)
  {
    assert IndexOf([s, t], t.id) == 1;
  }
}
