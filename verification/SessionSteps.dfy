/** What each event makes of each session, field by field. */
module SessionSteps {
  import opened Options
  import opened SessionPool
  import opened SessionPoolProofs

  /** Just used: its idle timer starts anew when it has a process, and it has none otherwise. */
  function Used(s: Session, now: nat, ttl: nat): Session {
    s.(lastActivity := now, timer := if s.home.Some? then Some(now + ttl) else None)
  }

  /** Without its process it has no timer either. */
  function LetGone(s: Session): Session {
    s.(home := None, timer := None)
  }

  /** What an event makes of the session it is about. */
  function Becomes(s: Session, e: Event, now: nat, ttl: nat): Session {
    match e
    case SessionFor(_, cwd) => s.(cwd := cwd)
    case EnsureGeneration(_) =>
      var s' := if s.home.Some? && s.home.value != s.cwd && s.pending == 0 then LetGone(s) else s;
      if s'.home.None? then s'.(spawning := true) else s'
    case Spawned(_) => Used(s.(home := Some(s.cwd), spawning := false), now, ttl)
    case Send(_, query) => Used(if query then s.(pending := s.pending + 1) else s, now, ttl)
    case Frame(_, queued) => Used(if queued.Some? then s.(pending := queued.value) else s, now, ttl)
    case Interrupt(_) => if s.home.Some? then Used(s, now, ttl) else s
    case PumpEnds(_) => s.(home := None, pending := 0)
    case TimerFires(_) =>
      if s.home.None? then s.(timer := None)
      else if s.pending > 0 then s.(timer := Some(now + ttl))
      else LetGone(s)
    case Wait(_) => s
  }

  lemma UpdateGets(p: Pool, s: Session)
    requires Distinct(p.sessions) && Has(p, s.id)
    ensures var p' := Update(p, s);
            && p'.now == p.now && Distinct(p'.sessions) && Has(p', s.id) && Get(p', s.id) == s
            && (forall id :: id != s.id ==> Has(p', id) == Has(p, id) && (Has(p, id) ==> Get(p', id) == Get(p, id)))
  {
    var p', i := Update(p, s), IndexOf(p.sessions, s.id);
    Found(p'.sessions, i);
    forall id | id != s.id ensures Has(p', id) == Has(p, id) && (Has(p, id) ==> Get(p', id) == Get(p, id)) {
      if Has(p, id) { Found(p'.sessions, IndexOf(p.sessions, id)); }
    }
  }

  lemma Found(s: seq<Session>, i: nat)
    requires Distinct(s) && i < |s|
    ensures IndexOf(s, s[i].id) == i
  {
  }

  lemma MovedLast(s: seq<Session>, i: nat, u: Session)
    requires Distinct(s) && i < |s| && u.id == s[i].id
    ensures Distinct(s[..i] + s[i + 1..] + [u])
    ensures IndexOf(s[..i] + s[i + 1..] + [u], u.id) == |s| - 1
  {
    hide IndexOf;
    var t := s[..i] + s[i + 1..] + [u];
    assert forall j | 0 <= j < |t| :: t[j] == if j == |s| - 1 then u else s[if j < i then j else j + 1];
    Found(t, |s| - 1);
  }

  lemma MovedOthers(s: seq<Session>, i: nat, u: Session, id: string)
    requires i < |s| && u.id == s[i].id && id != u.id
    requires Distinct(s[..i] + s[i + 1..] + [u])
    ensures var t, k := s[..i] + s[i + 1..] + [u], IndexOf(s, id);
            if k < |s| then IndexOf(t, id) < |t| && t[IndexOf(t, id)] == s[k] else IndexOf(t, id) == |t|
  {
    hide IndexOf;
    var t, k := s[..i] + s[i + 1..] + [u], IndexOf(s, id);
    if k < |s| {
      var j := if k < i then k else k - 1;
      assert t[j] == s[k];
      Found(t, j);
    } else {
      assert forall x | x in t :: x == u || x in s;
    }
  }

  lemma TouchGets(p: Pool, s: Session, ttl: nat)
    requires Distinct(p.sessions) && Has(p, s.id)
    ensures var p' := Touched(p, s, ttl);
            && p'.now == p.now && Has(p', s.id) && Get(p', s.id) == Armed(s.(lastActivity := p.now), p.now, ttl)
            && (forall id :: id != s.id ==> Has(p', id) == Has(p, id) && (Has(p, id) ==> Get(p', id) == Get(p, id)))
  {
    hide IndexOf, Distinct;
    var i, u := IndexOf(p.sessions, s.id), Armed(s.(lastActivity := p.now), p.now, ttl);
    MovedLast(p.sessions, i, u);
    forall id | id != s.id
      ensures var p' := Touched(p, s, ttl);
              Has(p', id) == Has(p, id) && (Has(p, id) ==> Get(p', id) == Get(p, id)) {
      MovedOthers(p.sessions, i, u, id);
    }
  }

  lemma AddedGets(p: Pool, s: Session)
    requires Distinct(p.sessions) && !Has(p, s.id)
    ensures var p' := p.(sessions := p.sessions + [s]);
            && Has(p', s.id) && Get(p', s.id) == s
            && (forall id :: id != s.id ==> Has(p', id) == Has(p, id) && (Has(p, id) ==> Get(p', id) == Get(p, id)))
  {
    var p' := p.(sessions := p.sessions + [s]);
    Unknown(p, s.id);
    assert Distinct(p'.sessions);
    Found(p'.sessions, |p.sessions|);
    forall id | id != s.id ensures Has(p', id) == Has(p, id) && (Has(p, id) ==> Get(p', id) == Get(p, id)) {
      if Has(p, id) { Found(p'.sessions, IndexOf(p.sessions, id)); }
    }
  }

  /** Making room changes no session but by letting it go, and only an idle one. */
  lemma SweepGets(p: Pool, cap: nat)
    requires Distinct(p.sessions)
    ensures var p' := Enforced(p, cap);
            && |p'.sessions| == |p.sessions|
            && (forall id :: Has(p', id) == Has(p, id))
            && (forall id :: Has(p, id) ==>
                  Get(p', id) == Get(p, id) || (Get(p, id).IdleHot() && Get(p', id) == LetGone(Get(p, id))))
  {
    hide Quota;
    var p', k := Enforced(p, cap), Quota(p.sessions, cap);
    SweepLength(p.sessions, k);
    forall i: nat | i < |p.sessions|
      ensures p'.sessions[i] == p.sessions[i] || (p.sessions[i].IdleHot() && p'.sessions[i] == LetGone(p.sessions[i]))
    {
      EvictFirstAt(p.sessions, k, i);
    }
    hide EvictFirst;
    forall id ensures Has(p', id) == Has(p, id) && IndexOf(p'.sessions, id) == IndexOf(p.sessions, id) {
      SameIds(p.sessions, p'.sessions, id);
    }
  }

  lemma {:induction false} SweepLength(s: seq<Session>, k: nat)
    ensures |EvictFirst(s, k)| == |s|
    decreases |s|
  {
    if s != [] && k > 0 { SweepLength(s[1..], if s[0].IdleHot() then k - 1 else k); }
  }

  lemma {:induction false} SameIds(s: seq<Session>, t: seq<Session>, id: string)
    requires |s| == |t| && forall i | 0 <= i < |s| :: s[i].id == t[i].id
    ensures IndexOf(t, id) == IndexOf(s, id)
    decreases |s|
  {
    if s != [] { SameIds(s[1..], t[1..], id); }
  }

  predicate About(e: Event, id: string) {
    !e.Wait? && e.id == id
  }

  /**
    Each event makes of its own session just what it should, and of any other nothing, unless it
    makes room for a spawn: then idle ones may be let go.
   */
  lemma StepIsExact(p: Pool, e: Event, c: Config, id: string)
    requires Inv(p, c) && Enabled(p, e) && Has(p, id)
    ensures var p' := Next(p, e, c);
            && Has(p', id) && p'.now == (if e.Wait? then p.now + e.ms else p.now)
            && (About(e, id) ==> Get(p', id) == Becomes(Get(p, id), e, p.now, c.ttl))
            && (!About(e, id) ==>
                  || Get(p', id) == Get(p, id)
                  || (e.EnsureGeneration? && Get(p, id).IdleHot() && Get(p', id) == LetGone(Get(p, id))))
  {
    hide Ordered, Timers, Distinct, IndexOf, Touched, Update, Ensured;
    match e
    case SessionFor(id', cwd) =>
      if Has(p, id') { UpdateGets(p, Get(p, id').(cwd := cwd)); }
      else { AddedGets(p, Session(id', cwd, None, 0, false, p.now, None)); }
    case EnsureGeneration(id') => EnsureGets(p, id', c, id);
    case Spawned(id') => TouchGets(p, Get(p, id').(home := Some(Get(p, id').cwd), spawning := false), c.ttl);
    case Send(id', query) =>
      TouchGets(p, Get(p, id').(pending := Get(p, id').pending + (if query then 1 else 0)), c.ttl);
    case Frame(id', queued) => TouchGets(p, Get(p, id').(pending := queued.GetOr(Get(p, id').pending)), c.ttl);
    case Interrupt(id') => TouchGets(p, Get(p, id'), c.ttl);
    case PumpEnds(id') => UpdateGets(p, Get(p, id').(home := None, pending := 0));
    case TimerFires(id') =>
      var s := Get(p, id').(timer := None);
      UpdateGets(p, if !s.Hot() then s else if s.Busy() then Armed(s, p.now, c.ttl) else Evicted(s));
    case Wait(ms) =>
  }

  lemma EnsureGets(p: Pool, id': string, c: Config, id: string)
    requires Distinct(p.sessions) && Has(p, id') && Has(p, id)
    ensures var p', e := Ensured(p, id', c), EnsureGeneration(id');
            && Has(p', id) && p'.now == p.now
            && (id == id' ==> Get(p', id) == Becomes(Get(p, id), e, p.now, c.ttl))
            && (id != id' ==>
                  Get(p', id) == Get(p, id) || (Get(p, id).IdleHot() && Get(p', id) == LetGone(Get(p, id))))
  {
    hide IndexOf, EvictFirst, Quota;
    var s := Rehomed(Get(p, id'));
    UpdateGets(p, s);
    UpdateGets(p, s.(spawning := true));
    SweepGets(Update(p, s.(spawning := true)), c.cap);
  }

  /** A session asked for that is not there is made, cold and in its directory. */
  lemma MadeCold(p: Pool, id: string, cwd: string, c: Config)
    requires Inv(p, c) && !Has(p, id)
    ensures var p' := Next(p, SessionFor(id, cwd), c);
            Has(p', id) && Get(p', id) == Session(id, cwd, None, 0, false, p.now, None)
  {
    hide Ordered, Timers, IndexOf;
    AddedGets(p, Session(id, cwd, None, 0, false, p.now, None));
  }

  /**
    Over every run: once a session is ensured it runs in its own directory, or is being spawned
    there, unless it is still busy elsewhere.
   */
  lemma EnsuredRunsWhereAsked(events: seq<Event>, c: Config, id: string)
    requires Has(RunFrom(Pool([], 0), events, c), id)
    ensures var s := Get(RunFrom(Pool([], 0), events, c), id);
            var p' := Next(RunFrom(Pool([], 0), events, c), EnsureGeneration(id), c);
            && Has(p', id)
            && var s' := Get(p', id);
               && s'.cwd == s.cwd
               && (s'.home == Some(s.cwd) || s'.spawning || s'.Busy())
  {
    hide RunFrom, Next, Inv;
    StartInv(c);
    RunKeepsInv(Pool([], 0), events, c);
    StepIsExact(RunFrom(Pool([], 0), events, c), EnsureGeneration(id), c, id);
  }

  lemma StartInv(c: Config)
    ensures Inv(Pool([], 0), c)
  {
  }
}
