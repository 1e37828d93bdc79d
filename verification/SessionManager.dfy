/** The session manager as it runs: an insertion-ordered map changed in place. */
module SessionManagement {
  import opened Options
  import opened SessionPool
  import opened SessionPoolProofs
  import opened SessionPoolCap

  class SessionManager {
    const config: Config
    var sessions: seq<Session>
    var now: nat

    ghost function View(): Pool
      reads this
    {
      Pool(sessions, now)
    }

    constructor (config: Config)
      ensures this.config == config && View() == Pool([], 0)
    {
      this.config := config;
      sessions := [];
      now := 0;
    }

    /** Number of sessions with a live subprocess. */
    method CountHot() returns (n: nat)
      ensures n == HotCount(sessions)
    {
      n := 0;
      for i := 0 to |sessions|
        invariant n + HotCount(sessions[i..]) == HotCount(sessions)
      {
        assert sessions[i..][1..] == sessions[i + 1..];
        if sessions[i].Hot() { n := n + 1; }
      }
    }

    method SessionFor(id: string, cwd: string)
      modifies this
      ensures View() == Next(old(View()), Event.SessionFor(id, cwd), config)
    {
      var i := IndexOf(sessions, id);
      if i == |sessions| {
        sessions := sessions + [Session(id, cwd, None, 0, false, now, None)];
      } else {
        sessions := sessions[i := sessions[i].(cwd := cwd)];
      }
    }

    /** Refreshes the place in the order and the idle timer. */
    method Touch(s: Session)
      requires Has(View(), s.id)
      modifies this
      ensures View() == Touched(old(View()), s, config.ttl)
    {
      var i := IndexOf(sessions, s.id);
      var t := Arm(s.(lastActivity := now));
      sessions := sessions[..i] + sessions[i + 1..];
      sessions := sessions + [t];
    }

    method Arm(s: Session) returns (t: Session)
      ensures t == Armed(s, now, config.ttl)
    {
      t := s.(timer := if s.home.Some? then Some(now + config.ttl) else None);
    }

    method OnTtlExpired(id: string)
      requires Enabled(View(), TimerFires(id))
      modifies this
      ensures View() == Next(old(View()), TimerFires(id), config)
    {
      var i := IndexOf(sessions, id);
      var s := sessions[i].(timer := None);
      if s.home.Some? {
        if s.pending > 0 {
          s := Arm(s);
        } else {
          s := Evict(s);
        }
      }
      sessions := sessions[i := s];
    }

    /** The session goes cold. */
    method Evict(s: Session) returns (t: Session)
      ensures t == Evicted(s)
    {
      t := if s.home.None? then s else s.(home := None, timer := None);
    }

    method EnsureGeneration(id: string) returns (spawns: bool)
      requires Has(View(), id)
      modifies this
      ensures View() == Next(old(View()), Event.EnsureGeneration(id), config)
    {
      var i := IndexOf(sessions, id);
      var s := sessions[i];
      if s.home.Some? && s.home.value != s.cwd && !s.Busy() {
        s := Evict(s);
        sessions := sessions[i := s];
      }
      if s.home.Some? || s.spawning {
        assert sessions == Update(old(View()), s).sessions;
        return false;
      }
      s := s.(spawning := true);
      sessions := sessions[i := s];
      assert View() == Update(old(View()), s);
      EnforcePoolCap();
      return true;
    }

    /** Makes room for one more, as far as idle sessions allow, from the front of the order. */
    method EnforcePoolCap()
      modifies this
      ensures View() == Enforced(old(View()), config.cap)
    {
      hide EvictFirst, HotCount, IdleHotCount;
      var before := sessions;
      NoneBefore(before);
      var hot := CountHot();
      if hot < config.cap {
        FirstNone(before);
        return;
      }
      ghost var gone := 0;
      FirstNone(before);
      for i := 0 to |sessions|
        invariant sessions == EvictFirst(before, gone) && |sessions| == |before| && now == old(now)
        invariant gone == IdleHotCount(before[..i]) && gone <= IdleHotCount(before)
        invariant gone + config.cap <= HotCount(before)
      {
        NextVictim(before, gone, i);
        if sessions[i].home.Some? && !sessions[i].Busy() {
          var t := Evict(sessions[i]);
          sessions := sessions[i := t];
          gone := gone + 1;
          hot := CountHot();
          if hot < config.cap {
            return;
          }
        }
      }
      assert before[..|before|] == before;
    }

    method Spawned(id: string)
      requires Enabled(View(), Event.Spawned(id))
      modifies this
      ensures View() == Next(old(View()), Event.Spawned(id), config)
    {
      var i := IndexOf(sessions, id);
      Touch(sessions[i].(home := Some(sessions[i].cwd), spawning := false));
    }

    method Send(id: string, query: bool)
      requires Has(View(), id)
      modifies this
      ensures View() == Next(old(View()), Event.Send(id, query), config)
    {
      var s := sessions[IndexOf(sessions, id)];
      if query {
        s := s.(pending := s.pending + 1);
      }
      Touch(s);
    }

    method OnFrame(id: string, queued: Option<nat>)
      requires Has(View(), id)
      modifies this
      ensures View() == Next(old(View()), Frame(id, queued), config)
    {
      var s := sessions[IndexOf(sessions, id)];
      if queued.Some? {
        s := s.(pending := queued.value);
      }
      Touch(s);
    }
  }

  lemma NoneBefore(s: seq<Session>)
    ensures IdleHotCount(s[..0]) == 0 && 0 <= IdleHotCount(s)
  {
  }

  lemma FirstNone(s: seq<Session>)
    ensures EvictFirst(s, 0) == s
  {
  }

  /** One step of the sweep: what stands at `i`, and what evicting it makes of the whole. */
  lemma NextVictim(s: seq<Session>, gone: nat, i: nat)
    requires i < |s| && gone == IdleHotCount(s[..i])
    ensures |EvictFirst(s, gone)| == |s| && EvictFirst(s, gone)[i] == s[i]
    ensures IdleHotCount(s[..i + 1]) == gone + (if s[i].IdleHot() then 1 else 0) <= IdleHotCount(s)
    ensures s[i].IdleHot() ==>
      && EvictFirst(s, gone + 1) == EvictFirst(s, gone)[i := Evicted(s[i])]
      && HotCount(EvictFirst(s, gone + 1)) + gone + 1 == HotCount(s)
  {
    hide EvictFirst, HotCount;
    assert s[..i + 1] == s[..i] + [s[i]] && [s[i]][1..] == [] && s == s[..i + 1] + s[i + 1..];
    HotCountSplit(s[..i], [s[i]]);
    HotCountSplit(s[..i + 1], s[i + 1..]);
    assert IdleHotCount([s[i]]) == if s[i].IdleHot() then 1 else 0;
    EvictFirstAt(s, gone, i);
    if s[i].IdleHot() {
      EvictFirstCounts(s, gone + 1);
      var now, next := EvictFirst(s, gone), EvictFirst(s, gone + 1);
      EvictFirstAt(s, gone + 1, i);
      forall j: nat | j < |s| ensures |now| == |s| && next[j] == now[i := Evicted(s[i])][j] {
        EvictFirstAt(s, gone, j);
        EvictFirstAt(s, gone + 1, j);
        if j < i && s[j].IdleHot() { CountGrows(s, j, i); }
        if j > i { CountGrows(s, i, j); }
      }
    }
  }
}
