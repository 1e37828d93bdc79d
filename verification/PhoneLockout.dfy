/** Numbers that keep failing the PIN are locked out: a table of failures and one of locks. */
module PhoneLockout {
  import opened Options

  /** One call that ran out of attempts. */
  datatype Failure = Failure(number: string, at: int)

  /** Times in milliseconds; the policy's seconds are already multiplied out. */
  datatype Policy = Policy(window: nat, failedCalls: nat, cooldown: nat)

  /** The rows of `auth_failures`, and of `lockouts`, one per number. */
  datatype Tables = Tables(failures: seq<Failure>, locks: map<string, int>)

  function KeepSince(rows: seq<Failure>, from: int): seq<Failure> {
    if rows == [] then [] else
      var last := rows[|rows| - 1];
      KeepSince(rows[..|rows| - 1], from) + (if last.at < from then [] else [last])
  }

  function Others(rows: seq<Failure>, number: string): seq<Failure> {
    if rows == [] then [] else
      var last := rows[|rows| - 1];
      Others(rows[..|rows| - 1], number) + (if last.number == number then [] else [last])
  }

  /** The times of one number's rows. */
  function Own(rows: seq<Failure>, number: string): seq<int> {
    if rows == [] then [] else
      var last := rows[|rows| - 1];
      Own(rows[..|rows| - 1], number) + (if last.number == number then [last.at] else [])
  }

  function Recorded(t: Tables, f: Failure, p: Policy): (Tables, Option<int>) {
    var rows := KeepSince(t.failures, f.at - p.window) + [f];
    if |Own(rows, f.number)| < p.failedCalls then (t.(failures := rows), None)
    else (Tables(Others(rows, f.number), t.locks[f.number := f.at + p.cooldown]), Some(f.at + p.cooldown))
  }

  function LockedUntil(t: Tables, number: string, now: int): Option<int> {
    if number in t.locks && t.locks[number] > now then Some(t.locks[number]) else None
  }

  function RecordAll(history: seq<Failure>, p: Policy): Tables {
    if history == [] then Tables([], map[])
    else Recorded(RecordAll(history[..|history| - 1], p), history[|history| - 1], p).0
  }

  /** The registry as it runs: both tables changed in place. */
  class Registry {
    var failures: seq<Failure>
    var locks: map<string, int>

    ghost function View(): Tables
      reads this
    {
      Tables(failures, locks)
    }

    constructor ()
      ensures View() == RecordAll([], Policy(0, 0, 0))
    {
      failures := [];
      locks := map[];
    }

    method RecordFailedCall(number: string, now: int, p: Policy) returns (until: Option<int>)
      modifies this
      ensures (View(), until) == Recorded(old(View()), Failure(number, now), p)
    {
      hide KeepSince, Own, Others;
      DeleteBefore(now - p.window);
      failures := failures + [Failure(number, now)];
      var n := CountOf(number);
      if n < p.failedCalls {
        return None;
      }
      locks := locks[number := now + p.cooldown];
      DeleteOf(number);
      return Some(now + p.cooldown);
    }

    method DeleteBefore(from: int)
      modifies this`failures
      ensures failures == KeepSince(old(failures), from)
    {
      var rows: seq<Failure> := [];
      for i := 0 to |failures|
        invariant rows == KeepSince(failures[..i], from)
      {
        assert failures[..i + 1][..i] == failures[..i];
        if failures[i].at >= from {
          rows := rows + [failures[i]];
        }
      }
      assert failures[..|failures|] == failures;
      failures := rows;
    }

    method CountOf(number: string) returns (n: nat)
      ensures n == |Own(failures, number)|
    {
      n := 0;
      for i := 0 to |failures|
        invariant n == |Own(failures[..i], number)|
      {
        assert failures[..i + 1][..i] == failures[..i];
        if failures[i].number == number {
          n := n + 1;
        }
      }
      assert failures[..|failures|] == failures;
    }

    method DeleteOf(number: string)
      modifies this`failures
      ensures failures == Others(old(failures), number)
    {
      var rows: seq<Failure> := [];
      for i := 0 to |failures|
        invariant rows == Others(failures[..i], number)
      {
        assert failures[..i + 1][..i] == failures[..i];
        if failures[i].number != number {
          rows := rows + [failures[i]];
        }
      }
      assert failures[..|failures|] == failures;
      failures := rows;
    }
  }

  // ------------------------------------------------------------- what the tables mean

  function Within(times: seq<int>, from: int): seq<int> {
    if times == [] then [] else
      var last := times[|times| - 1];
      Within(times[..|times| - 1], from) + (if last < from then [] else [last])
  }

  /** One number's failures since its last lock, from the history alone: nothing is ever pruned here. */
  function SinceLock(history: seq<Failure>, number: string, p: Policy): seq<int> {
    if history == [] then [] else
      var f := history[|history| - 1];
      var before := SinceLock(history[..|history| - 1], number, p);
      if f.number != number then before
      else if LocksNow(before, f.at, p) then [] else before + [f.at]
  }

  /** One more failure at `at` locks, when it makes enough of them inside the window. */
  predicate LocksNow(before: seq<int>, at: int, p: Policy) {
    |Within(before, at - p.window)| + 1 >= p.failedCalls
  }

  /** When the last lock of a number ends, from the history alone. */
  function LastLock(history: seq<Failure>, number: string, p: Policy): Option<int> {
    if history == [] then None else
      var f := history[|history| - 1];
      var earlier := history[..|history| - 1];
      if f.number == number && LocksNow(SinceLock(earlier, number, p), f.at, p) then Some(f.at + p.cooldown)
      else LastLock(earlier, number, p)
  }

  predicate Ordered(history: seq<Failure>) {
    forall i, j | 0 <= i < j < |history| :: history[i].at <= history[j].at
  }

  lemma {:induction false} WithinWithin(times: seq<int>, from: int, later: int)
    requires from <= later
    ensures Within(Within(times, from), later) == Within(times, later)
    decreases |times|
  {
    if times != [] {
      var init, last := times[..|times| - 1], times[|times| - 1];
      WithinWithin(init, from, later);
      WithinGrows(Within(init, from), last, later);
      if last < from { assert Within(times, from) == Within(init, from); }
    }
  }

  lemma WithinGrows(times: seq<int>, t: int, from: int)
    ensures Within(times + [t], from) == Within(times, from) + (if t < from then [] else [t])
  {
    assert (times + [t])[..|times|] == times;
  }

  lemma OwnGrows(rows: seq<Failure>, f: Failure, number: string)
    ensures Own(rows + [f], number) == Own(rows, number) + (if f.number == number then [f.at] else [])
  {
    assert (rows + [f])[..|rows|] == rows;
  }

  lemma {:induction false} OwnKept(rows: seq<Failure>, from: int, number: string)
    ensures Own(KeepSince(rows, from), number) == Within(Own(rows, number), from)
    decreases |rows|
  {
    if rows != [] {
      var init, last := rows[..|rows| - 1], rows[|rows| - 1];
      OwnKept(init, from, number);
      if last.at >= from { OwnGrows(KeepSince(init, from), last, number); } else {
        assert KeepSince(rows, from) == KeepSince(init, from);
      }
      if last.number == number { WithinGrows(Own(init, number), last.at, from); } else {
        assert Own(rows, number) == Own(init, number);
      }
    }
  }

  lemma {:induction false} OwnOfOthers(rows: seq<Failure>, gone: string, number: string)
    ensures Own(Others(rows, gone), number) == if number == gone then [] else Own(rows, number)
    decreases |rows|
  {
    if rows != [] {
      var init, last := rows[..|rows| - 1], rows[|rows| - 1];
      OwnOfOthers(init, gone, number);
      if last.number == gone { assert Others(rows, gone) == Others(init, gone); } else {
        OwnGrows(Others(init, gone), last, number);
      }
    }
  }

  /** The rows of a number are its failures since its last lock, but for those pruned as too old. */
  ghost predicate RowsAre(t: Tables, history: seq<Failure>, number: string, p: Policy) {
    Own(t.failures, number) ==
      if history == [] then [] else Within(SinceLock(history, number, p), history[|history| - 1].at - p.window)
  }

  lemma {:induction false} TableIsExact(history: seq<Failure>, number: string, p: Policy)
    requires Ordered(history)
    ensures RowsAre(RecordAll(history, p), history, number, p)
    decreases |history|
  {
    hide *;
    if history != [] {
      var earlier, f := history[..|history| - 1], history[|history| - 1];
      if earlier != [] { OrderedLast(history); }
      OrderedBefore(history);
      var t := RecordAll(earlier, p);
      TableIsExact(earlier, number, p);
      TableIsExact(earlier, f.number, p);
      TableStep(t, earlier, f, number, p);
      RecordOne(history, p);
      assert earlier + [f] == history;
    } else {
      NoRows(number, p);
    }
  }

  lemma OrderedLast(history: seq<Failure>)
    requires Ordered(history) && |history| > 1
    ensures history[|history| - 2].at <= history[|history| - 1].at
  {
  }

  lemma NoRows(number: string, p: Policy)
    ensures RowsAre(RecordAll([], p), [], number, p)
  {
  }

  lemma TableStep(t: Tables, earlier: seq<Failure>, f: Failure, number: string, p: Policy)
    requires RowsAre(t, earlier, number, p) && RowsAre(t, earlier, f.number, p)
    requires earlier != [] ==> earlier[|earlier| - 1].at <= f.at
    ensures RowsAre(Recorded(t, f, p).0, earlier + [f], number, p)
  {
    hide KeepSince, Own, Others, SinceLock, Within;
    var cut := f.at - p.window;
    var rows := KeepSince(t.failures, cut) + [f];
    var before := SinceLock(earlier, number, p);
    OwnAfterPrune(t, earlier, f, number, p);
    OwnAfterPrune(t, earlier, f, f.number, p);
    SinceGrows(earlier, f, number, p);
    OwnOfOthers(rows, f.number, number);
    NothingWithin(cut);
    if f.number == number {
      WithinGrows(before, f.at, cut);
    }
  }

  lemma NothingWithin(from: int)
    ensures Within([], from) == []
  {
  }

  lemma SinceGrows(earlier: seq<Failure>, f: Failure, number: string, p: Policy)
    ensures SinceLock(earlier + [f], number, p) ==
      var before := SinceLock(earlier, number, p);
      if f.number != number then before else if LocksNow(before, f.at, p) then [] else before + [f.at]
  {
    assert (earlier + [f])[..|earlier|] == earlier;
  }

  lemma RecordOne(history: seq<Failure>, p: Policy)
    requires history != []
    ensures RecordAll(history, p) == Recorded(RecordAll(history[..|history| - 1], p), history[|history| - 1], p).0
  {
  }

  /** After the rows outside the window are deleted and the new one is in. */
  lemma OwnAfterPrune(t: Tables, earlier: seq<Failure>, f: Failure, number: string, p: Policy)
    requires RowsAre(t, earlier, number, p)
    requires earlier != [] ==> earlier[|earlier| - 1].at <= f.at
    ensures Own(KeepSince(t.failures, f.at - p.window) + [f], number) ==
      Within(SinceLock(earlier, number, p), f.at - p.window) + (if f.number == number then [f.at] else [])
  {
    hide SinceLock, KeepSince, Own, Within;
    var cut := f.at - p.window;
    OwnGrows(KeepSince(t.failures, cut), f, number);
    OwnKept(t.failures, cut, number);
    if earlier != [] {
      WithinWithin(SinceLock(earlier, number, p), earlier[|earlier| - 1].at - p.window, cut);
    } else {
      NothingYet(number, p);
      NothingWithin(cut);
    }
  }

  lemma NothingYet(number: string, p: Policy)
    ensures SinceLock([], number, p) == []
  {
  }

  /**
    A failed call locks its number exactly when, with it, enough of that number's own failures
    since its last lock fall inside the window; the lock lasts the cooldown from then.
   */
  lemma LocksExactly(history: seq<Failure>, f: Failure, p: Policy)
    requires Ordered(history + [f])
    ensures Recorded(RecordAll(history, p), f, p).1 ==
      if LocksNow(SinceLock(history, f.number, p), f.at, p) then Some(f.at + p.cooldown) else None
  {
    hide RowsAre, RecordAll, KeepSince, Own, Others, SinceLock, Within;
    assert (history + [f])[|history|] == f;
    assert forall i | 0 <= i < |history| :: (history + [f])[i] == history[i];
    hide Ordered;
    TableIsExact(history, f.number, p);
    OwnAfterPrune(RecordAll(history, p), history, f, f.number, p);
  }

  /** A number is locked exactly until its last lock runs out. */
  lemma {:induction false} LockedUntilIsExact(history: seq<Failure>, number: string, now: int, p: Policy)
    requires Ordered(history)
    ensures var end := LastLock(history, number, p);
            LockedUntil(RecordAll(history, p), number, now) == if end.Some? && end.value > now then end else None
    decreases |history|
  {
    LocksAreLast(history, number, p);
  }

  lemma NoLocks(p: Policy)
    ensures RecordAll([], p).locks == map[]
  {
  }

  lemma RecordedLocks(t: Tables, f: Failure, p: Policy)
    ensures var (t', until) := Recorded(t, f, p);
            t'.locks == if until.Some? then t.locks[f.number := until.value] else t.locks
  {
    hide Own, KeepSince, Others;
  }

  lemma LastLockGrows(earlier: seq<Failure>, f: Failure, number: string, p: Policy)
    ensures LastLock(earlier + [f], number, p) ==
      if f.number == number && LocksNow(SinceLock(earlier, number, p), f.at, p) then Some(f.at + p.cooldown)
      else LastLock(earlier, number, p)
  {
    hide LocksNow, SinceLock;
    assert (earlier + [f])[..|earlier|] == earlier;
  }

  lemma OrderedBefore(history: seq<Failure>)
    requires Ordered(history) && history != []
    ensures Ordered(history[..|history| - 1])
  {
  }

  lemma {:induction false} LocksAreLast(history: seq<Failure>, number: string, p: Policy)
    requires Ordered(history)
    ensures LastLock(history, number, p) ==
      if number in RecordAll(history, p).locks then Some(RecordAll(history, p).locks[number]) else None
    decreases |history|
  {
    if history != [] {
      hide *;
      var earlier, f := history[..|history| - 1], history[|history| - 1];
      var t := RecordAll(earlier, p);
      OrderedBefore(history);
      LocksAreLast(earlier, number, p);
      assert earlier + [f] == history;
      LocksExactly(earlier, f, p);
      RecordOne(history, p);
      RecordedLocks(t, f, p);
      LastLockGrows(earlier, f, number, p);
    } else {
      NoLocks(p);
    }
  }
}
