/** allowAIConvert: at most ten calls a minute for each key, with the times of admitted calls kept per key. */
module SlidingWindow {
  import Strings

  const WINDOW := 60000000000
  const MAX: nat := 10

  type Times = seq<int>

  /** The times less than a window before `now`. */
  function Kept(times: Times, now: int): (kept: Times)
    ensures |kept| <= |times|
  {
    if times == [] then []
    else (if now - times[0] < WINDOW then [times[0]] else []) + Kept(times[1..], now)
  }

  function Calls(table: map<string, Times>, key: string): Times {
    if key in table then table[key] else []
  }

  /** The table after a call with a trimmed key, and whether the call is admitted. */
  function Step(table: map<string, Times>, key: string, now: int): (map<string, Times>, bool) {
    if key == "" then (table, false)
    else
      var kept := Kept(Calls(table, key), now);
      if |kept| >= MAX then (table[key := kept], false) else (table[key := kept + [now]], true)
  }

  class Window {
    var table: map<string, Times>

    constructor ()
      ensures table == map[]
    {
      table := map[];
    }

    method AllowAiConvert(rateKey: string, now: int) returns (allowed: bool)
      modifies this
      ensures (table, allowed) == Step(old(table), Strings.Trim(rateKey), now)
    {
      var key := Strings.Trim(rateKey);
      if key == "" {
        return false;
      }
      var calls := Calls(table, key);
      var kept: Times := [];
      for i := 0 to |calls|
        invariant kept + Kept(calls[i..], now) == Kept(calls, now)
      {
        assert calls[i..][0] == calls[i] && calls[i..][1..] == calls[i + 1..];
        if now - calls[i] < WINDOW {
          kept := kept + [calls[i]];
        }
      }
      assert kept == Kept(calls, now);
      if |kept| >= MAX {
        table := table[key := kept];
        return false;
      }
      kept := kept + [now];
      table := table[key := kept];
      return true;
    }
  }

  // Runs.

  /** A call, with its key trimmed. */
  datatype Call = Call(key: string, now: int)

  predicate Monotone(calls: seq<Call>) {
    forall i, j | 0 <= i < j < |calls| :: calls[i].now <= calls[j].now
  }

  /** The table after a run that starts with the empty one. */
  function After(calls: seq<Call>): map<string, Times> {
    if calls == [] then map[]
    else Step(After(calls[..|calls| - 1]), calls[|calls| - 1].key, calls[|calls| - 1].now).0
  }

  predicate Admits(calls: seq<Call>, i: nat)
    requires i < |calls|
  {
    Step(After(calls[..i]), calls[i].key, calls[i].now).1
  }

  /** The times of the admitted calls of a key, oldest first. */
  function Admissions(calls: seq<Call>, key: string): Times {
    if calls == [] then []
    else
      var n := |calls| - 1;
      Admissions(calls[..n], key) +
      (if calls[n].key == key && Admits(calls, n) then [calls[n].now] else [])
  }

  /** How many of the times lie in the half-open window that starts at `t`. */
  function CountIn(times: Times, t: int): (n: nat)
    ensures n <= |times|
  {
    if times == [] then 0 else (if t <= times[0] < t + 60_000_000_000 then 1 else 0) + CountIn(times[1..], t)
  }

  lemma {:induction false} CountAppend(a: Times, b: Times, t: int)
    ensures CountIn(a + b, t) == CountIn(a, t) + CountIn(b, t)
  {
    if a == [] {
      assert a + b == b;
    } else {
      assert (a + b)[0] == a[0] && (a + b)[1..] == a[1..] + b;
      CountAppend(a[1..], b, t);
    }
  }

  lemma {:induction false} CountOutside(a: Times, t: int)
    requires forall i | 0 <= i < |a| :: a[i] < t
    ensures CountIn(a, t) == 0
  {
    if a != [] {
      CountOutside(a[1..], t);
    }
  }

  /** Filtering keeps exactly the admissions of the window that ends now. */
  lemma {:induction false} KeptCounts(times: Times, now: int)
    requires forall i | 0 <= i < |times| :: times[i] <= now
    ensures |Kept(times, now)| == CountIn(times, now - WINDOW + 1)
  {
    if times != [] {
      KeptCounts(times[1..], now);
    }
  }

  predicate Sorted(times: Times) {
    forall i, j | 0 <= i < j < |times| :: times[i] <= times[j]
  }

  lemma {:induction false} KeptIsSuffix(times: Times, now: int) returns (d: nat)
    requires Sorted(times)
    ensures d <= |times| && Kept(times, now) == times[d..]
    ensures forall i | 0 <= i < d :: times[i] + WINDOW <= now
  {
    if times == [] {
      d := 0;
    } else {
      d := KeptIsSuffix(times[1..], now);
      assert d > 0 ==> times[0] <= times[1..][0];
      if now - times[0] >= WINDOW {
        assert Kept(times, now) == Kept(times[1..], now) == times[1..][d..] == times[d + 1..];
        forall i | 0 <= i < d + 1
          ensures times[i] + WINDOW <= now
        {
          if i > 0 {
            assert times[i] == times[1..][i - 1];
          }
        }
        d := d + 1;
      }
    }
  }

  /**
  After a run that ends at `now`: the table holds for each key the admissions from some point on,
  those before that point are a window old, and ten admissions never fit within one window.
  */
  ghost predicate Faithful(table: map<string, Times>, a: Times, key: string, now: int) {
    && Sorted(a)
    && (forall i | 0 <= i < |a| :: a[i] <= now)
    && (exists d: nat :: HoldsFrom(table, a, key, now, d))
    && (forall j | MAX <= j < |a| :: a[j - MAX] + WINDOW <= a[j])
  }

  predicate HoldsFrom(table: map<string, Times>, a: Times, key: string, now: int, d: nat) {
    d <= |a| && Calls(table, key) == a[d..] && forall i | 0 <= i < d :: a[i] + WINDOW <= now
  }

  lemma FilterHoldsFrom(table: map<string, Times>, a: Times, key: string, last: int, d: nat, now: int)
    returns (e: nat)
    requires Sorted(a) && HoldsFrom(table, a, key, last, d) && last <= now
    ensures e <= |a| && Kept(Calls(table, key), now) == a[e..]
    ensures forall i | 0 <= i < e :: a[i] + WINDOW <= now
  {
    e := KeptFrom(a, d, now);
  }

  lemma KeptFrom(a: Times, d: nat, now: int) returns (e: nat)
    requires Sorted(a) && d <= |a| && forall i | 0 <= i < d :: a[i] + WINDOW <= now
    ensures e <= |a| && Kept(a[d..], now) == a[e..]
    ensures forall i | 0 <= i < e :: a[i] + WINDOW <= now
  {
    var rest := a[d..];
    assert forall i | 0 <= i < |rest| :: rest[i] == a[d + i];
    var more := KeptIsSuffix(rest, now);
    e := d + more;
    assert rest[more..] == a[e..];
    assert forall i | d <= i < e :: a[i] == rest[i - d];
  }

  lemma AdmissionFaithful(table: map<string, Times>, a: Times, key: string, now: int, e: nat)
    requires Sorted(a) && e <= |a| && |a| - e < MAX
    requires forall i | 0 <= i < e :: a[i] + WINDOW <= now
    requires forall i | 0 <= i < |a| :: a[i] <= now
    requires forall j | MAX <= j < |a| :: a[j - MAX] + WINDOW <= a[j]
    ensures Faithful(table[key := a[e..] + [now]], a + [now], key, now)
  {
    var b := a + [now];
    assert b[e..] == a[e..] + [now];
    assert HoldsFrom(table[key := a[e..] + [now]], b, key, now, e);
    forall j | MAX <= j < |b|
      ensures b[j - MAX] + WINDOW <= b[j]
    {
      if j == |a| {
        assert b[j - MAX] == a[j - MAX];
      }
    }
  }

  lemma KeepsFaithful(table: map<string, Times>, a: Times, key: string, last: int, c: Call)
    requires Faithful(table, a, key, last) && last <= c.now
    ensures var (next, admitted) := Step(table, c.key, c.now);
      Faithful(next, if c.key == key && admitted then a + [c.now] else a, key, c.now)
  {
    var (next, admitted) := Step(table, c.key, c.now);
    var d: nat :| HoldsFrom(table, a, key, last, d);
    if c.key == key && key != "" {
      var e := FilterHoldsFrom(table, a, key, last, d, c.now);
      if admitted {
        AdmissionFaithful(table, a, key, c.now, e);
      } else {
        assert HoldsFrom(next, a, key, c.now, e);
      }
    } else {
      assert HoldsFrom(next, a, key, c.now, d);
    }
  }

  lemma {:induction false} RunFaithful(calls: seq<Call>, key: string, now: int)
    requires Monotone(calls) && (forall i | 0 <= i < |calls| :: calls[i].now <= now)
    ensures Faithful(After(calls), Admissions(calls, key), key, now)
    decreases |calls|
  {
    if calls == [] {
      assert HoldsFrom(After(calls), Admissions(calls, key), key, now, 0);
    } else {
      var n := |calls| - 1;
      var before, c := calls[..n], calls[n];
      RunFaithful(before, key, c.now);
      KeepsFaithful(After(before), Admissions(before, key), key, c.now, c);
      assert Admits(calls, n) == Step(After(before), c.key, c.now).1;
      if !(c.key == key && Admits(calls, n)) {
        assert Admissions(calls, key) == Admissions(before, key);
      }
      LaterFaithful(After(calls), Admissions(calls, key), key, c.now, now);
    }
  }

  lemma LaterFaithful(table: map<string, Times>, a: Times, key: string, now: int, later: int)
    requires Faithful(table, a, key, now) && now <= later
    ensures Faithful(table, a, key, later)
  {
    var d: nat :| HoldsFrom(table, a, key, now, d);
    assert HoldsFrom(table, a, key, later, d);
  }

  /** In every run, every key has at most ten admissions in every half-open window of a minute. */
  lemma AtMostTenPerWindow(calls: seq<Call>, key: string, t: int)
    requires Monotone(calls)
    ensures CountIn(Admissions(calls, key), t) <= 10
  {
    if calls != [] {
      RunFaithful(calls, key, calls[|calls| - 1].now);
      SpacedCount(Admissions(calls, key), t);
    }
  }

  /** Only the last times count if those before `m` are too early. */
  lemma CountLast(a: Times, m: nat, t: int)
    requires Sorted(a) && 0 < m <= |a| && a[m - 1] < t
    ensures CountIn(a, t) <= |a| - m
  {
    var early, recent := a[..m], a[m..];
    assert a == early + recent;
    assert forall i | 0 <= i < |early| :: early[i] <= a[m - 1];
    CountAppend(early, recent, t);
    CountOutside(early, t);
  }

  lemma {:induction false} SpacedCount(a: Times, t: int)
    requires Sorted(a) && forall j | MAX <= j < |a| :: a[j - MAX] + WINDOW <= a[j]
    ensures CountIn(a, t) <= MAX
    decreases |a|
  {
    if |a| > MAX {
      var n := |a| - 1;
      assert a == a[..n] + [a[n]];
      CountAppend(a[..n], [a[n]], t);
      if t <= a[n] < t + WINDOW {
        CountLast(a, n - MAX + 1, t);
      } else {
        SpacedCount(a[..n], t);
      }
    }
  }

  /**
  A call is admitted if and only if its key is not blank and fewer than ten calls of the key were
  admitted in the window that ends with it.
  */
  lemma RefusedOnlyWhenFull(calls: seq<Call>, i: nat)
    requires Monotone(calls) && i < |calls|
    ensures var c := calls[i];
      Admits(calls, i) <==>
      c.key != "" && CountIn(Admissions(calls[..i], c.key), c.now - 60_000_000_000 + 1) < 10
  {
    var c := calls[i];
    assert forall j | 0 <= j < i :: calls[..i][j].now <= c.now;
    KeptAfterRun(calls[..i], c.key, c.now);
  }

  lemma KeptAfterRun(calls: seq<Call>, key: string, now: int)
    requires Monotone(calls) && forall i | 0 <= i < |calls| :: calls[i].now <= now
    ensures |Kept(Calls(After(calls), key), now)| == CountIn(Admissions(calls, key), now - WINDOW + 1)
  {
    RunFaithful(calls, key, now);
    CallCounts(After(calls), Admissions(calls, key), key, now);
  }

  lemma CallCounts(table: map<string, Times>, a: Times, key: string, now: int)
    requires Faithful(table, a, key, now)
    ensures |Kept(Calls(table, key), now)| == CountIn(a, now - WINDOW + 1)
  {
    var d: nat :| HoldsFrom(table, a, key, now, d);
    assert a == a[..d] + a[d..];
    CountAppend(a[..d], a[d..], now - WINDOW + 1);
    CountOutside(a[..d], now - WINDOW + 1);
    KeptCounts(a[d..], now);
  }
}
