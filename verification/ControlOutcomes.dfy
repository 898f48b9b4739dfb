/** What each control operation comes to, case by case and field by field. */
module ControlOutcomes {
  import opened WorkerControl

  // How many consumers.

  /** The minimum and one more for each full step of waiting messages, up to the maximum; the minimum prevails. */
  lemma DesiredMeans(s: Settings, llen: nat, k: nat)
    requires s.step > 0 && k * s.step <= llen < (k + 1) * s.step
    ensures s.min + k <= s.max ==> Desired(s, llen) == s.min + k
    ensures s.min <= s.max < s.min + k ==> Desired(s, llen) == s.max
    ensures s.max < s.min ==> Desired(s, llen) == s.min
  {
    QuotientIs(llen, s.step, k);
  }

  lemma QuotientIs(a: nat, b: nat, k: nat)
    requires b > 0 && k * b <= a < (k + 1) * b
    ensures a / b == k
  {
    var q := a / b;
    assert a == q * b + a % b;
    if q < k {
      Times(q + 1, k, b);
    } else if q > k {
      Times(k + 1, q, b);
    }
  }

  lemma Times(a: nat, b: nat, c: nat)
    requires a <= b
    ensures a * c <= b * c
  {
  }

  /** Four is the most; a bound ends the movement before that; a counter beyond its bound stays. */
  lemma AdjustedMeans(curr: int, d: int, s: Settings)
    requires d > 0
    ensures d <= 4 && curr + d <= s.max ==> Adjusted(curr, d, s) == curr + d
    ensures d > 4 && curr + 4 <= s.max ==> Adjusted(curr, d, s) == curr + 4
    ensures curr < s.max < curr + d && s.max <= curr + 4 ==> Adjusted(curr, d, s) == s.max
    ensures s.max <= curr ==> Adjusted(curr, d, s) == curr
    ensures d <= 4 && s.min <= curr - d ==> Adjusted(curr, -d, s) == curr - d
    ensures d > 4 && s.min <= curr - 4 ==> Adjusted(curr, -d, s) == curr - 4
    ensures curr - d < s.min < curr && curr - 4 <= s.min ==> Adjusted(curr, -d, s) == s.min
    ensures curr <= s.min ==> Adjusted(curr, -d, s) == curr
    ensures Adjusted(curr, 0, s) == curr
  {
  }

  /** An engine that does not run and a paused channel refuse; nothing is changed by zero. */
  lemma AdjustAnswers(st: State, hid: int, delta: int, ready: bool, s: Settings)
    ensures var (next, ok) := Adjust(st, hid, delta, ready, s);
      && ok == (ready && hid !in st.pausedAt)
      && (!ok || delta == 0 ==> next == st)
      && next.(workers := st.workers, handles := st.handles, curr := st.curr) == st
  {
  }

  /** Without usable settings a channel must be healthy as if for ten minutes, scanned every minute. */
  lemma RequiredByDefault(stableMinutes: int, scanSeconds: int)
    ensures stableMinutes <= 0 ==> RequiredScans(stableMinutes, scanSeconds) == RequiredScans(10, scanSeconds)
    ensures scanSeconds <= 0 ==> RequiredScans(stableMinutes, scanSeconds) == RequiredScans(stableMinutes, 60)
    ensures stableMinutes <= 0 && scanSeconds <= 0 ==> RequiredScans(stableMinutes, scanSeconds) == 10
  {
  }

  /** A stable time that is shorter than the interval asks for one healthy scan. */
  lemma RequiredAtLeastOnce(stableMinutes: int, scanSeconds: int)
    ensures stableMinutes > 0 && stableMinutes * 60 < scanSeconds ==> RequiredScans(stableMinutes, scanSeconds) == 1
  {
    if stableMinutes > 0 && stableMinutes * 60 < scanSeconds {
      LessGoesZeroTimes(stableMinutes * 60, scanSeconds);
    }
  }

  lemma LessGoesZeroTimes(a: int, b: int)
    requires 0 <= a < b
    ensures a / b == 0
  {
  }

  // Which consumers.

  function Copies(w: Worker, n: nat): seq<Worker> {
    seq(n, i => w)
  }

  function Numbers(lo: nat, n: nat): seq<nat> {
    seq(n, i requires i >= 0 => lo + i)
  }

  /** Growth adds running consumers of the channel, and their handles behind the old ones. */
  lemma {:induction false} GrowStarts(st: State, hid: int, n: nat)
    ensures Grow(st, hid, n).workers == st.workers + Copies(Worker(hid, Running), n)
    ensures Handles(Grow(st, hid, n), hid) == Handles(st, hid) + Numbers(|st.workers|, n)
    decreases n
  {
    if n > 0 {
      GrowStarts(Spawn(st, hid), hid, n - 1);
      assert Copies(Worker(hid, Running), n) == [Worker(hid, Running)] + Copies(Worker(hid, Running), n - 1);
      assert Numbers(|st.workers|, n) == [|st.workers|] + Numbers(|st.workers| + 1, n - 1);
    }
  }

  /** The consumers at the given positions are cancelled, and no others. */
  ghost predicate Stopped(a: seq<Worker>, b: seq<Worker>, gone: seq<nat>) {
    |b| == |a| && forall k: nat | k < |a| :: b[k] == a[k].(life := if k in gone then Cancelled else a[k].life)
  }

  lemma StoppedOneMore(a: seq<Worker>, b: seq<Worker>, newest: nat, older: seq<nat>)
    requires Stopped(Cancel(a, newest), b, older)
    ensures Stopped(a, b, older + [newest])
  {
  }

  lemma EndsOneMore(lst: seq<nat>, n: nat)
    requires 0 < n <= |lst|
    ensures var front := lst[..|lst| - 1];
      && front[..|front| - (n - 1)] == lst[..|lst| - n]
      && front[|front| - (n - 1)..] + [lst[|lst| - 1]] == lst[|lst| - n..]
  {
  }

  /** The outcome of stopping `n` consumers of a channel with the given handles. */
  ghost predicate StopsNewest(st: State, next: State, hid: int, lst: seq<nat>, n: nat)
    requires n <= |lst|
  {
    Handles(next, hid) == lst[..|lst| - n] && Stopped(st.workers, next.workers, lst[|lst| - n..])
  }

  lemma StopsOneMore(st: State, next: State, hid: int, n: nat)
    requires 0 < n <= |Handles(st, hid)|
    requires StopsNewest(CancelLast(st, hid), next, hid, Handles(CancelLast(st, hid), hid), n - 1)
    ensures StopsNewest(st, next, hid, Handles(st, hid), n)
  {
    var lst, front := Handles(st, hid), Handles(CancelLast(st, hid), hid);
    EndsOneMore(lst, n);
    StoppedOneMore(st.workers, next.workers, lst[|lst| - 1], front[|front| - (n - 1)..]);
  }

  /** A reduction cancels the newest consumers of the channel, and keeps the handles of the older ones. */
  lemma {:induction false} ShrinkStopsNewest(st: State, hid: int, n: nat)
    requires n <= |Handles(st, hid)|
    ensures Shrink(st, hid, n).1 == n && StopsNewest(st, Shrink(st, hid, n).0, hid, Handles(st, hid), n)
    decreases n
  {
    if n > 0 {
      ShrinkStopsNewest(CancelLast(st, hid), hid, n - 1);
      StopsOneMore(st, Shrink(st, hid, n).0, hid, n);
    }
  }

  function Listed(list: seq<int>, hid: int): nat {
    multiset(list)[hid]
  }

  lemma ListedFirst(list: seq<int>, hid: int)
    requires list != []
    ensures Listed(list, hid) == Listed(list[1..], hid) + (if list[0] == hid then 1 else 0)
  {
    assert list == [list[0]] + list[1..];
    assert multiset(list) == multiset{list[0]} + multiset(list[1..]);
  }

  lemma StartCounts(st: State, h: int, n: nat, hid: int)
    ensures Curr(StartWorkers(st, h, n), hid) == Curr(st, hid) + (if h == hid then n else 0)
  {
  }

  lemma OneMore(n: nat, k: nat)
    ensures n * (k + 1) == n * k + n
  {
  }

  /** The engine starts with the same number for each time a channel is listed. */
  lemma {:induction false} BeginStarts(st: State, list: seq<int>, n: nat, hid: int)
    ensures Curr(Begin(st, list, n), hid) == Curr(st, hid) + n * Listed(list, hid)
    decreases |list|
  {
    if list != [] {
      BeginStarts(StartWorkers(st, list[0], n), list[1..], n, hid);
      StartCounts(st, list[0], n, hid);
      ListedFirst(list, hid);
      OneMore(n, Listed(list[1..], hid));
    } else {
      assert Listed(list, hid) == 0;
    }
  }

  // What a step does besides.

  /** A pause is taken for any listed channel; a new one is dated and cancels the channel's consumers. */
  lemma PauseMeans(st: State, hid: int, now: int, ready: bool)
    ensures var (next, ok) := Pause(st, hid, now, ready);
      && ok == (ready && hid in st.hids)
      && (!ok || hid in st.pausedAt ==> next == st)
      && (ok && hid !in st.pausedAt ==>
            && next.pausedAt == st.pausedAt[hid := now] && next.stable == st.stable - {hid}
            && next.hids == st.hids && Curr(next, hid) == 0 && |next.workers| == |st.workers|
            && forall k: nat | k < |st.workers| :: next.workers[k] ==
                 st.workers[k].(life := if k in Handles(st, hid) then Cancelled else st.workers[k].life))
  {
    CancelAllCancels(st.workers, Handles(st, hid));
  }

  /** A pause that an action asks for starts the count anew even when the channel was paused before. */
  lemma PauseByActionRestartsCount(st: State, hid: int, now: int, ready: bool)
    ensures var next := Apply(st, PauseStep(hid, now, ready, true));
      ready && hid in st.hids ==> hid in next.pausedAt && Stable(next, hid) == 0
    ensures var next := Apply(st, PauseStep(hid, now, ready, false));
      hid in st.pausedAt ==> next == st
  {
  }

  /** Only the pause of the resumed channel is lifted. */
  lemma ResumeMeans(st: State, hid: int, ready: bool, s: Settings)
    ensures var (next, ok) := Resume(st, hid, ready, s);
      && ok == (ready && hid in st.hids && hid in st.pausedAt)
      && (!ok ==> next == st)
      && (ok ==>
            && next.pausedAt == st.pausedAt - {hid} && next.hids == st.hids && next.stable == st.stable
            && next.workers == st.workers + Copies(Worker(hid, Running), s.min))
  {
    GrowStarts(st.(pausedAt := st.pausedAt - {hid}), hid, s.min);
  }

  /** The scaler leaves paused channels alone, and pauses and counts with every channel. */
  lemma ScaleMeans(st: State, hid: int, llen: nat, s: Settings)
    ensures hid in st.pausedAt ==> Scale(st, hid, llen, s) == st
    ensures Scale(st, hid, llen, s).(workers := st.workers, handles := st.handles, curr := st.curr) == st
  {
  }

  /** New channels and new orders start consumers, and neither pauses nor resumes. */
  lemma StartsMean(st: State, hid: int, s: Settings)
    ensures Discover(st, hid, s).pausedAt == st.pausedAt && Discover(st, hid, s).stable == st.stable
    ensures Ensure(st, hid, s).pausedAt == st.pausedAt && Ensure(st, hid, s).stable == st.stable
    ensures hid in st.hids || hid in st.pausedAt || hid <= 0 ==> Ensure(st, hid, s).hids == st.hids
    ensures hid in st.pausedAt ==> Discover(st, hid, s) == st.(hids := st.hids + [hid])
  {
  }

  /** Only a running consumer dies, and only it. */
  lemma DieMeans(st: State, k: nat)
    ensures k < |st.workers| && st.workers[k].life.Running? ==>
      Die(st, k) == st.(workers := st.workers[k := Worker(st.workers[k].hid, Dead)])
    ensures k >= |st.workers| || !st.workers[k].life.Running? ==> Die(st, k) == st
  {
  }

  // A scan of the paused channels.

  /** The states agree on what a visit to the channel reads. */
  predicate Alike(a: State, b: State, hid: int) {
    && Curr(a, hid) == Curr(b, hid) && Stable(a, hid) == Stable(b, hid)
    && (hid in a.pausedAt <==> hid in b.pausedAt) && (hid in a.hids <==> hid in b.hids)
  }

  /** A visit counts or forgets, and when the count is reached a channel is resumed and the count starts anew. */
  lemma VisitMeans(st: State, hid: int, health: Health, required: nat, ready: bool, s: Settings)
    ensures var next, count := Visit(st, hid, health, required, ready, s), Stable(st, hid) + 1;
      && (health != Healthy ==> next == st.(stable := st.stable - {hid}))
      && (health == Healthy && count < required ==> next == st.(stable := st.stable[hid := count]))
      && (health == Healthy && count >= required ==>
            && Stable(next, hid) == 0 && next.hids == st.hids
            && (ready && hid in st.hids && hid in st.pausedAt ==>
                  next.pausedAt == st.pausedAt - {hid} && Curr(next, hid) == Curr(st, hid) + s.min)
            && (!(ready && hid in st.hids && hid in st.pausedAt) ==> next == st.(stable := st.stable - {hid})))
  {
  }

  lemma VisitIsLocal(a: State, b: State, hid: int, health: Health, required: nat, ready: bool, s: Settings)
    requires Alike(a, b, hid)
    ensures Alike(Visit(a, hid, health, required, ready, s), Visit(b, hid, health, required, ready, s), hid)
  {
    VisitMeans(a, hid, health, required, ready, s);
    VisitMeans(b, hid, health, required, ready, s);
  }

  lemma VisitKeepsOthers(st: State, h: int, health: Health, required: nat, ready: bool, s: Settings, hid: int)
    requires h != hid
    ensures Alike(Visit(st, h, health, required, ready, s), st, hid)
  {
    VisitElsewhere(st, h, health, required, ready, s, hid);
  }

  lemma {:induction false} ScanKeepsOthers(st: State, paused: seq<int>, health: int -> Health, required: nat,
                                           ready: bool, settings: int -> Settings, hid: int)
    requires hid !in paused
    ensures Alike(Scan(st, paused, health, required, ready, settings), st, hid)
    decreases |paused|
  {
    if paused != [] {
      var next := Visit(st, paused[0], health(paused[0]), required, ready, settings(paused[0]));
      VisitKeepsOthers(st, paused[0], health(paused[0]), required, ready, settings(paused[0]), hid);
      ScanKeepsOthers(next, paused[1..], health, required, ready, settings, hid);
    }
  }

  /** A scan comes to one visit for each paused channel, whatever it does to the others, and to none for the rest. */
  lemma {:induction false} ScanVisitsEach(st: State, paused: seq<int>, health: int -> Health, required: nat,
                                          ready: bool, settings: int -> Settings, hid: int)
    requires forall i, j | 0 <= i < j < |paused| :: paused[i] != paused[j]
    ensures Alike(Scan(st, paused, health, required, ready, settings),
                  if hid in paused then Visit(st, hid, health(hid), required, ready, settings(hid)) else st, hid)
    decreases |paused|
  {
    if hid !in paused {
      ScanKeepsOthers(st, paused, health, required, ready, settings, hid);
    } else {
      var h := paused[0];
      var next := Visit(st, h, health(h), required, ready, settings(h));
      if h == hid {
        ScanKeepsOthers(next, paused[1..], health, required, ready, settings, hid);
      } else {
        VisitKeepsOthers(st, h, health(h), required, ready, settings(h), hid);
        ScanVisitsEach(next, paused[1..], health, required, ready, settings, hid);
        VisitIsLocal(next, st, hid, health(hid), required, ready, settings(hid));
      }
    }
  }

  /** The steps of a run are the operations. */
  lemma StepsAreOperations(st: State, hid: int, n: nat, d: int, health: Health, ready: bool, s: Settings)
    ensures Apply(st, ScalerStep(hid, n, s)) == Scale(st, hid, n, s)
    ensures Apply(st, DiscoveryStep(hid, s)) == Discover(st, hid, s)
    ensures Apply(st, EnsureStep(hid, s)) == Ensure(st, hid, s)
    ensures Apply(st, PauseStep(hid, d, ready, false)) == Pause(st, hid, d, ready).0
    ensures Apply(st, ResumeStep(hid, ready, s)) == Resume(st, hid, ready, s).0
    ensures Apply(st, AdjustStep(hid, d, ready, s)) == Adjust(st, hid, d, ready, s).0
    ensures Apply(st, VisitStep(hid, health, n, ready, s)) == Visit(st, hid, health, n, ready, s)
    ensures Apply(st, ConsumerDies(n)) == Die(st, n)
  {
  }
}
