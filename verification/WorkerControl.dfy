/**
 The consumers of each channel: who starts and stops them, the counter that is kept of them, the
 paused channels, and the count of stable scans after which a paused channel is resumed. Every
 control operation is one step.
 */
module WorkerControl {

  /** Dead: the consumer's loop has panicked and returned, while its context was never cancelled. */
  datatype Life = Running | Cancelled | Dead

  /** A started consumer of a channel; it runs until its context is cancelled or its loop panics. */
  datatype Worker = Worker(hid: int, life: Life)

  /** The effective queue settings of a channel, all of them positive. */
  datatype Settings = Settings(min: nat, max: nat, step: nat) {
    predicate Positive() {
      min > 0 && max > 0 && step > 0
    }
  }

  datatype State = State(
    workers: seq<Worker>,
    handles: map<int, seq<nat>>,
    curr: map<int, int>,
    hids: seq<int>,
    pausedAt: map<int, int>,
    stable: map<int, nat>)

  const INIT := State([], map[], map[], [], map[], map[])

  function Lookup(handles: map<int, seq<nat>>, hid: int): seq<nat> {
    if hid in handles then handles[hid] else []
  }

  function Handles(st: State, hid: int): seq<nat> {
    Lookup(st.handles, hid)
  }

  function Curr(st: State, hid: int): int {
    if hid in st.curr then st.curr[hid] else 0
  }

  function Stable(st: State, hid: int): nat {
    if hid in st.stable then st.stable[hid] else 0
  }

  // The steps.

  function Spawn(st: State, hid: int): State {
    st.(workers := st.workers + [Worker(hid, Running)],
        handles := st.handles[hid := Handles(st, hid) + [|st.workers|]])
  }

  function Grow(st: State, hid: int, n: nat): (r: State)
    ensures r.(workers := st.workers, handles := st.handles) == st
    decreases n
  {
    if n == 0 then st else Grow(Spawn(st, hid), hid, n - 1)
  }

  function Cancel(workers: seq<Worker>, k: nat): seq<Worker> {
    if k < |workers| then workers[k := workers[k].(life := Cancelled)] else workers
  }

  function CancelLast(st: State, hid: int): State
    requires Handles(st, hid) != []
  {
    var lst := Handles(st, hid);
    st.(workers := Cancel(st.workers, lst[|lst| - 1]), handles := st.handles[hid := lst[..|lst| - 1]])
  }

  /** At most `n` cancellations; the number done is the second result. */
  function Shrink(st: State, hid: int, n: nat): (r: (State, nat))
    ensures r.0.(workers := st.workers, handles := st.handles) == st
    decreases n
  {
    if n == 0 || Handles(st, hid) == [] then (st, 0)
    else
      var (next, m) := Shrink(CancelLast(st, hid), hid, n - 1);
      (next, m + 1)
  }

  function CancelAll(workers: seq<Worker>, handles: seq<nat>): seq<Worker>
    decreases |handles|
  {
    if handles == [] then workers
    else CancelAll(Cancel(workers, handles[0]), handles[1..])
  }

  function SetCurr(st: State, hid: int, n: int): State {
    st.(curr := st.curr[hid := n])
  }

  function StartWorkers(st: State, hid: int, n: nat): State {
    if n == 0 then st else SetCurr(Grow(st, hid, n), hid, Curr(st, hid) + n)
  }

  function Desired(s: Settings, llen: nat): nat {
    var wanted := if s.step > 0 then s.min + llen / s.step else s.min;
    var capped := if wanted > s.max then s.max else wanted;
    if capped < s.min then s.min else capped
  }

  /** The start of the engine: the channels with pending orders, each with the same number of consumers. */
  function Begin(st: State, list: seq<int>, n: nat): State
    decreases |list|
  {
    if list == [] then st else Begin(StartWorkers(st, list[0], n), list[1..], n)
  }

  /** Brings a channel to a number of consumers. */
  function ScaleTo(st: State, hid: int, desired: nat): State {
    var curr := Curr(st, hid);
    if curr == desired then st
    else if curr < desired then SetCurr(Grow(st, hid, desired - curr), hid, desired)
    else
      var (next, m) := Shrink(st, hid, curr - desired);
      SetCurr(next, hid, curr - m)
  }

  /** One visit of the scaler to a channel with a queue of known length. */
  function Scale(st: State, hid: int, llen: nat, s: Settings): State {
    if hid in st.pausedAt then st else ScaleTo(st, hid, Desired(s, llen))
  }

  /** A channel that the scan for new channels has not met before. */
  function Discover(st: State, hid: int, s: Settings): State {
    if hid in st.pausedAt then st.(hids := st.hids + [hid])
    else StartWorkers(st, hid, s.min).(hids := st.hids + [hid])
  }

  /** ensureOrderConsumerForHID in a running engine. */
  function Ensure(st: State, hid: int, s: Settings): State {
    if hid <= 0 || hid in st.pausedAt || Curr(st, hid) > 0 then st
    else
      var next := StartWorkers(st, hid, s.min);
      if hid in next.hids then next else next.(hids := next.hids + [hid])
  }

  /** opsPauseChannel; `ready` says that the engine runs. */
  function Pause(st: State, hid: int, now: int, ready: bool): (State, bool) {
    if !ready || hid !in st.hids then (st, false)
    else if hid in st.pausedAt then (st, true)
    else
      (State(CancelAll(st.workers, Handles(st, hid)), st.handles[hid := []], st.curr[hid := 0], st.hids,
             st.pausedAt[hid := now], st.stable - {hid}), true)
  }

  /** opsResumeChannel. */
  function Resume(st: State, hid: int, ready: bool, s: Settings): (State, bool) {
    if !ready || hid !in st.hids || hid !in st.pausedAt then (st, false)
    else (StartWorkers(st.(pausedAt := st.pausedAt - {hid}), hid, s.min), true)
  }

  /** How many consumers an adjustment starts or stops: at most four, and none past the bound. */
  function AdjustUp(curr: int, delta: nat, s: Settings): nat {
    var d := if delta > 4 then 4 else delta;
    if curr >= s.max then 0 else if d < s.max - curr then d else s.max - curr
  }

  function AdjustDown(curr: int, delta: nat, s: Settings): nat {
    var d := if delta > 4 then 4 else delta;
    if curr <= s.min then 0 else if d < curr - s.min then d else curr - s.min
  }

  /** opsAdjustWorkers. */
  function Adjust(st: State, hid: int, delta: int, ready: bool, s: Settings): (State, bool) {
    var curr := Curr(st, hid);
    if hid in st.pausedAt || !ready then (st, false)
    else if delta == 0 then (st, true)
    else if delta > 0 then
      var n := AdjustUp(curr, delta, s);
      (SetCurr(Grow(st, hid, n), hid, curr + n), true)
    else
      var (next, m) := Shrink(st, hid, AdjustDown(curr, -delta, s));
      (SetCurr(next, hid, curr - m), true)
  }

  /** What a scan finds about a channel. */
  datatype Health = Missing | TooFewEvents | Failing | Healthy

  /** The part of an automatic resume scan that visits one paused channel. */
  function Visit(st: State, hid: int, health: Health, required: nat, ready: bool, s: Settings): State {
    if health != Healthy then st.(stable := st.stable - {hid})
    else
      var counted := st.(stable := st.stable[hid := Stable(st, hid) + 1]);
      if Stable(counted, hid) < required then counted
      else
        var (next, _) := Resume(counted, hid, ready, s);
        next.(stable := next.stable - {hid})
  }

  function Scan(st: State, paused: seq<int>, health: int -> Health, required: nat, ready: bool,
                settings: int -> Settings): State
    decreases |paused|
  {
    if paused == [] then st
    else
      Scan(Visit(st, paused[0], health(paused[0]), required, ready, settings(paused[0])),
           paused[1..], health, required, ready, settings)
  }

  /** The fields that starting and stopping consumers leaves alone. */
  ghost function Rest(st: State): State {
    st.(workers := [], handles := map[])
  }

  /** The second release of a lock panics in the consumer's loop, which recovers and returns. */
  function Die(st: State, k: nat): State {
    if k < |st.workers| && st.workers[k].life.Running?
    then st.(workers := st.workers[k := st.workers[k].(life := Dead)])
    else st
  }

  class Control {
    var workers: seq<Worker>
    var workerCancels: map<int, seq<nat>>
    var currWorkers: map<int, int>
    var hids: seq<int>
    var opsPausedAt: map<int, int>
    var opsResumeStableCount: map<int, nat>

    function View(): State
      reads this
    {
      State(workers, workerCancels, currWorkers, hids, opsPausedAt, opsResumeStableCount)
    }

    constructor ()
      ensures View() == INIT
    {
      workers, workerCancels, currWorkers := [], map[], map[];
      hids, opsPausedAt, opsResumeStableCount := [], map[], map[];
    }

    method StartConsumer(hid: int)
      modifies `workers, `workerCancels
      ensures View() == Spawn(old(View()), hid)
    {
      workerCancels := workerCancels[hid := Handles(View(), hid) + [|workers|]];
      workers := workers + [Worker(hid, Running)];
    }

    method StartUncounted(hid: int, n: nat)
      modifies `workers, `workerCancels
      ensures View() == Grow(old(View()), hid, n)
    {
      ghost var start := View();
      for i := 0 to n
        invariant Rest(View()) == Rest(start)
        invariant Grow(View(), hid, n - i) == Grow(start, hid, n)
      {
        StartConsumer(hid);
      }
    }

    /** Starts `n` consumers, counting each as it starts. */
    method StartCounted(hid: int, n: nat)
      modifies `workers, `workerCancels, `currWorkers
      ensures View() == StartWorkers(old(View()), hid, n)
    {
      ghost var start := View();
      for i := 0 to n
        invariant View() == StartWorkers(start, hid, i)
      {
        StartOneMore(start, hid, i);
        StartConsumer(hid);
        currWorkers := currWorkers[hid := Curr(View(), hid) + 1];
      }
    }

    /** Cancels the newest consumer of a channel. */
    method StopNewest(hid: int)
      requires Handles(View(), hid) != []
      modifies `workers, `workerCancels
      ensures View() == CancelLast(old(View()), hid)
    {
      var lst := workerCancels[hid];
      workerCancels := workerCancels[hid := lst[..|lst| - 1]];
      workers := Cancel(workers, lst[|lst| - 1]);
    }

    method StopUpTo(hid: int, n: nat) returns (m: nat)
      modifies `workers, `workerCancels
      ensures (View(), m) == Shrink(old(View()), hid, n)
    {
      m := 0;
      ghost var start := View();
      while m < n
        invariant m <= n
        invariant Rest(View()) == Rest(start)
        invariant Shrink(start, hid, n) == (Shrink(View(), hid, n - m).0, m + Shrink(View(), hid, n - m).1)
      {
        if Handles(View(), hid) == [] {
          break;
        }
        StopNewest(hid);
        m := m + 1;
      }
    }

    method StartOrderQueueWorkers(list: seq<int>, n: nat)
      modifies this
      ensures View() == Begin(old(View()).(hids := list), list, n)
    {
      hids := list;
      ghost var start := View();
      for i := 0 to |list|
        invariant Begin(View(), list[i..], n) == Begin(start, list, n)
      {
        assert list[i..][0] == list[i] && list[i..][1..] == list[i + 1..];
        StartCounted(list[i], n);
      }
    }

    method ScalerVisit(hid: int, llen: nat, s: Settings)
      modifies `workers, `workerCancels, `currWorkers
      ensures View() == Scale(old(View()), hid, llen, s)
    {
      if hid in opsPausedAt {
        return;
      }
      var desired := s.min;
      if s.step > 0 {
        desired := desired + llen / s.step;
      }
      if desired > s.max {
        desired := s.max;
      }
      if desired < s.min {
        desired := s.min;
      }
      ScaleChannelTo(hid, desired);
    }

    method ScaleChannelTo(hid: int, desired: nat)
      modifies `workers, `workerCancels, `currWorkers
      ensures View() == ScaleTo(old(View()), hid, desired)
    {
      var curr := Curr(View(), hid);
      if curr == desired {
        return;
      }
      if curr < desired {
        StartUncounted(hid, desired - curr);
        curr := desired;
      } else {
        var m := StopUpTo(hid, curr - desired);
        curr := curr - m;
      }
      currWorkers := currWorkers[hid := curr];
    }

    method DiscoverChannel(hid: int, s: Settings)
      modifies this
      ensures View() == Discover(old(View()), hid, s)
    {
      if hid in opsPausedAt {
        hids := hids + [hid];
        return;
      }
      StartCounted(hid, s.min);
      hids := hids + [hid];
    }

    method EnsureOrderConsumerForHid(hid: int, s: Settings)
      modifies this
      ensures View() == Ensure(old(View()), hid, s)
    {
      if hid <= 0 || hid in opsPausedAt || Curr(View(), hid) > 0 {
        return;
      }
      StartCounted(hid, s.min);
      if hid !in hids {
        hids := hids + [hid];
      }
    }

    method OpsPauseChannel(hid: int, now: int, ready: bool) returns (ok: bool)
      modifies this
      ensures (View(), ok) == Pause(old(View()), hid, now, ready)
    {
      if !ready || hid !in hids {
        return false;
      }
      if hid in opsPausedAt {
        return true;
      }
      opsPausedAt := opsPausedAt[hid := now];
      var lst := Handles(View(), hid);
      ghost var start := View();
      for i := 0 to |lst|
        invariant View().(workers := []) == start.(workers := [])
        invariant CancelAll(workers, lst[i..]) == CancelAll(start.workers, lst)
      {
        assert lst[i..][0] == lst[i] && lst[i..][1..] == lst[i + 1..];
        workers := Cancel(workers, lst[i]);
      }
      workerCancels := workerCancels[hid := []];
      currWorkers := currWorkers[hid := 0];
      opsResumeStableCount := opsResumeStableCount - {hid};
      return true;
    }

    method OpsResumeChannel(hid: int, ready: bool, s: Settings) returns (ok: bool)
      modifies `workers, `workerCancels, `currWorkers, `opsPausedAt
      ensures (View(), ok) == Resume(old(View()), hid, ready, s)
    {
      if !ready || hid !in hids || hid !in opsPausedAt {
        return false;
      }
      opsPausedAt := opsPausedAt - {hid};
      StartCounted(hid, s.min);
      return true;
    }

    /** The growing loop of an adjustment: up to `d` consumers, while there are fewer than the maximum. */
    method StartBelow(hid: int, d: int, curr: int, s: Settings) returns (n: nat)
      requires d > 0
      modifies `workers, `workerCancels
      ensures View() == Grow(old(View()), hid, n)
      ensures n == if curr >= s.max then 0 else if d < s.max - curr then d else s.max - curr
    {
      n := 0;
      while n < d && curr + n < s.max
        invariant 0 <= n <= d && (curr >= s.max ==> n == 0) && (curr < s.max ==> curr + n <= s.max)
        invariant View() == Grow(old(View()), hid, n)
        decreases d - n
      {
        GrowLast(old(View()), hid, n);
        StartConsumer(hid);
        n := n + 1;
      }
    }

    method OpsAdjustWorkers(hid: int, delta: int, ready: bool, s: Settings) returns (ok: bool)
      modifies `workers, `workerCancels, `currWorkers
      ensures (View(), ok) == Adjust(old(View()), hid, delta, ready, s)
    {
      if hid in opsPausedAt || !ready {
        return false;
      }
      if delta == 0 {
        return true;
      }
      var d := delta;
      if d > 4 {
        d := 4;
      }
      if d < -4 {
        d := -4;
      }
      var curr := Curr(View(), hid);
      if d > 0 {
        var n := StartBelow(hid, d, curr, s);
        assert n == AdjustUp(curr, delta, s);
        curr := curr + n;
      } else {
        var m := StopUpTo(hid, AdjustDown(curr, -d, s));
        curr := curr - m;
      }
      currWorkers := currWorkers[hid := curr];
      return true;
    }

    method VisitPausedChannel(hid: int, health: Health, required: nat, ready: bool, s: Settings)
      modifies this
      ensures View() == Visit(old(View()), hid, health, required, ready, s)
    {
      if health != Healthy {
        opsResumeStableCount := opsResumeStableCount - {hid};
        return;
      }
      var count := Stable(View(), hid) + 1;
      opsResumeStableCount := opsResumeStableCount[hid := count];
      if count < required {
        return;
      }
      var ok := OpsResumeChannel(hid, ready, s);
      opsResumeStableCount := opsResumeStableCount - {hid};
    }

    /** runOpsAutoResumeCheck: one visit to each channel of the list of paused channels. */
    method RunOpsAutoResumeCheck(enabled: bool, paused: seq<int>, health: int -> Health, required: nat,
                                 ready: bool, settings: int -> Settings)
      modifies this
      ensures View() == Scan(old(View()), if enabled then paused else [], health, required, ready, settings)
    {
      if !enabled {
        return;
      }
      ghost var start := View();
      for i := 0 to |paused|
        invariant Scan(View(), paused[i..], health, required, ready, settings) ==
                  Scan(start, paused, health, required, ready, settings)
      {
        assert paused[i..][0] == paused[i] && paused[i..][1..] == paused[i + 1..];
        VisitPausedChannel(paused[i], health(paused[i]), required, ready, settings(paused[i]));
      }
    }
  }

  lemma {:induction false} GrowLast(st: State, hid: int, n: nat)
    ensures Grow(st, hid, n + 1) == Spawn(Grow(st, hid, n), hid)
    decreases n
  {
    if n > 0 {
      GrowLast(Spawn(st, hid), hid, n - 1);
    }
  }

  lemma StartOneMore(st: State, hid: int, n: nat)
    ensures var one := Spawn(StartWorkers(st, hid, n), hid);
      SetCurr(one, hid, Curr(one, hid) + 1) == StartWorkers(st, hid, n + 1)
  {
    GrowLast(st, hid, n);
  }

  // What every step keeps.

  /** Consumers whose context was not cancelled. */
  const KEPT := {Running, Dead}

  predicate Is(w: Worker, hid: int, lives: set<Life>) {
    w.hid == hid && w.life in lives
  }

  /** The consumers of a channel in some of the states, oldest first. */
  function Positions(workers: seq<Worker>, hid: int, lives: set<Life>): seq<nat>
    decreases |workers|
  {
    if workers == [] then []
    else
      var n := |workers| - 1;
      Positions(workers[..n], hid, lives) + (if Is(workers[n], hid, lives) then [n] else [])
  }

  function Live(st: State, hid: int): seq<nat> {
    Positions(st.workers, hid, {Running})
  }

  function DeadOnes(st: State, hid: int): seq<nat> {
    Positions(st.workers, hid, {Dead})
  }

  /**
   The stored handles are exactly those of the consumers that were not cancelled: no consumer
   runs unknown, none is listed twice.
   */
  ghost predicate Tracked(workers: seq<Worker>, handles: map<int, seq<nat>>) {
    forall hid: int :: Lookup(handles, hid) == Positions(workers, hid, KEPT)
  }

  ghost predicate Valid(st: State) {
    && Tracked(st.workers, st.handles)
    && (forall hid: int :: Curr(st, hid) == |Handles(st, hid)|)
    && (forall hid: int | hid in st.pausedAt :: Handles(st, hid) == [])
  }

  /** The maps agree on all channels but one. */
  ghost predicate SameBut(a: map<int, seq<nat>>, b: map<int, seq<nat>>, hid: int) {
    forall h: int | h != hid :: Lookup(a, h) == Lookup(b, h)
  }

  lemma {:induction false} PositionsMembers(workers: seq<Worker>, hid: int, lives: set<Life>)
    ensures forall k: nat ::
      k in Positions(workers, hid, lives) <==> k < |workers| && Is(workers[k], hid, lives)
    decreases |workers|
  {
    if workers != [] {
      PositionsMembers(workers[..|workers| - 1], hid, lives);
    }
  }

  lemma {:induction false} SamePositions(a: seq<Worker>, b: seq<Worker>, hid: int, lives: set<Life>)
    requires |a| == |b|
    requires forall k | 0 <= k < |a| :: Is(a[k], hid, lives) <==> Is(b[k], hid, lives)
    ensures Positions(a, hid, lives) == Positions(b, hid, lives)
    decreases |a|
  {
    if a != [] {
      SamePositions(a[..|a| - 1], b[..|b| - 1], hid, lives);
    }
  }

  lemma {:induction false} NoPositions(workers: seq<Worker>, hid: int, lives: set<Life>)
    requires forall k | 0 <= k < |workers| :: !Is(workers[k], hid, lives)
    ensures Positions(workers, hid, lives) == []
    decreases |workers|
  {
    if workers != [] {
      NoPositions(workers[..|workers| - 1], hid, lives);
    }
  }

  /** A consumer that was not cancelled is either running or dead. */
  lemma {:induction false} RunningOrDead(workers: seq<Worker>, hid: int)
    ensures var kept, live, dead :=
        Positions(workers, hid, KEPT), Positions(workers, hid, {Running}), Positions(workers, hid, {Dead});
      && |kept| == |live| + |dead|
      && (live == kept <==> dead == [])
    decreases |workers|
  {
    if workers != [] {
      RunningOrDead(workers[..|workers| - 1], hid);
    }
  }

  lemma {:induction false} CancelNewest(workers: seq<Worker>, hid: int)
    requires Positions(workers, hid, KEPT) != []
    ensures var lst := Positions(workers, hid, KEPT);
      var gone := lst[|lst| - 1];
      && gone < |workers| && Is(workers[gone], hid, KEPT)
      && Positions(Cancel(workers, gone), hid, KEPT) == lst[..|lst| - 1]
    decreases |workers|
  {
    var n, lst := |workers| - 1, Positions(workers, hid, KEPT);
    var gone := lst[|lst| - 1];
    if Is(workers[n], hid, KEPT) {
      assert Cancel(workers, gone)[..n] == workers[..n];
    } else {
      CancelNewest(workers[..n], hid);
      assert Cancel(workers, gone)[..n] == Cancel(workers[..n], gone);
    }
  }

  lemma AppendKeeps(workers: seq<Worker>, handles: map<int, seq<nat>>, hid: int)
    requires Tracked(workers, handles)
    ensures Tracked(workers + [Worker(hid, Running)], handles[hid := Lookup(handles, hid) + [|workers|]])
  {
    var after := workers + [Worker(hid, Running)];
    assert after[..|workers|] == workers;
    forall h: int
      ensures Lookup(handles[hid := Lookup(handles, hid) + [|workers|]], h) == Positions(after, h, KEPT)
    {
      assert Positions(after, h, KEPT) == Positions(workers, h, KEPT) + (if h == hid then [|workers|] else []);
    }
  }

  lemma CancelLastKeeps(workers: seq<Worker>, handles: map<int, seq<nat>>, hid: int)
    requires Tracked(workers, handles) && Lookup(handles, hid) != []
    ensures var lst := Lookup(handles, hid);
      Tracked(Cancel(workers, lst[|lst| - 1]), handles[hid := lst[..|lst| - 1]])
  {
    var lst := Lookup(handles, hid);
    var after, handles' := Cancel(workers, lst[|lst| - 1]), handles[hid := lst[..|lst| - 1]];
    CancelNewest(workers, hid);
    forall h: int
      ensures Lookup(handles', h) == Positions(after, h, KEPT)
    {
      if h != hid {
        SamePositions(workers, after, h, KEPT);
      }
    }
  }

  lemma {:induction false} GrowKeeps(st: State, hid: int, n: nat)
    requires Tracked(st.workers, st.handles)
    ensures var next := Grow(st, hid, n);
      && Tracked(next.workers, next.handles)
      && |Handles(next, hid)| == |Handles(st, hid)| + n
      && SameBut(next.handles, st.handles, hid)
    decreases n
  {
    if n > 0 {
      AppendKeeps(st.workers, st.handles, hid);
      GrowKeeps(Spawn(st, hid), hid, n - 1);
    }
  }

  lemma {:induction false} ShrinkKeeps(st: State, hid: int, n: nat)
    requires Tracked(st.workers, st.handles)
    ensures Tracked(Shrink(st, hid, n).0.workers, Shrink(st, hid, n).0.handles)
    ensures SameBut(Shrink(st, hid, n).0.handles, st.handles, hid)
    decreases n
  {
    if n > 0 && Handles(st, hid) != [] {
      var mid := CancelLast(st, hid);
      CancelLastKeeps(st.workers, st.handles, hid);
      ShrinkKeeps(mid, hid, n - 1);
      var end := Shrink(mid, hid, n - 1).0;
      assert Shrink(st, hid, n).0 == end;
      forall h: int | h != hid
        ensures Lookup(end.handles, h) == Lookup(st.handles, h)
      {
        assert Lookup(end.handles, h) == Lookup(mid.handles, h);
      }
    }
  }

  lemma {:induction false} ShrinkCounts(st: State, hid: int, n: nat)
    ensures Shrink(st, hid, n).1 == if n < |Handles(st, hid)| then n else |Handles(st, hid)|
    ensures |Handles(Shrink(st, hid, n).0, hid)| == |Handles(st, hid)| - Shrink(st, hid, n).1
    decreases n
  {
    if n > 0 && Handles(st, hid) != [] {
      ShrinkCounts(CancelLast(st, hid), hid, n - 1);
    }
  }

  lemma {:induction false} CancelAllCancels(workers: seq<Worker>, lst: seq<nat>)
    ensures var after := CancelAll(workers, lst);
      |after| == |workers| &&
      forall k: nat | k < |workers| :: after[k] == workers[k].(life := if k in lst then Cancelled else workers[k].life)
    decreases |lst|
  {
    if lst != [] {
      CancelAllCancels(Cancel(workers, lst[0]), lst[1..]);
      assert lst == [lst[0]] + lst[1..];
    }
  }

  /** Stopping all consumers of a channel at once. */
  lemma CancelAllKeeps(workers: seq<Worker>, handles: map<int, seq<nat>>, hid: int)
    requires Tracked(workers, handles)
    ensures Tracked(CancelAll(workers, Lookup(handles, hid)), handles[hid := []])
  {
    var after := CancelAll(workers, Lookup(handles, hid));
    CancelAllCancels(workers, Lookup(handles, hid));
    PositionsMembers(workers, hid, KEPT);
    forall h: int
      ensures Lookup(handles[hid := []], h) == Positions(after, h, KEPT)
    {
      if h == hid {
        NoPositions(after, h, KEPT);
      } else {
        SamePositions(workers, after, h, KEPT);
      }
    }
  }

  /** A channel that is not paused may change the number of its consumers if it is counted right. */
  lemma RecountKeepsValid(st: State, next: State, hid: int)
    requires Valid(st) && Tracked(next.workers, next.handles) && hid !in st.pausedAt
    requires next.(workers := st.workers, handles := st.handles) == st
    requires SameBut(next.handles, st.handles, hid)
    ensures Valid(SetCurr(next, hid, |Handles(next, hid)|))
  {
    var after := SetCurr(next, hid, |Handles(next, hid)|);
    forall h: int
      ensures Curr(after, h) == |Handles(after, h)|
    {
      assert Curr(st, h) == |Handles(st, h)|;
      assert h != hid ==> Lookup(next.handles, h) == Lookup(st.handles, h);
    }
    forall h | h in after.pausedAt
      ensures Handles(after, h) == []
    {
      assert Lookup(next.handles, h) == Lookup(st.handles, h);
    }
  }

  lemma StartKeepsValid(st: State, hid: int, n: nat)
    requires Valid(st) && hid !in st.pausedAt
    ensures Valid(StartWorkers(st, hid, n))
    ensures Curr(StartWorkers(st, hid, n), hid) == Curr(st, hid) + n
  {
    GrowKeeps(st, hid, n);
    assert Curr(st, hid) == |Handles(st, hid)|;
    if n > 0 {
      RecountKeepsValid(st, Grow(st, hid, n), hid);
    }
  }

  /** The channel has come to `n` consumers, and nothing else changed. */
  ghost predicate Recounted(st: State, next: State, hid: int, n: int) {
    Valid(next) && SameBut(next.handles, st.handles, hid) && Curr(next, hid) == n
  }

  lemma GrowToKeepsValid(st: State, hid: int, n: nat, next: State)
    requires Valid(st) && hid !in st.pausedAt
    requires next == SetCurr(Grow(st, hid, n), hid, Curr(st, hid) + n)
    ensures Recounted(st, next, hid, Curr(st, hid) + n)
  {
    GrowKeeps(st, hid, n);
    assert Curr(st, hid) == |Handles(st, hid)|;
    RecountKeepsValid(st, Grow(st, hid, n), hid);
  }

  lemma ShrinkToKeepsValid(st: State, hid: int, n: nat, next: State)
    requires Valid(st) && hid !in st.pausedAt && n <= Curr(st, hid)
    requires next == SetCurr(Shrink(st, hid, n).0, hid, Curr(st, hid) - Shrink(st, hid, n).1)
    ensures Recounted(st, next, hid, Curr(st, hid) - n)
  {
    var (shrunk, m) := Shrink(st, hid, n);
    ShrinkKeeps(st, hid, n);
    ShrinkCounts(st, hid, n);
    assert Curr(st, hid) == |Handles(st, hid)| && m == n;
    assert |Handles(shrunk, hid)| == Curr(st, hid) - n;
    RecountKeepsValid(st, shrunk, hid);
  }

  lemma ScaleToKeepsValid(st: State, hid: int, desired: nat)
    requires Valid(st) && hid !in st.pausedAt
    ensures Recounted(st, ScaleTo(st, hid, desired), hid, desired)
  {
    var curr := Curr(st, hid);
    assert curr == |Handles(st, hid)|;
    if curr < desired {
      GrowToKeepsValid(st, hid, desired - curr, ScaleTo(st, hid, desired));
    } else if curr > desired {
      ShrinkToKeepsValid(st, hid, curr - desired, ScaleTo(st, hid, desired));
    }
  }

  lemma DesiredBounds(s: Settings, llen: nat)
    ensures s.min <= Desired(s, llen) && (s.min <= s.max ==> Desired(s, llen) <= s.max)
    ensures s.step > 0 && s.min + llen / s.step <= s.max ==> Desired(s, llen) == s.min + llen / s.step
  {
  }

  /** A scaler visit to a channel that is not paused leaves exactly the desired number of consumers. */
  lemma ScaleReachesDesired(st: State, hid: int, llen: nat, s: Settings)
    requires Valid(st) && hid !in st.pausedAt
    ensures Recounted(st, Scale(st, hid, llen, s), hid, Desired(s, llen))
  {
    var next := ScaleTo(st, hid, Desired(s, llen));
    ScaleToKeepsValid(st, hid, Desired(s, llen));
    assert Curr(next, hid) == |Handles(next, hid)|;
  }

  /** Where an adjustment takes the counter: by at most four, and not past the bound it moves towards. */
  function Adjusted(curr: int, delta: int, s: Settings): int {
    if delta > 0 then Max(curr, Min(curr + Min(delta, 4), s.max))
    else if delta < 0 then Min(curr, Max(curr - Min(-delta, 4), s.min))
    else curr
  }

  lemma AdjustMovesByFour(st: State, hid: int, delta: int, s: Settings)
    requires Valid(st) && hid !in st.pausedAt
    ensures Recounted(st, Adjust(st, hid, delta, true, s).0, hid, Adjusted(Curr(st, hid), delta, s))
  {
    var curr := Curr(st, hid);
    AdjustSizes(curr, delta, s);
    if delta > 0 {
      AdjustsUp(st, hid, delta, s);
    } else if delta < 0 {
      AdjustsDown(st, hid, delta, s);
    }
  }

  lemma AdjustsUp(st: State, hid: int, delta: int, s: Settings)
    requires Valid(st) && hid !in st.pausedAt && delta > 0
    ensures Recounted(st, Adjust(st, hid, delta, true, s).0, hid, Curr(st, hid) + AdjustUp(Curr(st, hid), delta, s))
  {
    AdjustIs(st, hid, delta, s);
    GrowToKeepsValid(st, hid, AdjustUp(Curr(st, hid), delta, s), Adjust(st, hid, delta, true, s).0);
  }

  lemma AdjustsDown(st: State, hid: int, delta: int, s: Settings)
    requires Valid(st) && hid !in st.pausedAt && delta < 0
    ensures Recounted(st, Adjust(st, hid, delta, true, s).0, hid,
                      Curr(st, hid) - AdjustDown(Curr(st, hid), -delta, s))
  {
    AdjustIs(st, hid, delta, s);
    assert Curr(st, hid) == |Handles(st, hid)|;
    AdjustSizes(Curr(st, hid), delta, s);
    ShrinkToKeepsValid(st, hid, AdjustDown(Curr(st, hid), -delta, s), Adjust(st, hid, delta, true, s).0);
  }

  lemma AdjustIs(st: State, hid: int, delta: int, s: Settings)
    requires hid !in st.pausedAt
    ensures delta > 0 ==>
      var n := AdjustUp(Curr(st, hid), delta, s);
      Adjust(st, hid, delta, true, s).0 == SetCurr(Grow(st, hid, n), hid, Curr(st, hid) + n)
    ensures delta < 0 ==>
      var shrunk := Shrink(st, hid, AdjustDown(Curr(st, hid), -delta, s));
      Adjust(st, hid, delta, true, s).0 == SetCurr(shrunk.0, hid, Curr(st, hid) - shrunk.1)
  {
  }

  lemma AdjustSizes(curr: int, delta: int, s: Settings)
    ensures delta > 0 ==> curr + AdjustUp(curr, delta, s) == Adjusted(curr, delta, s)
    ensures delta < 0 ==> curr - AdjustDown(curr, -delta, s) == Adjusted(curr, delta, s)
    ensures delta < 0 && curr >= 0 ==> AdjustDown(curr, -delta, s) <= curr
  {
  }

  function Min(a: int, b: int): int {
    if a < b then a else b
  }

  function Max(a: int, b: int): int {
    if a < b then b else a
  }

  /** A paused channel has no consumer and no handle, whoever was running or dead. */
  lemma PauseKeepsValid(st: State, hid: int, now: int, ready: bool)
    requires Valid(st)
    ensures var (next, ok) := Pause(st, hid, now, ready);
      && Valid(next) && SameBut(next.handles, st.handles, hid)
      && (ok ==> Handles(next, hid) == Live(next, hid) == [])
      && (!ok ==> next == st)
  {
    var (next, ok) := Pause(st, hid, now, ready);
    if ready && hid in st.hids && hid !in st.pausedAt {
      CancelAllKeeps(st.workers, st.handles, hid);
      forall h: int
        ensures Curr(next, h) == |Handles(next, h)|
      {
        assert Curr(st, h) == |Handles(st, h)|;
      }
    }
    if ok {
      LiveOrDead(next, hid);
    }
  }

  /** A resumption starts the minimum number, so it also replaces consumers that had died. */
  lemma ResumeKeepsValid(st: State, hid: int, ready: bool, s: Settings)
    requires Valid(st)
    ensures var (next, ok) := Resume(st, hid, ready, s);
      && Valid(next) && SameBut(next.handles, st.handles, hid)
      && ok == (ready && hid in st.hids && hid in st.pausedAt)
      && (ok ==> Curr(next, hid) == |Live(next, hid)| == s.min && DeadOnes(next, hid) == [])
  {
    var (next, ok) := Resume(st, hid, ready, s);
    if ok {
      var open := st.(pausedAt := st.pausedAt - {hid});
      assert Valid(open) by {
        assert forall h: int :: Curr(open, h) == Curr(st, h) && Handles(open, h) == Handles(st, h);
      }
      assert Curr(st, hid) == |Handles(st, hid)| == 0;
      StartKeepsValid(open, hid, s.min);
      GrowKeeps(open, hid, s.min);
      LiveOrDead(open, hid);
      LiveOrDead(next, hid);
      GrowAddsRunning(open, hid, s.min);
    }
  }

  /** The fields that `Valid` does not read may change. */
  lemma OtherFieldsKeepValid(st: State, hids: seq<int>, stable: map<int, nat>)
    requires Valid(st)
    ensures Valid(st.(hids := hids, stable := stable))
  {
    var next := st.(hids := hids, stable := stable);
    assert forall h: int :: Curr(next, h) == Curr(st, h) && Handles(next, h) == Handles(st, h);
  }

  // What the counter says about the consumers that run.

  lemma LiveOrDead(st: State, hid: int)
    requires Valid(st)
    ensures Curr(st, hid) == |Handles(st, hid)| == |Live(st, hid)| + |DeadOnes(st, hid)|
    ensures forall k | k in Live(st, hid) :: k in Handles(st, hid)
    ensures Live(st, hid) == Handles(st, hid) <==> DeadOnes(st, hid) == []
  {
    assert Lookup(st.handles, hid) == Positions(st.workers, hid, KEPT);
    assert Curr(st, hid) == |Handles(st, hid)|;
    RunningOrDead(st.workers, hid);
    PositionsMembers(st.workers, hid, KEPT);
    PositionsMembers(st.workers, hid, {Running});
  }

  lemma {:induction false} GrowAddsRunning(st: State, hid: int, n: nat)
    ensures |Live(Grow(st, hid, n), hid)| == |Live(st, hid)| + n
    ensures DeadOnes(Grow(st, hid, n), hid) == DeadOnes(st, hid)
    decreases n
  {
    if n > 0 {
      assert Spawn(st, hid).workers[..|st.workers|] == st.workers;
      GrowAddsRunning(Spawn(st, hid), hid, n - 1);
    }
  }

  /** After a visit the consumers that run are the desired number less the panicked ones still counted. */
  lemma ScaleCountsTheDead(st: State, hid: int, llen: nat, s: Settings)
    requires Valid(st) && hid !in st.pausedAt
    ensures var next := Scale(st, hid, llen, s);
      && |Live(next, hid)| == Desired(s, llen) - |DeadOnes(next, hid)|
      && (Curr(st, hid) <= Desired(s, llen) ==> DeadOnes(next, hid) == DeadOnes(st, hid))
  {
    ScaleReachesDesired(st, hid, llen, s);
    LiveOrDead(Scale(st, hid, llen, s), hid);
    if Curr(st, hid) < Desired(s, llen) {
      GrowAddsRunning(st, hid, Desired(s, llen) - Curr(st, hid));
    }
  }

  /** Consumers keep their channel, and none comes back to life. */
  ghost predicate Ages(a: seq<Worker>, b: seq<Worker>) {
    |a| <= |b| &&
    forall k | 0 <= k < |a| :: b[k].hid == a[k].hid && (b[k].life.Running? ==> a[k].life.Running?)
  }

  lemma {:induction false} GrowAges(st: State, hid: int, n: nat)
    ensures Ages(st.workers, Grow(st, hid, n).workers)
    decreases n
  {
    if n > 0 {
      GrowAges(Spawn(st, hid), hid, n - 1);
    }
  }

  lemma {:induction false} ShrinkAges(st: State, hid: int, n: nat)
    ensures Ages(st.workers, Shrink(st, hid, n).0.workers)
    decreases n
  {
    if n > 0 && Handles(st, hid) != [] {
      ShrinkAges(CancelLast(st, hid), hid, n - 1);
    }
  }

  lemma ScaleToAges(st: State, hid: int, desired: nat)
    ensures Ages(st.workers, ScaleTo(st, hid, desired).workers)
  {
    if Curr(st, hid) < desired {
      GrowAges(st, hid, desired - Curr(st, hid));
    } else {
      ShrinkAges(st, hid, Curr(st, hid) - desired);
    }
  }

  lemma StepAges(st: State, step: Step)
    ensures Ages(st.workers, Apply(st, step).workers)
  {
    match step
    case ScalerStep(hid, llen, s) => ScaleToAges(st, hid, Desired(s, llen));
    case DiscoveryStep(hid, s) => GrowAges(st, hid, s.min);
    case EnsureStep(hid, s) => GrowAges(st, hid, s.min);
    case PauseStep(hid, _, _, _) => CancelAllCancels(st.workers, Handles(st, hid));
    case ResumeStep(hid, _, s) => GrowAges(st.(pausedAt := st.pausedAt - {hid}), hid, s.min);
    case AdjustStep(hid, delta, _, s) =>
      GrowAges(st, hid, if delta > 0 then AdjustUp(Curr(st, hid), delta, s) else 0);
      ShrinkAges(st, hid, if delta < 0 then AdjustDown(Curr(st, hid), -delta, s) else 0);
    case VisitStep(hid, _, _, _, s) =>
      GrowAges(st.(stable := st.stable[hid := Stable(st, hid) + 1], pausedAt := st.pausedAt - {hid}), hid, s.min);
    case ConsumerDies(_) =>
  }

  /** Whatever leaves a channel's handles alone starts no consumer for it. */
  lemma NoConsumerWithoutHandle(st: State, next: State, hid: int)
    requires Valid(st) && Valid(next) && Ages(st.workers, next.workers)
    requires Handles(next, hid) == Handles(st, hid)
    ensures forall k | k in Live(next, hid) :: k in Live(st, hid)
  {
    LiveOrDead(next, hid);
    assert Lookup(st.handles, hid) == Positions(st.workers, hid, KEPT);
    PositionsMembers(st.workers, hid, KEPT);
    PositionsMembers(st.workers, hid, {Running});
    PositionsMembers(next.workers, hid, {Running});
  }

  /**
   The steps by which a running engine looks after a channel whose counter is what it should be:
   scaler visits that find the counter as desired, requests for a consumer, scans for channels
   to resume; and whatever happens to other channels.
   */
  predicate Upkeep(st: State, step: Step, hid: int) {
    || step.ConsumerDies?
    || step.hid != hid
    || (step.ScalerStep? && Desired(step.s, step.llen) == Curr(st, hid))
    || (step.EnsureStep? && Curr(st, hid) > 0)
    || step.VisitStep?
  }

  lemma UpkeepKeepsHandles(st: State, step: Step, hid: int)
    requires Valid(st) && hid !in st.pausedAt && Upkeep(st, step, hid)
    ensures Untouched(st, Apply(st, step), hid)
  {
    if !step.ConsumerDies? && step.hid != hid {
      StepsElsewhere(st, step, hid);
    }
  }

  lemma StepsElsewhere(st: State, step: Step, hid: int)
    requires !step.ConsumerDies? && step.hid != hid
    ensures Untouched(st, Apply(st, step), hid)
  {
    match step
    case ScalerStep(h, llen, s) => ScaleToElsewhere(st, h, Desired(s, llen), hid);
    case DiscoveryStep(h, s) => StartElsewhere(st, h, s.min, hid);
    case EnsureStep(h, s) => StartElsewhere(st, h, s.min, hid);
    case PauseStep(h, now, ready, byAction) => PauseElsewhere(st, h, now, ready, byAction, hid);
    case ResumeStep(h, ready, s) => ResumeElsewhere(st, h, ready, s, hid);
    case AdjustStep(h, delta, ready, s) => AdjustElsewhere(st, h, delta, ready, s, hid);
    case VisitStep(h, health, required, ready, s) => VisitElsewhere(st, h, health, required, ready, s, hid);
  }

  /** Nothing changed for the channel's stored handles, its counter and its pause. */
  predicate Untouched(st: State, next: State, hid: int) {
    && Handles(next, hid) == Handles(st, hid) && Curr(next, hid) == Curr(st, hid)
    && (hid in next.pausedAt <==> hid in st.pausedAt)
  }

  lemma StartElsewhere(st: State, h: int, n: nat, hid: int)
    requires h != hid
    ensures Untouched(st, StartWorkers(st, h, n), hid)
  {
    GrowElsewhere(st, h, hid, n);
  }

  lemma PauseElsewhere(st: State, h: int, now: int, ready: bool, byAction: bool, hid: int)
    requires h != hid
    ensures Untouched(st, Apply(st, PauseStep(h, now, ready, byAction)), hid)
  {
  }

  lemma VisitElsewhere(st: State, h: int, health: Health, required: nat, ready: bool, s: Settings, hid: int)
    requires h != hid
    ensures Untouched(st, Visit(st, h, health, required, ready, s), hid)
  {
    ResumeElsewhere(st.(stable := st.stable[h := Stable(st, h) + 1]), h, ready, s, hid);
  }

  ghost predicate OnlyChannel(st: State, next: State, hid: int) {
    forall h: int | h != hid :: Untouched(st, next, h)
  }

  /**
   A new order makes sure that its channel has consumers: one without any comes to the minimum of
   running ones and is visited by the scaler from then on; one that counts some, running or dead, or
   that is paused, stays as it is.
   */
  lemma EnsureMeans(st: State, hid: int, s: Settings)
    requires Valid(st)
    ensures var next := Ensure(st, hid, s);
      && Valid(next) && OnlyChannel(st, next, hid)
      && (hid <= 0 || hid in st.pausedAt || Curr(st, hid) > 0 ==> next == st)
      && (hid > 0 && hid !in st.pausedAt && Curr(st, hid) == 0 ==>
            hid in next.hids && Curr(next, hid) == |Live(next, hid)| == s.min && DeadOnes(next, hid) == [])
  {
    var next := Ensure(st, hid, s);
    StepKeepsValid(st, EnsureStep(hid, s));
    forall h: int | h != hid ensures Untouched(st, next, h) {
      StepsElsewhere(st, EnsureStep(hid, s), h);
    }
    if hid > 0 && hid !in st.pausedAt && Curr(st, hid) == 0 {
      StartsFromNone(st, hid, s.min);
    }
  }

  lemma StartsFromNone(st: State, hid: int, n: nat)
    requires Valid(st) && Curr(st, hid) == 0
    ensures var next := StartWorkers(st, hid, n);
      Curr(next, hid) == |Live(next, hid)| == n && DeadOnes(next, hid) == []
  {
    LiveOrDead(st, hid);
    GrowAddsRunning(st, hid, n);
  }

  /** A channel found by the scan is visited by the scaler from then on; it starts with the minimum unless paused. */
  lemma DiscoverMeans(st: State, hid: int, s: Settings)
    requires Valid(st)
    ensures var next := Discover(st, hid, s);
      && Valid(next) && OnlyChannel(st, next, hid) && next.hids == st.hids + [hid]
      && (hid in st.pausedAt ==> Handles(next, hid) == Live(next, hid) == [])
      && (hid !in st.pausedAt ==>
            Curr(next, hid) == Curr(st, hid) + s.min && |Live(next, hid)| == |Live(st, hid)| + s.min)
  {
    var next := Discover(st, hid, s);
    StepKeepsValid(st, DiscoveryStep(hid, s));
    forall h: int | h != hid ensures Untouched(st, next, h) {
      StepsElsewhere(st, DiscoveryStep(hid, s), h);
    }
    LiveOrDead(next, hid);
    GrowAddsRunning(st, hid, s.min);
  }

  lemma ScaleToElsewhere(st: State, h: int, desired: nat, hid: int)
    requires h != hid
    ensures Untouched(st, ScaleTo(st, h, desired), hid)
  {
    GrowKeepsOthers(st, h, hid);
  }

  lemma ResumeElsewhere(st: State, h: int, ready: bool, s: Settings, hid: int)
    requires h != hid
    ensures Untouched(st, Resume(st, h, ready, s).0, hid)
  {
    GrowElsewhere(st.(pausedAt := st.pausedAt - {h}), h, hid, s.min);
  }

  lemma AdjustElsewhere(st: State, h: int, delta: int, ready: bool, s: Settings, hid: int)
    requires h != hid
    ensures Untouched(st, Adjust(st, h, delta, ready, s).0, hid)
  {
    GrowKeepsOthers(st, h, hid);
  }

  lemma GrowKeepsOthers(st: State, h: int, hid: int)
    requires h != hid
    ensures forall n: nat :: Handles(Grow(st, h, n), hid) == Handles(st, hid)
    ensures forall n: nat :: Handles(Shrink(st, h, n).0, hid) == Handles(st, hid)
  {
    forall n: nat
      ensures Handles(Grow(st, h, n), hid) == Handles(st, hid)
      ensures Handles(Shrink(st, h, n).0, hid) == Handles(st, hid)
    {
      GrowElsewhere(st, h, hid, n);
      ShrinkElsewhere(st, h, hid, n);
    }
  }

  lemma {:induction false} GrowElsewhere(st: State, h: int, hid: int, n: nat)
    requires h != hid
    ensures Handles(Grow(st, h, n), hid) == Handles(st, hid)
    decreases n
  {
    if n > 0 {
      GrowElsewhere(Spawn(st, h), h, hid, n - 1);
    }
  }

  lemma {:induction false} ShrinkElsewhere(st: State, h: int, hid: int, n: nat)
    requires h != hid
    ensures Handles(Shrink(st, h, n).0, hid) == Handles(st, hid)
    decreases n
  {
    if n > 0 && Handles(st, h) != [] {
      ShrinkElsewhere(CancelLast(st, h), h, hid, n - 1);
    }
  }

  ghost predicate AllUpkeep(st: State, steps: seq<Step>, hid: int) {
    forall i | 0 <= i < |steps| :: Upkeep(After(st, steps[..i]), steps[i], hid)
  }

  /**
   Neither the scaler nor a new order replaces a panicked consumer: as long as the counter is what
   is desired, no consumer is started for the channel, so one without running consumers stays so.
   */
  lemma {:induction false} DeadAreNotReplaced(st: State, steps: seq<Step>, hid: int)
    requires Valid(st) && hid !in st.pausedAt && AllUpkeep(st, steps, hid)
    ensures var end := After(st, steps);
      && Valid(end) && hid !in end.pausedAt && Curr(end, hid) == Curr(st, hid)
      && (forall k | k in Live(end, hid) :: k in Live(st, hid))
    decreases |steps|
  {
    if steps != [] {
      var m := |steps| - 1;
      var front := steps[..m];
      assert AllUpkeep(st, front, hid) by {
        assert forall i | 0 <= i < m :: front[..i] == steps[..i] && front[i] == steps[i];
      }
      DeadAreNotReplaced(st, front, hid);
      var before := After(st, front);
      assert steps[..m] == front && Upkeep(before, steps[m], hid);
      StepKeepsValid(before, steps[m]);
      StepAges(before, steps[m]);
      UpkeepKeepsHandles(before, steps[m], hid);
      NoConsumerWithoutHandle(before, Apply(before, steps[m]), hid);
    }
  }

  /** One panic is enough: the only consumer of a channel dies, and the counter stays at one. */
  lemma OneDeathStarves(hid: int)
    ensures var st := After(Begin(INIT.(hids := [hid]), [hid], 1), [ConsumerDies(0)]);
      Valid(st) && Curr(st, hid) == 1 && Live(st, hid) == [] && hid !in st.pausedAt
  {
    var start := INIT.(hids := [hid]);
    BeginIsValid(start, [hid], 1);
    var w := StartWorkers(start, hid, 1);
    assert [hid][0] == hid && [hid][1..] == [];
    assert Begin(start, [hid], 1) == Begin(w, [], 1) == w;
    GrowLast(start, hid, 0);
    assert w.workers == [Worker(hid, Running)];
    assert [ConsumerDies(0)][..0] == [];
    assert After(w, [ConsumerDies(0)]) == Die(w, 0);
    DieKeepsValid(w, 0);
    assert Die(w, 0).workers == [Worker(hid, Dead)];
    NoPositions(Die(w, 0).workers, hid, {Running});
  }

  // Runs of control steps.

  datatype Step =
    | ScalerStep(hid: int, llen: nat, s: Settings)
    | DiscoveryStep(hid: int, s: Settings)
    | EnsureStep(hid: int, s: Settings)
    | PauseStep(hid: int, now: int, ready: bool, byAction: bool)
    | ResumeStep(hid: int, ready: bool, s: Settings)
    | AdjustStep(hid: int, delta: int, ready: bool, s: Settings)
    | VisitStep(hid: int, health: Health, required: nat, ready: bool, s: Settings)
    | ConsumerDies(k: nat)

  /** A pause that comes from an executed action also resets the stable count, even if nothing was paused. */
  function Apply(st: State, step: Step): State {
    match step
    case ScalerStep(hid, llen, s) => Scale(st, hid, llen, s)
    case DiscoveryStep(hid, s) => Discover(st, hid, s)
    case EnsureStep(hid, s) => Ensure(st, hid, s)
    case PauseStep(hid, now, ready, byAction) =>
      var (next, ok) := Pause(st, hid, now, ready);
      if ok && byAction then next.(stable := next.stable - {hid}) else next
    case ResumeStep(hid, ready, s) => Resume(st, hid, ready, s).0
    case AdjustStep(hid, delta, ready, s) => Adjust(st, hid, delta, ready, s).0
    case VisitStep(hid, health, required, ready, s) => Visit(st, hid, health, required, ready, s)
    case ConsumerDies(k) => Die(st, k)
  }

  function After(st: State, steps: seq<Step>): State
    decreases |steps|
  {
    if steps == [] then st else Apply(After(st, steps[..|steps| - 1]), steps[|steps| - 1])
  }

  lemma {:induction false} BeginIsValid(st: State, list: seq<int>, n: nat)
    requires Valid(st) && st.pausedAt == map[]
    ensures Valid(Begin(st, list, n))
    decreases |list|
  {
    if list != [] {
      StartKeepsValid(st, list[0], n);
      BeginIsValid(StartWorkers(st, list[0], n), list[1..], n);
    }
  }

  lemma StartStepsKeepValid(st: State, step: Step)
    requires Valid(st) && (step.DiscoveryStep? || step.EnsureStep?)
    ensures Valid(Apply(st, step))
  {
    if step.hid in st.pausedAt {
      OtherFieldsKeepValid(st, st.hids + [step.hid], st.stable);
    } else {
      var next := StartWorkers(st, step.hid, step.s.min);
      StartKeepsValid(st, step.hid, step.s.min);
      OtherFieldsKeepValid(next, st.hids + [step.hid], st.stable);
    }
  }

  lemma VisitKeepsValid(st: State, hid: int, health: Health, required: nat, ready: bool, s: Settings)
    requires Valid(st)
    ensures Valid(Visit(st, hid, health, required, ready, s))
  {
    if health != Healthy {
      OtherFieldsKeepValid(st, st.hids, st.stable - {hid});
    } else {
      var counted := st.(stable := st.stable[hid := Stable(st, hid) + 1]);
      OtherFieldsKeepValid(st, st.hids, counted.stable);
      if Stable(counted, hid) >= required {
        var next := Resume(counted, hid, ready, s).0;
        ResumeKeepsValid(counted, hid, ready, s);
        OtherFieldsKeepValid(next, next.hids, next.stable - {hid});
      }
    }
  }

  lemma DieKeepsValid(st: State, k: nat)
    requires Valid(st)
    ensures Valid(Die(st, k))
  {
    var next := Die(st, k);
    forall h: int
      ensures Lookup(next.handles, h) == Positions(next.workers, h, KEPT)
      ensures Curr(next, h) == |Handles(next, h)|
    {
      SamePositions(st.workers, next.workers, h, KEPT);
      assert Curr(st, h) == |Handles(st, h)|;
    }
  }

  lemma StepKeepsValid(st: State, step: Step)
    requires Valid(st)
    ensures Valid(Apply(st, step))
  {
    if step.ScalerStep? {
      if step.hid !in st.pausedAt {
        ScaleReachesDesired(st, step.hid, step.llen, step.s);
      }
    } else if step.DiscoveryStep? || step.EnsureStep? {
      StartStepsKeepValid(st, step);
    } else if step.PauseStep? {
      var next := Pause(st, step.hid, step.now, step.ready).0;
      PauseKeepsValid(st, step.hid, step.now, step.ready);
      OtherFieldsKeepValid(next, next.hids, next.stable - {step.hid});
    } else if step.ResumeStep? {
      ResumeKeepsValid(st, step.hid, step.ready, step.s);
    } else if step.AdjustStep? {
      if step.ready && step.hid !in st.pausedAt {
        AdjustMovesByFour(st, step.hid, step.delta, step.s);
      }
    } else if step.ConsumerDies? {
      DieKeepsValid(st, step.k);
    } else {
      VisitKeepsValid(st, step.hid, step.health, step.required, step.ready, step.s);
    }
  }

  /**
  At every state of every run, each channel's counter is the number of its stored handles, and
  these are the handles of its running consumers and of those whose loop has panicked: they are
  those of the running ones exactly when no stored handle belongs to a panicked one. A paused
  channel has none.
  */
  lemma {:induction false} RunKeepsValid(list: seq<int>, n: nat, steps: seq<Step>, hid: int)
    ensures var st := After(Begin(INIT.(hids := list), list, n), steps);
      && Valid(st)
      && Curr(st, hid) == |Handles(st, hid)| == |Live(st, hid)| + |DeadOnes(st, hid)|
      && (forall k | k in Live(st, hid) :: k in Handles(st, hid))
      && (Live(st, hid) == Handles(st, hid) <==> DeadOnes(st, hid) == [])
      && (hid in st.pausedAt ==> Curr(st, hid) == 0)
    decreases |steps|
  {
    if steps == [] {
      BeginIsValid(INIT.(hids := list), list, n);
    } else {
      var m := |steps| - 1;
      RunKeepsValid(list, n, steps[..m], hid);
      StepKeepsValid(After(Begin(INIT.(hids := list), list, n), steps[..m]), steps[m]);
    }
    LiveOrDead(After(Begin(INIT.(hids := list), list, n), steps), hid);
  }

  // Automatic resumption.

  /** requiredOpsResumeStableScans: how many scans of `seconds` the stable time is worth. */
  function RequiredScans(stableMinutes: int, scanSeconds: int): (n: nat)
    ensures n >= 1
    ensures stableMinutes > 0 && 0 < scanSeconds <= stableMinutes * 60 ==>
      n * scanSeconds <= stableMinutes * 60 < (n + 1) * scanSeconds
  {
    var seconds := if scanSeconds <= 0 then 60 else scanSeconds;
    var minutes := if stableMinutes <= 0 then 10 else stableMinutes;
    var n := minutes * 60 / seconds;
    DivisionBounds(minutes * 60, seconds);
    if n < 1 then 1 else n
  }

  lemma DivisionBounds(a: int, b: int)
    requires a >= 0 && b > 0
    ensures 0 <= a / b && a / b * b <= a < (a / b + 1) * b
    ensures b <= a ==> a / b >= 1
  {
  }

  predicate NewPause(st: State, step: Step, hid: int) {
    step.PauseStep? && step.hid == hid && hid !in st.pausedAt && hid in Apply(st, step).pausedAt
  }

  /** The last `n` visits to the channel found it healthy, and it was not newly paused since the first of them. */
  predicate StableSincePause(st: State, steps: seq<Step>, hid: int, n: nat)
    decreases |steps|
  {
    if n == 0 then true
    else if steps == [] then false
    else
      var m := |steps| - 1;
      var before, step := After(st, steps[..m]), steps[m];
      if step.VisitStep? && step.hid == hid then
        step.health == Healthy && StableSincePause(st, steps[..m], hid, n - 1)
      else !NewPause(before, step, hid) && StableSincePause(st, steps[..m], hid, n)
  }

  lemma OtherStepsKeepStable(st: State, step: Step, hid: int)
    requires !(step.VisitStep? && step.hid == hid) && !NewPause(st, step, hid)
    ensures Stable(Apply(st, step), hid) == Stable(st, hid) || Stable(Apply(st, step), hid) == 0
  {
  }

  lemma {:induction false} CountIsStable(st: State, steps: seq<Step>, hid: int)
    requires st.stable == map[]
    ensures StableSincePause(st, steps, hid, Stable(After(st, steps), hid))
    decreases |steps|
  {
    if steps != [] {
      var m := |steps| - 1;
      var before, step := After(st, steps[..m]), steps[m];
      CountIsStable(st, steps[..m], hid);
      if !(step.VisitStep? && step.hid == hid) && !NewPause(before, step, hid) {
        OtherStepsKeepStable(before, step, hid);
      }
    }
  }

  lemma {:induction false} FewerAreStable(st: State, steps: seq<Step>, hid: int, n: nat, m: nat)
    requires m <= n && StableSincePause(st, steps, hid, n)
    ensures StableSincePause(st, steps, hid, m)
    decreases |steps|
  {
    if m > 0 {
      var k := |steps| - 1;
      if steps[k].VisitStep? && steps[k].hid == hid {
        FewerAreStable(st, steps[..k], hid, n - 1, m - 1);
      } else {
        FewerAreStable(st, steps[..k], hid, n, m);
      }
    }
  }

  lemma ResumedByHealthyVisit(st: State, step: Step)
    requires step.VisitStep? && step.hid in st.pausedAt && step.hid !in Apply(st, step).pausedAt
    ensures step.health == Healthy && Stable(st, step.hid) + 1 >= step.required
  {
  }

  /**
  When a scan resumes a channel, the last `required` scans that visited it, this one included, all
  found it healthy, and it was not paused anew since the first of them.
  */
  lemma ResumedOnlyWhenStable(st: State, steps: seq<Step>, last: Step)
    requires st.stable == map[] && last.VisitStep?
    requires last.hid in After(st, steps).pausedAt && last.hid !in After(st, steps + [last]).pausedAt
    ensures StableSincePause(st, steps + [last], last.hid, last.required)
  {
    var all := steps + [last];
    assert all[..|steps|] == steps && all[|steps|] == last;
    ResumedByHealthyVisit(After(st, steps), last);
    CountIsStable(st, steps, last.hid);
    var n := Stable(After(st, steps), last.hid) + 1;
    assert StableSincePause(st, all, last.hid, n);
    FewerAreStable(st, all, last.hid, n, last.required);
  }

  function HealthyVisits(st: State, hid: int, required: nat, s: Settings, n: nat): State {
    if n == 0 then st else Visit(HealthyVisits(st, hid, required, s, n - 1), hid, Healthy, required, true, s)
  }

  /** After a pause, healthy scans resume the channel at the required one and not before. */
  lemma {:induction false} HealthyScansResume(st: State, hid: int, required: nat, s: Settings, n: nat)
    requires Valid(st) && hid in st.pausedAt && hid in st.hids && hid !in st.stable
    requires 1 <= required && n <= required
    ensures var after := HealthyVisits(st, hid, required, s, n);
      && (n < required ==> after.(stable := st.stable) == st && Stable(after, hid) == n)
      && (n == required ==> hid !in after.pausedAt && Curr(after, hid) == s.min && Stable(after, hid) == 0)
    decreases n
  {
    if n > 0 {
      var before := HealthyVisits(st, hid, required, s, n - 1);
      HealthyScansResume(st, hid, required, s, n - 1);
      var counted := before.(stable := before.stable[hid := n]);
      OtherFieldsKeepValid(st, st.hids, counted.stable);
      ResumeKeepsValid(counted, hid, true, s);
    }
  }
}
