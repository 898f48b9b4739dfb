/**
 Retries over runs: every message with retry count R, stored in a list or the retry schedule or worked
 on by a consumer, went through exactly R waits in the retry schedule, and these waits are bounded.
 */
module OrderLineage {
  import opened OrderStore
  import opened Resubmit
  import opened OrderHandlers
  import opened OrderProtocol
  import opened OrderRuns
  import opened OrderDedup

  ghost predicate Unscrambled(w: World, step: Step) {
    !step.Scramble?
  }

  // Where messages come from.

  ghost predicate InLists(s: Store, m: Msg) {
    exists k: ListKey :: m in s.List(k)
  }

  ghost predicate InSchedule(s: Store, m: Msg) {
    exists hid: int :: m in s.Retries(hid)
  }

  ghost predicate InSession(w: World, m: Msg) {
    exists sid: nat :: sid in w.sessions && w.sessions[sid].m == m
  }

  /** The message is stored in some list or schedule, or a consumer works on it. */
  ghost predicate Known(w: World, m: Msg) {
    InLists(w.store, m) || InSchedule(w.store, m) || InSession(w, m)
  }

  ghost predicate Belongs(m: Msg, hid: int) {
    m.hid == hid && m.r >= 0
  }

  /** Every message is kept in its own channel, with a count that is not negative. */
  ghost predicate Routed(w: World) {
    && (forall k: ListKey, m | m in w.store.List(k) :: Belongs(m, k.hid))
    && (forall hid: int, m | m in w.store.Retries(hid) :: Belongs(m, hid))
    && (forall sid | sid in w.sessions :: Belongs(w.sessions[sid].m, w.sessions[sid].hid))
  }

  /** The message was in the list before, or is the handled one, or a fresh one. */
  predicate Allowed(s: Store, k: ListKey, x: Msg, hid: int, m: Msg) {
    x in s.List(k) || (k.hid == hid && (x == m || (x.hid == hid && x.r == 0)))
  }

  /**
  Work on message `m` of channel `hid`: it may move between the channel's lists, a fresh message
  may join it, and with one retry more it may enter the channel's schedule.
  */
  ghost predicate From(s: Store, t: Store, hid: int, m: Msg) {
    && (forall k: ListKey, x | x in t.List(k) ::
          Allowed(s, k, x, hid, m))
    && (forall h: int, x | x in t.Retries(h) :: x in s.Retries(h) || (h == hid && x == Retried(m)))
  }

  ghost predicate NothingNew(s: Store, t: Store) {
    forall h: int, x | x in t.Retries(h) :: x in s.Retries(h)
  }

  /** The same with the schedule left alone. */
  ghost predicate FromLists(s: Store, t: Store, hid: int, m: Msg) {
    From(s, t, hid, m) && t.retries == s.retries
  }

  lemma FromListsIf(s: Store, t: Store, hid: int, m: Msg)
    requires t.retries == s.retries
    requires forall k: ListKey, x | x in t.List(k) ::
      Allowed(s, k, x, hid, m)
    ensures FromLists(s, t, hid, m) && NothingNew(s, t)
  {
    forall h: int, x | x in t.Retries(h) ensures x in s.Retries(h) {
      assert t.Retries(h) == s.Retries(h);
    }
  }

  lemma LRemFrom(s: Store, k: ListKey, m: Msg)
    ensures forall j: ListKey, x | x in s.LRem(k, m).List(j) :: x in s.List(j)
  {
    RemoveFirstSubset(s.List(k), m);
  }

  /** Writes to rows, hash, locks and markers do not matter, and removals of messages neither. */
  lemma FromRemoval(s: Store, t: Store, k: ListKey, hid: int, m: Msg)
    requires t.lists == s.lists || t.lists == s.LRem(k, m).lists
    requires t.retries == s.retries
    ensures FromLists(s, t, hid, m) && NothingNew(s, t)
  {
    LRemFrom(s, k, m);
    forall j: ListKey, x | x in t.List(j) ensures x in s.List(j) {
      if t.lists != s.lists {
        assert x in s.LRem(k, m).List(j);
      }
    }
    FromListsIf(s, t, hid, m);
  }

  lemma SettleFrom(s: Store, hid: int, m: Msg, yid: string, io: Io)
    ensures FromLists(s, Settle(s, hid, m, yid, io), hid, m) && NothingNew(s, Settle(s, hid, m, yid, io))
    ensures var t := Drop(WriteDone(s, m.oid, yid, io), hid, m); FromLists(s, t, hid, m) && NothingNew(s, t)
  {
    FromRemoval(s, Settle(s, hid, m, yid, io), Processing(hid), hid, m);
    FromRemoval(s, Drop(WriteDone(s, m.oid, yid, io), hid, m), Processing(hid), hid, m);
  }

  lemma GiveUpFrom(s: Store, hid: int, m: Msg, newStatus: bool, io: Io)
    ensures var t := GiveUp(s, hid, m, newStatus, io); FromLists(s, t, hid, m) && NothingNew(s, t)
  {
    var d, t := s.LRem(Processing(hid), m), GiveUp(s, hid, m, newStatus, io);
    LRemFrom(s, Processing(hid), m);
    forall k: ListKey, x | x in t.List(k) ensures x in s.List(k) || (k.hid == hid && x == m) {
      if k == DeadLetter(hid) {
        assert t.List(k) == [m] + s.List(k);
      } else {
        assert t.List(k) == d.List(k);
      }
    }
    FromListsIf(s, t, hid, m);
  }

  lemma RetryFrom(s: Store, hid: int, m: Msg, settings: Settings, now: int)
    ensures var t := Retry(s, hid, m, settings, now);
      && From(s, t, hid, m)
      && t.Retries(hid)[Retried(m)] == now + RetryDelay(settings, m.r + 1)
      && (forall h: int, x | x in t.Retries(h) && x !in s.Retries(h) :: h == hid && x == Retried(m))
  {
    var d, t := s.LRem(Processing(hid), m), Retry(s, hid, m, settings, now);
    LRemFrom(s, Processing(hid), m);
    forall k: ListKey, x | x in t.List(k) ensures x in s.List(k) {
      assert t.List(k) == d.List(k);
    }
  }

  lemma EnqueueFrom(s: Store, hid: int, m: Msg, io: Io)
    ensures FromLists(s, Enqueue(s, hid, m, io), hid, m) && NothingNew(s, Enqueue(s, hid, m, io))
  {
    var t := Enqueue(s, hid, m, io);
    forall k: ListKey, x | x in t.List(k) ensures x in s.List(k) || (k.hid == hid && x == m) {
      if t != s && k == Queue(hid) {
        assert t.List(k) == [m] + s.List(k);
      }
    }
    FromListsIf(s, t, hid, m);
  }

  lemma RequeueFrom(s: Store, hid: int, m: Msg, io: Io)
    ensures FromLists(s, Requeue(s, hid, m, io), hid, m) && NothingNew(s, Requeue(s, hid, m, io))
  {
    var u, t := s.RPush(Queue(hid), m), Requeue(s, hid, m, io);
    LRemFrom(u, Processing(hid), m);
    forall k: ListKey, x | x in t.List(k) ensures x in s.List(k) || (k.hid == hid && x == m) {
      if io.push {
        assert x in u.List(k);
        if k == Queue(hid) {
          assert u.List(k) == s.List(k) + [m];
        }
      }
    }
    FromListsIf(s, t, hid, m);
  }

  lemma MoveFrom(s: Store, hid: int)
    requires s.List(Queue(hid)) != []
    ensures var q := s.List(Queue(hid)); FromLists(s, s.Move(hid), hid, q[|q| - 1]) && q[|q| - 1] in q
    ensures NothingNew(s, s.Move(hid))
  {
    var q, t := s.List(Queue(hid)), s.Move(hid);
    var m := q[|q| - 1];
    forall k: ListKey, x | x in t.List(k) ensures x in s.List(k) || (k.hid == hid && x == m) {
      if k == Processing(hid) {
        assert t.List(k) == [m] + s.List(k);
      } else if k == Queue(hid) {
        assert t.List(k) == q[..|q| - 1];
      }
    }
    FromListsIf(s, t, hid, m);
  }

  /** Either nothing enters the schedule, or the step is a retry that passed the guard on the count. */
  ghost predicate Handles(cfg: Config, s: Store, t: Store, hid: int, m: Msg, now: int) {
    || (From(s, t, hid, m) && NothingNew(s, t))
    || (&& From(s, t, hid, m)
        && m.r + 1 < cfg(hid).maxAttempts
        && Retried(m) in t.Retries(hid)
        && t.Retries(hid)[Retried(m)] == now + RetryDelay(cfg(hid), m.r + 1))
  }

  lemma FinalizeHandles(cfg: Config, s: Store, hid: int, m: Msg, out: Outcome, now: int, io: Io)
    requires out.Failure? ==> !out.timeout
    ensures Handles(cfg, s, Finalize(s, cfg(hid), hid, m, out, now, io), hid, m, now)
  {
    SettleFrom(s, hid, m, if out.Success? then out.yid else s.TableYid(m.oid), io);
    RetryFrom(s, hid, m, cfg(hid), now);
    GiveUpFrom(s, hid, m, false, io);
  }

  lemma ConfirmHandles(cfg: Config, s: Store, hid: int, m: Msg, out: Outcome, now: int, io: Io)
    requires out.Failure?
    ensures Handles(cfg, s, Confirm(s, cfg(hid), hid, m, out, now, io), hid, m, now)
  {
    FromRemoval(s, Drop(s, hid, m), Processing(hid), hid, m);
    SettleFrom(s, hid, m, s.TableYid(m.oid), io);
    RetryFrom(s, hid, m, cfg(hid), now);
    GiveUpFrom(s, hid, m, true, io);
  }

  lemma UnlockHandles(cfg: Config, s: Store, t: Store, oid: int, hid: int, m: Msg, now: int)
    requires Handles(cfg, s, t, hid, m, now)
    ensures Handles(cfg, s, t.DelLock(oid), hid, m, now)
  {
    var u := t.DelLock(oid);
    forall k: ListKey, x | x in u.List(k)
      ensures Allowed(s, k, x, hid, m)
    {
      assert x in t.List(k);
    }
    forall h: int, x | x in u.Retries(h) ensures x in s.Retries(h) || (h == hid && x == Retried(m)) {
      assert x in t.Retries(h);
    }
  }

  lemma ReapHandles(cfg: Config, s: Store, hid: int, m: Msg, now: int, io: Io)
    ensures Handles(cfg, s, ReapOne(s, cfg(hid), hid, m, now, io), hid, m, now)
  {
    var t :=
      if FoundInHash(s, m.oid, io) then Drop(WriteDone(s, m.oid, s.submitted[m.oid], io), hid, m)
      else if FoundInTable(s, m.oid, io) then Settle(s, hid, m, s.TableYid(m.oid), io)
      else if cfg(hid).enabled && m.r + 1 < cfg(hid).maxAttempts && io.zadd then Retry(s, hid, m, cfg(hid), now)
      else GiveUp(s, hid, m, true, io);
    SettleFrom(s, hid, m, if FoundInHash(s, m.oid, io) then s.submitted[m.oid] else s.TableYid(m.oid), io);
    RetryFrom(s, hid, m, cfg(hid), now);
    GiveUpFrom(s, hid, m, true, io);
    UnlockHandles(cfg, s, t, m.oid, hid, m, now);
  }

  lemma RollbackFrom(s: Store, hid: int, m: Msg, io: Io)
    ensures FromLists(s, RollbackOne(s, hid, m, io), hid, m) && NothingNew(s, RollbackOne(s, hid, m, io))
  {
    FromRemoval(s, RollbackOne(s, hid, m, io), Processing(hid), hid, m);
  }

  lemma DispatchFrom(s: Store, hid: int, m: Msg, now: int, io: Io)
    ensures From(s, DispatchOne(s, hid, m, now, io), hid, m)
    ensures NothingNew(s, DispatchOne(s, hid, m, now, io))
  {
    if m in s.Retries(hid) {
      var t := s.ZRem(hid, m);
      assert forall k: ListKey :: t.List(k) == s.List(k);
      EnqueueFrom(t, hid, m, io);
    }
  }

  lemma ScanFrom(s: Store, hid: int, m: Msg, now: int, io: Io)
    requires m.hid == hid
    ensures FromLists(s, ScanOne(s, hid, m, now, io), hid, m) && NothingNew(s, ScanOne(s, hid, m, now, io))
  {
    var d := s.LRem(DeadLetter(hid), m);
    LRemFrom(s, DeadLetter(hid), m);
    if FoundInHash(s, m.oid, io) || FoundInTable(s, m.oid, io) {
      FromRemoval(s, ScanOne(s, hid, m, now, io), DeadLetter(hid), hid, m);
    } else if m.oid in s.rows && s.rows[m.oid].dock.Failed? {
      var u, n := s.Reopen(m.oid).LRem(DeadLetter(hid), m), m.(r := 0, ts := now);
      assert forall k: ListKey :: u.List(k) == d.List(k);
      EnqueueFrom(u, hid, n, io);
    }
  }

  // The steps of a run.

  /** Every session is an old one, or has just taken the message. */
  ghost predicate SessionsFrom(w: World, v: World, hid: int, m: Msg) {
    forall sid | sid in v.sessions ::
      || (sid in w.sessions && w.sessions[sid].m == v.sessions[sid].m && w.sessions[sid].hid == v.sessions[sid].hid)
      || (v.sessions[sid].m == m && v.sessions[sid].hid == hid)
  }

  function Clock(step: Step): int {
    if step.Reap? || step.FinalizeOutcome? || step.ConfirmTimeout? then step.now else 0
  }

  /** The step is work on a message that is known, or fresh, and belongs to its channel. */
  ghost predicate WorksOn(cfg: Config, w: World, step: Step, hid: int, m: Msg)
    requires Enabled(w, step)
  {
    var v := Apply(cfg, w, step);
    && Belongs(m, hid) && (Known(w, m) || (m.r == 0 && NothingNew(w.store, v.store)))
    && Handles(cfg, w.store, v.store, hid, m, Clock(step))
    && SessionsFrom(w, v, hid, m)
  }

  const NO_MSG := Msg(0, 0, 0, 0)

  lemma SessionWorks(cfg: Config, w: World, step: Step) returns (hid: int, m: Msg)
    requires Routed(w) && Enabled(w, step) && OfSession(step)
    ensures WorksOn(cfg, w, step, hid, m)
  {
    hid, m := w.sessions[step.sid].hid, w.sessions[step.sid].m;
    assert InSession(w, m);
    SessionHandles(cfg, w, step);
    SessionStays(cfg, w, step);
  }

  lemma SessionStays(cfg: Config, w: World, step: Step)
    requires Enabled(w, step) && OfSession(step)
    ensures SessionsFrom(w, Apply(cfg, w, step), w.sessions[step.sid].hid, w.sessions[step.sid].m)
  {
  }

  lemma SessionHandles(cfg: Config, w: World, step: Step)
    requires Enabled(w, step) && OfSession(step)
    ensures var x := w.sessions[step.sid];
      Handles(cfg, w.store, Apply(cfg, w, step).store, x.hid, x.m, Clock(step))
  {
    var x, s := w.sessions[step.sid], w.store;
    var hid, m, t := x.hid, x.m, Apply(cfg, w, step).store;
    if step.Acquire? || step.CheckHash? || step.CheckTable? {
      CheckHandles(cfg, w, step);
    } else if step.FinalizeOutcome? && (x.phase.out.Success? || !x.phase.out.timeout) {
      FinalizeHandles(cfg, s, hid, m, x.phase.out, step.now, step.io);
    } else if step.ConfirmTimeout? {
      ConfirmHandles(cfg, s, hid, m, x.phase.out, step.now, step.io);
    } else {
      FromRemoval(s, t, Processing(hid), hid, m);
    }
  }

  /** Locking and the status checks. */
  lemma CheckHandles(cfg: Config, w: World, step: Step)
    requires Enabled(w, step) && (step.Acquire? || step.CheckHash? || step.CheckTable?)
    ensures var x := w.sessions[step.sid];
      Handles(cfg, w.store, Apply(cfg, w, step).store, x.hid, x.m, Clock(step))
  {
    var x, s := w.sessions[step.sid], w.store;
    var hid, m, t := x.hid, x.m, Apply(cfg, w, step).store;
    if step.Acquire? && !step.reachable {
      RequeueFrom(s, hid, m, step.io);
    } else if step.CheckHash? && step.readOk && m.oid in s.submitted {
      SettleFrom(s, hid, m, s.submitted[m.oid], step.io);
      GiveUpFrom(s, hid, m, false, step.io);
    } else if step.CheckTable? && step.readOk && s.SucceededInTable(m.oid) {
      SettleFrom(s, hid, m, s.TableYid(m.oid), step.io);
    } else {
      FromRemoval(s, t, Processing(hid), hid, m);
    }
  }

  lemma KeeperWorks(cfg: Config, w: World, step: Step) returns (hid: int, m: Msg)
    requires Routed(w) && Enabled(w, step) && (step.Reap? || step.Rollback? || step.Dispatch? || step.Scan?)
    ensures WorksOn(cfg, w, step, hid, m)
  {
    var s := w.store;
    hid, m := step.hid, step.m;
    if step.Reap? {
      assert InLists(s, m) && Belongs(m, hid);
      ReapHandles(cfg, s, hid, m, step.now, step.io);
    } else if step.Rollback? {
      assert InLists(s, m) && Belongs(m, hid);
      RollbackFrom(s, hid, m, step.io);
    } else if step.Scan? {
      assert InLists(s, m) && Belongs(m, hid);
      ScanFrom(s, hid, m, step.now, step.io);
    } else if m in s.Retries(hid) {
      assert InSchedule(s, m) && Belongs(m, hid);
      DispatchFrom(s, hid, m, step.now, step.io);
    } else {
      hid, m := 0, NO_MSG;
      FromRemoval(s, Apply(cfg, w, step).store, Processing(0), 0, NO_MSG);
    }
  }

  lemma StepWorks(cfg: Config, w: World, step: Step) returns (hid: int, m: Msg)
    requires Routed(w) && Enabled(w, step) && Unscrambled(w, step)
    ensures WorksOn(cfg, w, step, hid, m)
  {
    var s := w.store;
    if OfSession(step) {
      hid, m := SessionWorks(cfg, w, step);
    } else if step.Reap? || step.Rollback? || step.Dispatch? || step.Scan? {
      hid, m := KeeperWorks(cfg, w, step);
    } else if step.Take? {
      var q := s.List(Queue(step.hid));
      hid, m := step.hid, q[|q| - 1];
      MoveFrom(s, hid);
      assert InLists(s, m) && Belongs(m, hid);
    } else if (step.Produce? || step.Push?) && step.oid in s.rows {
      hid := s.rows[step.oid].hid;
      m := NewMsg(step.oid, hid, step.now);
      EnqueueFrom(s, hid, m, step.io);
      FromRemoval(s, s, Queue(hid), hid, m);
    } else {
      hid, m := 0, NO_MSG;
      FromRemoval(s, Apply(cfg, w, step).store, Processing(0), 0, NO_MSG);
    }
  }

  lemma WorkKeepsRouted(cfg: Config, w: World, step: Step, hid: int, m: Msg)
    requires Routed(w) && Enabled(w, step) && WorksOn(cfg, w, step, hid, m)
    ensures Routed(Apply(cfg, w, step))
  {
    var v := Apply(cfg, w, step);
    forall k: ListKey, x | x in v.store.List(k) ensures Belongs(x, k.hid) {
      assert Allowed(w.store, k, x, hid, m);
    }
    forall h: int, x | x in v.store.Retries(h) ensures Belongs(x, h) {
      assert x in w.store.Retries(h) || (h == hid && x == Retried(m));
    }
  }

  lemma {:induction false} RunRouted(cfg: Config, w: World, steps: seq<Step>)
    requires Routed(w) && IsRun(cfg, w, steps, Unscrambled)
    ensures Routed(Final(cfg, w, steps, Unscrambled))
    decreases |steps|
  {
    if steps != [] {
      var hid, m := StepWorks(cfg, w, steps[0]);
      WorkKeepsRouted(cfg, w, steps[0], hid, m);
      RunRouted(cfg, Apply(cfg, w, steps[0]), steps[1..]);
    }
  }

  // The waits of a message.

  ghost function WorldAt(cfg: Config, steps: seq<Step>, i: nat): World
    requires IsRun(cfg, INIT, steps, Unscrambled) && i <= |steps|
  {
    assert steps == steps[..i] + steps[i..];
    RunSplits(cfg, INIT, steps[..i], steps[i..], Unscrambled);
    Final(cfg, INIT, steps[..i], Unscrambled)
  }

  /** Step `at` of the run put message `m` into the retry schedule, `seconds` ahead. */
  datatype Wait = Wait(at: nat, m: Msg, seconds: int)

  ghost predicate Entered(cfg: Config, steps: seq<Step>, x: Wait)
    requires IsRun(cfg, INIT, steps, Unscrambled)
  {
    && x.at < |steps|
    && var s, t := WorldAt(cfg, steps, x.at).store, WorldAt(cfg, steps, x.at + 1).store;
    && x.m !in s.Retries(x.m.hid) && x.m in t.Retries(x.m.hid)
    && t.Retries(x.m.hid)[x.m] == Clock(steps[x.at]) + x.seconds
  }

  /** The waits that took a message from its first issue to the count it has, in the order of the run. */
  ghost predicate IsTrail(cfg: Config, steps: seq<Step>, waits: seq<Wait>, m: Msg)
    requires IsRun(cfg, INIT, steps, Unscrambled)
  {
    (forall j | 0 <= j < |waits| :: Entered(cfg, steps, waits[j])) && Chained(waits, m)
  }

  /** One after the other, each with a count one higher, from the first retry to the message. */
  ghost predicate Chained(waits: seq<Wait>, m: Msg) {
    && (forall i, j | 0 <= i < j < |waits| :: waits[i].at < waits[j].at)
    && (forall j | 0 < j < |waits| :: waits[j].m == Retried(waits[j - 1].m))
    && (if waits == [] then m.r == 0 else waits[0].m.r == 1 && waits[|waits| - 1].m == m)
  }

  lemma StepAt(cfg: Config, steps: seq<Step>, i: nat)
    requires IsRun(cfg, INIT, steps, Unscrambled) && i < |steps|
    ensures var w := WorldAt(cfg, steps, i);
      Enabled(w, steps[i]) && Unscrambled(w, steps[i]) && WorldAt(cfg, steps, i + 1) == Apply(cfg, w, steps[i])
    ensures Routed(WorldAt(cfg, steps, i))
  {
    assert steps == steps[..i] + steps[i..];
    RunSplits(cfg, INIT, steps[..i], steps[i..], Unscrambled);
    RunRouted(cfg, INIT, steps[..i]);
    AddStep(cfg, INIT, steps[..i], steps[i], Unscrambled);
    assert steps[..i + 1] == steps[..i] + [steps[i]];
  }

  /** What enters the schedule is a retry: below the limit, and the computed delay ahead. */
  lemma EntersByRetry(cfg: Config, steps: seq<Step>, x: Wait)
    requires IsRun(cfg, INIT, steps, Unscrambled) && Entered(cfg, steps, x)
    ensures 1 <= x.m.r < cfg(x.m.hid).maxAttempts && x.seconds == RetryDelay(cfg(x.m.hid), x.m.r)
    ensures exists p :: x.m == Retried(p) && Known(WorldAt(cfg, steps, x.at), p)
  {
    var w := WorldAt(cfg, steps, x.at);
    StepAt(cfg, steps, x.at);
    var hid, p := StepWorks(cfg, w, steps[x.at]);
    assert x.m.hid == hid && x.m == Retried(p);
    assert Known(w, p);
  }

  lemma TrailExtends(cfg: Config, steps: seq<Step>, step: Step, waits: seq<Wait>, m: Msg)
    requires IsRun(cfg, INIT, steps, Unscrambled) && IsTrail(cfg, steps, waits, m)
    requires IsRun(cfg, INIT, steps + [step], Unscrambled)
    ensures IsTrail(cfg, steps + [step], waits, m)
  {
    forall j | 0 <= j < |waits| ensures Entered(cfg, steps + [step], waits[j]) {
      EnteredExtends(cfg, steps, step, waits[j]);
    }
  }

  lemma EnteredExtends(cfg: Config, steps: seq<Step>, step: Step, x: Wait)
    requires IsRun(cfg, INIT, steps, Unscrambled) && Entered(cfg, steps, x)
    requires IsRun(cfg, INIT, steps + [step], Unscrambled)
    ensures Entered(cfg, steps + [step], x)
  {
    assert (steps + [step])[..x.at] == steps[..x.at] && (steps + [step])[..x.at + 1] == steps[..x.at + 1];
  }

  lemma NothingKnown(m: Msg)
    ensures !Known(INIT, m)
  {
  }

  lemma ListedBefore(cfg: Config, w: World, step: Step, hid: int, p: Msg, x: Msg)
    requires Routed(w) && Enabled(w, step) && WorksOn(cfg, w, step, hid, p)
    requires InLists(Apply(cfg, w, step).store, x)
    ensures Known(w, x) || x.r == 0
  {
    var v := Apply(cfg, w, step);
    var k: ListKey :| x in v.store.List(k);
    assert Allowed(w.store, k, x, hid, p);
    assert x in w.store.List(k) ==> InLists(w.store, x);
  }

  lemma WorkedOnBefore(cfg: Config, w: World, step: Step, hid: int, p: Msg, x: Msg)
    requires Routed(w) && Enabled(w, step) && WorksOn(cfg, w, step, hid, p)
    requires InSession(Apply(cfg, w, step), x)
    ensures Known(w, x) || x.r == 0
  {
    var v := Apply(cfg, w, step);
    var sid: nat :| sid in v.sessions && v.sessions[sid].m == x;
    assert sid in w.sessions && w.sessions[sid].m == x ==> InSession(w, x);
  }

  /** A message that is known after the last step was known before, or is fresh, or has just been scheduled. */
  lemma KnownAfter(cfg: Config, w: World, step: Step, hid: int, p: Msg, m: Msg)
    requires Routed(w) && Enabled(w, step) && WorksOn(cfg, w, step, hid, p)
    requires Known(Apply(cfg, w, step), m) && !Known(w, m) && m.r != 0
    ensures var v := Apply(cfg, w, step);
      && m == Retried(p) && m.hid == hid && m !in w.store.Retries(hid) && m in v.store.Retries(hid)
      && v.store.Retries(hid)[m] == Clock(step) + RetryDelay(cfg(hid), m.r)
  {
    var v := Apply(cfg, w, step);
    if InLists(v.store, m) {
      ListedBefore(cfg, w, step, hid, p, m);
    }
    if InSession(v, m) {
      WorkedOnBefore(cfg, w, step, hid, p, m);
    }
    assert InSchedule(v.store, m) && !InSchedule(w.store, m);
    ScheduledNow(cfg, w.store, v.store, hid, p, Clock(step), m);
  }

  /** What is in the schedule after a step and not before is the handled message's retry. */
  lemma ScheduledNow(cfg: Config, s: Store, t: Store, hid: int, p: Msg, now: int, m: Msg)
    requires Handles(cfg, s, t, hid, p, now) && p.hid == hid && InSchedule(t, m) && !InSchedule(s, m)
    ensures m == Retried(p) && m.hid == hid && m !in s.Retries(hid) && m in t.Retries(hid)
    ensures t.Retries(hid)[m] == now + RetryDelay(cfg(hid), m.r)
  {
    var h: int :| m in t.Retries(h);
    assert m !in s.Retries(h) && m !in s.Retries(hid);
  }

  /** Every message of a run, wherever it is stored or worked on, has come by as many waits as it counts. */
  lemma {:induction false} EveryMessageHasTrail(cfg: Config, steps: seq<Step>, m: Msg) returns (waits: seq<Wait>)
    requires IsRun(cfg, INIT, steps, Unscrambled) && Known(Final(cfg, INIT, steps, Unscrambled), m)
    ensures IsTrail(cfg, steps, waits, m)
    decreases |steps|, m.r
  {
    waits := [];
    if steps == [] {
      NothingKnown(m);
    } else if m.r != 0 {
      var n := |steps| - 1;
      var prev, step := steps[..n], steps[n];
      StepAt(cfg, steps, n);
      assert steps == prev + [step];
      RunSplits(cfg, INIT, prev, [step], Unscrambled);
      var w := WorldAt(cfg, steps, n);
      assert steps[..n + 1] == steps;
      if Known(w, m) {
        waits := EveryMessageHasTrail(cfg, prev, m);
        TrailExtends(cfg, prev, step, waits, m);
      } else {
        var hid, p := StepWorks(cfg, w, step);
        KnownAfter(cfg, w, step, hid, p, m);
        waits := LongerTrail(cfg, prev, step, p, Wait(n, m, RetryDelay(cfg(hid), m.r)));
      }
    }
  }

  lemma {:induction false} LongerTrail(cfg: Config, prev: seq<Step>, step: Step, p: Msg, last: Wait)
    returns (waits: seq<Wait>)
    requires IsRun(cfg, INIT, prev, Unscrambled) && IsRun(cfg, INIT, prev + [step], Unscrambled)
    requires Known(Final(cfg, INIT, prev, Unscrambled), p) || p.r == 0
    requires last.at == |prev| && last.m == Retried(p) && Entered(cfg, prev + [step], last)
    ensures IsTrail(cfg, prev + [step], waits, last.m)
    decreases |prev| + 1, 0
  {
    var steps := prev + [step];
    waits := [];
    if p.r != 0 {
      waits := EveryMessageHasTrail(cfg, prev, p);
      TrailBefore(cfg, prev, waits, p);
      TrailExtends(cfg, prev, step, waits, p);
    }
    AppendWait(cfg, steps, waits, p, last);
    waits := waits + [last];
  }

  lemma TrailBefore(cfg: Config, steps: seq<Step>, waits: seq<Wait>, m: Msg)
    requires IsRun(cfg, INIT, steps, Unscrambled) && IsTrail(cfg, steps, waits, m)
    ensures forall j | 0 <= j < |waits| :: waits[j].at < |steps|
  {
    assert forall j | 0 <= j < |waits| :: Entered(cfg, steps, waits[j]);
  }

  lemma AppendWait(cfg: Config, steps: seq<Step>, waits: seq<Wait>, p: Msg, last: Wait)
    requires IsRun(cfg, INIT, steps, Unscrambled) && IsTrail(cfg, steps, waits, p)
    requires last.m == Retried(p) && Entered(cfg, steps, last)
    requires forall j | 0 <= j < |waits| :: waits[j].at < last.at
    ensures IsTrail(cfg, steps, waits + [last], last.m)
  {
    var longer := waits + [last];
    forall j | 0 <= j < |longer| ensures Entered(cfg, steps, longer[j]) {
      assert j < |waits| ==> longer[j] == waits[j];
    }
    AppendChained(waits, p, last);
  }

  lemma AppendChained(waits: seq<Wait>, p: Msg, last: Wait)
    requires Chained(waits, p) && last.m == Retried(p) && forall j | 0 <= j < |waits| :: waits[j].at < last.at
    ensures Chained(waits + [last], last.m)
  {
    var longer := waits + [last];
    forall j | 0 < j < |longer| ensures longer[j].m == Retried(longer[j - 1].m) {
      assert longer[j - 1] == waits[j - 1];
    }
  }

  function TotalWait(waits: seq<Wait>): int {
    if waits == [] then 0 else TotalWait(waits[..|waits| - 1]) + waits[|waits| - 1].seconds
  }

  lemma {:induction false} TrailCounts(cfg: Config, steps: seq<Step>, waits: seq<Wait>, m: Msg, j: nat)
    requires IsRun(cfg, INIT, steps, Unscrambled) && IsTrail(cfg, steps, waits, m) && j < |waits|
    ensures waits[j].m.r == j + 1 && waits[j].m.hid == waits[0].m.hid
    ensures j + 1 < cfg(waits[0].m.hid).maxAttempts && waits[j].seconds == RetryDelay(cfg(waits[0].m.hid), j + 1)
    decreases j
  {
    assert Entered(cfg, steps, waits[j]);
    EntersByRetry(cfg, steps, waits[j]);
    if j > 0 {
      TrailCounts(cfg, steps, waits, m, j - 1);
      assert waits[j].m == Retried(waits[j - 1].m);
    }
  }

  lemma {:induction false} TotalIsBounded(waits: seq<Wait>, max: int)
    requires forall j | 0 <= j < |waits| :: waits[j].seconds <= max
    ensures TotalWait(waits) <= |waits| * max
    decreases |waits|
  {
    if waits != [] {
      var n := |waits| - 1;
      TotalIsBounded(waits[..n], max);
      assert |waits| * max == n * max + max;
    }
  }

  /**
  In every run whose lists are not tampered with, with expiries, crashes and the reaper at work:
  a message with count R is below the limit, and behind it lie R waits of the run, each the
  computed delay, none shorter than the one before, in total at most (MaxAttempts - 1) * MaxDelay.
  */
  lemma RetriesAreBounded(cfg: Config, steps: seq<Step>, m: Msg) returns (waits: seq<Wait>)
    requires NormalConfig(cfg) && IsRun(cfg, INIT, steps, Unscrambled)
    requires Known(Final(cfg, INIT, steps, Unscrambled), m)
    ensures IsTrail(cfg, steps, waits, m)
    ensures |waits| == m.r < cfg(m.hid).maxAttempts
    ensures forall j | 0 <= j < |waits| :: waits[j].seconds == RetryDelay(cfg(m.hid), j + 1)
    ensures forall i, j | 0 <= i <= j < |waits| :: waits[i].seconds <= waits[j].seconds
    ensures TotalWait(waits) <= m.r * cfg(m.hid).maxDelay <= (cfg(m.hid).maxAttempts - 1) * cfg(m.hid).maxDelay
  {
    waits := EveryMessageHasTrail(cfg, steps, m);
    var s := cfg(m.hid);
    assert Normal(s);
    TrailDelays(cfg, steps, waits, m);
    DelaysGrow(s, waits);
    TotalOfTrail(waits, m, s);
  }

  lemma TotalOfTrail(waits: seq<Wait>, m: Msg, s: Settings)
    requires |waits| == m.r < s.maxAttempts && 0 <= s.maxDelay
    requires forall j | 0 <= j < |waits| :: waits[j].seconds <= s.maxDelay
    ensures TotalWait(waits) <= m.r * s.maxDelay <= (s.maxAttempts - 1) * s.maxDelay
  {
    TotalIsBounded(waits, s.maxDelay);
    MulBound(m.r, s.maxAttempts - 1, s.maxDelay);
  }

  lemma TrailDelays(cfg: Config, steps: seq<Step>, waits: seq<Wait>, m: Msg)
    requires IsRun(cfg, INIT, steps, Unscrambled) && IsTrail(cfg, steps, waits, m)
    ensures |waits| == m.r && (waits != [] ==> m.r < cfg(m.hid).maxAttempts)
    ensures forall j | 0 <= j < |waits| :: waits[j].seconds == RetryDelay(cfg(m.hid), j + 1)
  {
    if waits != [] {
      TrailCounts(cfg, steps, waits, m, |waits| - 1);
    }
    forall j | 0 <= j < |waits| ensures waits[j].seconds == RetryDelay(cfg(m.hid), j + 1) {
      TrailCounts(cfg, steps, waits, m, j);
    }
  }

  lemma DelaysGrow(s: Settings, waits: seq<Wait>)
    requires Normal(s) && forall j | 0 <= j < |waits| :: waits[j].seconds == RetryDelay(s, j + 1)
    ensures forall i, j | 0 <= i <= j < |waits| :: waits[i].seconds <= waits[j].seconds
    ensures forall j | 0 <= j < |waits| :: waits[j].seconds <= s.maxDelay
  {
    forall i, j | 0 <= i <= j < |waits| ensures waits[i].seconds <= waits[j].seconds <= s.maxDelay {
      RetryDelayGrows(s, i + 1, j + 1);
    }
  }
}
