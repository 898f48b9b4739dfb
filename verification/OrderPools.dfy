/**
 The hand-over of a locked order between the consumer, the submit pool and the confirm pool,
 with the lock objects that are passed along.
 */
module OrderPools {
  import opened OrderStore
  import opened Resubmit
  import opened OrderHandlers
  import opened OrderEngine
  import opened Wrappers

  /** An acquired lock: its key, its token, and whether its stop channel is closed. */
  class LockHandle {
    const oid: int
    const token: nat
    var stopClosed: bool
    var releases: nat

    constructor (oid: int, token: nat)
      ensures this.oid == oid && this.token == token && !stopClosed && releases == 0
    {
      this.oid, this.token := oid, token;
      stopClosed, releases := false, 0;
    }
  }

  datatype SubmitJob = SubmitJob(lock: LockHandle, hid: int, m: Msg)
  datatype ConfirmJob = ConfirmJob(lock: LockHandle, hid: int, m: Msg, out: Outcome)

  /**
   What the environment decides while a message is worked on: the consumer's reads of the
   submitted hash and of the row, the reply of the upstream call, whether the two pool channels
   accept a job within the waiting time, the clock, the settings, storage faults, and whether the
   deletion of the lock key gets through.
   */
  datatype Circumstances = Circumstances(
    hashRead: bool, tableRead: bool, out: Outcome, submitRoom: bool, confirmRoom: bool,
    now: int, settings: Settings, io: Io, deleted: bool)

  predicate TimedOut(out: Outcome) {
    out.Failure? && out.timeout
  }

  /** The upstream call timed out and the confirm pool did not take the job. */
  predicate FallsBack(out: Outcome, room: bool) {
    TimedOut(out) && !room
  }

  /** Where a lock is after a piece of work: in a job of one of the pools, or released so many times. */
  datatype Place = AtSubmitPool | AtConfirmPool | Over(releases: nat)

  function Unlock(s: Store, oid: int, token: nat, deleted: bool): Store {
    if deleted then s.DelLockIfHeld(oid, token) else s
  }

  function AfterConfirm(s: Store, token: nat, hid: int, m: Msg, out: Outcome, c: Circumstances): Store
    requires out.Failure?
  {
    Unlock(Confirm(s, c.settings, hid, m, out, c.now, c.io), m.oid, token, c.deleted)
  }

  /** The upstream call has returned: finalize, and release unless the lock was handed on. */
  function AfterOutcome(s: Store, token: nat, hid: int, m: Msg, c: Circumstances): (Store, Place) {
    if TimedOut(c.out) then
      if c.confirmRoom then (s, AtConfirmPool) else (AfterConfirm(s, token, hid, m, c.out, c), Over(2))
    else (Unlock(Finalize(s, c.settings, hid, m, c.out, c.now, c.io), m.oid, token, c.deleted), Over(1))
  }

  predicate KnownFromHash(s: Store, m: Msg, c: Circumstances) {
    c.hashRead && m.oid in s.submitted
  }

  predicate KnownFromTable(s: Store, m: Msg, c: Circumstances) {
    c.tableRead && s.SucceededInTable(m.oid)
  }

  /** The consumer's work on a locked message. */
  function AfterLocked(s: Store, token: nat, hid: int, m: Msg, c: Circumstances): (Store, Place) {
    if KnownFromHash(s, m, c) then
      (Unlock(RepairSubmitted(s, hid, m, c.io), m.oid, token, c.deleted), Over(1))
    else if KnownFromTable(s, m, c) then
      (Unlock(Settle(s, hid, m, s.TableYid(m.oid), c.io), m.oid, token, c.deleted), Over(1))
    else if c.submitRoom then (s, AtSubmitPool)
    else AfterOutcome(s, token, hid, m, c)
  }

  ghost predicate DistinctLocks(locks: seq<LockHandle>) {
    forall i, j | 0 <= i < j < |locks| :: locks[i] != locks[j]
  }

  lemma AlsoDistinct(a: seq<LockHandle>, lock: LockHandle, b: seq<LockHandle>)
    requires DistinctLocks(a + b) && lock !in a + b
    ensures DistinctLocks(a + [lock] + b)
  {
    var c := a + [lock] + b;
    forall i, j | 0 <= i < j < |c| ensures c[i] != c[j] {
      assert i != |a| ==> c[i] == (a + b)[if i < |a| then i else i - 1];
      assert j != |a| ==> c[j] == (a + b)[if j < |a| then j else j - 1];
    }
  }

  lemma StillDistinct(a: seq<LockHandle>, lock: LockHandle, b: seq<LockHandle>)
    requires DistinctLocks(a + [lock] + b)
    ensures DistinctLocks(a + b) && lock !in a + b
  {
    var c := a + [lock] + b;
    forall i | 0 <= i < |a + b| ensures (a + b)[i] != lock {
      assert (a + b)[i] == c[if i < |a| then i else i + 1] && lock == c[|a|];
    }
    forall i, j | 0 <= i < j < |a + b| ensures (a + b)[i] != (a + b)[j] {
      assert (a + b)[i] == c[if i < |a| then i else i + 1];
      assert (a + b)[j] == c[if j < |a| then j else j + 1];
    }
  }

  ghost function SubmitLocks(jobs: seq<SubmitJob>): seq<LockHandle> {
    seq(|jobs|, i requires 0 <= i < |jobs| => jobs[i].lock)
  }

  ghost function ConfirmLocks(jobs: seq<ConfirmJob>): seq<LockHandle> {
    seq(|jobs|, i requires 0 <= i < |jobs| => jobs[i].lock)
  }

  class Pools {
    const engine: Engine
    var submitJobs: seq<SubmitJob>
    var confirmJobs: seq<ConfirmJob>
    /** The locks that are in no worker's hands: in a job, or done with; and those that fell back. */
    ghost var placed: set<LockHandle>
    ghost var fellBack: set<LockHandle>

    /** The locks of the jobs that wait. */
    ghost function Waiting(): seq<LockHandle>
      reads this`submitJobs, this`confirmJobs
    {
      SubmitLocks(submitJobs) + ConfirmLocks(confirmJobs)
    }

    /**
     Every lock is in exactly one job and open, or in none and released: once, or twice after a
     fallback.
     */
    ghost predicate Valid()
      reads this, placed
    {
      && DistinctLocks(Waiting())
      && (forall l | l in Waiting() ::
            l in placed && !l.stopClosed && l.releases == 0 && l !in fellBack)
      && (forall l | l in placed && l !in Waiting() ::
            l.stopClosed && l.releases == if l in fellBack then 2 else 1)
      && (forall j | j in submitJobs :: j.lock.oid == j.m.oid)
      && (forall j | j in confirmJobs :: j.lock.oid == j.m.oid && j.out.Failure?)
      && fellBack <= placed
    }

    /** A lock that is in nobody else's hands. */
    predicate InHand(lock: LockHandle)
      reads lock
    {
      !lock.stopClosed && lock.releases == 0
    }

    constructor (engine: Engine)
      ensures this.engine == engine && submitJobs == [] && confirmJobs == [] && placed == {} && Valid()
    {
      this.engine := engine;
      submitJobs, confirmJobs := [], [];
      placed, fellBack := {}, {};
    }

    /** Release closes the stop channel first; closing it a second time panics. */
    method Release(lock: LockHandle, deleted: bool) returns (panics: bool)
      modifies lock, engine`locks
      ensures lock.releases == old(lock.releases) + 1 && lock.stopClosed
      ensures panics == old(lock.stopClosed)
      ensures engine.View() ==
        if panics then old(engine.View()) else Unlock(old(engine.View()), lock.oid, lock.token, deleted)
    {
      lock.releases := lock.releases + 1;
      if lock.stopClosed {
        return true;
      }
      lock.stopClosed := true;
      if deleted && lock.oid in engine.locks && engine.locks[lock.oid] == lock.token {
        engine.locks := engine.locks - {lock.oid};
      }
      return false;
    }

    /** runSubmitTimeoutConfirmation, in a confirm worker or in the caller's own thread. */
    method RunSubmitTimeoutConfirmation(job: ConfirmJob, c: Circumstances)
      requires InHand(job.lock) && job.lock.oid == job.m.oid && job.out.Failure?
      modifies engine, job.lock
      ensures engine.View() == AfterConfirm(old(engine.View()), job.lock.token, job.hid, job.m, job.out, c)
      ensures job.lock.releases == 1 && job.lock.stopClosed
    {
      var oid := job.m.oid;
      if c.io.readHash && oid in engine.submitted {
        engine.DelMarker(oid);
        engine.LRem(Processing(job.hid), job.m);
      } else if FoundInTable(engine.View(), oid, c.io) {
        engine.SettleOrder(job.hid, job.m, engine.rows[oid].yid, c.io);
      } else {
        var retried := false;
        if c.settings.enabled && c.settings.retryOnTimeout {
          retried := engine.TryHandleSubmitRetry(
            job.hid, job.m, c.settings, job.out.terminal, job.out.retryable, c.now, c.io);
        }
        if !retried {
          engine.MarkOrderTerminalFailure(job.hid, job.m, true, c.io);
        }
      }
      var _ := Release(job.lock, c.deleted);
    }

    method TryDispatchConfirmPool(job: ConfirmJob, room: bool) returns (ok: bool)
      requires Valid() && job.lock !in placed && InHand(job.lock)
      requires job.lock.oid == job.m.oid && job.out.Failure?
      modifies this`confirmJobs, this`placed
      ensures ok == room && Valid()
      ensures confirmJobs == if ok then old(confirmJobs) + [job] else old(confirmJobs)
      ensures placed == if ok then old(placed) + {job.lock} else old(placed)
    {
      ok := room;
      if ok {
        confirmJobs := confirmJobs + [job];
        placed := placed + {job.lock};
        assert Waiting() == old(Waiting()) + [job.lock];
      }
    }

    method TryDispatchSubmitPool(job: SubmitJob, room: bool) returns (ok: bool)
      requires Valid() && job.lock !in placed && InHand(job.lock) && job.lock.oid == job.m.oid
      modifies this`submitJobs, this`placed
      ensures ok == room && Valid()
      ensures submitJobs == if ok then old(submitJobs) + [job] else old(submitJobs)
      ensures placed == if ok then old(placed) + {job.lock} else old(placed)
    {
      ok := room;
      if ok {
        ghost var a := SubmitLocks(submitJobs);
        submitJobs := submitJobs + [job];
        placed := placed + {job.lock};
        AlsoDistinct(a, job.lock, ConfirmLocks(confirmJobs));
        assert SubmitLocks(submitJobs) == a + [job.lock];
      }
    }

    /**
     finalizeSubmitOutcome. True means that the lock went to the confirm pool. After the
     fallback the lock is already released although the result is false.
     */
    method FinalizeSubmitOutcome(lock: LockHandle, hid: int, m: Msg, c: Circumstances) returns (handedOff: bool)
      requires Valid() && lock !in placed && InHand(lock) && lock.oid == m.oid
      modifies engine, lock, this`confirmJobs, this`placed
      ensures Valid() && handedOff == (TimedOut(c.out) && c.confirmRoom)
      ensures handedOff ==> InHand(lock) && engine.View() == old(engine.View())
      ensures confirmJobs ==
        if handedOff then old(confirmJobs) + [ConfirmJob(lock, hid, m, c.out)] else old(confirmJobs)
      ensures placed == if handedOff then old(placed) + {lock} else old(placed)
      ensures lock.stopClosed == FallsBack(c.out, c.confirmRoom)
      ensures lock.releases == if FallsBack(c.out, c.confirmRoom) then 1 else 0
      ensures !handedOff && TimedOut(c.out) ==>
        engine.View() == AfterConfirm(old(engine.View()), lock.token, hid, m, c.out, c)
      ensures !TimedOut(c.out) ==>
        engine.View() == Finalize(old(engine.View()), c.settings, hid, m, c.out, c.now, c.io)
    {
      handedOff := false;
      if c.out.Success? {
        engine.SettleOrder(hid, m, c.out.yid, c.io);
        return;
      }
      if c.out.timeout {
        var job := ConfirmJob(lock, hid, m, c.out);
        handedOff := TryDispatchConfirmPool(job, c.confirmRoom);
        if !handedOff {
          RunSubmitTimeoutConfirmation(job, c);
        }
        return;
      }
      if c.out.badOid && FoundInTable(engine.View(), m.oid, c.io) {
        engine.SettleOrder(hid, m, engine.rows[m.oid].yid, c.io);
        return;
      }
      var retried := engine.TryHandleSubmitRetry(
        hid, m, c.settings, c.out.terminal, c.out.retryable, c.now, c.io);
      if !retried {
        engine.MarkOrderTerminalFailure(hid, m, false, c.io);
      }
    }

    /** The place of a lock after a piece of work, read off the queues and the lock itself. */
    twostate predicate LiesAt(lock: LockHandle, hid: int, m: Msg, out: Outcome, place: Place)
      reads this, lock
    {
      && placed == old(placed) + {lock}
      && submitJobs == (if place.AtSubmitPool? then old(submitJobs) + [SubmitJob(lock, hid, m)] else old(submitJobs))
      && confirmJobs ==
           (if place.AtConfirmPool? then old(confirmJobs) + [ConfirmJob(lock, hid, m, out)] else old(confirmJobs))
      && lock.releases == (if place.Over? then place.releases else 0)
      && lock.stopClosed == place.Over?
      && fellBack == (if place == Over(2) then old(fellBack) + {lock} else old(fellBack))
    }

    /** The deferred Release of the caller, unless the lock was handed on; panics after a fallback. */
    method ReleaseUnless(handedOff: bool, lock: LockHandle, deleted: bool) returns (panics: bool)
      requires Valid() && (if handedOff then lock in placed else lock !in placed)
      requires !handedOff ==> lock.releases == if lock.stopClosed then 1 else 0
      modifies lock, engine`locks, this`placed, this`fellBack
      ensures Valid() && panics == (!handedOff && old(lock.stopClosed))
      ensures handedOff ==> lock.releases == old(lock.releases) && lock.stopClosed == old(lock.stopClosed)
      ensures !handedOff ==> lock.releases == old(lock.releases) + 1 && lock.stopClosed
      ensures placed == old(placed) + {lock}
      ensures fellBack == if panics then old(fellBack) + {lock} else old(fellBack)
      ensures engine.View() ==
        if handedOff || panics then old(engine.View())
        else Unlock(old(engine.View()), lock.oid, lock.token, deleted)
    {
      panics := false;
      if !handedOff {
        panics := Release(lock, deleted);
        placed := placed + {lock};
        if panics {
          fellBack := fellBack + {lock};
        }
      }
    }

    /**
     runSubmitPoolJob: submit, finalize, and release unless the lock was handed on. The release
     panics exactly when the submission timed out and the confirm pool was full.
     */
    method RunSubmitPoolJob(job: SubmitJob, c: Circumstances) returns (panics: bool)
      requires Valid() && job.lock !in placed && InHand(job.lock) && job.lock.oid == job.m.oid
      modifies engine, job.lock, this`confirmJobs, this`placed, this`fellBack
      ensures Valid()
      ensures var (s, place) := AfterOutcome(old(engine.View()), job.lock.token, job.hid, job.m, c);
        engine.View() == s && LiesAt(job.lock, job.hid, job.m, c.out, place) && panics == (place == Over(2))
    {
      var handedOff := FinalizeSubmitOutcome(job.lock, job.hid, job.m, c);
      panics := ReleaseUnless(handedOff, job.lock, c.deleted);
    }

    /** The consumer's status checks: an order that is known to have gone through is cleaned up. */
    method CleanUpRecorded(hid: int, m: Msg, c: Circumstances) returns (known: bool)
      modifies engine
      ensures known == (KnownFromHash(old(engine.View()), m, c) || KnownFromTable(old(engine.View()), m, c))
      ensures engine.View() ==
        if KnownFromHash(old(engine.View()), m, c) then RepairSubmitted(old(engine.View()), hid, m, c.io)
        else if known then Settle(old(engine.View()), hid, m, old(engine.View()).TableYid(m.oid), c.io)
        else old(engine.View())
    {
      known := true;
      if c.hashRead && m.oid in engine.submitted {
        var yid := engine.submitted[m.oid];
        var ok := engine.UpdateOrderStatusSubmitted(m.oid, yid, c.io);
        if ok {
          engine.DelMarker(m.oid);
          engine.LRem(Processing(hid), m);
        } else {
          engine.MarkOrderTerminalFailure(hid, m, false, c.io);
        }
      } else if c.tableRead && engine.View().SucceededInTable(m.oid) {
        engine.SettleOrder(hid, m, engine.rows[m.oid].yid, c.io);
      } else {
        known := false;
      }
    }

    /** The consumer's closure around one locked message. */
    method HandleLockedMessage(lock: LockHandle, hid: int, m: Msg, c: Circumstances) returns (panics: bool)
      requires Valid() && lock !in placed && InHand(lock) && lock.oid == m.oid
      modifies engine, lock, this`submitJobs, this`confirmJobs, this`placed, this`fellBack
      ensures Valid()
      ensures var (s, place) := AfterLocked(old(engine.View()), lock.token, hid, m, c);
        engine.View() == s && LiesAt(lock, hid, m, c.out, place) && panics == (place == Over(2))
    {
      var known := CleanUpRecorded(hid, m, c);
      var handOffLock := false;
      if !known {
        handOffLock := TryDispatchSubmitPool(SubmitJob(lock, hid, m), c.submitRoom);
        if !handOffLock {
          handOffLock := FinalizeSubmitOutcome(lock, hid, m, c);
        }
      }
      panics := ReleaseUnless(handOffLock, lock, c.deleted);
    }

    /**
     The consumer's loop up to the lock: BLMOVE, then SET NX of the lock key. A message whose lock
     is taken is dropped; one whose lock cannot be reached goes back to the queue if a push works.
     */
    method TakeAndLock(hid: int, token: nat, reachable: bool, attempts: seq<bool>)
      returns (m: Option<Msg>, lock: LockHandle?)
      requires |attempts| == 3
      modifies engine`lists, engine`locks
      ensures m.Some? <==> old(engine.View()).List(Queue(hid)) != []
      ensures m.None? ==> lock == null && engine.View() == old(engine.View())
      ensures m.Some? ==>
        var q := old(engine.View()).List(Queue(hid));
        var moved := old(engine.View()).Move(hid);
        && m.value == q[|q| - 1]
        && (lock != null <==> reachable && m.value.oid !in old(engine.locks))
        && engine.View() ==
             if !reachable then Requeue(moved, hid, m.value, ALL_WELL.(push := true in attempts))
             else if lock == null then moved.LRem(Processing(hid), m.value)
             else moved.SetLock(m.value.oid, token)
      ensures lock != null ==> fresh(lock) && lock.oid == m.value.oid && lock.token == token && InHand(lock)
    {
      lock := null;
      var q := engine.View().List(Queue(hid));
      if q == [] {
        return None, null;
      }
      var msg := q[|q| - 1];
      m := Some(msg);
      engine.lists := engine.lists[Queue(hid) := q[..|q| - 1]];
      engine.LPush(Processing(hid), msg);
      if !reachable {
        var ok := engine.RequeueFromProcessing(hid, msg, attempts);
        return;
      }
      if msg.oid in engine.locks {
        engine.LRem(Processing(hid), msg);
        return;
      }
      engine.locks := engine.locks[msg.oid := token];
      lock := new LockHandle(msg.oid, token);
    }

    /** One turn of the consumer's loop. */
    method Consume(hid: int, token: nat, reachable: bool, attempts: seq<bool>, c: Circumstances)
      returns (panics: bool)
      requires Valid() && |attempts| == 3
      modifies engine, this`submitJobs, this`confirmJobs, this`placed, this`fellBack
      ensures Valid() && old(placed) <= placed && forall l | l in placed - old(placed) :: fresh(l)
      ensures placed != old(placed) <==>
        var q := old(engine.View()).List(Queue(hid)); q != [] && reachable && q[|q| - 1].oid !in old(engine.locks)
      ensures placed != old(placed) ==>
        var q := old(engine.View()).List(Queue(hid));
        var m := q[|q| - 1];
        var (s, place) := AfterLocked(old(engine.View()).Move(hid).SetLock(m.oid, token), token, hid, m, c);
        engine.View() == s && panics == (place == Over(2))
    {
      panics := false;
      var m, lock := TakeAndLock(hid, token, reachable, attempts);
      if lock != null {
        panics := HandleLockedMessage(lock, hid, m.value, c);
        assert lock in placed && lock !in old(placed);
      }
    }

    /** Receiving from the submit pool's channel: the lock of the job is in the worker's hands. */
    method NextSubmitJob() returns (job: SubmitJob)
      requires Valid() && submitJobs != []
      modifies this`submitJobs, this`placed
      ensures Valid() && job == old(submitJobs[0]) && submitJobs == old(submitJobs[1..])
      ensures job.lock in old(placed) && placed == old(placed) - {job.lock}
      ensures InHand(job.lock) && job.lock.oid == job.m.oid
    {
      job := submitJobs[0];
      ghost var b := SubmitLocks(submitJobs[1..]) + ConfirmLocks(confirmJobs);
      assert Waiting() == [] + [job.lock] + b;
      StillDistinct([], job.lock, b);
      submitJobs := submitJobs[1..];
      placed := placed - {job.lock};
      assert Waiting() == [] + b;
    }

    method NextConfirmJob() returns (job: ConfirmJob)
      requires Valid() && confirmJobs != []
      modifies this`confirmJobs, this`placed
      ensures Valid() && job == old(confirmJobs[0]) && confirmJobs == old(confirmJobs[1..])
      ensures job.lock in old(placed) && placed == old(placed) - {job.lock} && job.lock !in fellBack
      ensures InHand(job.lock) && job.lock.oid == job.m.oid && job.out.Failure?
    {
      job := confirmJobs[0];
      ghost var a, b := SubmitLocks(submitJobs), ConfirmLocks(confirmJobs[1..]);
      assert Waiting() == a + [job.lock] + b;
      StillDistinct(a, job.lock, b);
      confirmJobs := confirmJobs[1..];
      placed := placed - {job.lock};
    }

    /** A worker of the submit pool takes the first job; it needs to know nothing about its lock. */
    method SubmitPoolWorker(c: Circumstances) returns (panics: bool)
      requires Valid() && submitJobs != []
      modifies engine, submitJobs[0].lock, this`submitJobs, this`confirmJobs, this`placed, this`fellBack
      ensures Valid() && placed == old(placed)
      ensures var job := old(submitJobs[0]);
        var (s, place) := AfterOutcome(old(engine.View()), job.lock.token, job.hid, job.m, c);
        && engine.View() == s && panics == (place == Over(2))
        && submitJobs == old(submitJobs[1..])
        && confirmJobs == old(confirmJobs) +
             (if place == AtConfirmPool then [ConfirmJob(job.lock, job.hid, job.m, c.out)] else [])
        && job.lock.releases == (if place.Over? then place.releases else 0)
        && fellBack == old(fellBack) + (if panics then {job.lock} else {})
    {
      var job := NextSubmitJob();
      panics := RunSubmitPoolJob(job, c);
    }

    /** A worker of the confirm pool takes the first job. */
    method ConfirmPoolWorker(c: Circumstances)
      requires Valid() && confirmJobs != []
      modifies engine, confirmJobs[0].lock, this`confirmJobs, this`placed
      ensures Valid() && placed == old(placed) && confirmJobs == old(confirmJobs[1..])
      ensures var job := old(confirmJobs[0]);
        && engine.View() == AfterConfirm(old(engine.View()), job.lock.token, job.hid, job.m, job.out, c)
        && job.lock.releases == 1
    {
      var job := NextConfirmJob();
      RunSubmitTimeoutConfirmation(job, c);
      placed := placed + {job.lock};
    }
  }
}
