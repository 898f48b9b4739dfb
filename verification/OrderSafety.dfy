/** At most one upstream call per order returns success. */
module OrderSafety {
  import opened OrderStore
  import opened Resubmit
  import opened OrderHandlers
  import opened OrderProtocol

  // The result holds whatever happens to queues and enqueue markers, as long as a live holder keeps
  // its lock, a status read that would find a record succeeds, and one of the two success markers is
  // written before the process dies.

  ghost predicate Held(w: World, oid: int) {
    exists sid :: sid in w.sessions && w.sessions[sid].m.oid == oid && Holding(w.sessions[sid].phase)
  }

  ghost predicate Unrecorded(w: World) {
    exists sid :: sid in w.sessions && SuccessUnrecorded(w.sessions[sid].phase)
  }

  /** What the theorem asks of the environment, step by step. */
  ghost predicate Careful(w: World, step: Step) {
    match step
    case LockExpires(oid) => !Held(w, oid)
    case Reap(_, m, _, io) =>
      && !Held(w, m.oid)
      && (m.oid in w.store.submitted ==> io.readHash) && (w.store.SucceededInTable(m.oid) ==> io.readTable)
    case Rollback(_, m, _) => !Held(w, m.oid)
    case Crash => !Unrecorded(w)
    case CheckHash(sid, readOk, _) =>
      sid in w.sessions && w.sessions[sid].m.oid in w.store.submitted ==> readOk
    case CheckTable(sid, readOk, _) =>
      sid in w.sessions && w.store.SucceededInTable(w.sessions[sid].m.oid) ==> readOk
    case FinalizeOutcome(sid, _, _, io) =>
      sid in w.sessions && SuccessUnrecorded(w.sessions[sid].phase) ==>
        io.hash || (io.done && w.sessions[sid].m.oid in w.store.rows)
    case Release(sid, _) =>
      sid in w.sessions && w.sessions[sid].phase.ReleasedOnce? && w.sessions[sid].phase.owed.PoolWorker? ==>
        !Unrecorded(w)
    case _ => true
  }

  /** A holding session owns the stored token of its order. */
  ghost predicate OwnsLock(w: World, sid: nat)
    requires sid in w.sessions
  {
    var x := w.sessions[sid];
    Holding(x.phase) ==> x.m.oid in w.store.locks && w.store.locks[x.m.oid] == sid
  }

  /** What the phase of a session says about the successes of its order. */
  ghost predicate PhaseFits(w: World, x: Session) {
    && (Unsuccessful(x.phase) ==> w.wins[x.m.oid] == 0)
    && (x.phase.NotInHash? ==> w.wins[x.m.oid] == 0 || w.store.SucceededInTable(x.m.oid))
    && (x.phase.Confirming? ==> x.phase.out.Failure?)
    && (x.phase.InConfirmPool? ==> x.phase.out.Failure?)
  }

  /** A success is on record, or the session that saw it still holds the lock. */
  ghost predicate Accounted(w: World, oid: int) {
    w.wins[oid] > 0 ==>
      w.store.Recorded(oid) ||
      exists sid :: sid in w.sessions && w.sessions[sid].m.oid == oid && SuccessUnrecorded(w.sessions[sid].phase)
  }

  ghost predicate Safe(w: World) {
    && (forall sid | sid in w.sessions :: sid < w.next && OwnsLock(w, sid) && PhaseFits(w, w.sessions[sid]))
    && (forall oid :: w.wins[oid] <= 1 && Accounted(w, oid))
  }

  /** No success marker of any order is lost. */
  ghost predicate KeepsRecords(s: Store, t: Store) {
    forall oid :: (s.Recorded(oid) ==> t.Recorded(oid)) && (s.SucceededInTable(oid) ==> t.SucceededInTable(oid))
  }

  // Steps outside the sessions.

  /** A handler changes the locks of other orders never, and loses no success marker. */
  ghost predicate Gentle(s: Store, t: Store, oid: int) {
    KeepsRecords(s, t) && (t.locks == s.locks || t.locks == s.locks - {oid})
  }

  lemma RecordGentle(s: Store, oid: int, yid: string, io: Io)
    ensures KeepsRecords(s, Record(s, oid, yid, io)) && Record(s, oid, yid, io).locks == s.locks
    ensures KeepsRecords(s, WriteDone(s, oid, yid, io)) && WriteDone(s, oid, yid, io).locks == s.locks
  {
  }

  lemma ReapGentle(s: Store, settings: Settings, hid: int, m: Msg, now: int, io: Io)
    requires (m.oid in s.submitted ==> io.readHash) && (s.SucceededInTable(m.oid) ==> io.readTable)
    ensures Gentle(s, ReapOne(s, settings, hid, m, now, io), m.oid)
  {
    if FoundInHash(s, m.oid, io) {
      RecordGentle(s, m.oid, s.submitted[m.oid], io);
    } else if FoundInTable(s, m.oid, io) {
      RecordGentle(s, m.oid, s.TableYid(m.oid), io);
    } else if settings.enabled && m.r + 1 < settings.maxAttempts && io.zadd {
    } else {
      var t := GiveUp(s, hid, m, true, io);
      assert t.locks == s.locks;
      assert KeepsRecords(s, t);
    }
  }

  lemma RollbackGentle(s: Store, hid: int, m: Msg, io: Io)
    ensures Gentle(s, RollbackOne(s, hid, m, io), m.oid)
  {
    if FoundInHash(s, m.oid, io) {
      RecordGentle(s, m.oid, s.submitted[m.oid], io);
    } else if FoundInTable(s, m.oid, io) {
      RecordGentle(s, m.oid, s.TableYid(m.oid), io);
    }
  }

  lemma DispatchGentle(s: Store, hid: int, m: Msg, now: int, io: Io)
    ensures KeepsRecords(s, DispatchOne(s, hid, m, now, io)) && DispatchOne(s, hid, m, now, io).locks == s.locks
  {
    var t := s.ZRem(hid, m);
    if FoundInHash(t, m.oid, io) {
      RecordGentle(t, m.oid, t.submitted[m.oid], io);
    } else {
      RecordGentle(t, m.oid, t.TableYid(m.oid), io);
    }
  }

  lemma ScanGentle(s: Store, hid: int, m: Msg, now: int, io: Io)
    ensures KeepsRecords(s, ScanOne(s, hid, m, now, io)) && ScanOne(s, hid, m, now, io).locks == s.locks
  {
    var t := s.LRem(DeadLetter(hid), m);
    if FoundInHash(s, m.oid, io) {
      RecordGentle(t, m.oid, s.submitted[m.oid], io);
    } else if FoundInTable(s, m.oid, io) {
      RecordGentle(t, m.oid, s.TableYid(m.oid), io);
    }
  }

  /** The sessions stay as they are, records are kept, and no held lock changes. */
  lemma StoreStepSafe(w: World, t: Store)
    requires Safe(w) && KeepsRecords(w.store, t)
    requires forall oid | Held(w, oid) && oid in w.store.locks :: oid in t.locks && t.locks[oid] == w.store.locks[oid]
    ensures Safe(w.(store := t))
  {
    var v := w.(store := t);
    forall sid | sid in v.sessions ensures OwnsLock(v, sid) && PhaseFits(v, v.sessions[sid]) {
      assert OwnsLock(w, sid) && PhaseFits(w, w.sessions[sid]);
      if Holding(w.sessions[sid].phase) {
        assert Held(w, w.sessions[sid].m.oid);
      }
    }
    forall oid ensures Accounted(v, oid) {
      assert Accounted(w, oid);
    }
  }

  /** All sessions vanish; none of them carried an unrecorded success. */
  lemma CrashSafe(w: World)
    requires Safe(w) && !Unrecorded(w)
    ensures Safe(w.(sessions := map[]))
  {
    forall oid ensures Accounted(w.(sessions := map[]), oid) {
      assert Accounted(w, oid);
    }
  }

  // Steps of one session.

  /** Two sessions never hold the lock of the same order. */
  lemma OneHolder(w: World, a: nat, b: nat)
    requires Safe(w) && a in w.sessions && b in w.sessions
    requires Holding(w.sessions[a].phase) && Holding(w.sessions[b].phase)
    requires w.sessions[a].m.oid == w.sessions[b].m.oid
    ensures a == b
  {
    assert OwnsLock(w, a) && OwnsLock(w, b);
  }

  /**
   One session moves; records of other orders and their locks are untouched, and the moved
   session and the successes of its own order fit again.
   */
  lemma SessionStepSafe(w: World, v: World, sid: nat)
    requires Safe(w) && sid in w.sessions && v.next == w.next
    requires v.sessions - {sid} == w.sessions - {sid}
    requires sid in v.sessions ==>
      v.sessions[sid].m == w.sessions[sid].m && OwnsLock(v, sid) && PhaseFits(v, v.sessions[sid])
    requires forall oid | oid != w.sessions[sid].m.oid ::
      && v.wins[oid] == w.wins[oid]
      && (w.store.Recorded(oid) ==> v.store.Recorded(oid))
      && (w.store.SucceededInTable(oid) ==> v.store.SucceededInTable(oid))
      && (oid in w.store.locks ==> oid in v.store.locks && v.store.locks[oid] == w.store.locks[oid])
    requires forall b | b in w.sessions && b != sid && w.sessions[b].m.oid == w.sessions[sid].m.oid ::
      !Holding(w.sessions[b].phase)
    requires v.wins[w.sessions[sid].m.oid] <= 1 && Accounted(v, w.sessions[sid].m.oid)
    ensures Safe(v)
  {
    forall b | b in v.sessions ensures b < v.next && OwnsLock(v, b) && PhaseFits(v, v.sessions[b]) {
      if b != sid {
        assert b in w.sessions - {sid} && b in v.sessions - {sid};
        assert (v.sessions - {sid})[b] == (w.sessions - {sid})[b];
        assert v.sessions[b] == w.sessions[b];
        assert OwnsLock(w, b) && PhaseFits(w, w.sessions[b]);
      }
    }
    forall oid ensures v.wins[oid] <= 1 && Accounted(v, oid) {
      if oid != w.sessions[sid].m.oid {
        assert Accounted(w, oid) && w.wins[oid] <= 1;
        if w.wins[oid] > 0 && !w.store.Recorded(oid) {
          var b :| b in w.sessions && w.sessions[b].m.oid == oid && SuccessUnrecorded(w.sessions[b].phase);
          assert b in w.sessions - {sid};
          assert b in v.sessions && v.sessions[b] == w.sessions[b];
        }
      }
    }
  }

  /** The state after the session's own step is one `Goto`, possibly with one more success. */
  lemma GotoSafe(w: World, sid: nat, t: Store, p: Phase, win: bool)
    requires Safe(w) && sid in w.sessions && Holding(w.sessions[sid].phase) && Holding(p)
    requires t.locks == w.store.locks
    requires forall oid | oid != w.sessions[sid].m.oid ::
      (w.store.Recorded(oid) ==> t.Recorded(oid)) && (w.store.SucceededInTable(oid) ==> t.SucceededInTable(oid))
    requires
      var v := Goto(w, sid, t, p).(wins := if win then w.wins + multiset{w.sessions[sid].m.oid} else w.wins);
      v.wins[w.sessions[sid].m.oid] <= 1 && PhaseFits(v, v.sessions[sid]) && Accounted(v, w.sessions[sid].m.oid)
    ensures Safe(Goto(w, sid, t, p).(wins := if win then w.wins + multiset{w.sessions[sid].m.oid} else w.wins))
  {
    var v := Goto(w, sid, t, p).(wins := if win then w.wins + multiset{w.sessions[sid].m.oid} else w.wins);
    assert OwnsLock(w, sid);
    forall b | b in w.sessions && b != sid && w.sessions[b].m.oid == w.sessions[sid].m.oid
      ensures !Holding(w.sessions[b].phase)
    {
      if Holding(w.sessions[b].phase) {
        OneHolder(w, b, sid);
      }
    }
    SessionStepSafe(w, v, sid);
  }

  /** With the lock in hand, a success that is not on record is the session's own. */
  lemma HolderKnows(w: World, sid: nat)
    requires Safe(w) && sid in w.sessions && Holding(w.sessions[sid].phase)
    requires !SuccessUnrecorded(w.sessions[sid].phase)
    ensures w.wins[w.sessions[sid].m.oid] > 0 ==> w.store.Recorded(w.sessions[sid].m.oid)
  {
    var oid := w.sessions[sid].m.oid;
    assert Accounted(w, oid);
    if w.wins[oid] > 0 && !w.store.Recorded(oid) {
      var b :| b in w.sessions && w.sessions[b].m.oid == oid && SuccessUnrecorded(w.sessions[b].phase);
      OneHolder(w, b, sid);
    }
  }

  lemma TakeSafe(cfg: Config, w: World, hid: int)
    requires Safe(w) && Enabled(w, Take(hid))
    ensures Safe(Apply(cfg, w, Take(hid)))
  {
    var v := Apply(cfg, w, Take(hid));
    forall sid | sid in v.sessions ensures sid < v.next && OwnsLock(v, sid) && PhaseFits(v, v.sessions[sid]) {
      if sid != w.next {
        assert OwnsLock(w, sid) && PhaseFits(w, w.sessions[sid]);
      }
    }
    forall oid ensures Accounted(v, oid) {
      assert Accounted(w, oid);
      if w.wins[oid] > 0 && !w.store.Recorded(oid) {
        var b :| b in w.sessions && w.sessions[b].m.oid == oid && SuccessUnrecorded(w.sessions[b].phase);
        assert b in v.sessions && v.sessions[b] == w.sessions[b];
      }
    }
  }

  lemma AcquireSafe(cfg: Config, w: World, step: Step)
    requires Safe(w) && step.Acquire? && Enabled(w, step)
    ensures Safe(Apply(cfg, w, step))
  {
    var v, sid := Apply(cfg, w, step), step.sid;
    var oid := w.sessions[sid].m.oid;
    if oid !in w.store.locks {
      forall b | b in w.sessions && w.sessions[b].m.oid == oid ensures !Holding(w.sessions[b].phase) {
        assert OwnsLock(w, b);
      }
      assert Accounted(w, oid);
    }
    if step.reachable && oid !in w.store.locks {
      SessionStepSafe(w, v, sid);
    } else {
      EndSafe(w, sid, v.store);
    }
  }

  /** A session ends without a held lock; lists and markers may change with it. */
  lemma EndSafe(w: World, sid: nat, t: Store)
    requires Safe(w) && sid in w.sessions && !Holding(w.sessions[sid].phase)
    requires t.rows == w.store.rows && t.submitted == w.store.submitted && t.locks == w.store.locks
    ensures Safe(End(w, sid, t))
  {
    var v := End(w, sid, t);
    forall b | b in v.sessions ensures b < v.next && OwnsLock(v, b) && PhaseFits(v, v.sessions[b]) {
      assert OwnsLock(w, b) && PhaseFits(w, w.sessions[b]);
    }
    forall oid ensures Accounted(v, oid) {
      assert Accounted(w, oid);
      if w.wins[oid] > 0 && !w.store.Recorded(oid) {
        var b :| b in w.sessions && w.sessions[b].m.oid == oid && SuccessUnrecorded(w.sessions[b].phase);
        assert b in v.sessions && v.sessions[b] == w.sessions[b];
      }
    }
  }

  /** Status checks, hand-overs and the upstream call. */
  lemma DecideSafe(cfg: Config, w: World, step: Step)
    requires Safe(w) && Enabled(w, step) && Careful(w, step)
    requires step.CheckHash? || step.CheckTable? || step.HandToPool? || step.StartSubmit? || step.StartConfirm? ||
      step.UpstreamReturns?
    ensures Safe(Apply(cfg, w, step))
  {
    var sid := step.sid;
    var x := w.sessions[sid];
    var v := Apply(cfg, w, step);
    assert PhaseFits(w, x);
    HolderKnows(w, sid);
    if step.CheckHash? && step.readOk && x.m.oid in w.store.submitted {
      RepairKeeps(w.store, x.hid, x.m, step.io);
    } else if step.CheckTable? && step.readOk && w.store.SucceededInTable(x.m.oid) {
      SettleKeeps(w.store, x.hid, x.m, w.store.TableYid(x.m.oid), step.io);
    }
    var win := step.UpstreamReturns? && step.out.Success?;
    GotoSafe(w, sid, v.store, v.sessions[sid].phase, win);
  }

  lemma RepairKeeps(s: Store, hid: int, m: Msg, io: Io)
    requires m.oid in s.submitted
    ensures var t := RepairSubmitted(s, hid, m, io);
      && t.locks == s.locks && t.Recorded(m.oid)
      && forall oid | oid != m.oid ::
           (s.Recorded(oid) ==> t.Recorded(oid)) && (s.SucceededInTable(oid) ==> t.SucceededInTable(oid))
  {
  }

  lemma SettleKeeps(s: Store, hid: int, m: Msg, yid: string, io: Io)
    ensures var t := Settle(s, hid, m, yid, io);
      && t.locks == s.locks && KeepsRecords(s, t)
      && (io.hash || DoneWritten(s, m.oid, io) ==> t.Recorded(m.oid))
  {
    RecordGentle(s, m.oid, yid, io);
  }

  lemma GiveUpKeeps(s: Store, hid: int, m: Msg, newStatus: bool, io: Io)
    ensures var t := GiveUp(s, hid, m, newStatus, io);
      && t.locks == s.locks
      && forall oid | oid != m.oid ::
           (s.Recorded(oid) ==> t.Recorded(oid)) && (s.SucceededInTable(oid) ==> t.SucceededInTable(oid))
  {
  }

  lemma RetryKeeps(s: Store, hid: int, m: Msg, settings: Settings, now: int)
    ensures var t := Retry(s, hid, m, settings, now);
      t.rows == s.rows && t.submitted == s.submitted && t.locks == s.locks
  {
  }

  lemma FinalizeKeeps(s: Store, settings: Settings, hid: int, m: Msg, out: Outcome, now: int, io: Io)
    requires out.Failure? ==> !out.timeout
    ensures var t := Finalize(s, settings, hid, m, out, now, io);
      && t.locks == s.locks
      && (out.Success? && (io.hash || DoneWritten(s, m.oid, io)) ==> t.Recorded(m.oid))
      && forall oid | oid != m.oid ::
           (s.Recorded(oid) ==> t.Recorded(oid)) && (s.SucceededInTable(oid) ==> t.SucceededInTable(oid))
  {
    SettleKeeps(s, hid, m, if out.Success? then out.yid else s.TableYid(m.oid), io);
    RetryKeeps(s, hid, m, settings, now);
    GiveUpKeeps(s, hid, m, false, io);
  }

  lemma ConfirmKeeps(s: Store, settings: Settings, hid: int, m: Msg, out: Outcome, now: int, io: Io)
    requires out.Failure?
    ensures var t := Confirm(s, settings, hid, m, out, now, io);
      && t.locks == s.locks
      && forall oid | oid != m.oid ::
           (s.Recorded(oid) ==> t.Recorded(oid)) && (s.SucceededInTable(oid) ==> t.SucceededInTable(oid))
  {
    SettleKeeps(s, hid, m, s.TableYid(m.oid), io);
    RetryKeeps(s, hid, m, settings, now);
    GiveUpKeeps(s, hid, m, true, io);
  }

  lemma ConcludeSafe(cfg: Config, w: World, step: Step)
    requires Safe(w) && Enabled(w, step) && Careful(w, step)
    requires step.FinalizeOutcome? || step.ConfirmTimeout?
    ensures Safe(Apply(cfg, w, step))
  {
    var sid := step.sid;
    var x := w.sessions[sid];
    var v := Apply(cfg, w, step);
    assert PhaseFits(w, x);
    assert Accounted(w, x.m.oid);
    if step.ConfirmTimeout? {
      ConfirmKeeps(w.store, cfg(x.hid), x.hid, x.m, x.phase.out, step.now, step.io);
    } else if x.phase.out.Success? || !x.phase.out.timeout {
      FinalizeKeeps(w.store, cfg(x.hid), x.hid, x.m, x.phase.out, step.now, step.io);
    }
    GotoSafe(w, sid, v.store, v.sessions[sid].phase, false);
  }

  lemma ReleaseSafe(cfg: Config, w: World, step: Step)
    requires Safe(w) && Enabled(w, step) && Careful(w, step) && step.Release?
    ensures Safe(Apply(cfg, w, step))
  {
    var sid := step.sid;
    var x := w.sessions[sid];
    var v := Apply(cfg, w, step);
    if x.phase.Releasing? {
      assert OwnsLock(w, sid);
      HolderKnows(w, sid);
      forall b | b in w.sessions && b != sid && w.sessions[b].m.oid == x.m.oid
        ensures !Holding(w.sessions[b].phase)
      {
        if Holding(w.sessions[b].phase) {
          OneHolder(w, b, sid);
        }
      }
      SessionStepSafe(w, v, sid);
    } else if x.phase.owed.PoolWorker? {
      CrashSafe(w);
    } else {
      EndSafe(w, sid, w.store);
    }
  }

  lemma EnvironmentSafe(cfg: Config, w: World, step: Step)
    requires Safe(w) && Enabled(w, step) && Careful(w, step) && !OfSession(step) && !step.Take? && !step.Crash?
    ensures Safe(Apply(cfg, w, step))
  {
    var t := Apply(cfg, w, step).store;
    if step.Reap? {
      ReapGentle(w.store, cfg(step.hid), step.hid, step.m, step.now, step.io);
    } else if step.Rollback? {
      RollbackGentle(w.store, step.hid, step.m, step.io);
    } else if step.Dispatch? {
      DispatchGentle(w.store, step.hid, step.m, step.now, step.io);
    } else if step.Scan? {
      ScanGentle(w.store, step.hid, step.m, step.now, step.io);
    }
    assert KeepsRecords(w.store, t);
    StoreStepSafe(w, t);
  }

  lemma StepSafe(cfg: Config, w: World, step: Step)
    requires Safe(w) && Enabled(w, step) && Careful(w, step)
    ensures Safe(Apply(cfg, w, step))
  {
    if step.Crash? {
      CrashSafe(w);
    } else if step.Take? {
      TakeSafe(cfg, w, step.hid);
    } else if step.Acquire? {
      AcquireSafe(cfg, w, step);
    } else if step.FinalizeOutcome? || step.ConfirmTimeout? {
      ConcludeSafe(cfg, w, step);
    } else if step.Release? {
      ReleaseSafe(cfg, w, step);
    } else if OfSession(step) {
      DecideSafe(cfg, w, step);
    } else {
      EnvironmentSafe(cfg, w, step);
    }
  }

  lemma {:induction false} RunSafe(cfg: Config, w: World, steps: seq<Step>)
    requires Safe(w) && IsRun(cfg, w, steps, Careful)
    ensures Safe(Final(cfg, w, steps, Careful))
    decreases |steps|
  {
    if steps != [] {
      StepSafe(cfg, w, steps[0]);
      RunSafe(cfg, Apply(cfg, w, steps[0]), steps[1..]);
    }
  }

  /** Over every careful run no order is submitted successfully twice, and locks exclude each other. */
  lemma AtMostOneSuccess(cfg: Config, steps: seq<Step>)
    requires IsRun(cfg, INIT, steps, Careful)
    ensures var w := Final(cfg, INIT, steps, Careful);
      && (forall oid :: w.wins[oid] <= 1)
      && (forall a, b | a in w.sessions && b in w.sessions && w.sessions[a].m.oid == w.sessions[b].m.oid ::
            Holding(w.sessions[a].phase) && Holding(w.sessions[b].phase) ==> a == b)
  {
    RunSafe(cfg, INIT, steps);
    var w := Final(cfg, INIT, steps, Careful);
    forall a, b | a in w.sessions && b in w.sessions && w.sessions[a].m.oid == w.sessions[b].m.oid &&
        Holding(w.sessions[a].phase) && Holding(w.sessions[b].phase)
      ensures a == b
    {
      OneHolder(w, a, b);
    }
  }
}
