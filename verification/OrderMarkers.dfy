/** Where orphan markers come from: a busy lock, and nothing else. */
module OrderMarkers {
  import opened OrderStore
  import opened Resubmit
  import opened OrderHandlers
  import opened OrderProtocol
  import opened Recovery

  ghost predicate Waiting(s: Store, oid: int) {
    exists k: ListKey :: Active(k) && oid in Oids(s.List(k))
  }

  ghost predicate Marked(s: Store) {
    forall oid | oid in s.marks :: Waiting(s, oid)
  }

  /** Lists are not tampered with, and the order that is locked is not locked already. */
  ghost predicate NeverBusy(w: World, step: Step) {
    && !step.Scramble?
    && (step.Acquire? && step.reachable && step.sid in w.sessions ==>
          w.sessions[step.sid].m.oid !in w.store.locks)
  }

  /** Other orders gain no marker and keep their messages. */
  ghost predicate SparesOthers(s: Store, t: Store, oid: int) {
    && (forall o | o in t.marks && o != oid :: o in s.marks)
    && (forall k: ListKey, o | Active(k) && o != oid && o in Oids(s.List(k)) :: o in Oids(t.List(k)))
  }

  lemma SparesKeepMarked(s: Store, t: Store, oid: int)
    requires Marked(s) && SparesOthers(s, t, oid) && (oid in t.marks ==> Waiting(t, oid))
    ensures Marked(t)
  {
    forall o | o in t.marks ensures Waiting(t, o) {
      if o != oid {
        var k: ListKey :| Active(k) && o in Oids(s.List(k));
        assert o in Oids(t.List(k));
      }
    }
  }

  /** Same queues and markers. */
  lemma SameKeepMarked(s: Store, t: Store)
    requires Marked(s) && t.marks <= s.marks && forall k: ListKey | Active(k) :: t.List(k) == s.List(k)
    ensures Marked(t)
  {
    forall o | o in t.marks ensures Waiting(t, o) {
      var k: ListKey :| Active(k) && o in Oids(s.List(k));
      assert o in Oids(t.List(k));
    }
  }

  lemma LRemSpares(s: Store, k: ListKey, m: Msg)
    ensures SparesOthers(s, s.LRem(k, m), m.oid)
  {
    forall o | o != m.oid && o in Oids(s.List(k)) ensures o in Oids(s.LRem(k, m).List(k)) {
      RemoveFirstOthers(s.List(k), m, o);
    }
  }

  /** The message leaves processing and its order's marker goes; the rest of the state is free. */
  lemma DropKeepsMarked(s: Store, t: Store, hid: int, m: Msg)
    requires Marked(s) && t.marks == s.marks - {m.oid}
    requires forall k: ListKey | Active(k) :: t.List(k) == s.LRem(Processing(hid), m).List(k)
    ensures Marked(t)
  {
    LRemSpares(s, Processing(hid), m);
    SparesKeepMarked(s, t, m.oid);
  }

  lemma EnqueueKeepsMarked(s: Store, hid: int, m: Msg, io: Io)
    requires Marked(s)
    ensures Marked(Enqueue(s, hid, m, io))
  {
    if Enqueued(s, m, io) {
      var t := Enqueue(s, hid, m, io);
      assert t.List(Queue(hid)) == [m] + s.List(Queue(hid));
      OidsConcat([m], s.List(Queue(hid)));
      assert m in [m] && m.oid in Oids(t.List(Queue(hid)));
      forall k: ListKey, o | Active(k) && o != m.oid && o in Oids(s.List(k)) ensures o in Oids(t.List(k)) {
        assert k != Queue(hid) ==> t.List(k) == s.List(k);
      }
      SparesKeepMarked(s, t, m.oid);
    }
  }

  lemma RequeueKeepsMarked(s: Store, hid: int, m: Msg, io: Io)
    requires Marked(s)
    ensures Marked(Requeue(s, hid, m, io))
  {
    if io.push {
      var u, t := s.RPush(Queue(hid), m), Requeue(s, hid, m, io);
      OidsConcat(s.List(Queue(hid)), [m]);
      assert m in [m] && m.oid in Oids(u.List(Queue(hid)));
      LRemSpares(u, Processing(hid), m);
      assert m.oid in Oids(t.List(Queue(hid)));
      forall k: ListKey, o | Active(k) && o != m.oid && o in Oids(s.List(k)) ensures o in Oids(t.List(k)) {
        assert k != Queue(hid) ==> u.List(k) == s.List(k);
        assert o in Oids(u.List(k));
      }
      SparesKeepMarked(s, t, m.oid);
    }
  }

  lemma MoveKeepsMarked(s: Store, hid: int)
    requires Marked(s) && s.List(Queue(hid)) != []
    ensures Marked(s.Move(hid))
  {
    var q, t := s.List(Queue(hid)), s.Move(hid);
    var m := q[|q| - 1];
    OidsConcat(q[..|q| - 1], [m]);
    assert q == q[..|q| - 1] + [m] && Oids([m]) == {m.oid};
    OidsConcat([m], s.List(Processing(hid)));
    assert m.oid in Oids(t.List(Processing(hid)));
    SparesKeepMarked(s, t, m.oid);
  }

  lemma WritesSame(s: Store, oid: int, yid: string, newStatus: bool, io: Io)
    ensures forall t | t == Record(s, oid, yid, io) || t == WriteDone(s, oid, yid, io) ||
        t == WriteFailed(s, oid, newStatus, io) ::
      t.lists == s.lists && t.marks == s.marks
  {
  }

  lemma SettleKeepsMarked(s: Store, hid: int, m: Msg, yid: string, io: Io)
    requires Marked(s)
    ensures Marked(Settle(s, hid, m, yid, io)) && Marked(Drop(WriteDone(s, m.oid, yid, io), hid, m))
  {
    WritesSame(s, m.oid, yid, false, io);
    DropAfterWrite(s, Record(s, m.oid, yid, io), hid, m);
    DropAfterWrite(s, WriteDone(s, m.oid, yid, io), hid, m);
  }

  lemma DropAfterWrite(s: Store, u: Store, hid: int, m: Msg)
    requires Marked(s) && u.lists == s.lists && u.marks == s.marks
    ensures Marked(Drop(u, hid, m))
  {
    DropKeepsMarked(s, Drop(u, hid, m), hid, m);
  }

  lemma GiveUpKeepsMarked(s: Store, hid: int, m: Msg, newStatus: bool, io: Io)
    requires Marked(s)
    ensures Marked(GiveUp(s, hid, m, newStatus, io))
  {
    WritesSame(s, m.oid, "", newStatus, io);
    DropKeepsMarked(s, GiveUp(s, hid, m, newStatus, io), hid, m);
  }

  lemma RetryKeepsMarked(s: Store, hid: int, m: Msg, settings: Settings, now: int)
    requires Marked(s)
    ensures Marked(Retry(s, hid, m, settings, now))
  {
    DropKeepsMarked(s, Retry(s, hid, m, settings, now), hid, m);
  }

  lemma UnlockKeepsMarked(s: Store, oid: int)
    requires Marked(s)
    ensures Marked(s.DelLock(oid))
  {
    SameKeepMarked(s, s.DelLock(oid));
  }

  lemma FinalizeKeepsMarked(s: Store, settings: Settings, hid: int, m: Msg, out: Outcome, now: int, io: Io)
    requires Marked(s) && (out.Failure? ==> !out.timeout)
    ensures Marked(Finalize(s, settings, hid, m, out, now, io))
  {
    SettleKeepsMarked(s, hid, m, if out.Success? then out.yid else s.TableYid(m.oid), io);
    RetryKeepsMarked(s, hid, m, settings, now);
    GiveUpKeepsMarked(s, hid, m, false, io);
  }

  lemma ConfirmKeepsMarked(s: Store, settings: Settings, hid: int, m: Msg, out: Outcome, now: int, io: Io)
    requires Marked(s) && out.Failure?
    ensures Marked(Confirm(s, settings, hid, m, out, now, io))
  {
    DropKeepsMarked(s, Drop(s, hid, m), hid, m);
    SettleKeepsMarked(s, hid, m, s.TableYid(m.oid), io);
    RetryKeepsMarked(s, hid, m, settings, now);
    GiveUpKeepsMarked(s, hid, m, true, io);
  }

  lemma ReapKeepsMarked(s: Store, settings: Settings, hid: int, m: Msg, now: int, io: Io)
    requires Marked(s)
    ensures Marked(ReapOne(s, settings, hid, m, now, io))
  {
    var t :=
      if FoundInHash(s, m.oid, io) then Drop(WriteDone(s, m.oid, s.submitted[m.oid], io), hid, m)
      else if FoundInTable(s, m.oid, io) then Settle(s, hid, m, s.TableYid(m.oid), io)
      else if settings.enabled && m.r + 1 < settings.maxAttempts && io.zadd then Retry(s, hid, m, settings, now)
      else GiveUp(s, hid, m, true, io);
    SettleKeepsMarked(s, hid, m, if FoundInHash(s, m.oid, io) then s.submitted[m.oid] else s.TableYid(m.oid), io);
    RetryKeepsMarked(s, hid, m, settings, now);
    GiveUpKeepsMarked(s, hid, m, true, io);
    UnlockKeepsMarked(t, m.oid);
  }

  lemma RollbackKeepsMarked(s: Store, hid: int, m: Msg, io: Io)
    requires Marked(s)
    ensures Marked(RollbackOne(s, hid, m, io))
  {
    var t :=
      if FoundInHash(s, m.oid, io) then Drop(WriteDone(s, m.oid, s.submitted[m.oid], io), hid, m)
      else if FoundInTable(s, m.oid, io) then Settle(s, hid, m, s.TableYid(m.oid), io)
      else Drop(s, hid, m);
    SettleKeepsMarked(s, hid, m, if FoundInHash(s, m.oid, io) then s.submitted[m.oid] else s.TableYid(m.oid), io);
    DropKeepsMarked(s, Drop(s, hid, m), hid, m);
    UnlockKeepsMarked(t, m.oid);
  }

  lemma DispatchKeepsMarked(s: Store, hid: int, m: Msg, now: int, io: Io)
    requires Marked(s)
    ensures Marked(DispatchOne(s, hid, m, now, io))
  {
    var t := s.ZRem(hid, m);
    SameKeepMarked(s, t);
    EnqueueKeepsMarked(t, hid, m, io);
    if !Enqueued(t, m, io) {
      WritesSame(t, m.oid, if m.oid in t.submitted then t.submitted[m.oid] else t.TableYid(m.oid), false, io);
      SameKeepMarked(s, DispatchOne(s, hid, m, now, io));
    } else if FoundInHash(t, m.oid, io) || FoundInTable(t, m.oid, io) {
      WritesSame(t, m.oid, if FoundInHash(t, m.oid, io) then t.submitted[m.oid] else t.TableYid(m.oid), false, io);
      SameKeepMarked(s, DispatchOne(s, hid, m, now, io));
    }
  }

  lemma ScanKeepsMarked(s: Store, hid: int, m: Msg, now: int, io: Io)
    requires Marked(s)
    ensures Marked(ScanOne(s, hid, m, now, io))
  {
    var d := s.LRem(DeadLetter(hid), m);
    if FoundInHash(s, m.oid, io) || FoundInTable(s, m.oid, io) {
      WritesSame(d, m.oid, if FoundInHash(s, m.oid, io) then s.submitted[m.oid] else s.TableYid(m.oid), false, io);
      SameKeepMarked(s, ScanOne(s, hid, m, now, io));
    } else if m.oid in s.rows && s.rows[m.oid].dock.Failed? {
      var u := s.Reopen(m.oid).LRem(DeadLetter(hid), m);
      SameKeepMarked(s, u);
      EnqueueKeepsMarked(u, hid, m.(r := 0, ts := now), io);
    }
  }

  lemma SessionKeepsMarked(cfg: Config, w: World, step: Step)
    requires Marked(w.store) && Enabled(w, step) && NeverBusy(w, step) && OfSession(step)
    ensures Marked(Apply(cfg, w, step).store)
  {
    var x, s := w.sessions[step.sid], w.store;
    if step.Acquire? && !step.reachable {
      RequeueKeepsMarked(s, x.hid, x.m, step.io);
    } else if step.CheckHash? && step.readOk && x.m.oid in s.submitted {
      SettleKeepsMarked(s, x.hid, x.m, s.submitted[x.m.oid], step.io);
      GiveUpKeepsMarked(s, x.hid, x.m, false, step.io);
    } else if step.CheckTable? && step.readOk && s.SucceededInTable(x.m.oid) {
      SettleKeepsMarked(s, x.hid, x.m, s.TableYid(x.m.oid), step.io);
    } else if step.FinalizeOutcome? && (x.phase.out.Success? || !x.phase.out.timeout) {
      FinalizeKeepsMarked(s, cfg(x.hid), x.hid, x.m, x.phase.out, step.now, step.io);
    } else if step.ConfirmTimeout? {
      ConfirmKeepsMarked(s, cfg(x.hid), x.hid, x.m, x.phase.out, step.now, step.io);
    } else {
      SameKeepMarked(s, Apply(cfg, w, step).store);
    }
  }

  lemma StepKeepsMarked(cfg: Config, w: World, step: Step)
    requires Marked(w.store) && Enabled(w, step) && NeverBusy(w, step)
    ensures Marked(Apply(cfg, w, step).store)
  {
    var s := w.store;
    if OfSession(step) {
      SessionKeepsMarked(cfg, w, step);
    } else if step.Take? {
      MoveKeepsMarked(s, step.hid);
    } else if step.Produce? {
      EnqueueKeepsMarked(s, s.rows[step.oid].hid, NewMsg(step.oid, s.rows[step.oid].hid, step.now), step.io);
    } else if step.Push? {
      if step.oid in s.rows {
        EnqueueKeepsMarked(s, s.rows[step.oid].hid, NewMsg(step.oid, s.rows[step.oid].hid, step.now), step.io);
      }
    } else if step.Dispatch? {
      DispatchKeepsMarked(s, step.hid, step.m, step.now, step.io);
    } else if step.Scan? {
      ScanKeepsMarked(s, step.hid, step.m, step.now, step.io);
    } else if step.Reap? {
      ReapKeepsMarked(s, cfg(step.hid), step.hid, step.m, step.now, step.io);
    } else if step.Rollback? {
      RollbackKeepsMarked(s, step.hid, step.m, step.io);
    } else {
      SameKeepMarked(s, Apply(cfg, w, step).store);
    }
  }

  lemma {:induction false} RunKeepsMarked(cfg: Config, w: World, steps: seq<Step>)
    requires Marked(w.store) && IsRun(cfg, w, steps, NeverBusy)
    ensures Marked(Final(cfg, w, steps, NeverBusy).store)
    decreases |steps|
  {
    if steps != [] {
      StepKeepsMarked(cfg, w, steps[0]);
      RunKeepsMarked(cfg, Apply(cfg, w, steps[0]), steps[1..]);
    }
  }

  /**
  The busy lock is the only origin of orphans: in every run in which no consumer meets one, with
  expiries, crashes, failed reads and the reaper at work, no marker is an orphan.
  */
  lemma OnlyBusyLocksOrphan(cfg: Config, steps: seq<Step>, oid: int)
    requires IsRun(cfg, INIT, steps, NeverBusy)
    ensures !OrphanMarker(Final(cfg, INIT, steps, NeverBusy).store, oid)
  {
    RunKeepsMarked(cfg, INIT, steps);
    var s := Final(cfg, INIT, steps, NeverBusy).store;
    if oid in s.marks {
      var k: ListKey :| Active(k) && oid in Oids(s.List(k));
    }
  }
}
