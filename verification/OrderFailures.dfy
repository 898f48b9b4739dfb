/** Every order the engine marks as failed has an entry in a dead-letter list. */
module OrderFailures {
  import opened OrderStore
  import opened Resubmit
  import opened OrderHandlers
  import opened OrderProtocol

  ghost predicate Dead(s: Store, oid: int) {
    exists hid :: oid in Oids(s.List(DeadLetter(hid)))
  }

  predicate Failed(s: Store, oid: int) {
    oid in s.rows && s.rows[oid].dock.Failed?
  }

  ghost predicate FailuresListed(s: Store) {
    forall oid | Failed(s, oid) :: Dead(s, oid)
  }

  /** Lists are not tampered with, and the scanner's writes of dockstatus '1' succeed. */
  ghost predicate ScannerWrites(w: World, step: Step) {
    !step.Scramble? && (step.Scan? ==> step.io.done)
  }

  /** No dead letter is lost, and every newly failed order has one. */
  ghost predicate Lists(s: Store, t: Store) {
    && (forall hid :: Oids(s.List(DeadLetter(hid))) <= Oids(t.List(DeadLetter(hid))))
    && (forall oid | Failed(t, oid) :: Failed(s, oid) || Dead(t, oid))
  }

  lemma ListsKeeps(s: Store, t: Store)
    requires FailuresListed(s) && Lists(s, t)
    ensures FailuresListed(t)
  {
    forall oid | Failed(t, oid) ensures Dead(t, oid) {
      if Failed(s, oid) {
        var hid :| oid in Oids(s.List(DeadLetter(hid)));
        assert oid in Oids(t.List(DeadLetter(hid)));
      }
    }
  }

  lemma GiveUpLists(s: Store, hid: int, m: Msg, newStatus: bool, io: Io)
    ensures Lists(s, GiveUp(s, hid, m, newStatus, io))
  {
    var t := GiveUp(s, hid, m, newStatus, io);
    assert t.List(DeadLetter(hid)) == [m] + s.List(DeadLetter(hid));
    OidsConcat([m], s.List(DeadLetter(hid)));
    assert m in t.List(DeadLetter(hid));
    assert m.oid in Oids(t.List(DeadLetter(hid)));
    assert forall h | h != hid :: t.List(DeadLetter(h)) == s.List(DeadLetter(h));
  }

  /** Handlers without a dead letter: no order turns to failed and no dead letter moves. */
  ghost predicate Harmless(s: Store, t: Store) {
    && (forall hid :: s.List(DeadLetter(hid)) == t.List(DeadLetter(hid)))
    && (forall oid | Failed(t, oid) :: Failed(s, oid))
  }

  lemma SettleHarmless(s: Store, hid: int, m: Msg, yid: string, io: Io)
    ensures Harmless(s, Settle(s, hid, m, yid, io))
    ensures Harmless(s, Drop(WriteDone(s, m.oid, yid, io), hid, m))
  {
  }

  lemma RetryHarmless(s: Store, hid: int, m: Msg, settings: Settings, now: int)
    ensures Harmless(s, Retry(s, hid, m, settings, now))
  {
  }

  lemma FinalizeLists(s: Store, settings: Settings, hid: int, m: Msg, out: Outcome, now: int, io: Io)
    requires out.Failure? ==> !out.timeout
    ensures Lists(s, Finalize(s, settings, hid, m, out, now, io))
  {
    SettleHarmless(s, hid, m, if out.Success? then out.yid else s.TableYid(m.oid), io);
    RetryHarmless(s, hid, m, settings, now);
    GiveUpLists(s, hid, m, false, io);
  }

  lemma ConfirmLists(s: Store, settings: Settings, hid: int, m: Msg, out: Outcome, now: int, io: Io)
    requires out.Failure?
    ensures Lists(s, Confirm(s, settings, hid, m, out, now, io))
  {
    SettleHarmless(s, hid, m, s.TableYid(m.oid), io);
    RetryHarmless(s, hid, m, settings, now);
    GiveUpLists(s, hid, m, true, io);
  }

  lemma RepairLists(s: Store, hid: int, m: Msg, io: Io)
    requires m.oid in s.submitted
    ensures Lists(s, RepairSubmitted(s, hid, m, io))
  {
    SettleHarmless(s, hid, m, s.submitted[m.oid], io);
    GiveUpLists(s, hid, m, false, io);
  }

  lemma ReapLists(s: Store, settings: Settings, hid: int, m: Msg, now: int, io: Io)
    ensures Lists(s, ReapOne(s, settings, hid, m, now, io))
  {
    var t := ReapOne(s, settings, hid, m, now, io);
    if FoundInHash(s, m.oid, io) {
      SettleHarmless(s, hid, m, s.submitted[m.oid], io);
      UnlockHarmless(s, Drop(WriteDone(s, m.oid, s.submitted[m.oid], io), hid, m), m.oid);
      assert Harmless(s, t);
    } else if FoundInTable(s, m.oid, io) {
      SettleHarmless(s, hid, m, s.TableYid(m.oid), io);
      UnlockHarmless(s, Settle(s, hid, m, s.TableYid(m.oid), io), m.oid);
      assert Harmless(s, t);
    } else if settings.enabled && m.r + 1 < settings.maxAttempts && io.zadd {
      RetryHarmless(s, hid, m, settings, now);
      UnlockHarmless(s, Retry(s, hid, m, settings, now), m.oid);
      assert Harmless(s, t);
    } else {
      GiveUpLists(s, hid, m, true, io);
      UnlockLists(s, GiveUp(s, hid, m, true, io), m.oid);
    }
  }

  lemma UnlockLists(s: Store, t: Store, oid: int)
    requires Lists(s, t)
    ensures Lists(s, t.DelLock(oid))
  {
    var u := t.DelLock(oid);
    assert forall k :: u.List(k) == t.List(k);
    forall o | Failed(u, o) ensures Failed(s, o) || Dead(u, o) {
      assert Failed(t, o);
      if Dead(t, o) {
        var hid :| o in Oids(t.List(DeadLetter(hid)));
        assert o in Oids(u.List(DeadLetter(hid)));
      }
    }
  }

  lemma RollbackHarmless(s: Store, hid: int, m: Msg, io: Io)
    ensures Harmless(s, RollbackOne(s, hid, m, io))
  {
    if FoundInHash(s, m.oid, io) {
      SettleHarmless(s, hid, m, s.submitted[m.oid], io);
      UnlockHarmless(s, Drop(WriteDone(s, m.oid, s.submitted[m.oid], io), hid, m), m.oid);
    } else if FoundInTable(s, m.oid, io) {
      SettleHarmless(s, hid, m, s.TableYid(m.oid), io);
      UnlockHarmless(s, Settle(s, hid, m, s.TableYid(m.oid), io), m.oid);
    } else {
      DropHarmless(s, hid, m);
      UnlockHarmless(s, Drop(s, hid, m), m.oid);
    }
  }

  lemma DropHarmless(s: Store, hid: int, m: Msg)
    ensures Harmless(s, Drop(s, hid, m))
  {
  }

  lemma UnlockHarmless(s: Store, t: Store, oid: int)
    requires Harmless(s, t)
    ensures Harmless(s, t.DelLock(oid))
  {
    var u := t.DelLock(oid);
    assert forall k :: u.List(k) == t.List(k);
    assert forall o :: Failed(u, o) <==> Failed(t, o);
  }

  lemma DispatchHarmless(s: Store, hid: int, m: Msg, now: int, io: Io)
    ensures Harmless(s, DispatchOne(s, hid, m, now, io))
  {
  }

  /** After one dead letter is removed, every other failed order keeps one. */
  lemma OthersStayListed(s: Store, t: Store, hid: int, m: Msg, oid: int)
    requires FailuresListed(s) && Failed(s, oid) && oid != m.oid
    requires forall h :: t.List(DeadLetter(h)) == s.LRem(DeadLetter(hid), m).List(DeadLetter(h))
    ensures Dead(t, oid)
  {
    var h :| oid in Oids(s.List(DeadLetter(h)));
    if h == hid {
      RemoveFirstOthers(s.List(DeadLetter(hid)), m, oid);
    }
    assert oid in Oids(t.List(DeadLetter(h)));
  }

  /** The predicate that tells whether the scanner acts on the entry at all. */
  predicate ScanActs(s: Store, m: Msg, io: Io) {
    Found(s, m.oid, io) || (io.reopen && Failed(s, m.oid))
  }

  lemma ScanShape(s: Store, hid: int, m: Msg, now: int, io: Io)
    requires ScanActs(s, m, io)
    ensures var t := ScanOne(s, hid, m, now, io);
      && (forall h :: t.List(DeadLetter(h)) == s.LRem(DeadLetter(hid), m).List(DeadLetter(h)))
      && (forall oid | oid != m.oid :: Failed(t, oid) <==> Failed(s, oid))
      && (Failed(t, m.oid) <==> Failed(s, m.oid) && Found(s, m.oid, io) && !io.done)
  {
    var d := s.LRem(DeadLetter(hid), m);
    if FoundInHash(s, m.oid, io) {
      DoneShape(d, m.oid, s.submitted[m.oid], io);
    } else if FoundInTable(s, m.oid, io) {
      DoneShape(d, m.oid, s.TableYid(m.oid), io);
    } else {
      ReopenShape(s, hid, m, now, io);
    }
  }

  lemma DoneShape(d: Store, oid: int, yid: string, io: Io)
    ensures forall t | t == WriteDone(d, oid, yid, io) || t == Record(d, oid, yid, io) ::
      && t.lists == d.lists
      && (forall o | o != oid :: Failed(t, o) <==> Failed(d, o))
      && (Failed(t, oid) <==> Failed(d, oid) && !io.done)
  {
  }

  lemma ReopenShape(s: Store, hid: int, m: Msg, now: int, io: Io)
    requires Failed(s, m.oid)
    ensures var d := s.LRem(DeadLetter(hid), m);
      var t := Enqueue(s.Reopen(m.oid).LRem(DeadLetter(hid), m), hid, m.(r := 0, ts := now), io);
      && (forall h :: t.List(DeadLetter(h)) == d.List(DeadLetter(h)))
      && (forall o | o != m.oid :: Failed(t, o) <==> Failed(s, o))
      && !Failed(t, m.oid)
  {
  }

  /**
   The scanner drops the dead letter of an order it finds on record before it repairs the row.
   If that repair fails, the failed order is lost, unless another of its dead letters is left;
   this is the only way.
   */
  lemma ScanLosesExactly(s: Store, hid: int, m: Msg, now: int, io: Io)
    requires FailuresListed(s)
    ensures FailuresListed(ScanOne(s, hid, m, now, io)) <==>
      (Found(s, m.oid, io) && Failed(s, m.oid) && !io.done ==> Dead(s.LRem(DeadLetter(hid), m), m.oid))
  {
    var t, u := ScanOne(s, hid, m, now, io), s.LRem(DeadLetter(hid), m);
    if ScanActs(s, m, io) {
      ScanShape(s, hid, m, now, io);
      assert Dead(t, m.oid) <==> Dead(u, m.oid);
      forall oid | Failed(t, oid) && oid != m.oid ensures Dead(t, oid) {
        OthersStayListed(s, t, hid, m, oid);
      }
    }
  }

  lemma HarmlessKeeps(s: Store, t: Store)
    requires FailuresListed(s) && Harmless(s, t)
    ensures FailuresListed(t)
  {
    ListsKeeps(s, t);
  }

  lemma SweepKeeps(cfg: Config, w: World, step: Step)
    requires FailuresListed(w.store) && Enabled(w, step) && (step.Reap? || step.Rollback? || step.Dispatch?)
    ensures FailuresListed(Apply(cfg, w, step).store)
  {
    var s, t := w.store, Apply(cfg, w, step).store;
    if step.Reap? {
      ReapLists(s, cfg(step.hid), step.hid, step.m, step.now, step.io);
      ListsKeeps(s, t);
    } else if step.Rollback? {
      RollbackHarmless(s, step.hid, step.m, step.io);
      HarmlessKeeps(s, t);
    } else {
      DispatchHarmless(s, step.hid, step.m, step.now, step.io);
      HarmlessKeeps(s, t);
    }
  }

  lemma QuietKeeps(cfg: Config, w: World, step: Step)
    requires FailuresListed(w.store) && Enabled(w, step) && !OfSession(step)
    requires !step.Reap? && !step.Rollback? && !step.Dispatch? && !step.Scan? && !step.Scramble?
    ensures FailuresListed(Apply(cfg, w, step).store)
  {
    assert Harmless(w.store, Apply(cfg, w, step).store);
    HarmlessKeeps(w.store, Apply(cfg, w, step).store);
  }

  lemma ConcludeKeeps(cfg: Config, w: World, step: Step)
    requires FailuresListed(w.store) && Enabled(w, step) && (step.FinalizeOutcome? || step.ConfirmTimeout?)
    ensures FailuresListed(Apply(cfg, w, step).store)
  {
    var x, s, t := w.sessions[step.sid], w.store, Apply(cfg, w, step).store;
    if step.ConfirmTimeout? {
      ConfirmLists(s, cfg(x.hid), x.hid, x.m, x.phase.out, step.now, step.io);
      ListsKeeps(s, t);
    } else if x.phase.out.Success? || !x.phase.out.timeout {
      FinalizeLists(s, cfg(x.hid), x.hid, x.m, x.phase.out, step.now, step.io);
      ListsKeeps(s, t);
    }
  }

  lemma DecideKeeps(cfg: Config, w: World, step: Step)
    requires FailuresListed(w.store) && Enabled(w, step) && OfSession(step)
    requires !step.FinalizeOutcome? && !step.ConfirmTimeout?
    ensures FailuresListed(Apply(cfg, w, step).store)
  {
    var x, s, t := w.sessions[step.sid], w.store, Apply(cfg, w, step).store;
    if step.CheckHash? && step.readOk && x.m.oid in s.submitted {
      RepairLists(s, x.hid, x.m, step.io);
      ListsKeeps(s, t);
    } else if step.CheckTable? && step.readOk && s.SucceededInTable(x.m.oid) {
      SettleHarmless(s, x.hid, x.m, s.TableYid(x.m.oid), step.io);
      HarmlessKeeps(s, t);
    } else {
      assert Harmless(s, t);
      HarmlessKeeps(s, t);
    }
  }

  lemma StepKeeps(cfg: Config, w: World, step: Step)
    requires FailuresListed(w.store) && Enabled(w, step) && ScannerWrites(w, step)
    ensures FailuresListed(Apply(cfg, w, step).store)
  {
    if step.Scan? {
      ScanLosesExactly(w.store, step.hid, step.m, step.now, step.io);
    } else if step.Reap? || step.Rollback? || step.Dispatch? {
      SweepKeeps(cfg, w, step);
    } else if step.FinalizeOutcome? || step.ConfirmTimeout? {
      ConcludeKeeps(cfg, w, step);
    } else if OfSession(step) {
      DecideKeeps(cfg, w, step);
    } else {
      QuietKeeps(cfg, w, step);
    }
  }

  lemma {:induction false} RunKeeps(cfg: Config, w: World, steps: seq<Step>)
    requires FailuresListed(w.store) && IsRun(cfg, w, steps, ScannerWrites)
    ensures FailuresListed(Final(cfg, w, steps, ScannerWrites).store)
    decreases |steps|
  {
    if steps != [] {
      StepKeeps(cfg, w, steps[0]);
      RunKeeps(cfg, Apply(cfg, w, steps[0]), steps[1..]);
    }
  }

  /** Over every run, an order left at dockstatus '2' has a dead letter. */
  lemma FailedOrdersAreListed(cfg: Config, steps: seq<Step>)
    requires IsRun(cfg, INIT, steps, ScannerWrites)
    ensures FailuresListed(Final(cfg, INIT, steps, ScannerWrites).store)
  {
    RunKeeps(cfg, INIT, steps);
  }
}
