/**
 Runs that show what the conditions of the theorems over runs are for: a second submission after a
 lost lock, a second message after an expired marker, an orphan marker, and a failed order that the
 scan of the dead letters loses.
 */
module OrderScenarios {
  import opened OrderStore
  import opened Resubmit
  import opened OrderHandlers
  import opened OrderProtocol
  import opened OrderRuns
  import opened OrderDedup
  import opened OrderFailures
  import opened Producer
  import opened Recovery

  /** The condition admits the steps of producers, consumers and pools. */
  ghost predicate AdmitsWork(ok: Proviso) {
    forall w: World, step: Step |
      step.InsertRow? || step.Produce? || step.Take? || OfSession(step) :: ok(w, step)
  }

  /** A pending order without a marker, with an empty queue. */
  predicate Fresh(w: World, oid: int, hid: int) {
    && hid != 0 && oid in w.store.rows && w.store.rows[oid] == Row(hid, Pending, false, "")
    && oid !in w.store.marks && w.store.List(Queue(hid)) == []
  }

  /** The order is marked and its message in processing; nothing else changed in the store. */
  ghost predicate Issued(w: World, v: World, oid: int, hid: int) {
    && v.store.(lists := w.store.lists, marks := w.store.marks) == w.store && v.wins == w.wins
    && v.store.marks == w.store.marks + {oid}
    && v.store.List(Queue(hid)) == []
    && v.store.List(Processing(hid)) == [NewMsg(oid, hid, 0)] + w.store.List(Processing(hid))
    && (forall k | k != Queue(hid) && k != Processing(hid) :: v.store.List(k) == w.store.List(k))
    && v.next == w.next + 1
  }

  /** The producer issues the order and a consumer takes the message. */
  lemma Issue(cfg: Config, w: World, oid: int, hid: int, ok: Proviso) returns (steps: seq<Step>)
    requires Fresh(w, oid, hid) && AdmitsWork(ok)
    ensures IsRun(cfg, w, steps, ok)
    ensures var v := Final(cfg, w, steps, ok);
      Issued(w, v, oid, hid) &&
      v.sessions == w.sessions[w.next := Session(hid, NewMsg(oid, hid, 0), Taken)]
  {
    var produce, take := Produce(oid, 0, ALL_WELL), Take(hid);
    OneStep(cfg, w, produce, ok);
    var u := Apply(cfg, w, produce);
    assert u.store.List(Queue(hid)) == [NewMsg(oid, hid, 0)];
    AddStep(cfg, w, [produce], take, ok);
    steps := [produce] + [take];
  }

  /** The consumer locks the order, finds no record of it and starts the upstream call itself. */
  lemma LockAndSubmit(cfg: Config, w: World, sid: nat, ok: Proviso) returns (steps: seq<Step>)
    requires sid in w.sessions && w.sessions[sid].phase == Taken && AdmitsWork(ok)
    requires var oid := w.sessions[sid].m.oid; oid !in w.store.locks && !w.store.Recorded(oid)
    ensures IsRun(cfg, w, steps, ok)
    ensures Final(cfg, w, steps, ok) ==
      Goto(w, sid, w.store.SetLock(w.sessions[sid].m.oid, sid), Submitting(true))
  {
    steps := [Acquire(sid, true, ALL_WELL)];
    OneStep(cfg, w, steps[0], ok);
    var s := w.store.SetLock(w.sessions[sid].m.oid, sid);
    var more := SubmitLocked(cfg, Goto(w, sid, s, Locked), sid, ok);
    RunConcat(cfg, w, steps, more, ok);
    steps := steps + more;
    GotoTwice(w, sid, s, Locked, s, Submitting(true));
  }

  lemma SubmitLocked(cfg: Config, w: World, sid: nat, ok: Proviso) returns (steps: seq<Step>)
    requires sid in w.sessions && w.sessions[sid].phase == Locked && AdmitsWork(ok)
    requires !w.store.Recorded(w.sessions[sid].m.oid)
    ensures IsRun(cfg, w, steps, ok)
    ensures Final(cfg, w, steps, ok) == Goto(w, sid, w.store, Submitting(true))
  {
    steps := [CheckHash(sid, true, ALL_WELL)];
    OneStep(cfg, w, steps[0], ok);
    AddStep(cfg, w, steps, CheckTable(sid, true, ALL_WELL), ok);
    steps := steps + [CheckTable(sid, true, ALL_WELL)];
    GotoTwice(w, sid, w.store, NotInHash, w.store, Cleared);
    AddStep(cfg, w, steps, HandToPool(sid, false), ok);
    steps := steps + [HandToPool(sid, false)];
    GotoTwice(w, sid, w.store, Cleared, w.store, Submitting(true));
  }

  lemma Submission(cfg: Config, w: World, oid: int, hid: int, ok: Proviso) returns (steps: seq<Step>)
    requires Fresh(w, oid, hid) && oid !in w.store.locks && oid !in w.store.submitted && AdmitsWork(ok)
    ensures IsRun(cfg, w, steps, ok)
    ensures var v := Final(cfg, w, steps, ok);
      && Issued(w, v.(store := v.store.(locks := w.store.locks)), oid, hid)
      && v.store.locks == w.store.locks[oid := w.next]
      && v.sessions == w.sessions[w.next := Session(hid, NewMsg(oid, hid, 0), Submitting(true))]
  {
    steps := Issue(cfg, w, oid, hid, ok);
    var more := LockAndSubmit(cfg, Final(cfg, w, steps, ok), w.next, ok);
    RunConcat(cfg, w, steps, more, ok);
    steps := steps + more;
  }

  /** One order of channel 1 is inserted and being submitted. */
  lemma FirstSubmission(cfg: Config, ok: Proviso) returns (steps: seq<Step>)
    requires AdmitsWork(ok)
    ensures IsRun(cfg, INIT, steps, ok)
    ensures var v := Final(cfg, INIT, steps, ok);
      && v.store.rows == map[1 := Row(1, Pending, false, "")] && v.store.submitted == map[]
      && v.store.marks == {1} && v.store.locks == map[1 := 0] && v.next == 1
      && v.store.List(Processing(1)) == [NewMsg(1, 1, 0)]
      && (forall k | k != Processing(1) :: v.store.List(k) == [])
      && v.sessions == map[0 := Session(1, NewMsg(1, 1, 0), Submitting(true))] && v.wins == multiset{}
  {
    var insert := InsertRow(1, 1);
    OneStep(cfg, INIT, insert, ok);
    var w := Apply(cfg, INIT, insert);
    var more := Submission(cfg, w, 1, 1, ok);
    RunConcat(cfg, INIT, [insert], more, ok);
    steps := [insert] + more;
    var v := Final(cfg, INIT, steps, ok);
    forall k: ListKey | k != Processing(1) ensures v.store.List(k) == [] {
      if k != Queue(1) {
        assert v.store.List(k) == w.store.List(k) == [];
      }
    }
  }

  /**
  Why at-most-once needs its condition on locks: when the lock of a live holder and the marker of
  its order expire, a second consumer submits the order again, and both calls may succeed.
  */
  lemma LostLockSubmitsTwice(cfg: Config) returns (steps: seq<Step>)
    ensures IsRun(cfg, INIT, steps, Anything)
    ensures Final(cfg, INIT, steps, Anything).wins[1] == 2
  {
    steps := BothSubmitting(cfg);
    AddStep(cfg, INIT, steps, UpstreamReturns(0, Success("a")), Anything);
    steps := steps + [UpstreamReturns(0, Success("a"))];
    AddStep(cfg, INIT, steps, UpstreamReturns(1, Success("b")), Anything);
    steps := steps + [UpstreamReturns(1, Success("b"))];
  }

  lemma BothSubmitting(cfg: Config) returns (steps: seq<Step>)
    ensures IsRun(cfg, INIT, steps, Anything)
    ensures var v, x := Final(cfg, INIT, steps, Anything), Session(1, NewMsg(1, 1, 0), Submitting(true));
      v.sessions == map[0 := x, 1 := x] && v.wins == multiset{}
  {
    steps := FirstSubmission(cfg, Anything);
    var v := Final(cfg, INIT, steps, Anything);
    assert v.store.List(Queue(1)) == [];
    AddStep(cfg, INIT, steps, LockExpires(1), Anything);
    steps := steps + [LockExpires(1)];
    AddStep(cfg, INIT, steps, MarkerExpires(1), Anything);
    steps := steps + [MarkerExpires(1)];
    var second := Submission(cfg, Final(cfg, INIT, steps, Anything), 1, 1, Anything);
    RunConcat(cfg, INIT, steps, second, Anything);
    steps := steps + second;
  }

  /** Why deduplication needs its condition on markers: after an expiry a second message is issued. */
  lemma ExpiredMarkerAdmitsSecondMessage(cfg: Config) returns (steps: seq<Step>)
    ensures IsRun(cfg, INIT, steps, Anything)
    ensures var s := Final(cfg, INIT, steps, Anything).store;
      s.List(Queue(1)) == [NewMsg(1, 1, 0)] && s.List(Processing(1)) == [NewMsg(1, 1, 0)]
  {
    steps := FirstSubmission(cfg, Anything);
    assert Final(cfg, INIT, steps, Anything).store.List(Queue(1)) == [];
    AddStep(cfg, INIT, steps, MarkerExpires(1), Anything);
    steps := steps + [MarkerExpires(1)];
    AddStep(cfg, INIT, steps, Produce(1, 0, ALL_WELL), Anything);
    steps := steps + [Produce(1, 0, ALL_WELL)];
  }

  lemma LastMessageGoes(s: Store, hid: int, m: Msg)
    requires s.List(Processing(hid)) == [m] && forall k | k != Processing(hid) :: s.List(k) == []
    ensures forall k :: s.LRem(Processing(hid), m).List(k) == []
  {
    assert RemoveFirst([m], m) == [];
    forall k: ListKey ensures s.LRem(Processing(hid), m).List(k) == [] {
      if k != Processing(hid) {
        assert s.List(k) == [];
      }
    }
  }

  lemma SubmissionReturns(cfg: Config, out: Outcome) returns (steps: seq<Step>)
    ensures IsRun(cfg, INIT, steps, Undisturbed)
    ensures var v := Final(cfg, INIT, steps, Undisturbed);
      && v.store.rows == map[1 := Row(1, Pending, false, "")] && v.store.submitted == map[]
      && v.store.marks == {1} && v.store.locks == map[1 := 0] && v.next == 1
      && v.store.List(Processing(1)) == [NewMsg(1, 1, 0)]
      && (forall k | k != Processing(1) :: v.store.List(k) == [])
      && v.sessions == map[0 := Session(1, NewMsg(1, 1, 0), Returned(out, true))]
  {
    steps := FirstSubmission(cfg, Undisturbed);
    AddStep(cfg, INIT, steps, UpstreamReturns(0, out), Undisturbed);
    steps := steps + [UpstreamReturns(0, out)];
  }

  /** The first submission fails and is scheduled for a retry; its session still holds the lock. */
  lemma RetryScheduled(cfg: Config) returns (steps: seq<Step>)
    requires cfg(1).enabled && cfg(1).maxAttempts > 1
    ensures IsRun(cfg, INIT, steps, Undisturbed)
    ensures var v := Final(cfg, INIT, steps, Undisturbed);
      && v.store.rows == map[1 := Row(1, Pending, false, "")] && v.store.submitted == map[]
      && v.store.marks == {} && v.store.locks == map[1 := 0] && v.next == 1
      && (forall k :: v.store.List(k) == [])
      && v.sessions == map[0 := Session(1, NewMsg(1, 1, 0), Releasing(Nobody))]
  {
    var finalize := FinalizeOutcome(0, true, 0, ALL_WELL);
    steps := SubmissionReturns(cfg, Failure(false, false, false, true));
    var s := Final(cfg, INIT, steps, Undisturbed).store;
    AddStep(cfg, INIT, steps, finalize, Undisturbed);
    LastMessageGoes(s, 1, NewMsg(1, 1, 0));
    steps := steps + [finalize];
    var t := Final(cfg, INIT, steps, Undisturbed).store;
    forall k: ListKey ensures t.List(k) == [] {
      assert s.LRem(Processing(1), NewMsg(1, 1, 0)).List(k) == [];
    }
  }

  /**
  An orphan marker arises without expiry, crash or reaper: the retry frees the marker while the
  session still holds its lock, the producer issues the order afresh, and the next consumer finds
  the lock taken and drops the message.
  */
  lemma OrphanArises(cfg: Config) returns (steps: seq<Step>)
    requires cfg(1).enabled && cfg(1).maxAttempts > 1
    ensures IsRun(cfg, INIT, steps, Undisturbed)
    ensures var s := Final(cfg, INIT, steps, Undisturbed).store;
      OrphanMarker(s, 1) && Unfinished(s, 1) && forall k :: s.List(k) == []
  {
    steps := RetryScheduled(cfg);
    var w := Final(cfg, INIT, steps, Undisturbed);
    var more := Issue(cfg, w, 1, 1, Undisturbed);
    RunConcat(cfg, INIT, steps, more, Undisturbed);
    steps := steps + more;
    var busy := Acquire(1, true, ALL_WELL);
    var s := Final(cfg, INIT, steps, Undisturbed).store;
    AddStep(cfg, INIT, steps, busy, Undisturbed);
    LastMessageGoes(s, 1, NewMsg(1, 1, 0));
    steps := steps + [busy];
    assert Final(cfg, INIT, steps, Undisturbed).store == s.LRem(Processing(1), NewMsg(1, 1, 0));
  }

  /** And no restart brings the order of that run back, whatever channels, times and page size. */
  lemma OrphanIsNotRecovered(cfg: Config, hids: seq<int>, io: Msg -> Io, stamp: int -> int, limit: nat)
    returns (steps: seq<Step>)
    requires NormalConfig(cfg) && cfg(1).enabled && cfg(1).maxAttempts > 1 && limit > 0
    ensures IsRun(cfg, INIT, steps, Undisturbed)
    ensures var s := Final(cfg, INIT, steps, Undisturbed).store;
      Unfinished(s, 1) && !BackInQueue(Restarted(s, hids, io, stamp, limit), 1)
  {
    steps := OrphanArises(cfg);
    RunClean(cfg, INIT, steps);
    RestartRecovers(cfg, Final(cfg, INIT, steps, Undisturbed).store, hids, io, stamp, limit, 1);
  }

  const NO_DONE := ALL_WELL.(done := false)

  ghost predicate AllEmpty(s: Store) {
    forall k: ListKey :: s.List(k) == []
  }

  lemma SameListsEmpty(s: Store, t: Store)
    requires AllEmpty(s) && t.lists == s.lists
    ensures AllEmpty(t)
  {
    forall k: ListKey ensures t.List(k) == [] {
      assert s.List(k) == [];
    }
  }

  /** The first submission succeeds and is recorded in the hash, while the write of the row fails. */
  lemma HashWritten(cfg: Config) returns (steps: seq<Step>)
    ensures IsRun(cfg, INIT, steps, Undisturbed)
    ensures var v := Final(cfg, INIT, steps, Undisturbed);
      && v.store.rows == map[1 := Row(1, Pending, false, "")] && v.store.submitted == map[1 := ""]
      && v.store.marks == {} && v.store.locks == map[1 := 0] && v.next == 1 && AllEmpty(v.store)
      && v.sessions == map[0 := Session(1, NewMsg(1, 1, 0), Releasing(Nobody))]
  {
    var finalize := FinalizeOutcome(0, true, 0, NO_DONE);
    steps := SubmissionReturns(cfg, Success(""));
    var s := Final(cfg, INIT, steps, Undisturbed).store;
    AddStep(cfg, INIT, steps, finalize, Undisturbed);
    LastMessageGoes(s, 1, NewMsg(1, 1, 0));
    steps := steps + [finalize];
    SameListsEmpty(s.LRem(Processing(1), NewMsg(1, 1, 0)), Final(cfg, INIT, steps, Undisturbed).store);
  }

  lemma RecordedInHashOnly(cfg: Config) returns (steps: seq<Step>)
    ensures IsRun(cfg, INIT, steps, Undisturbed)
    ensures var v := Final(cfg, INIT, steps, Undisturbed);
      && v.store.rows == map[1 := Row(1, Pending, false, "")] && v.store.submitted == map[1 := ""]
      && v.store.marks == {} && v.store.locks == map[] && v.next == 1 && AllEmpty(v.store) && v.sessions == map[]
  {
    steps := HashWritten(cfg);
    var s := Final(cfg, INIT, steps, Undisturbed).store;
    AddStep(cfg, INIT, steps, Release(0, true), Undisturbed);
    steps := steps + [Release(0, true)];
    SameListsEmpty(s, Final(cfg, INIT, steps, Undisturbed).store);
  }

  /** A later message of the order is taken and locked. */
  lemma MetAgain(cfg: Config) returns (steps: seq<Step>)
    ensures IsRun(cfg, INIT, steps, Undisturbed)
    ensures var v := Final(cfg, INIT, steps, Undisturbed);
      && v.store.rows == map[1 := Row(1, Pending, false, "")] && v.store.submitted == map[1 := ""]
      && (forall hid :: v.store.List(DeadLetter(hid)) == [])
      && v.sessions == map[1 := Session(1, NewMsg(1, 1, 0), Locked)]
  {
    steps := TakenAgain(cfg);
    var u := Final(cfg, INIT, steps, Undisturbed);
    AddStep(cfg, INIT, steps, Acquire(1, true, ALL_WELL), Undisturbed);
    steps := steps + [Acquire(1, true, ALL_WELL)];
    forall hid: int ensures u.store.SetLock(1, 1).List(DeadLetter(hid)) == [] {
      assert u.store.List(DeadLetter(hid)) == [];
    }
  }

  lemma TakenAgain(cfg: Config) returns (steps: seq<Step>)
    ensures IsRun(cfg, INIT, steps, Undisturbed)
    ensures var v := Final(cfg, INIT, steps, Undisturbed);
      && v.store.rows == map[1 := Row(1, Pending, false, "")] && v.store.submitted == map[1 := ""]
      && v.store.locks == map[] && (forall hid :: v.store.List(DeadLetter(hid)) == [])
      && v.sessions == map[1 := Session(1, NewMsg(1, 1, 0), Taken)]
  {
    steps := RecordedInHashOnly(cfg);
    var w := Final(cfg, INIT, steps, Undisturbed);
    assert w.store.List(Queue(1)) == [];
    var more := Issue(cfg, w, 1, 1, Undisturbed);
    RunConcat(cfg, INIT, steps, more, Undisturbed);
    steps := steps + more;
    var u := Final(cfg, INIT, steps, Undisturbed);
    forall hid: int ensures u.store.List(DeadLetter(hid)) == [] {
      assert w.store.List(DeadLetter(hid)) == [];
    }
  }

  /** It meets the hash; its repair fails, and the order is marked failed. */
  lemma RecordedAndFailed(cfg: Config) returns (steps: seq<Step>)
    ensures IsRun(cfg, INIT, steps, Undisturbed)
    ensures var s := Final(cfg, INIT, steps, Undisturbed).store;
      && s.rows == map[1 := Row(1, Failed, false, "")] && s.submitted == map[1 := ""]
      && s.List(DeadLetter(1)) == [NewMsg(1, 1, 0)]
      && (forall hid | hid != 1 :: s.List(DeadLetter(hid)) == [])
  {
    steps := MetAgain(cfg);
    assert Final(cfg, INIT, steps, Undisturbed).store.List(DeadLetter(1)) == [];
    AddStep(cfg, INIT, steps, CheckHash(1, true, NO_DONE), Undisturbed);
    steps := steps + [CheckHash(1, true, NO_DONE)];
  }

  /** The scan of its dead letter then loses the failed order, as its own repair fails, too. */
  lemma FailedOrderIsLost(cfg: Config) returns (steps: seq<Step>)
    ensures IsRun(cfg, INIT, steps, Undisturbed)
    ensures !FailuresListed(Final(cfg, INIT, steps, Undisturbed).store)
  {
    steps := RecordedAndFailed(cfg);
    var s := Final(cfg, INIT, steps, Undisturbed).store;
    var m := NewMsg(1, 1, 0);
    assert m in s.List(DeadLetter(1));
    AddStep(cfg, INIT, steps, Scan(1, m, 0, NO_DONE), Undisturbed);
    steps := steps + [Scan(1, m, 0, NO_DONE)];
    var t := Final(cfg, INIT, steps, Undisturbed).store;
    assert OrderFailures.Failed(t, 1) && RemoveFirst([m], m) == [];
    forall hid: int ensures t.List(DeadLetter(hid)) == [] {
      if hid != 1 {
        assert s.List(DeadLetter(hid)) == [];
      }
    }
    assert !Dead(t, 1);
  }
}
