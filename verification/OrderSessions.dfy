/**
 The closures that pass lock objects along take the steps of a session: each, run as a whole, is a
 run of the order protocol that ends in the same state, with the lock in the same place.
 */
module OrderSessions {
  import opened OrderStore
  import opened Resubmit
  import opened OrderHandlers
  import opened OrderProtocol
  import opened OrderRuns
  import opened OrderPools

  /** Session and lock agree: the token is the session's number, the settings are the channel's. */
  predicate Agrees(cfg: Config, w: World, sid: nat, x: Session, c: Circumstances) {
    sid in w.sessions && w.sessions[sid] == x && c.settings == cfg(x.hid)
  }

  /** The steps after the status checks: the upstream call, finalizing, and what the fallback adds. */
  function OutcomeSteps(sid: nat, c: Circumstances): seq<Step> {
    FirstSteps(sid, c) +
    if FallsBack(c.out, c.confirmRoom) then FallbackSteps(sid, c)
    else if TimedOut(c.out) then []
    else [Release(sid, c.deleted)]
  }

  function FirstSteps(sid: nat, c: Circumstances): seq<Step> {
    [UpstreamReturns(sid, c.out), FinalizeOutcome(sid, c.confirmRoom, c.now, c.io)]
  }

  function FallbackSteps(sid: nat, c: Circumstances): seq<Step> {
    [ConfirmTimeout(sid, c.now, c.io), Release(sid, c.deleted), Release(sid, c.deleted)]
  }

  function LockedSteps(s: Store, sid: nat, m: Msg, c: Circumstances): seq<Step> {
    if KnownFromHash(s, m, c) then [CheckHash(sid, c.hashRead, c.io), Release(sid, c.deleted)]
    else if KnownFromTable(s, m, c) then
      [CheckHash(sid, c.hashRead, c.io), CheckTable(sid, c.tableRead, c.io), Release(sid, c.deleted)]
    else
      CheckSteps(sid, c) + if c.submitRoom then [] else OutcomeSteps(sid, c)
  }

  function CheckSteps(sid: nat, c: Circumstances): seq<Step> {
    [CheckHash(sid, c.hashRead, c.io), CheckTable(sid, c.tableRead, c.io), HandToPool(sid, c.submitRoom)]
  }

  function Wins(w: World, m: Msg, out: Outcome): multiset<int> {
    if out.Success? then w.wins + multiset{m.oid} else w.wins
  }

  /**
   The world after a closure: the session waits in the pool where its lock lies, or is over; if
   a pool worker released twice, the process is over.
   */
  ghost predicate Reaches(w: World, v: World, sid: nat, s: Store, place: Place, out: Outcome, fatal: bool)
    requires sid in w.sessions
  {
    && v.store == s && v.next == w.next
    && v.sessions ==
         (match place
          case AtSubmitPool => w.sessions[sid := w.sessions[sid].(phase := InSubmitPool)]
          case AtConfirmPool => w.sessions[sid := w.sessions[sid].(phase := InConfirmPool(out))]
          case Over(n) => if n == 2 && fatal then map[] else w.sessions - {sid})
  }

  lemma OutcomeIsSession(cfg: Config, w: World, sid: nat, x: Session, c: Circumstances)
    requires Agrees(cfg, w, sid, x, c) && x.phase.Submitting?
    ensures IsRun(cfg, w, OutcomeSteps(sid, c), Anything)
    ensures var v := Final(cfg, w, OutcomeSteps(sid, c), Anything);
      var (s, place) := AfterOutcome(w.store, sid, x.hid, x.m, c);
      Reaches(w, v, sid, s, place, c.out, !x.phase.inConsumer) && v.wins == Wins(w, x.m, c.out)
  {
    Finalizes(cfg, w, sid, x, c);
    if FallsBack(c.out, c.confirmRoom) {
      FallsBackAndEnds(cfg, w, sid, x, c);
    } else if TimedOut(c.out) {
      assert OutcomeSteps(sid, c) == FirstSteps(sid, c);
    } else {
      FinalizesAndEnds(cfg, w, sid, x, c);
    }
  }

  lemma FinalizesAndEnds(cfg: Config, w: World, sid: nat, x: Session, c: Circumstances)
    requires Agrees(cfg, w, sid, x, c) && x.phase.Submitting? && !TimedOut(c.out)
    ensures IsRun(cfg, w, OutcomeSteps(sid, c), Anything)
    ensures Final(cfg, w, OutcomeSteps(sid, c), Anything).(wins := w.wins) ==
      End(w, sid, AfterOutcome(w.store, sid, x.hid, x.m, c).0)
    ensures Final(cfg, w, OutcomeSteps(sid, c), Anything).wins == Wins(w, x.m, c.out)
  {
    Finalizes(cfg, w, sid, x, c);
    AddStep(cfg, w, FirstSteps(sid, c), Release(sid, c.deleted), Anything);
  }

  lemma FallsBackAndEnds(cfg: Config, w: World, sid: nat, x: Session, c: Circumstances)
    requires Agrees(cfg, w, sid, x, c) && x.phase.Submitting? && FallsBack(c.out, c.confirmRoom)
    ensures IsRun(cfg, w, OutcomeSteps(sid, c), Anything)
    ensures var s := AfterOutcome(w.store, sid, x.hid, x.m, c).0;
      Final(cfg, w, OutcomeSteps(sid, c), Anything) ==
        if x.phase.inConsumer then End(w, sid, s) else w.(store := s, sessions := map[])
  {
    Finalizes(cfg, w, sid, x, c);
    var u := Final(cfg, w, FirstSteps(sid, c), Anything);
    FallbackIsSession(cfg, u, sid, u.sessions[sid], c);
    RunConcat(cfg, w, FirstSteps(sid, c), FallbackSteps(sid, c), Anything);
    assert FirstSteps(sid, c) + FallbackSteps(sid, c) == OutcomeSteps(sid, c);
  }

  lemma Finalizes(cfg: Config, w: World, sid: nat, x: Session, c: Circumstances)
    requires Agrees(cfg, w, sid, x, c) && x.phase.Submitting?
    ensures IsRun(cfg, w, FirstSteps(sid, c), Anything)
    ensures var v := Final(cfg, w, FirstSteps(sid, c), Anything);
      && v.wins == Wins(w, x.m, c.out)
      && v.(wins := w.wins) ==
           if TimedOut(c.out) then
             Goto(w, sid, w.store,
                  if c.confirmRoom then InConfirmPool(c.out)
                  else Confirming(c.out, if x.phase.inConsumer then ConsumerLoop else PoolWorker))
           else Goto(w, sid, Finalize(w.store, c.settings, x.hid, x.m, c.out, c.now, c.io), Releasing(Nobody))
  {
    var a, b := UpstreamReturns(sid, c.out), FinalizeOutcome(sid, c.confirmRoom, c.now, c.io);
    var u := Goto(w, sid, w.store, Returned(c.out, x.phase.inConsumer)).(wins := Wins(w, x.m, c.out));
    assert Apply(cfg, w, a) == u;
    TwoSteps(cfg, w, a, b, Anything);
  }

  /** The confirmation and its release. */
  lemma Confirms(cfg: Config, w: World, sid: nat, x: Session, c: Circumstances)
    requires Agrees(cfg, w, sid, x, c) && x.phase.Confirming? && x.phase.out.Failure?
    ensures var steps := [ConfirmTimeout(sid, c.now, c.io), Release(sid, c.deleted)];
      && IsRun(cfg, w, steps, Anything)
      && var s := AfterConfirm(w.store, sid, x.hid, x.m, x.phase.out, c);
         Final(cfg, w, steps, Anything) ==
           if x.phase.owed.Nobody? then End(w, sid, s) else Goto(w, sid, s, ReleasedOnce(x.phase.owed))
  {
    var d, e := ConfirmTimeout(sid, c.now, c.io), Release(sid, c.deleted);
    var s := Confirm(w.store, c.settings, x.hid, x.m, x.phase.out, c.now, c.io);
    assert Apply(cfg, w, d) == Goto(w, sid, s, Releasing(x.phase.owed));
    TwoSteps(cfg, w, d, e, Anything);
    var t := Unlock(s, x.m.oid, sid, c.deleted);
    GotoTwice(w, sid, s, Releasing(x.phase.owed), t, ReleasedOnce(x.phase.owed));
  }

  lemma FallbackIsSession(cfg: Config, w: World, sid: nat, x: Session, c: Circumstances)
    requires Agrees(cfg, w, sid, x, c) && x.phase.Confirming? && x.phase.out.Failure? && !x.phase.owed.Nobody?
    ensures IsRun(cfg, w, FallbackSteps(sid, c), Anything)
    ensures var s := AfterConfirm(w.store, sid, x.hid, x.m, x.phase.out, c);
      Final(cfg, w, FallbackSteps(sid, c), Anything) ==
        if x.phase.owed.PoolWorker? then w.(store := s, sessions := map[]) else End(w, sid, s)
  {
    var steps, e := [ConfirmTimeout(sid, c.now, c.io), Release(sid, c.deleted)], Release(sid, c.deleted);
    Confirms(cfg, w, sid, x, c);
    AddStep(cfg, w, steps, e, Anything);
    assert steps + [e] == FallbackSteps(sid, c);
  }

  /** A pool worker's job carries a session on from the submit pool. */
  lemma PoolJobIsSession(cfg: Config, w: World, sid: nat, x: Session, c: Circumstances)
    requires Agrees(cfg, w, sid, x, c) && x.phase.InSubmitPool?
    ensures var steps := [StartSubmit(sid)] + OutcomeSteps(sid, c);
      && IsRun(cfg, w, steps, Anything)
      && var v, (s, place) := Final(cfg, w, steps, Anything), AfterOutcome(w.store, sid, x.hid, x.m, c);
         Reaches(w, v, sid, s, place, c.out, true) && v.wins == Wins(w, x.m, c.out)
  {
    OneStep(cfg, w, StartSubmit(sid), Anything);
    var u := Apply(cfg, w, StartSubmit(sid));
    OutcomeIsSession(cfg, u, sid, u.sessions[sid], c);
    RunConcat(cfg, w, [StartSubmit(sid)], OutcomeSteps(sid, c), Anything);
  }

  /** A confirm worker's job ends the session: one release. */
  lemma ConfirmJobIsSession(cfg: Config, w: World, sid: nat, x: Session, c: Circumstances)
    requires Agrees(cfg, w, sid, x, c) && x.phase.InConfirmPool? && x.phase.out.Failure?
    ensures var steps := [StartConfirm(sid)] + [ConfirmTimeout(sid, c.now, c.io), Release(sid, c.deleted)];
      && IsRun(cfg, w, steps, Anything)
      && Final(cfg, w, steps, Anything) ==
           End(w, sid, AfterConfirm(w.store, sid, x.hid, x.m, x.phase.out, c))
  {
    OneStep(cfg, w, StartConfirm(sid), Anything);
    var u := Goto(w, sid, w.store, Confirming(x.phase.out, Nobody));
    assert Final(cfg, w, [StartConfirm(sid)], Anything) == u;
    Confirms(cfg, u, sid, u.sessions[sid], c);
    RunConcat(cfg, w, [StartConfirm(sid)], [ConfirmTimeout(sid, c.now, c.io), Release(sid, c.deleted)], Anything);
  }

  lemma LooksUp(cfg: Config, w: World, sid: nat, x: Session, c: Circumstances)
    requires Agrees(cfg, w, sid, x, c) && x.phase.Locked? && !KnownFromHash(w.store, x.m, c)
    ensures var steps := [CheckHash(sid, c.hashRead, c.io), CheckTable(sid, c.tableRead, c.io)];
      && IsRun(cfg, w, steps, Anything)
      && Final(cfg, w, steps, Anything) ==
           if KnownFromTable(w.store, x.m, c) then
             Goto(w, sid, Settle(w.store, x.hid, x.m, w.store.TableYid(x.m.oid), c.io), Releasing(Nobody))
           else Goto(w, sid, w.store, Cleared)
  {
    var a, b := CheckHash(sid, c.hashRead, c.io), CheckTable(sid, c.tableRead, c.io);
    assert Apply(cfg, w, a) == Goto(w, sid, w.store, NotInHash);
    TwoSteps(cfg, w, a, b, Anything);
  }

  lemma Checks(cfg: Config, w: World, sid: nat, x: Session, c: Circumstances)
    requires Agrees(cfg, w, sid, x, c) && x.phase.Locked?
    requires !KnownFromHash(w.store, x.m, c) && !KnownFromTable(w.store, x.m, c)
    ensures IsRun(cfg, w, CheckSteps(sid, c), Anything)
    ensures Final(cfg, w, CheckSteps(sid, c), Anything) ==
      Goto(w, sid, w.store, if c.submitRoom then InSubmitPool else Submitting(true))
  {
    var steps := [CheckHash(sid, c.hashRead, c.io), CheckTable(sid, c.tableRead, c.io)];
    LooksUp(cfg, w, sid, x, c);
    AddStep(cfg, w, steps, HandToPool(sid, c.submitRoom), Anything);
    assert steps + [HandToPool(sid, c.submitRoom)] == CheckSteps(sid, c);
  }

  lemma KnownFromHashIsSession(cfg: Config, w: World, sid: nat, x: Session, c: Circumstances)
    requires Agrees(cfg, w, sid, x, c) && x.phase.Locked? && KnownFromHash(w.store, x.m, c)
    ensures IsRun(cfg, w, LockedSteps(w.store, sid, x.m, c), Anything)
    ensures Final(cfg, w, LockedSteps(w.store, sid, x.m, c), Anything) ==
      End(w, sid, AfterLocked(w.store, sid, x.hid, x.m, c).0)
  {
    var a, d := CheckHash(sid, c.hashRead, c.io), Release(sid, c.deleted);
    var s := RepairSubmitted(w.store, x.hid, x.m, c.io);
    assert Apply(cfg, w, a) == Goto(w, sid, s, Releasing(Nobody));
    TwoSteps(cfg, w, a, d, Anything);
    GotoTwice(w, sid, s, Releasing(Nobody), Unlock(s, x.m.oid, sid, c.deleted), Releasing(Nobody));
  }

  lemma KnownFromTableIsSession(cfg: Config, w: World, sid: nat, x: Session, c: Circumstances)
    requires Agrees(cfg, w, sid, x, c) && x.phase.Locked?
    requires !KnownFromHash(w.store, x.m, c) && KnownFromTable(w.store, x.m, c)
    ensures IsRun(cfg, w, LockedSteps(w.store, sid, x.m, c), Anything)
    ensures Final(cfg, w, LockedSteps(w.store, sid, x.m, c), Anything) ==
      End(w, sid, AfterLocked(w.store, sid, x.hid, x.m, c).0)
  {
    var a, b, d := CheckHash(sid, c.hashRead, c.io), CheckTable(sid, c.tableRead, c.io), Release(sid, c.deleted);
    LooksUp(cfg, w, sid, x, c);
    AddStep(cfg, w, [a, b], d, Anything);
    var s := Settle(w.store, x.hid, x.m, w.store.TableYid(x.m.oid), c.io);
    GotoTwice(w, sid, s, Releasing(Nobody), Unlock(s, x.m.oid, sid, c.deleted), Releasing(Nobody));
  }

  /** The consumer's closure carries a session on from the lock. */
  lemma ClosureIsSession(cfg: Config, w: World, sid: nat, x: Session, c: Circumstances)
    requires Agrees(cfg, w, sid, x, c) && x.phase.Locked?
    ensures var steps := LockedSteps(w.store, sid, x.m, c);
      && IsRun(cfg, w, steps, Anything)
      && var v, (s, place) := Final(cfg, w, steps, Anything), AfterLocked(w.store, sid, x.hid, x.m, c);
         Reaches(w, v, sid, s, place, c.out, false)
  {
    if KnownFromHash(w.store, x.m, c) {
      KnownFromHashIsSession(cfg, w, sid, x, c);
    } else if KnownFromTable(w.store, x.m, c) {
      KnownFromTableIsSession(cfg, w, sid, x, c);
    } else {
      var checks := CheckSteps(sid, c);
      Checks(cfg, w, sid, x, c);
      if c.submitRoom {
        assert checks + [] == checks;
      } else {
        var u := Final(cfg, w, checks, Anything);
        OutcomeIsSession(cfg, u, sid, u.sessions[sid], c);
        RunConcat(cfg, w, checks, OutcomeSteps(sid, c), Anything);
      }
    }
  }

  /** The world after a consumer has taken a message. */
  function Took(w: World, hid: int, m: Msg): World
    requires w.store.List(Queue(hid)) != []
  {
    w.(store := w.store.Move(hid), next := w.next + 1, sessions := w.sessions[w.next := Session(hid, m, Taken)])
  }

  lemma TakeSteps(cfg: Config, w: World, hid: int, reachable: bool, io: Io)
    requires w.store.List(Queue(hid)) != []
    ensures var a, b, q := Take(hid), Acquire(w.next, reachable, io), w.store.List(Queue(hid));
      var u := Took(w, hid, q[|q| - 1]);
      IsRun(cfg, w, [a, b], Anything) && Enabled(u, b) && Final(cfg, w, [a, b], Anything) == Apply(cfg, u, b)
  {
    TakeApplies(cfg, w, hid);
    TwoSteps(cfg, w, Take(hid), Acquire(w.next, reachable, io), Anything);
  }

  lemma TakeApplies(cfg: Config, w: World, hid: int)
    requires w.store.List(Queue(hid)) != []
    ensures var q := w.store.List(Queue(hid));
      Enabled(w, Take(hid)) && Apply(cfg, w, Take(hid)) == Took(w, hid, q[|q| - 1])
  {
  }

  lemma TookThenWent(w: World, hid: int, m: Msg, s: Store, phase: Phase)
    requires w.store.List(Queue(hid)) != []
    ensures var u, v := Took(w, hid, m), w.(store := s, next := w.next + 1);
      && Goto(u, w.next, s, phase) == v.(sessions := w.sessions[w.next := Session(hid, m, phase)])
      && End(u, w.next, s) == v.(sessions := w.sessions - {w.next})
  {
    var x := Session(hid, m, Taken);
    assert w.sessions[w.next := x][w.next := x.(phase := phase)] == w.sessions[w.next := x.(phase := phase)];
    assert w.sessions[w.next := x] - {w.next} == w.sessions - {w.next};
  }

  /** The consumer's loop up to the lock begins a session, whose number is the token of the lock. */
  lemma TakeIsSession(cfg: Config, w: World, hid: int, reachable: bool, io: Io)
    requires w.store.List(Queue(hid)) != []
    ensures var steps := [Take(hid), Acquire(w.next, reachable, io)];
      && IsRun(cfg, w, steps, Anything)
      && var v, moved, q := Final(cfg, w, steps, Anything), w.store.Move(hid), w.store.List(Queue(hid));
         var m := q[|q| - 1];
         var after := w.(next := w.next + 1);
         && (!reachable ==>
               v == after.(store := Requeue(moved, hid, m, io), sessions := w.sessions - {w.next}))
         && (reachable && m.oid in w.store.locks ==>
               v == after.(store := moved.LRem(Processing(hid), m), sessions := w.sessions - {w.next}))
         && (reachable && m.oid !in w.store.locks ==>
               v == after.(store := moved.SetLock(m.oid, w.next),
                           sessions := w.sessions[w.next := Session(hid, m, Locked)]))
  {
    var moved, q := w.store.Move(hid), w.store.List(Queue(hid));
    var m := q[|q| - 1];
    TakeSteps(cfg, w, hid, reachable, io);
    TookThenWent(w, hid, m, Requeue(moved, hid, m, io), Locked);
    TookThenWent(w, hid, m, moved.LRem(Processing(hid), m), Locked);
    TookThenWent(w, hid, m, moved.SetLock(m.oid, w.next), Locked);
  }
}
