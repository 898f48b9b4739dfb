/**
 The order engine as a state machine. Producer, push API, retry dispatcher, dead-letter
 scanner, reaper and rollback act in one step per message. A consumer's work on one message
 is a session that takes one step per decision: lock, status checks, hand-over to the submit
 pool, upstream call, finalizing, confirmation, release. Sessions interleave freely.
 */
module OrderProtocol {
  import opened OrderStore
  import opened Resubmit
  import opened OrderHandlers

  /** Who calls Release a second time after the confirm pool was full. */
  datatype Owed = Nobody | PoolWorker | ConsumerLoop

  datatype Phase =
    | Taken
    | Locked
    | NotInHash
    | Cleared
    | InSubmitPool
    | Submitting(inConsumer: bool)
    | Returned(out: Outcome, inConsumer: bool)
    | InConfirmPool(out: Outcome)
    | Confirming(out: Outcome, owed: Owed)
    | Releasing(owed: Owed)
    | ReleasedOnce(owed: Owed)

  /** Between the acquisition of the lock and its release. */
  predicate Holding(p: Phase) {
    !p.Taken? && !p.ReleasedOnce?
  }

  /** The session's message is still in the processing list. */
  predicate Working(p: Phase) {
    !p.Releasing? && !p.ReleasedOnce?
  }

  /** From the end of the status checks on, unless the upstream call reported success. */
  predicate Unsuccessful(p: Phase) {
    || p.Cleared? || p.InSubmitPool? || p.Submitting? || p.InConfirmPool? || p.Confirming?
    || (p.Returned? && p.out.Failure?)
  }

  predicate SuccessUnrecorded(p: Phase) {
    p.Returned? && p.out.Success?
  }

  datatype Session = Session(hid: int, m: Msg, phase: Phase)

  /** `wins` counts, per order, the upstream calls that returned success. */
  datatype World = World(store: Store, sessions: map<nat, Session>, next: nat, wins: multiset<int>)

  const INIT := World(Store(map[], map[], {}, map[], map[], map[]), map[], 0, multiset{})

  datatype Step =
    | InsertRow(oid: int, hid: int)
    | CancelRow(oid: int)
    | MarkerExpires(oid: int)
    | LockExpires(oid: int)
    | Scramble(lists: map<ListKey, seq<Msg>>, marks: set<int>, retries: map<int, map<Msg, int>>)
    | Crash
    | Produce(oid: int, now: int, io: Io)
    | Push(oid: int, reqHid: int, paused: bool, now: int, io: Io)
    | Dispatch(hid: int, m: Msg, now: int, io: Io)
    | Scan(hid: int, m: Msg, now: int, io: Io)
    | Reap(hid: int, m: Msg, now: int, io: Io)
    | Rollback(hid: int, m: Msg, io: Io)
    | Take(hid: int)
    | Acquire(sid: nat, reachable: bool, io: Io)
    | CheckHash(sid: nat, readOk: bool, io: Io)
    | CheckTable(sid: nat, readOk: bool, io: Io)
    | HandToPool(sid: nat, room: bool)
    | StartSubmit(sid: nat)
    | UpstreamReturns(sid: nat, out: Outcome)
    | FinalizeOutcome(sid: nat, room: bool, now: int, io: Io)
    | StartConfirm(sid: nat)
    | ConfirmTimeout(sid: nat, now: int, io: Io)
    | Release(sid: nat, deleted: bool)

  /** The step names a running session that has reached the program point the step starts from. */
  predicate At(w: World, sid: nat, ready: Phase -> bool) {
    sid in w.sessions && ready(w.sessions[sid].phase)
  }

  predicate Enabled(w: World, step: Step) {
    match step
    case InsertRow(oid, _) => oid !in w.store.rows
    case CancelRow(oid) => oid in w.store.rows
    case Produce(oid, _, _) => oid in w.store.rows
    case Scan(hid, m, _, _) => m in w.store.List(DeadLetter(hid))
    case Reap(hid, m, _, _) => m in w.store.List(Processing(hid))
    case Rollback(hid, m, _) => m in w.store.List(Processing(hid))
    case Take(hid) => w.store.List(Queue(hid)) != []
    case Acquire(sid, _, _) => At(w, sid, (p: Phase) => p.Taken?)
    case CheckHash(sid, _, _) => At(w, sid, (p: Phase) => p.Locked?)
    case CheckTable(sid, _, _) => At(w, sid, (p: Phase) => p.NotInHash?)
    case HandToPool(sid, _) => At(w, sid, (p: Phase) => p.Cleared?)
    case StartSubmit(sid) => At(w, sid, (p: Phase) => p.InSubmitPool?)
    case UpstreamReturns(sid, _) => At(w, sid, (p: Phase) => p.Submitting?)
    case FinalizeOutcome(sid, _, _, _) => At(w, sid, (p: Phase) => p.Returned?)
    case StartConfirm(sid) => At(w, sid, (p: Phase) => p.InConfirmPool?)
    case ConfirmTimeout(sid, _, _) => At(w, sid, (p: Phase) => p.Confirming? && p.out.Failure?)
    case Release(sid, _) => At(w, sid, (p: Phase) => p.Releasing? || p.ReleasedOnce?)
    case _ => true
  }

  function Goto(w: World, sid: nat, store: Store, phase: Phase): World
    requires sid in w.sessions
  {
    w.(store := store, sessions := w.sessions[sid := w.sessions[sid].(phase := phase)])
  }

  function End(w: World, sid: nat, store: Store): World {
    w.(store := store, sessions := w.sessions - {sid})
  }

  function Apply(cfg: Config, w: World, step: Step): World
    requires Enabled(w, step)
  {
    match step
    case InsertRow(oid, hid) =>
      w.(store := w.store.(rows := w.store.rows[oid := Row(hid, Pending, false, "")]))
    case CancelRow(oid) =>
      w.(store := w.store.(rows := w.store.rows[oid := w.store.rows[oid].(cancelled := true)]))
    case MarkerExpires(oid) => w.(store := w.store.Unmark(oid))
    case LockExpires(oid) => w.(store := w.store.DelLock(oid))
    case Scramble(lists, marks, retries) =>
      w.(store := w.store.(lists := lists, marks := marks, retries := retries))
    case Crash => w.(sessions := map[])
    case Produce(oid, now, io) => w.(store := ProduceOne(w.store, oid, w.store.rows[oid].hid, now, io))
    case Push(oid, reqHid, paused, now, io) => w.(store := PushOrder(w.store, oid, reqHid, paused, now, io))
    case Dispatch(hid, m, now, io) => w.(store := DispatchOne(w.store, hid, m, now, io))
    case Scan(hid, m, now, io) => w.(store := ScanOne(w.store, hid, m, now, io))
    case Reap(hid, m, now, io) => w.(store := ReapOne(w.store, cfg(hid), hid, m, now, io))
    case Rollback(hid, m, io) => w.(store := RollbackOne(w.store, hid, m, io))
    case Take(hid) =>
      var q := w.store.List(Queue(hid));
      w.(store := w.store.Move(hid), next := w.next + 1,
         sessions := w.sessions[w.next := Session(hid, q[|q| - 1], Taken)])
    case _ => ApplySession(cfg, w, step, w.sessions[step.sid])
  }

  predicate OfSession(step: Step) {
    || step.Acquire? || step.CheckHash? || step.CheckTable? || step.HandToPool? || step.StartSubmit?
    || step.UpstreamReturns? || step.FinalizeOutcome? || step.StartConfirm? || step.ConfirmTimeout?
    || step.Release?
  }

  function ApplySession(cfg: Config, w: World, step: Step, x: Session): World
    requires Enabled(w, step) && OfSession(step) && w.sessions[step.sid] == x
  {
    var s, sid := w.store, step.sid;
    match step
    case Acquire(_, reachable, io) =>
      if !reachable then End(w, sid, Requeue(s, x.hid, x.m, io))
      else if x.m.oid in s.locks then End(w, sid, s.LRem(Processing(x.hid), x.m))
      else Goto(w, sid, s.SetLock(x.m.oid, sid), Locked)
    case CheckHash(_, readOk, io) =>
      if readOk && x.m.oid in s.submitted
      then Goto(w, sid, RepairSubmitted(s, x.hid, x.m, io), Releasing(Nobody))
      else Goto(w, sid, s, NotInHash)
    case CheckTable(_, readOk, io) =>
      if readOk && s.SucceededInTable(x.m.oid)
      then Goto(w, sid, Settle(s, x.hid, x.m, s.TableYid(x.m.oid), io), Releasing(Nobody))
      else Goto(w, sid, s, Cleared)
    case HandToPool(_, room) =>
      Goto(w, sid, s, if room then InSubmitPool else Submitting(true))
    case StartSubmit(_) => Goto(w, sid, s, Submitting(false))
    case UpstreamReturns(_, out) =>
      Goto(w, sid, s, Returned(out, x.phase.inConsumer))
        .(wins := if out.Success? then w.wins + multiset{x.m.oid} else w.wins)
    case FinalizeOutcome(_, room, now, io) =>
      var out := x.phase.out;
      if out.Failure? && out.timeout then
        Goto(w, sid, s, if room then InConfirmPool(out)
                        else Confirming(out, if x.phase.inConsumer then ConsumerLoop else PoolWorker))
      else Goto(w, sid, Finalize(s, cfg(x.hid), x.hid, x.m, out, now, io), Releasing(Nobody))
    case StartConfirm(_) => Goto(w, sid, s, Confirming(x.phase.out, Nobody))
    case ConfirmTimeout(_, now, io) =>
      Goto(w, sid, Confirm(s, cfg(x.hid), x.hid, x.m, x.phase.out, now, io), Releasing(x.phase.owed))
    case Release(_, deleted) =>
      if x.phase.Releasing? then
        var t := if deleted then s.DelLockIfHeld(x.m.oid, sid) else s;
        if x.phase.owed.Nobody? then End(w, sid, t) else Goto(w, sid, t, ReleasedOnce(x.phase.owed))
      // The second Release closes a closed channel: the panic ends the consumer loop,
      // and from a pool worker, which does not recover, the whole process.
      else if x.phase.owed.PoolWorker? then w.(sessions := map[])
      else End(w, sid, s)
  }

  /** A condition that every step of a run has to meet in the state it is taken in. */
  type Proviso = (World, Step) -> bool

  ghost predicate IsRun(cfg: Config, w: World, steps: seq<Step>, ok: Proviso)
    decreases |steps|
  {
    steps == [] ||
    (Enabled(w, steps[0]) && ok(w, steps[0]) && IsRun(cfg, Apply(cfg, w, steps[0]), steps[1..], ok))
  }

  ghost function Final(cfg: Config, w: World, steps: seq<Step>, ok: Proviso): World
    requires IsRun(cfg, w, steps, ok)
    decreases |steps|
  {
    if steps == [] then w else Final(cfg, Apply(cfg, w, steps[0]), steps[1..], ok)
  }
}
