/** Ownership of an acquired lock over every run. */
module OrderOwnership {
  import opened OrderStore
  import opened Resubmit
  import opened OrderHandlers
  import opened OrderProtocol

  // What a session still owes plus what it has released is what it took on: one release for the
  // acquisition and one more for a confirmation that the full confirm pool pushed back.

  /** Releases the session is still going to call. */
  function Owes(w: World, sid: nat): nat {
    if sid !in w.sessions then 0
    else
      match w.sessions[sid].phase
      case Taken => 0
      case Confirming(_, owed) => if owed.Nobody? then 1 else 2
      case Releasing(owed) => if owed.Nobody? then 1 else 2
      case _ => 1
  }

  predicate Acquires(w: World, step: Step, sid: nat) {
    && step.Acquire? && step.sid == sid && step.reachable
    && sid in w.sessions && w.sessions[sid].m.oid !in w.store.locks
  }

  /** The submission timed out and the confirm pool had no room. */
  predicate FallsBack(w: World, step: Step, sid: nat) {
    && step.FinalizeOutcome? && step.sid == sid && !step.room
    && sid in w.sessions && w.sessions[sid].phase.Returned?
    && w.sessions[sid].phase.out.Failure? && w.sessions[sid].phase.out.timeout
  }

  predicate Releases(step: Step, sid: nat) {
    step.Release? && step.sid == sid
  }

  /** The step ends the process: a pool worker releases a second time. */
  predicate Fatal(w: World, step: Step) {
    && step.Release? && step.sid in w.sessions
    && w.sessions[step.sid].phase.ReleasedOnce? && w.sessions[step.sid].phase.owed.PoolWorker?
  }

  /** The process does not end in the middle of session `sid`; its own second release may end it. */
  ghost function Survives(sid: nat): Proviso {
    (w: World, step: Step) => !step.Crash? && (Fatal(w, step) ==> step.sid == sid)
  }

  datatype Tally = Tally(acquired: nat, fellBack: nat, released: nat)

  /** The three kinds of steps of one session, counted over a run. */
  ghost function Count(cfg: Config, w: World, steps: seq<Step>, sid: nat): Tally
    requires IsRun(cfg, w, steps, Survives(sid))
    decreases |steps|
  {
    if steps == [] then Tally(0, 0, 0)
    else
      var t := Count(cfg, Apply(cfg, w, steps[0]), steps[1..], sid);
      Tally(t.acquired + if Acquires(w, steps[0], sid) then 1 else 0,
            t.fellBack + if FallsBack(w, steps[0], sid) then 1 else 0,
            t.released + if Releases(steps[0], sid) then 1 else 0)
  }

  ghost predicate Numbered(w: World) {
    forall sid | sid in w.sessions :: sid < w.next
  }

  /** The session may still acquire its lock. */
  predicate BeforeLock(w: World, sid: nat) {
    sid >= w.next || (sid in w.sessions && w.sessions[sid].phase.Taken?)
  }

  /** The session may still fall back to confirming in its own thread. */
  predicate BeforeOutcome(w: World, sid: nat) {
    BeforeLock(w, sid) ||
    (sid in w.sessions &&
      var p := w.sessions[sid].phase;
      p.Locked? || p.NotInHash? || p.Cleared? || p.InSubmitPool? || p.Submitting? || p.Returned?)
  }

  lemma {:induction false} StepBalance(cfg: Config, w: World, step: Step, sid: nat)
    requires Numbered(w) && Enabled(w, step) && Survives(sid)(w, step)
    ensures var v := Apply(cfg, w, step);
      && Numbered(v)
      && Owes(v, sid) + (if Releases(step, sid) then 1 else 0) ==
           Owes(w, sid) + (if Acquires(w, step, sid) then 1 else 0) + (if FallsBack(w, step, sid) then 1 else 0)
      && (Acquires(w, step, sid) ==> BeforeLock(w, sid) && !BeforeLock(v, sid))
      && (FallsBack(w, step, sid) ==> BeforeOutcome(w, sid) && !BeforeOutcome(v, sid))
      && (!BeforeLock(w, sid) ==> !BeforeLock(v, sid))
      && (!BeforeOutcome(w, sid) ==> !BeforeOutcome(v, sid))
  {
    if OfSession(step) {
      SessionBalance(cfg, w, step, sid);
    }
  }

  lemma SessionBalance(cfg: Config, w: World, step: Step, sid: nat)
    requires Numbered(w) && Enabled(w, step) && Survives(sid)(w, step) && OfSession(step)
    ensures var v := Apply(cfg, w, step);
      && Numbered(v) && v.next == w.next
      && (sid != step.sid ==>
           (sid in v.sessions <==> sid in w.sessions) && (sid in w.sessions ==> v.sessions[sid] == w.sessions[sid]))
      && Owes(v, step.sid) + (if step.Release? then 1 else 0) ==
           Owes(w, step.sid) + (if Acquires(w, step, step.sid) then 1 else 0) +
           (if FallsBack(w, step, step.sid) then 1 else 0)
      && !BeforeLock(v, step.sid)
      && (FallsBack(w, step, step.sid) ==> BeforeOutcome(w, step.sid) && !BeforeOutcome(v, step.sid))
      && (!BeforeOutcome(w, step.sid) ==> !BeforeOutcome(v, step.sid))
  {
  }

  lemma {:induction false} RunBalance(cfg: Config, w: World, steps: seq<Step>, sid: nat)
    requires Numbered(w) && IsRun(cfg, w, steps, Survives(sid))
    ensures var t, v := Count(cfg, w, steps, sid), Final(cfg, w, steps, Survives(sid));
      && Owes(v, sid) + t.released == Owes(w, sid) + t.acquired + t.fellBack
      && t.acquired <= (if BeforeLock(w, sid) then 1 else 0)
      && t.fellBack <= (if BeforeOutcome(w, sid) then 1 else 0)
    decreases |steps|
  {
    if steps != [] {
      StepBalance(cfg, w, steps[0], sid);
      RunBalance(cfg, Apply(cfg, w, steps[0]), steps[1..], sid);
    }
  }

  /**
   In every run that does not end in the middle of the session, releases made plus releases owed
   are the acquisition plus the fallback. So a lock is released at most once, and exactly once
   when its session is over, except after a fallback, where it is released twice: by the consumer
   loop, or by the pool worker whose second release ends the process.
   */
  lemma LocksAreOwnedOnce(cfg: Config, steps: seq<Step>, sid: nat)
    requires IsRun(cfg, INIT, steps, Survives(sid))
    ensures var t, w := Count(cfg, INIT, steps, sid), Final(cfg, INIT, steps, Survives(sid));
      && t.released + Owes(w, sid) == t.acquired + t.fellBack
      && t.acquired <= 1 && t.fellBack <= 1
      && (t.fellBack == 0 ==> t.released <= 1)
      && (sid !in w.sessions && t.acquired == 1 ==> (t.released == 2 <==> t.fellBack == 1) && t.released >= 1)
  {
    RunBalance(cfg, INIT, steps, sid);
  }
}
