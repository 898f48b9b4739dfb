/** Putting runs of the order protocol together. */
module OrderRuns {
  import opened OrderStore
  import opened Resubmit
  import opened OrderHandlers
  import opened OrderProtocol

  /** The proviso of runs without conditions. */
  ghost predicate Anything(w: World, step: Step) {
    true
  }

  lemma GotoTwice(w: World, sid: nat, s: Store, p: Phase, t: Store, q: Phase)
    requires sid in w.sessions
    ensures Goto(Goto(w, sid, s, p), sid, t, q) == Goto(w, sid, t, q)
    ensures End(Goto(w, sid, s, p), sid, t) == End(w, sid, t)
  {
    var x := w.sessions[sid];
    assert w.sessions[sid := x.(phase := p)][sid := x.(phase := q)] == w.sessions[sid := x.(phase := q)];
    assert w.sessions[sid := x.(phase := p)] - {sid} == w.sessions - {sid};
  }

  lemma {:induction false} RunConcat(cfg: Config, w: World, a: seq<Step>, b: seq<Step>, ok: Proviso)
    requires IsRun(cfg, w, a, ok)
    requires IsRun(cfg, Final(cfg, w, a, ok), b, ok)
    ensures IsRun(cfg, w, a + b, ok)
    ensures Final(cfg, w, a + b, ok) == Final(cfg, Final(cfg, w, a, ok), b, ok)
    decreases |a|
  {
    if a == [] {
      assert a + b == b;
    } else {
      assert (a + b)[0] == a[0] && (a + b)[1..] == a[1..] + b;
      RunConcat(cfg, Apply(cfg, w, a[0]), a[1..], b, ok);
    }
  }

  lemma {:induction false} RunSplits(cfg: Config, w: World, a: seq<Step>, b: seq<Step>, ok: Proviso)
    requires IsRun(cfg, w, a + b, ok)
    ensures IsRun(cfg, w, a, ok) && IsRun(cfg, Final(cfg, w, a, ok), b, ok)
    ensures Final(cfg, w, a + b, ok) == Final(cfg, Final(cfg, w, a, ok), b, ok)
    decreases |a|
  {
    if a == [] {
      assert a + b == b;
    } else {
      assert (a + b)[0] == a[0] && (a + b)[1..] == a[1..] + b;
      RunSplits(cfg, Apply(cfg, w, a[0]), a[1..], b, ok);
    }
  }

  lemma OneStep(cfg: Config, w: World, step: Step, ok: Proviso)
    requires Enabled(w, step) && ok(w, step)
    ensures IsRun(cfg, w, [step], ok) && Final(cfg, w, [step], ok) == Apply(cfg, w, step)
  {
    assert [step][1..] == [];
  }

  lemma AddStep(cfg: Config, w: World, steps: seq<Step>, step: Step, ok: Proviso)
    requires IsRun(cfg, w, steps, ok)
    requires Enabled(Final(cfg, w, steps, ok), step) && ok(Final(cfg, w, steps, ok), step)
    ensures IsRun(cfg, w, steps + [step], ok)
    ensures Final(cfg, w, steps + [step], ok) == Apply(cfg, Final(cfg, w, steps, ok), step)
  {
    OneStep(cfg, Final(cfg, w, steps, ok), step, ok);
    RunConcat(cfg, w, steps, [step], ok);
  }

  lemma TwoSteps(cfg: Config, w: World, a: Step, b: Step, ok: Proviso)
    requires Enabled(w, a) && ok(w, a)
    requires Enabled(Apply(cfg, w, a), b) && ok(Apply(cfg, w, a), b)
    ensures IsRun(cfg, w, [a, b], ok)
    ensures Final(cfg, w, [a, b], ok) == Apply(cfg, Apply(cfg, w, a), b)
  {
    OneStep(cfg, w, a, ok);
    AddStep(cfg, w, [a], b, ok);
    assert [a] + [b] == [a, b];
  }

  /** The step can be taken, and runs the handler on the shared state. */
  ghost predicate Runs(cfg: Config, w: World, step: Step, s: Store) {
    Enabled(w, step) && Apply(cfg, w, step) == w.(store := s)
  }

  /** The steps of the actors without sessions are their handlers, with the channel and settings of the order. */
  lemma IssuersRunHandlers(cfg: Config, w: World, oid: int, reqHid: int, paused: bool, now: int, io: Io)
    ensures oid in w.store.rows ==>
      Runs(cfg, w, Produce(oid, now, io), ProduceOne(w.store, oid, w.store.rows[oid].hid, now, io))
    ensures Runs(cfg, w, Push(oid, reqHid, paused, now, io), PushOrder(w.store, oid, reqHid, paused, now, io))
  {
  }

  lemma RetriersRunHandlers(cfg: Config, w: World, hid: int, m: Msg, now: int, io: Io)
    ensures Runs(cfg, w, Dispatch(hid, m, now, io), DispatchOne(w.store, hid, m, now, io))
    ensures m in w.store.List(DeadLetter(hid)) ==>
      Runs(cfg, w, Scan(hid, m, now, io), ScanOne(w.store, hid, m, now, io))
  {
  }

  lemma CleanersRunHandlers(cfg: Config, w: World, hid: int, m: Msg, now: int, io: Io)
    requires m in w.store.List(Processing(hid))
    ensures Runs(cfg, w, Reap(hid, m, now, io), ReapOne(w.store, cfg(hid), hid, m, now, io))
    ensures Runs(cfg, w, Rollback(hid, m, io), RollbackOne(w.store, hid, m, io))
  {
  }

  /** Expiries and deaths: a marker, a lock, all sessions; nothing else changes. */
  lemma LossesMean(cfg: Config, w: World, oid: int)
    ensures Enabled(w, MarkerExpires(oid)) && Enabled(w, LockExpires(oid)) && Enabled(w, Crash)
    ensures Apply(cfg, w, MarkerExpires(oid)) == w.(store := w.store.(marks := w.store.marks - {oid}))
    ensures Apply(cfg, w, LockExpires(oid)) == w.(store := w.store.(locks := w.store.locks - {oid}))
    ensures Apply(cfg, w, Crash) == w.(sessions := map[])
  {
  }
}
