/** One message per order over every run, marked and in its channel. */
module OrderDedup {
  import opened OrderStore
  import opened Resubmit
  import opened OrderHandlers
  import opened OrderProtocol

  /** No message of a processing list whose session is still working is taken away from it. */
  ghost predicate InWork(w: World, oid: int) {
    exists sid :: sid in w.sessions && w.sessions[sid].m.oid == oid && Working(w.sessions[sid].phase)
  }

  /** Markers do not expire, lists are not tampered with, the reaper spares live workers. */
  ghost predicate Undisturbed(w: World, step: Step) {
    match step
    case MarkerExpires(_) => false
    case Scramble(_, _, _) => false
    case Reap(_, m, _, _) => !InWork(w, m.oid)
    case Rollback(_, m, _) => !InWork(w, m.oid)
    case _ => true
  }

  /** Every active list is free of repetitions and covered by markers; two of them share no order. */
  ghost predicate Tidy(s: Store) {
    && (forall k | Active(k) :: Distinct(s.List(k)) && Oids(s.List(k)) <= s.marks)
    && (forall k, l | Active(k) && Active(l) && k != l :: Oids(s.List(k)) !! Oids(s.List(l)))
  }

  /** A stored message of channel `hid`: routed to its order's channel, retry count in range. */
  ghost predicate Fits(cfg: Config, s: Store, hid: int, m: Msg) {
    && m.oid in s.rows && s.rows[m.oid].hid == hid && m.hid == hid
    && 0 <= m.r < cfg(hid).maxAttempts
  }

  ghost predicate Stored(cfg: Config, s: Store) {
    && (forall k, m | m in s.List(k) :: Fits(cfg, s, k.hid, m))
    && (forall hid, m | m in s.Retries(hid) :: Fits(cfg, s, hid, m))
  }

  ghost predicate SessionsFit(w: World) {
    && (forall sid | sid in w.sessions :: sid < w.next)
    && (forall sid | sid in w.sessions && Working(w.sessions[sid].phase) ::
          w.sessions[sid].m in w.store.List(Processing(w.sessions[sid].hid)))
    && (forall a, b | a in w.sessions && b in w.sessions && a != b ::
          Working(w.sessions[a].phase) && Working(w.sessions[b].phase) ==> w.sessions[a].m.oid != w.sessions[b].m.oid)
  }

  ghost predicate Clean(cfg: Config, w: World) {
    Tidy(w.store) && Stored(cfg, w.store) && SessionsFit(w)
  }

  ghost predicate NormalConfig(cfg: Config) {
    forall hid :: Normal(cfg(hid))
  }

  // The list commands.

  ghost predicate SameLists(s: Store, t: Store) {
    t.marks == s.marks && forall k | Active(k) :: t.List(k) == s.List(k)
  }

  lemma SameListsTidy(s: Store, t: Store)
    requires Tidy(s) && SameLists(s, t)
    ensures Tidy(t)
  {
  }

  /** One active list shrinks to a list without repetitions. */
  lemma ShrinkTidy(s: Store, t: Store, k: ListKey)
    requires Tidy(s) && t.marks == s.marks && Active(k)
    requires forall l | Active(l) && l != k :: t.List(l) == s.List(l)
    requires Distinct(t.List(k)) && Oids(t.List(k)) <= Oids(s.List(k))
    ensures Tidy(t)
  {
  }

  lemma LRemTidy(s: Store, k: ListKey, m: Msg)
    requires Tidy(s)
    ensures Tidy(s.LRem(k, m))
    ensures Active(k) && m in s.List(k) ==> forall l | Active(l) :: m.oid !in Oids(s.LRem(k, m).List(l))
    ensures forall l | l != k :: s.LRem(k, m).List(l) == s.List(l)
  {
    if Active(k) {
      RemoveFirstOids(s.List(k), m);
      ShrinkTidy(s, s.LRem(k, m), k);
      if m in s.List(k) {
        assert m.oid in Oids(s.List(k));
      }
    } else {
      SameListsTidy(s, s.LRem(k, m));
    }
  }

  lemma UnmarkTidy(s: Store, oid: int)
    requires Tidy(s) && forall k | Active(k) :: oid !in Oids(s.List(k))
    ensures Tidy(s.Unmark(oid))
  {
    var t := s.Unmark(oid);
    forall k | Active(k) ensures t.List(k) == s.List(k) && Oids(t.List(k)) <= t.marks {
    }
  }

  /** A message without a marker enters an active list together with its marker. */
  lemma AddTidy(s: Store, hid: int, m: Msg)
    requires Tidy(s) && m.oid !in s.marks
    ensures Tidy(s.Mark(m.oid).LPush(Queue(hid), m))
  {
    var t := s.Mark(m.oid).LPush(Queue(hid), m);
    OidsConcat([m], s.List(Queue(hid)));
    assert Oids([m]) == {m.oid};
    forall k | Active(k) ensures Distinct(t.List(k)) && Oids(t.List(k)) <= t.marks {
      assert Oids(s.List(k)) <= s.marks;
      if k == Queue(hid) {
        DistinctPush(m, s.List(k));
      } else {
        assert t.List(k) == s.List(k);
      }
    }
    forall k, l | Active(k) && Active(l) && k != l ensures Oids(t.List(k)) !! Oids(t.List(l)) {
      assert Oids(s.List(k)) <= s.marks && Oids(s.List(l)) <= s.marks;
      assert k != Queue(hid) ==> t.List(k) == s.List(k);
      assert l != Queue(hid) ==> t.List(l) == s.List(l);
    }
  }

  lemma DistinctPush(m: Msg, l: seq<Msg>)
    requires Distinct(l) && m.oid !in Oids(l)
    ensures Distinct([m] + l) && Distinct(l + [m])
  {
    forall x | x in l ensures x.oid != m.oid {
    }
  }

  /** A message changes from one active list to another. */
  lemma TransferTidy(s: Store, t: Store, k: ListKey, l: ListKey, m: Msg)
    requires Tidy(s) && t.marks == s.marks && Active(k) && Active(l) && k != l && m.oid in Oids(s.List(k))
    requires forall j | Active(j) && j != k && j != l :: t.List(j) == s.List(j)
    requires Distinct(t.List(k)) && Oids(t.List(k)) == Oids(s.List(k)) - {m.oid}
    requires Distinct(t.List(l)) && Oids(t.List(l)) == Oids(s.List(l)) + {m.oid}
    ensures Tidy(t)
  {
  }

  lemma MoveTidy(s: Store, hid: int)
    requires Tidy(s) && s.List(Queue(hid)) != []
    ensures Tidy(s.Move(hid))
  {
    var q, p := s.List(Queue(hid)), s.List(Processing(hid));
    var m, front := q[|q| - 1], q[..|q| - 1];
    assert q == front + [m];
    OidsConcat(front, [m]);
    OidsConcat([m], p);
    assert Oids([m]) == {m.oid};
    assert m.oid in Oids(q);
    assert m.oid !in Oids(front);
    DistinctPush(m, p);
    TransferTidy(s, s.Move(hid), Queue(hid), Processing(hid), m);
  }

  lemma RequeueTidy(s: Store, hid: int, m: Msg, io: Io)
    requires Tidy(s) && m in s.List(Processing(hid))
    ensures Tidy(Requeue(s, hid, m, io))
  {
    if io.push {
      var q := s.List(Queue(hid));
      OidsConcat(q, [m]);
      assert Oids([m]) == {m.oid};
      assert m.oid in Oids(s.List(Processing(hid)));
      RemoveFirstOids(s.List(Processing(hid)), m);
      DistinctPush(m, q);
      TransferTidy(s, Requeue(s, hid, m, io), Processing(hid), Queue(hid), m);
    }
  }

  lemma DropTidy(s: Store, hid: int, m: Msg)
    requires Tidy(s) && m in s.List(Processing(hid))
    ensures Tidy(Drop(s, hid, m))
  {
    var t := s.LRem(Processing(hid), m);
    LRemTidy(s, Processing(hid), m);
    UnmarkTidy(t, m.oid);
    assert Drop(s, hid, m) == t.Unmark(m.oid);
  }

  // What a handler on order `oid` may do to the rest of the state.

  /** Good lists and stored messages stay good; processing lists lose messages of `oid` only. */
  ghost predicate Fine(cfg: Config, s: Store, t: Store, oid: int) {
    && (Tidy(s) && Stored(cfg, s) ==> Tidy(t) && Stored(cfg, t))
    && KeepsWork(s, t, oid)
  }

  ghost predicate KeepsWork(s: Store, t: Store, oid: int) {
    forall hid, x | x in s.List(Processing(hid)) && x.oid != oid :: x in t.List(Processing(hid))
  }

  ghost predicate SameRouting(s: Store, t: Store) {
    forall oid | oid in s.rows :: oid in t.rows && t.rows[oid].hid == s.rows[oid].hid
  }

  /** Only rows, submitted hash and locks change. */
  lemma RowsFine(cfg: Config, s: Store, t: Store, oid: int)
    requires t.lists == s.lists && t.marks == s.marks && t.retries == s.retries && SameRouting(s, t)
    ensures Fine(cfg, s, t, oid)
  {
    assert forall k :: t.List(k) == s.List(k);
    assert forall hid :: t.Retries(hid) == s.Retries(hid);
    if Stored(cfg, s) {
      forall k, m | m in t.List(k) ensures Fits(cfg, t, k.hid, m) {
        assert Fits(cfg, s, k.hid, m);
      }
      forall hid, m | m in t.Retries(hid) ensures Fits(cfg, t, hid, m) {
        assert Fits(cfg, s, hid, m);
      }
    }
  }

  lemma {:induction false} RemoveFirstKeeps(l: seq<Msg>, m: Msg, x: Msg)
    requires x in l && x != m
    ensures x in RemoveFirst(l, m)
  {
    if l[0] != m && l[0] != x {
      RemoveFirstKeeps(l[1..], m, x);
    }
  }

  /** Lists only lose or gain fitting messages, and the retry schedule likewise. */
  lemma StoredFrom(cfg: Config, s: Store, t: Store)
    requires Stored(cfg, s) && t.rows == s.rows
    requires forall k, m | m in t.List(k) :: m in s.List(k) || Fits(cfg, s, k.hid, m)
    requires forall hid, m | m in t.Retries(hid) :: m in s.Retries(hid) || Fits(cfg, s, hid, m)
    ensures Stored(cfg, t)
  {
  }

  lemma LRemFine(cfg: Config, s: Store, k: ListKey, m: Msg)
    ensures Fine(cfg, s, s.LRem(k, m), m.oid)
  {
    var t := s.LRem(k, m);
    RemoveFirstSubset(s.List(k), m);
    assert forall l, x | x in t.List(l) :: x in s.List(l);
    if Tidy(s) && Stored(cfg, s) {
      LRemTidy(s, k, m);
      StoredFrom(cfg, s, t);
    }
    forall hid, x | x in s.List(Processing(hid)) && x.oid != m.oid ensures x in t.List(Processing(hid)) {
      if k == Processing(hid) {
        RemoveFirstKeeps(s.List(k), m, x);
      }
    }
  }

  lemma DropFine(cfg: Config, s: Store, hid: int, m: Msg)
    requires m in s.List(Processing(hid))
    ensures Fine(cfg, s, Drop(s, hid, m), m.oid)
  {
    var t := s.LRem(Processing(hid), m);
    LRemFine(cfg, s, Processing(hid), m);
    if Tidy(s) && Stored(cfg, s) {
      DropTidy(s, hid, m);
      StoredFrom(cfg, t, Drop(s, hid, m));
    }
  }

  lemma FineTrans(cfg: Config, s: Store, t: Store, u: Store, oid: int)
    requires Fine(cfg, s, t, oid) && Fine(cfg, t, u, oid)
    ensures Fine(cfg, s, u, oid)
  {
  }

  lemma WritesFine(cfg: Config, s: Store, oid: int, yid: string, newStatus: bool, io: Io)
    ensures Fine(cfg, s, Record(s, oid, yid, io), oid)
    ensures Fine(cfg, s, WriteDone(s, oid, yid, io), oid)
    ensures Fine(cfg, s, WriteFailed(s, oid, newStatus, io), oid)
    ensures forall k :: Record(s, oid, yid, io).List(k) == s.List(k)
    ensures forall k :: WriteDone(s, oid, yid, io).List(k) == s.List(k)
    ensures forall k :: WriteFailed(s, oid, newStatus, io).List(k) == s.List(k)
  {
    DoneFine(cfg, s, oid, yid, io);
    RecordFine(cfg, s, oid, yid, io);
    RowsFine(cfg, s, WriteFailed(s, oid, newStatus, io), oid);
  }

  lemma DoneFine(cfg: Config, s: Store, oid: int, yid: string, io: Io)
    ensures Fine(cfg, s, WriteDone(s, oid, yid, io), oid)
  {
    RowsFine(cfg, s, WriteDone(s, oid, yid, io), oid);
  }

  lemma RecordFine(cfg: Config, s: Store, oid: int, yid: string, io: Io)
    ensures Fine(cfg, s, Record(s, oid, yid, io), oid)
  {
    RowsFine(cfg, s, Record(s, oid, yid, io), oid);
  }

  lemma SettleFine(cfg: Config, s: Store, hid: int, m: Msg, yid: string, io: Io)
    requires m in s.List(Processing(hid))
    ensures Fine(cfg, s, Settle(s, hid, m, yid, io), m.oid)
    ensures Fine(cfg, s, Drop(WriteDone(s, m.oid, yid, io), hid, m), m.oid)
  {
    WritesFine(cfg, s, m.oid, yid, false, io);
    var t, u := Record(s, m.oid, yid, io), WriteDone(s, m.oid, yid, io);
    DropFine(cfg, t, hid, m);
    DropFine(cfg, u, hid, m);
    FineTrans(cfg, s, t, Drop(t, hid, m), m.oid);
    FineTrans(cfg, s, u, Drop(u, hid, m), m.oid);
  }

  lemma GiveUpFine(cfg: Config, s: Store, hid: int, m: Msg, newStatus: bool, io: Io)
    requires m in s.List(Processing(hid))
    ensures Fine(cfg, s, GiveUp(s, hid, m, newStatus, io), m.oid)
  {
    WritesFine(cfg, s, m.oid, "", newStatus, io);
    var t := WriteFailed(s, m.oid, newStatus, io);
    var u := GiveUp(s, hid, m, newStatus, io);
    DropFine(cfg, t, hid, m);
    var d := Drop(t, hid, m);
    assert forall k | k != DeadLetter(hid) :: u.List(k) == d.List(k);
    assert u.List(DeadLetter(hid)) == [m] + d.List(DeadLetter(hid));
    if Tidy(s) && Stored(cfg, s) {
      SameListsTidy(d, u);
      assert Fits(cfg, t, hid, m);
      StoredFrom(cfg, d, u);
    }
    FineTrans(cfg, s, t, d, m.oid);
  }

  lemma RetryFine(cfg: Config, s: Store, hid: int, m: Msg, now: int)
    requires m in s.List(Processing(hid)) && m.r + 1 < cfg(hid).maxAttempts
    ensures Fine(cfg, s, Retry(s, hid, m, cfg(hid), now), m.oid)
  {
    var d := Drop(s, hid, m);
    var u := Retry(s, hid, m, cfg(hid), now);
    DropFine(cfg, s, hid, m);
    assert forall k :: u.List(k) == d.List(k);
    if Tidy(s) && Stored(cfg, s) {
      SameListsTidy(d, u);
      assert Fits(cfg, s, hid, m);
      StoredFrom(cfg, d, u);
    }
  }

  lemma RepairFine(cfg: Config, s: Store, hid: int, m: Msg, io: Io)
    requires m in s.List(Processing(hid)) && m.oid in s.submitted
    ensures Fine(cfg, s, RepairSubmitted(s, hid, m, io), m.oid)
  {
    SettleFine(cfg, s, hid, m, s.submitted[m.oid], io);
    GiveUpFine(cfg, s, hid, m, false, io);
  }

  lemma FinalizeFine(cfg: Config, s: Store, hid: int, m: Msg, out: Outcome, now: int, io: Io)
    requires m in s.List(Processing(hid)) && (out.Failure? ==> !out.timeout)
    ensures Fine(cfg, s, Finalize(s, cfg(hid), hid, m, out, now, io), m.oid)
  {
    SettleFine(cfg, s, hid, m, if out.Success? then out.yid else s.TableYid(m.oid), io);
    GiveUpFine(cfg, s, hid, m, false, io);
    if m.r + 1 < cfg(hid).maxAttempts {
      RetryFine(cfg, s, hid, m, now);
    }
  }

  lemma ConfirmFine(cfg: Config, s: Store, hid: int, m: Msg, out: Outcome, now: int, io: Io)
    requires m in s.List(Processing(hid)) && out.Failure?
    ensures Fine(cfg, s, Confirm(s, cfg(hid), hid, m, out, now, io), m.oid)
  {
    SettleFine(cfg, s, hid, m, s.TableYid(m.oid), io);
    DropFine(cfg, s, hid, m);
    GiveUpFine(cfg, s, hid, m, true, io);
    if m.r + 1 < cfg(hid).maxAttempts {
      RetryFine(cfg, s, hid, m, now);
    }
  }

  lemma UnlockFine(cfg: Config, s: Store, t: Store, oid: int)
    requires Fine(cfg, s, t, oid)
    ensures Fine(cfg, s, t.DelLock(oid), oid)
  {
    RowsFine(cfg, t, t.DelLock(oid), oid);
    FineTrans(cfg, s, t, t.DelLock(oid), oid);
  }

  lemma ReapFine(cfg: Config, s: Store, hid: int, m: Msg, now: int, io: Io)
    requires m in s.List(Processing(hid))
    ensures Fine(cfg, s, ReapOne(s, cfg(hid), hid, m, now, io), m.oid)
  {
    var t :=
      if FoundInHash(s, m.oid, io) then Drop(WriteDone(s, m.oid, s.submitted[m.oid], io), hid, m)
      else if FoundInTable(s, m.oid, io) then Settle(s, hid, m, s.TableYid(m.oid), io)
      else if cfg(hid).enabled && m.r + 1 < cfg(hid).maxAttempts && io.zadd then Retry(s, hid, m, cfg(hid), now)
      else GiveUp(s, hid, m, true, io);
    if FoundInHash(s, m.oid, io) {
      SettleFine(cfg, s, hid, m, s.submitted[m.oid], io);
    } else {
      SettleFine(cfg, s, hid, m, s.TableYid(m.oid), io);
    }
    GiveUpFine(cfg, s, hid, m, true, io);
    if m.r + 1 < cfg(hid).maxAttempts {
      RetryFine(cfg, s, hid, m, now);
    }
    UnlockFine(cfg, s, t, m.oid);
  }

  lemma RollbackFine(cfg: Config, s: Store, hid: int, m: Msg, io: Io)
    requires m in s.List(Processing(hid))
    ensures Fine(cfg, s, RollbackOne(s, hid, m, io), m.oid)
  {
    var t :=
      if FoundInHash(s, m.oid, io) then Drop(WriteDone(s, m.oid, s.submitted[m.oid], io), hid, m)
      else if FoundInTable(s, m.oid, io) then Settle(s, hid, m, s.TableYid(m.oid), io)
      else Drop(s, hid, m);
    if FoundInHash(s, m.oid, io) {
      SettleFine(cfg, s, hid, m, s.submitted[m.oid], io);
    } else {
      SettleFine(cfg, s, hid, m, s.TableYid(m.oid), io);
    }
    DropFine(cfg, s, hid, m);
    UnlockFine(cfg, s, t, m.oid);
  }

  lemma EnqueueFine(cfg: Config, s: Store, hid: int, m: Msg, io: Io)
    requires Fits(cfg, s, hid, m)
    ensures Fine(cfg, s, Enqueue(s, hid, m, io), m.oid)
  {
    if Enqueued(s, m, io) && Tidy(s) && Stored(cfg, s) {
      AddTidy(s, hid, m);
      StoredFrom(cfg, s, Enqueue(s, hid, m, io));
    }
  }

  lemma ZRemFine(cfg: Config, s: Store, hid: int, m: Msg)
    ensures Fine(cfg, s, s.ZRem(hid, m), m.oid)
  {
    var t := s.ZRem(hid, m);
    assert forall k :: t.List(k) == s.List(k);
    if Tidy(s) && Stored(cfg, s) {
      SameListsTidy(s, t);
      StoredFrom(cfg, s, t);
    }
  }

  lemma ZAddFine(cfg: Config, s: Store, hid: int, m: Msg, score: int)
    requires Fits(cfg, s, hid, m)
    ensures Fine(cfg, s, s.ZAdd(hid, m, score), m.oid)
  {
    var t := s.ZAdd(hid, m, score);
    assert forall k :: t.List(k) == s.List(k);
    if Tidy(s) && Stored(cfg, s) {
      SameListsTidy(s, t);
      StoredFrom(cfg, s, t);
    }
  }

  lemma DispatchFine(cfg: Config, s: Store, hid: int, m: Msg, now: int, io: Io)
    requires Stored(cfg, s)
    ensures Fine(cfg, s, DispatchOne(s, hid, m, now, io), m.oid)
  {
    if m in s.Retries(hid) {
      var t := s.ZRem(hid, m);
      assert Fits(cfg, s, hid, m);
      ZRemFine(cfg, s, hid, m);
      if FoundInHash(t, m.oid, io) {
        WritesFine(cfg, t, m.oid, t.submitted[m.oid], false, io);
      } else if FoundInTable(t, m.oid, io) {
        WritesFine(cfg, t, m.oid, t.TableYid(m.oid), false, io);
      } else if Enqueued(t, m, io) {
        EnqueueFine(cfg, t, hid, m, io);
      } else {
        ZAddFine(cfg, t, hid, m, now + 10);
      }
      FineTrans(cfg, s, t, DispatchOne(s, hid, m, now, io), m.oid);
    }
  }

  lemma ScanFine(cfg: Config, s: Store, hid: int, m: Msg, now: int, io: Io)
    requires NormalConfig(cfg) && m in s.List(DeadLetter(hid)) && Stored(cfg, s)
    ensures Fine(cfg, s, ScanOne(s, hid, m, now, io), m.oid)
  {
    assert Fits(cfg, s, hid, m) && Normal(cfg(hid));
    var t := s.LRem(DeadLetter(hid), m);
    LRemFine(cfg, s, DeadLetter(hid), m);
    WritesFine(cfg, t, m.oid, if FoundInHash(s, m.oid, io) then s.submitted[m.oid] else s.TableYid(m.oid), false, io);
    if Found(s, m.oid, io) {
      FineTrans(cfg, s, t, ScanOne(s, hid, m, now, io), m.oid);
    } else if io.reopen && s.rows[m.oid].dock.Failed? {
      ReopenFine(cfg, s, hid, m, now, io);
    } else {
      assert ScanOne(s, hid, m, now, io) == s;
      RowsFine(cfg, s, s, m.oid);
    }
  }

  lemma ReopenFine(cfg: Config, s: Store, hid: int, m: Msg, now: int, io: Io)
    requires NormalConfig(cfg) && m in s.List(DeadLetter(hid)) && Stored(cfg, s) && Fits(cfg, s, hid, m)
    requires m.oid in s.rows
    ensures Fine(cfg, s, Enqueue(s.Reopen(m.oid).LRem(DeadLetter(hid), m), hid, m.(r := 0, ts := now), io), m.oid)
  {
    var o := s.Reopen(m.oid);
    var u := o.LRem(DeadLetter(hid), m);
    var n := m.(r := 0, ts := now);
    RowsFine(cfg, s, o, m.oid);
    LRemFine(cfg, o, DeadLetter(hid), m);
    EnqueueFine(cfg, u, hid, n, io);
    FineTrans(cfg, s, o, u, m.oid);
    FineTrans(cfg, s, u, Enqueue(u, hid, n, io), m.oid);
  }

  // Sessions.

  /** Steps outside the sessions on an order nobody works on. */
  lemma StoreStepClean(cfg: Config, w: World, t: Store, oid: int)
    requires Clean(cfg, w) && Fine(cfg, w.store, t, oid) && !InWork(w, oid)
    ensures Clean(cfg, w.(store := t))
  {
    var v := w.(store := t);
    forall sid | sid in v.sessions && Working(v.sessions[sid].phase)
      ensures v.sessions[sid].m in t.List(Processing(v.sessions[sid].hid))
    {
      assert w.sessions[sid].m.oid != oid;
    }
  }

  /** Steps that leave every processing list alone. */
  lemma QuietStepClean(cfg: Config, w: World, t: Store, oid: int)
    requires Clean(cfg, w) && Fine(cfg, w.store, t, oid)
    requires forall hid :: t.List(Processing(hid)) == w.store.List(Processing(hid))
    ensures Clean(cfg, w.(store := t))
  {
    var v := w.(store := t);
    forall sid | sid in v.sessions && Working(v.sessions[sid].phase)
      ensures v.sessions[sid].m in t.List(Processing(v.sessions[sid].hid))
    {
      assert w.sessions[sid].m in w.store.List(Processing(w.sessions[sid].hid));
    }
  }

  /** A session that works on its message moves on and stops working, or its message stays put. */
  lemma SessionStepClean(cfg: Config, w: World, v: World, sid: nat)
    requires Clean(cfg, w) && sid in w.sessions && v.next == w.next
    requires v.sessions - {sid} == w.sessions - {sid}
    requires Fine(cfg, w.store, v.store, w.sessions[sid].m.oid)
    requires Working(w.sessions[sid].phase) ||
      (forall hid :: v.store.List(Processing(hid)) == w.store.List(Processing(hid)))
    requires sid in v.sessions ==>
      && v.sessions[sid].m == w.sessions[sid].m && v.sessions[sid].hid == w.sessions[sid].hid
      && (Working(v.sessions[sid].phase) ==>
            Working(w.sessions[sid].phase) && v.store.lists == w.store.lists)
    ensures Clean(cfg, v)
  {
    forall b | b in v.sessions ensures b in w.sessions && (b != sid ==> v.sessions[b] == w.sessions[b]) {
      if b != sid {
        assert b in v.sessions - {sid};
        assert (v.sessions - {sid})[b] == (w.sessions - {sid})[b];
      }
    }
    forall b | b in v.sessions && Working(v.sessions[b].phase)
      ensures v.sessions[b].m in v.store.List(Processing(v.sessions[b].hid))
    {
      assert w.sessions[b].m in w.store.List(Processing(w.sessions[b].hid));
    }
  }

  lemma TakeClean(cfg: Config, w: World, hid: int)
    requires Clean(cfg, w) && Enabled(w, Take(hid))
    ensures Clean(cfg, Apply(cfg, w, Take(hid)))
  {
    var s, t := w.store, w.store.Move(hid);
    var v := Apply(cfg, w, Take(hid));
    var q := s.List(Queue(hid));
    var m := q[|q| - 1];
    MoveTidy(s, hid);
    MoveStored(cfg, s, hid);
    forall b | b in w.sessions && Working(w.sessions[b].phase)
      ensures w.sessions[b].m.oid != m.oid && w.sessions[b].m in t.List(Processing(w.sessions[b].hid))
    {
      MoveSpares(s, hid, w.sessions[b].hid, w.sessions[b].m);
    }
  }

  lemma MoveStored(cfg: Config, s: Store, hid: int)
    requires Stored(cfg, s) && s.List(Queue(hid)) != []
    ensures Stored(cfg, s.Move(hid))
  {
    var q := s.List(Queue(hid));
    var t, m := s.Move(hid), q[|q| - 1];
    assert m in q;
    assert forall k, x | x in t.List(k) :: x in s.List(k) || (k == Processing(hid) && x == m) by {
      assert forall x | x in q[..|q| - 1] :: x in q;
    }
    assert Fits(cfg, s, hid, m);
    StoredFrom(cfg, s, t);
  }

  /** What is in processing is of other orders than the moved message, and stays. */
  lemma MoveSpares(s: Store, hid: int, h: int, x: Msg)
    requires Tidy(s) && s.List(Queue(hid)) != [] && x in s.List(Processing(h))
    ensures var q := s.List(Queue(hid)); x.oid != q[|q| - 1].oid
    ensures x in s.Move(hid).List(Processing(h))
  {
    var q := s.List(Queue(hid));
    assert q[|q| - 1] in q && q[|q| - 1].oid in Oids(q);
    assert x.oid in Oids(s.List(Processing(h)));
    assert Oids(q) !! Oids(s.List(Processing(h)));
  }

  lemma AcquireClean(cfg: Config, w: World, step: Step)
    requires Clean(cfg, w) && Enabled(w, step) && step.Acquire?
    ensures Clean(cfg, Apply(cfg, w, step))
  {
    var x, s := w.sessions[step.sid], w.store;
    var v := Apply(cfg, w, step);
    if !step.reachable {
      RequeueFine(cfg, s, x.hid, x.m, step.io);
    } else if x.m.oid in s.locks {
      LRemFine(cfg, s, Processing(x.hid), x.m);
    } else {
      RowsFine(cfg, s, v.store, x.m.oid);
    }
    SessionStepClean(cfg, w, v, step.sid);
  }

  lemma RequeueFine(cfg: Config, s: Store, hid: int, m: Msg, io: Io)
    requires m in s.List(Processing(hid))
    ensures Fine(cfg, s, Requeue(s, hid, m, io), m.oid)
  {
    if io.push {
      var t := Requeue(s, hid, m, io);
      RemoveFirstSubset(s.List(Processing(hid)), m);
      if Tidy(s) && Stored(cfg, s) {
        RequeueTidy(s, hid, m, io);
        assert Fits(cfg, s, hid, m);
        StoredFrom(cfg, s, t);
      }
      forall h, x | x in s.List(Processing(h)) && x.oid != m.oid ensures x in t.List(Processing(h)) {
        if h == hid {
          RemoveFirstKeeps(s.List(Processing(hid)), m, x);
        }
      }
    }
  }

  lemma DecideClean(cfg: Config, w: World, step: Step)
    requires Clean(cfg, w) && Enabled(w, step)
    requires step.CheckHash? || step.CheckTable? || step.HandToPool? || step.StartSubmit? || step.StartConfirm? ||
      step.UpstreamReturns?
    ensures Clean(cfg, Apply(cfg, w, step))
  {
    var x, s := w.sessions[step.sid], w.store;
    var v := Apply(cfg, w, step);
    if step.CheckHash? && step.readOk && x.m.oid in s.submitted {
      RepairFine(cfg, s, x.hid, x.m, step.io);
    } else if step.CheckTable? && step.readOk && s.SucceededInTable(x.m.oid) {
      SettleFine(cfg, s, x.hid, x.m, s.TableYid(x.m.oid), step.io);
    }
    SessionStepClean(cfg, w, v, step.sid);
  }

  lemma ConcludeClean(cfg: Config, w: World, step: Step)
    requires Clean(cfg, w) && Enabled(w, step)
    requires step.FinalizeOutcome? || step.ConfirmTimeout? || step.Release?
    ensures Clean(cfg, Apply(cfg, w, step))
  {
    var x, s := w.sessions[step.sid], w.store;
    if step.ConfirmTimeout? {
      ConfirmFine(cfg, s, x.hid, x.m, x.phase.out, step.now, step.io);
      SessionStepClean(cfg, w, Apply(cfg, w, step), step.sid);
    } else if step.FinalizeOutcome? {
      FinalizeClean(cfg, w, step);
    } else {
      ReleaseClean(cfg, w, step);
    }
  }

  lemma FinalizeClean(cfg: Config, w: World, step: Step)
    requires Clean(cfg, w) && Enabled(w, step) && step.FinalizeOutcome?
    ensures Clean(cfg, Apply(cfg, w, step))
  {
    var x, s := w.sessions[step.sid], w.store;
    if x.phase.out.Success? || !x.phase.out.timeout {
      FinalizeFine(cfg, s, x.hid, x.m, x.phase.out, step.now, step.io);
    }
    SessionStepClean(cfg, w, Apply(cfg, w, step), step.sid);
  }

  lemma ReleaseClean(cfg: Config, w: World, step: Step)
    requires Clean(cfg, w) && Enabled(w, step) && step.Release?
    ensures Clean(cfg, Apply(cfg, w, step))
  {
    var x, v := w.sessions[step.sid], Apply(cfg, w, step);
    if x.phase.Releasing? {
      RowsFine(cfg, w.store, v.store, x.m.oid);
      SessionStepClean(cfg, w, v, step.sid);
    } else if !x.phase.owed.PoolWorker? {
      SessionStepClean(cfg, w, v, step.sid);
    }
  }

  lemma SweepClean(cfg: Config, w: World, step: Step)
    requires Clean(cfg, w) && Enabled(w, step) && Undisturbed(w, step) && (step.Reap? || step.Rollback?)
    ensures Clean(cfg, Apply(cfg, w, step))
  {
    if step.Reap? {
      ReapFine(cfg, w.store, step.hid, step.m, step.now, step.io);
    } else {
      RollbackFine(cfg, w.store, step.hid, step.m, step.io);
    }
    StoreStepClean(cfg, w, Apply(cfg, w, step).store, step.m.oid);
  }

  lemma DispatchQuiet(s: Store, hid: int, m: Msg, now: int, io: Io)
    ensures forall h :: DispatchOne(s, hid, m, now, io).List(Processing(h)) == s.List(Processing(h))
  {
  }

  lemma ScanQuiet(s: Store, hid: int, m: Msg, now: int, io: Io)
    ensures forall h :: ScanOne(s, hid, m, now, io).List(Processing(h)) == s.List(Processing(h))
  {
  }

  lemma DispatchClean(cfg: Config, w: World, step: Step)
    requires Clean(cfg, w) && Enabled(w, step) && step.Dispatch?
    ensures Clean(cfg, Apply(cfg, w, step))
  {
    DispatchFine(cfg, w.store, step.hid, step.m, step.now, step.io);
    DispatchQuiet(w.store, step.hid, step.m, step.now, step.io);
    QuietStepClean(cfg, w, Apply(cfg, w, step).store, step.m.oid);
  }

  lemma ScanClean(cfg: Config, w: World, step: Step)
    requires Clean(cfg, w) && NormalConfig(cfg) && Enabled(w, step) && step.Scan?
    ensures Clean(cfg, Apply(cfg, w, step))
  {
    ScanFine(cfg, w.store, step.hid, step.m, step.now, step.io);
    ScanQuiet(w.store, step.hid, step.m, step.now, step.io);
    QuietStepClean(cfg, w, Apply(cfg, w, step).store, step.m.oid);
  }

  lemma NewOrderClean(cfg: Config, w: World, step: Step)
    requires Clean(cfg, w) && NormalConfig(cfg) && Enabled(w, step) && (step.Produce? || step.Push?)
    ensures Clean(cfg, Apply(cfg, w, step))
  {
    var s, t := w.store, Apply(cfg, w, step).store;
    if step.oid in s.rows {
      var hid := s.rows[step.oid].hid;
      assert Normal(cfg(hid));
      EnqueueFine(cfg, s, hid, NewMsg(step.oid, hid, step.now), step.io);
    }
    QuietStepClean(cfg, w, t, step.oid);
  }

  lemma RowStepClean(cfg: Config, w: World, step: Step)
    requires Clean(cfg, w) && Enabled(w, step) && (step.InsertRow? || step.CancelRow? || step.LockExpires?)
    ensures Clean(cfg, Apply(cfg, w, step))
  {
    var t := Apply(cfg, w, step).store;
    RowsFine(cfg, w.store, t, step.oid);
    QuietStepClean(cfg, w, t, step.oid);
  }

  lemma StepClean(cfg: Config, w: World, step: Step)
    requires Clean(cfg, w) && NormalConfig(cfg) && Enabled(w, step) && Undisturbed(w, step)
    ensures Clean(cfg, Apply(cfg, w, step))
  {
    if step.Take? {
      TakeClean(cfg, w, step.hid);
    } else if step.Acquire? {
      AcquireClean(cfg, w, step);
    } else if step.FinalizeOutcome? || step.ConfirmTimeout? || step.Release? {
      ConcludeClean(cfg, w, step);
    } else if OfSession(step) {
      DecideClean(cfg, w, step);
    } else if step.Reap? || step.Rollback? {
      SweepClean(cfg, w, step);
    } else if step.Dispatch? {
      DispatchClean(cfg, w, step);
    } else if step.Scan? {
      ScanClean(cfg, w, step);
    } else if step.Produce? || step.Push? {
      NewOrderClean(cfg, w, step);
    } else if !step.Crash? {
      RowStepClean(cfg, w, step);
    }
  }

  lemma {:induction false} RunClean(cfg: Config, w: World, steps: seq<Step>)
    requires Clean(cfg, w) && NormalConfig(cfg) && IsRun(cfg, w, steps, Undisturbed)
    ensures Clean(cfg, Final(cfg, w, steps, Undisturbed))
    decreases |steps|
  {
    if steps != [] {
      StepClean(cfg, w, steps[0]);
      RunClean(cfg, Apply(cfg, w, steps[0]), steps[1..]);
    }
  }

  /**
   Over every undisturbed run: an order has at most one message in all queues and processing
   lists together, a message implies the marker, and every stored message sits in the channel
   of its order with a retry count below the limit.
   */
  lemma OneMessagePerOrder(cfg: Config, steps: seq<Step>)
    requires NormalConfig(cfg) && IsRun(cfg, INIT, steps, Undisturbed)
    ensures var s := Final(cfg, INIT, steps, Undisturbed).store;
      && (forall k, i, l, j |
            Active(k) && Active(l) && 0 <= i < |s.List(k)| && 0 <= j < |s.List(l)| &&
            s.List(k)[i].oid == s.List(l)[j].oid :: k == l && i == j)
      && (forall k, m | Active(k) && m in s.List(k) :: m.oid in s.marks)
      && (forall k, m | m in s.List(k) :: Fits(cfg, s, k.hid, m))
      && (forall hid, m | m in s.Retries(hid) :: Fits(cfg, s, hid, m))
  {
    RunClean(cfg, INIT, steps);
    var s := Final(cfg, INIT, steps, Undisturbed).store;
    TidyMeans(s);
  }

  lemma TidyMeans(s: Store)
    requires Tidy(s)
    ensures forall k, i, l, j |
      Active(k) && Active(l) && 0 <= i < |s.List(k)| && 0 <= j < |s.List(l)| &&
      s.List(k)[i].oid == s.List(l)[j].oid :: k == l && i == j
    ensures forall k, m | Active(k) && m in s.List(k) :: m.oid in s.marks
  {
    forall k, i, l, j |
      Active(k) && Active(l) && 0 <= i < |s.List(k)| && 0 <= j < |s.List(l)| &&
      s.List(k)[i].oid == s.List(l)[j].oid
      ensures k == l && i == j
    {
      assert s.List(k)[i].oid in Oids(s.List(k));
      assert s.List(l)[j].oid in Oids(s.List(l));
    }
    forall k, m | Active(k) && m in s.List(k) ensures m.oid in s.marks {
      assert m.oid in Oids(s.List(k));
    }
  }
}
