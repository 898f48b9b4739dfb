/**
 What the handlers of one message mean for their callers: where the message is afterwards, and
 that no other order is touched.
 */
module OrderEffects {
  import opened OrderStore
  import opened Resubmit
  import opened OrderHandlers

  /** The messages of all other orders, in their order. */
  function Others(l: seq<Msg>, oid: int): seq<Msg> {
    if l == [] then []
    else (if l[0].oid == oid then [] else [l[0]]) + Others(l[1..], oid)
  }

  lemma {:induction false} OthersConcat(a: seq<Msg>, b: seq<Msg>, oid: int)
    ensures Others(a + b, oid) == Others(a, oid) + Others(b, oid)
    decreases |a|
  {
    if a == [] {
      assert a + b == b;
    } else {
      assert (a + b)[0] == a[0] && (a + b)[1..] == a[1..] + b;
      OthersConcat(a[1..], b, oid);
    }
  }

  lemma {:induction false} OthersRemove(l: seq<Msg>, m: Msg)
    ensures Others(RemoveFirst(l, m), m.oid) == Others(l, m.oid)
  {
    if l != [] && l[0] != m {
      OthersRemove(l[1..], m);
      assert RemoveFirst(l, m)[1..] == RemoveFirst(l[1..], m);
    }
  }

  lemma {:induction false} RemoveOne(l: seq<Msg>, m: Msg)
    ensures multiset(RemoveFirst(l, m)) == multiset(l) - multiset{m}
  {
    if l != [] {
      assert l == [l[0]] + l[1..];
      if l[0] != m {
        RemoveOne(l[1..], m);
      }
    }
  }

  /** Two maps agree on all keys but one. */
  ghost predicate SameBut<T>(a: map<int, T>, b: map<int, T>, oid: int) {
    a - {oid} == b - {oid}
  }

  ghost predicate SameOthers(s: Store, t: Store, oid: int, k: ListKey) {
    Others(t.List(k), oid) == Others(s.List(k), oid)
  }

  ghost predicate SameWait(s: Store, t: Store, hid: int, m: Msg) {
    (m in t.Retries(hid) <==> m in s.Retries(hid)) &&
    (m in s.Retries(hid) ==> t.Retries(hid)[m] == s.Retries(hid)[m])
  }

  /** Row, record, lock, marker, messages and waits of every other order are the same. */
  ghost predicate OnlyOrder(s: Store, t: Store, oid: int) {
    && SameBut(s.rows, t.rows, oid) && SameBut(s.submitted, t.submitted, oid) && SameBut(s.locks, t.locks, oid)
    && s.marks - {oid} == t.marks - {oid}
    && (forall k: ListKey :: SameOthers(s, t, oid, k))
    && (forall hid: int, m: Msg | m.oid != oid :: SameWait(s, t, hid, m))
  }

  lemma OnlyThen(s: Store, t: Store, u: Store, oid: int)
    requires OnlyOrder(s, t, oid) && OnlyOrder(t, u, oid)
    ensures OnlyOrder(s, u, oid)
  {
    forall k: ListKey ensures SameOthers(s, u, oid, k) {
      assert SameOthers(s, t, oid, k) && SameOthers(t, u, oid, k);
    }
    forall hid: int, m: Msg | m.oid != oid ensures SameWait(s, u, hid, m) {
      assert SameWait(s, t, hid, m) && SameWait(t, u, hid, m);
    }
  }

  /** The row, record, lock and marker of one order may change. */
  lemma OnlyFields(s: Store, t: Store, oid: int)
    requires t.lists == s.lists && t.retries == s.retries
    requires SameBut(s.rows, t.rows, oid) && SameBut(s.submitted, t.submitted, oid) && SameBut(s.locks, t.locks, oid)
    requires s.marks - {oid} == t.marks - {oid}
    ensures OnlyOrder(s, t, oid)
  {
  }

  lemma OnlyRemoves(s: Store, k: ListKey, m: Msg)
    ensures OnlyOrder(s, s.LRem(k, m), m.oid)
  {
    forall x: ListKey ensures SameOthers(s, s.LRem(k, m), m.oid, x) {
      OthersRemove(s.List(k), m);
    }
  }

  lemma OnlyPushes(s: Store, k: ListKey, m: Msg)
    ensures OnlyOrder(s, s.LPush(k, m), m.oid) && OnlyOrder(s, s.RPush(k, m), m.oid)
  {
    forall x: ListKey
      ensures SameOthers(s, s.LPush(k, m), m.oid, x)
      ensures SameOthers(s, s.RPush(k, m), m.oid, x)
    {
      OthersConcat([m], s.List(k), m.oid);
      OthersConcat(s.List(k), [m], m.oid);
      assert Others([m], m.oid) == [];
    }
  }

  lemma OnlySchedules(s: Store, hid: int, m: Msg, score: int)
    ensures OnlyOrder(s, s.ZAdd(hid, m, score), m.oid) && OnlyOrder(s, s.ZRem(hid, m), m.oid)
  {
  }

  lemma DropOnly(s: Store, hid: int, m: Msg)
    ensures OnlyOrder(s, Drop(s, hid, m), m.oid)
  {
    OnlyFields(s, s.Unmark(m.oid), m.oid);
    OnlyRemoves(s.Unmark(m.oid), Processing(hid), m);
    OnlyThen(s, s.Unmark(m.oid), Drop(s, hid, m), m.oid);
  }

  lemma SettleOnly(s: Store, hid: int, m: Msg, yid: string, io: Io)
    ensures OnlyOrder(s, Settle(s, hid, m, yid, io), m.oid)
  {
    var t := Record(s, m.oid, yid, io);
    OnlyFields(s, t, m.oid);
    DropOnly(t, hid, m);
    OnlyThen(s, t, Settle(s, hid, m, yid, io), m.oid);
  }

  lemma GiveUpOnly(s: Store, hid: int, m: Msg, newStatus: bool, io: Io)
    ensures OnlyOrder(s, GiveUp(s, hid, m, newStatus, io), m.oid)
  {
    var a := WriteFailed(s, m.oid, newStatus, io);
    var b := a.LRem(Processing(hid), m);
    var c := b.LPush(DeadLetter(hid), m);
    OnlyFields(s, a, m.oid);
    OnlyRemoves(a, Processing(hid), m);
    OnlyThen(s, a, b, m.oid);
    OnlyPushes(b, DeadLetter(hid), m);
    OnlyThen(s, b, c, m.oid);
    OnlyFields(c, c.Unmark(m.oid), m.oid);
    OnlyThen(s, c, c.Unmark(m.oid), m.oid);
  }

  lemma RetryOnly(s: Store, hid: int, m: Msg, settings: Settings, now: int)
    ensures OnlyOrder(s, Retry(s, hid, m, settings, now), m.oid)
  {
    var due := now + RetryDelay(settings, m.r + 1);
    var a := s.ZAdd(hid, Retried(m), due);
    OnlySchedules(s, hid, Retried(m), due);
    DropOnly(a, hid, m);
    OnlyThen(s, a, Drop(a, hid, m), m.oid);
  }

  lemma EnqueueOnly(s: Store, hid: int, m: Msg, io: Io)
    ensures OnlyOrder(s, Enqueue(s, hid, m, io), m.oid)
  {
    OnlyFields(s, s.Mark(m.oid), m.oid);
    OnlyPushes(s.Mark(m.oid), Queue(hid), m);
    OnlyThen(s, s.Mark(m.oid), s.Mark(m.oid).LPush(Queue(hid), m), m.oid);
  }

  lemma RepairOnly(s: Store, hid: int, m: Msg, io: Io)
    requires m.oid in s.submitted
    ensures OnlyOrder(s, RepairSubmitted(s, hid, m, io), m.oid)
  {
    if DoneWritten(s, m.oid, io) {
      FieldsThenDrop(s, WriteDone(s, m.oid, s.submitted[m.oid], io), hid, m);
    } else {
      GiveUpOnly(s, hid, m, false, io);
    }
  }

  lemma FieldsThenDrop(s: Store, t: Store, hid: int, m: Msg)
    requires t.(rows := s.rows) == s && SameBut(s.rows, t.rows, m.oid)
    ensures OnlyOrder(s, Drop(t, hid, m), m.oid)
  {
    OnlyFields(s, t, m.oid);
    DropOnly(t, hid, m);
    OnlyThen(s, t, Drop(t, hid, m), m.oid);
  }

  lemma DelLockOnly(s: Store, t: Store, oid: int)
    requires OnlyOrder(s, t, oid)
    ensures OnlyOrder(s, t.DelLock(oid), oid)
  {
    OnlyFields(t, t.DelLock(oid), oid);
    OnlyThen(s, t, t.DelLock(oid), oid);
  }

  /** Finalizing and confirming a submission, and the consumer's repair, leave every other order alone. */
  lemma OutcomesTouchOneOrder(
    s: Store, settings: Settings, hid: int, m: Msg, out: Outcome, now: int, io: Io)
    ensures !(out.Failure? && out.timeout) ==> OnlyOrder(s, Finalize(s, settings, hid, m, out, now, io), m.oid)
    ensures out.Failure? ==> OnlyOrder(s, Confirm(s, settings, hid, m, out, now, io), m.oid)
    ensures m.oid in s.submitted ==> OnlyOrder(s, RepairSubmitted(s, hid, m, io), m.oid)
  {
    if m.oid in s.submitted {
      RepairOnly(s, hid, m, io);
    }
    SettleOnly(s, hid, m, if out.Success? then out.yid else s.TableYid(m.oid), io);
    SettleOnly(s, hid, m, s.TableYid(m.oid), io);
    RetryOnly(s, hid, m, settings, now);
    GiveUpOnly(s, hid, m, false, io);
    GiveUpOnly(s, hid, m, true, io);
    DropOnly(s, hid, m);
  }

  /** So do the reaper and the shutdown rollback. */
  lemma CleanersTouchOneOrder(s: Store, settings: Settings, hid: int, m: Msg, now: int, io: Io)
    ensures OnlyOrder(s, ReapOne(s, settings, hid, m, now, io), m.oid)
    ensures OnlyOrder(s, RollbackOne(s, hid, m, io), m.oid)
  {
    if FoundInHash(s, m.oid, io) {
      var t := WriteDone(s, m.oid, s.submitted[m.oid], io);
      FieldsThenDrop(s, t, hid, m);
      DelLockOnly(s, Drop(t, hid, m), m.oid);
    } else {
      SettleOnly(s, hid, m, s.TableYid(m.oid), io);
      DelLockOnly(s, Settle(s, hid, m, s.TableYid(m.oid), io), m.oid);
      RetryOnly(s, hid, m, settings, now);
      DelLockOnly(s, Retry(s, hid, m, settings, now), m.oid);
      GiveUpOnly(s, hid, m, true, io);
      DelLockOnly(s, GiveUp(s, hid, m, true, io), m.oid);
      DropOnly(s, hid, m);
      DelLockOnly(s, Drop(s, hid, m), m.oid);
    }
  }

  /** And so do the retry dispatcher and the dead-letter scan. */
  lemma DispatchTouchesOneOrder(s: Store, hid: int, m: Msg, now: int, io: Io)
    ensures OnlyOrder(s, DispatchOne(s, hid, m, now, io), m.oid)
  {
    var t, u := s.ZRem(hid, m), DispatchOne(s, hid, m, now, io);
    OnlySchedules(s, hid, m, 0);
    if m in s.Retries(hid) {
      if FoundInHash(t, m.oid, io) || FoundInTable(t, m.oid, io) {
        OnlyFields(t, u, m.oid);
      } else if Enqueued(t, m, io) {
        EnqueueOnly(t, hid, m, io);
      } else {
        OnlySchedules(t, hid, m, now + 10);
      }
      OnlyThen(s, t, u, m.oid);
    }
  }

  lemma ScanTouchesOneOrder(s: Store, hid: int, m: Msg, now: int, io: Io)
    ensures OnlyOrder(s, ScanOne(s, hid, m, now, io), m.oid)
  {
    var t, u := s.LRem(DeadLetter(hid), m), ScanOne(s, hid, m, now, io);
    if FoundInHash(s, m.oid, io) || FoundInTable(s, m.oid, io) {
      OnlyRemoves(s, DeadLetter(hid), m);
      OnlyFields(t, u, m.oid);
      OnlyThen(s, t, u, m.oid);
    } else if io.reopen && m.oid in s.rows && s.rows[m.oid].dock.Failed? {
      var a := s.Reopen(m.oid);
      var b := a.LRem(DeadLetter(hid), m);
      OnlyFields(s, a, m.oid);
      OnlyRemoves(a, DeadLetter(hid), m);
      OnlyThen(s, a, b, m.oid);
      EnqueueOnly(b, hid, m.(r := 0, ts := now), io);
      OnlyThen(s, b, u, m.oid);
    }
  }

  // Where the message itself is afterwards.

  /** Lists other than the named ones are the same. */
  ghost predicate ListsBut(s: Store, t: Store, a: ListKey, b: ListKey) {
    forall k: ListKey | k != a && k != b :: t.List(k) == s.List(k)
  }

  lemma GiveUpMoves(s: Store, hid: int, m: Msg, newStatus: bool, io: Io)
    ensures var t := GiveUp(s, hid, m, newStatus, io);
      && t.List(DeadLetter(hid)) == [m] + s.List(DeadLetter(hid))
      && t.List(Processing(hid)) == RemoveFirst(s.List(Processing(hid)), m)
      && ListsBut(s, t, DeadLetter(hid), Processing(hid))
  {
  }

  lemma GiveUpWrites(s: Store, hid: int, m: Msg, newStatus: bool, io: Io)
    ensures var t := GiveUp(s, hid, m, newStatus, io);
      && (m.oid in t.rows <==> m.oid in s.rows)
      && (m.oid in s.rows && io.failed ==> t.rows[m.oid].dock == Failed && t.rows[m.oid].yid == s.rows[m.oid].yid)
      && m.oid !in t.marks && t.retries == s.retries && t.submitted == s.submitted && t.locks == s.locks
  {
  }

  /**
   An order that is given up: its row says so if the write succeeds, its message has moved from the
   processing list to the dead letters, its marker is gone, and nothing else happened.
   */
  lemma GiveUpMeans(s: Store, hid: int, m: Msg, newStatus: bool, io: Io)
    ensures var t := GiveUp(s, hid, m, newStatus, io);
      && (m.oid in t.rows <==> m.oid in s.rows)
      && (m.oid in s.rows && io.failed ==> t.rows[m.oid].dock == Failed && t.rows[m.oid].yid == s.rows[m.oid].yid)
      && multiset(t.List(DeadLetter(hid))) == multiset(s.List(DeadLetter(hid))) + multiset{m}
      && multiset(t.List(Processing(hid))) == multiset(s.List(Processing(hid))) - multiset{m}
      && ListsBut(s, t, DeadLetter(hid), Processing(hid))
      && m.oid !in t.marks && t.retries == s.retries && t.submitted == s.submitted && t.locks == s.locks
      && OnlyOrder(s, t, m.oid)
  {
    GiveUpOnly(s, hid, m, newStatus, io);
    GiveUpMoves(s, hid, m, newStatus, io);
    GiveUpWrites(s, hid, m, newStatus, io);
    RemoveOne(s.List(Processing(hid)), m);
  }

  /**
   A retry that is taken: the message, with its count raised by one, waits in the schedule for a
   positive time of at most the largest delay; it is no longer in processing and not marked, so that
   the dispatcher can enqueue it.
   */
  lemma RetryMeans(s: Store, settings: Settings, hid: int, m: Msg, terminal: bool, retryable: bool, now: int, io: Io)
    requires Normal(settings) && RetryTaken(settings, m, terminal, retryable, io)
    ensures var t := Retry(s, hid, m, settings, now);
      && Retried(m) in t.Retries(hid) && Retried(m).r == m.r + 1 < settings.maxAttempts
      && now < t.Retries(hid)[Retried(m)] <= now + settings.maxDelay
      && multiset(t.List(Processing(hid))) == multiset(s.List(Processing(hid))) - multiset{m}
      && ListsBut(s, t, Processing(hid), Processing(hid))
      && m.oid !in t.marks && t.rows == s.rows && t.submitted == s.submitted && t.locks == s.locks
      && OnlyOrder(s, t, m.oid)
  {
    RetryOnly(s, hid, m, settings, now);
    RemoveOne(s.List(Processing(hid)), m);
    RetryDelayGrows(settings, m.r + 1, m.r + 1);
  }

  /**
   A due retry leaves the schedule exactly if its order is known to have gone through, which the row
   then says, or its message could be enqueued; otherwise it waits ten more seconds. So it is never lost.
   */
  lemma DispatchMeans(s: Store, hid: int, m: Msg, now: int, io: Io)
    requires m in s.Retries(hid)
    ensures var t := DispatchOne(s, hid, m, now, io);
      && (m in t.Retries(hid) <==> !Found(s, m.oid, io) && (m.oid in s.marks || !io.push))
      && (m in t.Retries(hid) ==> t.Retries(hid)[m] == now + 10 && t.lists == s.lists && t.marks == s.marks)
      && (m !in t.Retries(hid) ==> t.Recorded(m.oid) || m in t.List(Queue(hid)))
      && (m !in t.Retries(hid) && Found(s, m.oid, io) && io.done && m.oid in s.rows ==> t.rows[m.oid].dock == Done)
      && (Found(s, m.oid, io) ==> t.lists == s.lists && t.marks == s.marks)
      && (m !in t.Retries(hid) && !Found(s, m.oid, io) ==>
           && multiset(t.List(Queue(hid))) == multiset(s.List(Queue(hid))) + multiset{m}
           && ListsBut(s, t, Queue(hid), Queue(hid)) && t.marks == s.marks + {m.oid} && t.rows == s.rows)
      && OnlyOrder(s, t, m.oid)
  {
    var t := DispatchOne(s, hid, m, now, io);
    DispatchTouchesOneOrder(s, hid, m, now, io);
    if !Found(s, m.oid, io) && m.oid !in s.marks && io.push {
      assert t.List(Queue(hid)) == [m] + s.List(Queue(hid));
    }
  }

  /** The scan finds the order not recorded, and its update finds the row failed. */
  predicate Reopened(s: Store, m: Msg, io: Io) {
    !Found(s, m.oid, io) && io.reopen && m.oid in s.rows && s.rows[m.oid].dock.Failed?
  }

  lemma ScanMoves(s: Store, hid: int, m: Msg, now: int, io: Io)
    ensures var t := ScanOne(s, hid, m, now, io);
      && t.List(DeadLetter(hid)) ==
           (if Found(s, m.oid, io) || Reopened(s, m, io) then RemoveFirst(s.List(DeadLetter(hid)), m)
            else s.List(DeadLetter(hid)))
      && t.List(Queue(hid)) ==
           (if Reopened(s, m, io) && m.oid !in s.marks && io.push then [m.(r := 0, ts := now)] + s.List(Queue(hid))
            else s.List(Queue(hid)))
      && ListsBut(s, t, Queue(hid), DeadLetter(hid))
  {
  }

  lemma ScanWrites(s: Store, hid: int, m: Msg, now: int, io: Io)
    ensures var t := ScanOne(s, hid, m, now, io);
      && (Found(s, m.oid, io) && io.done && m.oid in s.rows ==> m.oid in t.rows && t.rows[m.oid].dock == Done)
      && (Reopened(s, m, io) ==> m.oid in t.rows && t.rows[m.oid].dock == Pending)
      && t.marks ==
           (if Reopened(s, m, io) && m.oid !in s.marks && io.push then s.marks + {m.oid} else s.marks)
      && t.retries == s.retries
  {
  }

  /**
   A dead letter is taken up exactly if its order is known to have gone through or its row, which says
   failed, can be written. In the second case the order is pending again, and its message, with a fresh count, is in
   the queue exactly if the order was not marked and the push succeeded.
   */
  lemma ScanMeans(s: Store, hid: int, m: Msg, now: int, io: Io)
    ensures var t, again := ScanOne(s, hid, m, now, io), m.(r := 0, ts := now);
      var queued := Reopened(s, m, io) && m.oid !in s.marks && io.push;
      && (!Found(s, m.oid, io) && !Reopened(s, m, io) ==> t == s)
      && (Found(s, m.oid, io) || Reopened(s, m, io) ==>
            multiset(t.List(DeadLetter(hid))) == multiset(s.List(DeadLetter(hid))) - multiset{m})
      && (Found(s, m.oid, io) && io.done && m.oid in s.rows ==> m.oid in t.rows && t.rows[m.oid].dock == Done)
      && (Reopened(s, m, io) ==> m.oid in t.rows && t.rows[m.oid].dock == Pending)
      && multiset(t.List(Queue(hid))) == multiset(s.List(Queue(hid))) + (if queued then multiset{again} else multiset{})
      && t.marks == (if queued then s.marks + {m.oid} else s.marks)
      && ListsBut(s, t, Queue(hid), DeadLetter(hid)) && t.retries == s.retries
      && OnlyOrder(s, t, m.oid)
  {
    ScanTouchesOneOrder(s, hid, m, now, io);
    ScanMoves(s, hid, m, now, io);
    ScanWrites(s, hid, m, now, io);
    RemoveOne(s.List(DeadLetter(hid)), m);
  }
}
