/** What each handler leaves behind, case by case, in terms of rows, lists and keys. */
module OrderOutcomes {
  import opened OrderStore
  import opened Resubmit
  import opened OrderHandlers

  // The shapes of the outcomes.

  /** The message has left the processing list, and all other lists are the same. */
  ghost predicate OutOfProcessing(s: Store, t: Store, hid: int, m: Msg) {
    && t.List(Processing(hid)) == RemoveFirst(s.List(Processing(hid)), m)
    && forall k: ListKey | k != Processing(hid) :: t.List(k) == s.List(k)
  }

  /** The row says that the order went through, with its upstream number, if the write succeeds. */
  predicate RowDone(s: Store, t: Store, oid: int, yid: string, io: Io) {
    t.rows ==
      if io.done && oid in s.rows then
        s.rows[oid := Row(s.rows[oid].hid, Done, false, if yid == "" then s.rows[oid].yid else yid)]
      else s.rows
  }

  predicate HashWritten(s: Store, t: Store, oid: int, yid: string, io: Io) {
    t.submitted == if io.hash then s.submitted[oid := yid] else s.submitted
  }

  /** The message is out of processing and its order unmarked; the schedule is the same. */
  ghost predicate Dropped(s: Store, t: Store, hid: int, m: Msg) {
    OutOfProcessing(s, t, hid, m) && t.marks == s.marks - {m.oid} && t.retries == s.retries
  }

  ghost predicate Settled(s: Store, t: Store, hid: int, m: Msg, yid: string, io: Io) {
    Dropped(s, t, hid, m) && RowDone(s, t, m.oid, yid, io) && HashWritten(s, t, m.oid, yid, io)
  }

  /** The message waits with one count more; rows, record and dead letters are the same. */
  ghost predicate WaitsAgain(s: Store, t: Store, hid: int, m: Msg, due: int) {
    && OutOfProcessing(s, t, hid, m) && t.marks == s.marks - {m.oid}
    && t.Retries(hid) == s.Retries(hid)[Msg(m.oid, m.hid, m.r + 1, m.ts) := due]
    && (forall h | h != hid :: t.Retries(h) == s.Retries(h))
    && t.rows == s.rows && t.submitted == s.submitted
  }

  /** The row says failed if the write succeeds, and the message is the newest dead letter. */
  ghost predicate GivenUp(s: Store, t: Store, hid: int, m: Msg, newStatus: bool, io: Io) {
    && t.rows ==
         (if io.failed && m.oid in s.rows then
            s.rows[m.oid := Row(s.rows[m.oid].hid, Failed, s.rows[m.oid].cancelled && !newStatus, s.rows[m.oid].yid)]
          else s.rows)
    && t.List(DeadLetter(hid)) == [m] + s.List(DeadLetter(hid))
    && t.List(Processing(hid)) == RemoveFirst(s.List(Processing(hid)), m)
    && (forall k: ListKey | k != DeadLetter(hid) && k != Processing(hid) :: t.List(k) == s.List(k))
    && t.marks == s.marks - {m.oid} && t.retries == s.retries && t.submitted == s.submitted
  }

  // The pieces the handlers are made of.

  lemma FoundMeans(s: Store, oid: int, io: Io)
    ensures FoundInHash(s, oid, io) <==> io.readHash && oid in s.submitted
    ensures FoundInTable(s, oid, io) <==>
      io.readTable && oid in s.rows && (s.rows[oid].yid != "" || s.rows[oid].dock == Done)
    ensures FoundInTable(s, oid, io) ==> s.TableYid(oid) == s.rows[oid].yid
  {
  }

  lemma SettleIs(s: Store, hid: int, m: Msg, yid: string, io: Io)
    ensures Settled(s, Settle(s, hid, m, yid, io), hid, m, yid, io)
    ensures Settle(s, hid, m, yid, io).locks == s.locks
  {
  }

  lemma DropAfterDone(s: Store, hid: int, m: Msg, yid: string, io: Io)
    ensures var t := Drop(WriteDone(s, m.oid, yid, io), hid, m);
      Dropped(s, t, hid, m) && RowDone(s, t, m.oid, yid, io) && t.submitted == s.submitted && t.locks == s.locks
    ensures var t := Drop(s, hid, m);
      Dropped(s, t, hid, m) && t.rows == s.rows && t.submitted == s.submitted && t.locks == s.locks
  {
  }

  lemma RetryIs(s: Store, hid: int, m: Msg, c: Settings, now: int)
    ensures var t := Retry(s, hid, m, c, now);
      WaitsAgain(s, t, hid, m, now + RetryDelay(c, m.r + 1)) && t.locks == s.locks
  {
  }

  lemma GiveUpIs(s: Store, hid: int, m: Msg, newStatus: bool, io: Io)
    ensures var t := GiveUp(s, hid, m, newStatus, io);
      GivenUp(s, t, hid, m, newStatus, io) && t.locks == s.locks
  {
  }

  // The handlers.

  /** The order may be tried again: on, below the limit, no terminal failure, and a retryable one. */
  predicate TriesAgain(c: Settings, m: Msg, out: Outcome, io: Io)
    requires out.Failure?
  {
    c.enabled && m.r + 1 < c.maxAttempts && !out.terminal && out.retryable && io.zadd
  }

  /**
   A submission that timed out: an order on record is cleaned up or settled; any other is tried again
   exactly if retries after a timeout are on and the order may be tried again, and else given up.
   */
  lemma ConfirmOutcome(s: Store, c: Settings, hid: int, m: Msg, out: Outcome, now: int, io: Io)
    requires out.Failure?
    ensures var t := Confirm(s, c, hid, m, out, now, io);
      && t.locks == s.locks
      && (io.readHash && m.oid in s.submitted ==>
            Dropped(s, t, hid, m) && t.rows == s.rows && t.submitted == s.submitted)
      && (!FoundInHash(s, m.oid, io) && FoundInTable(s, m.oid, io) ==>
            Settled(s, t, hid, m, s.rows[m.oid].yid, io))
      && (!FoundInHash(s, m.oid, io) && !FoundInTable(s, m.oid, io) ==>
            if c.retryOnTimeout && TriesAgain(c, m, out, io)
            then WaitsAgain(s, t, hid, m, now + RetryDelay(c, m.r + 1))
            else GivenUp(s, t, hid, m, true, io))
  {
    DropAfterDone(s, hid, m, "", io);
    SettleIs(s, hid, m, s.TableYid(m.oid), io);
    RetryIs(s, hid, m, c, now);
    GiveUpIs(s, hid, m, true, io);
  }

  /**
   The upstream call has returned: a success is settled, and so is an order number that the upstream
   refuses if the table says it went through; any other failure is tried again exactly if the order may
   be, and else given up.
   */
  lemma FinalizeOutcome(s: Store, c: Settings, hid: int, m: Msg, out: Outcome, now: int, io: Io)
    requires out.Failure? ==> !out.timeout
    ensures var t := Finalize(s, c, hid, m, out, now, io);
      && t.locks == s.locks
      && (out.Success? ==> Settled(s, t, hid, m, out.yid, io))
      && (out.Failure? && out.badOid && FoundInTable(s, m.oid, io) ==>
            Settled(s, t, hid, m, s.rows[m.oid].yid, io))
      && (out.Failure? && !(out.badOid && FoundInTable(s, m.oid, io)) ==>
            if TriesAgain(c, m, out, io) then WaitsAgain(s, t, hid, m, now + RetryDelay(c, m.r + 1))
            else GivenUp(s, t, hid, m, false, io))
  {
    SettleIs(s, hid, m, if out.Success? then out.yid else s.TableYid(m.oid), io);
    RetryIs(s, hid, m, c, now);
    GiveUpIs(s, hid, m, false, io);
  }

  /** A consumer finds the order in the hash: the row is repaired, or the order given up if it cannot be. */
  lemma RepairOutcome(s: Store, hid: int, m: Msg, io: Io)
    requires m.oid in s.submitted
    ensures var t := RepairSubmitted(s, hid, m, io);
      && t.locks == s.locks
      && (io.done && m.oid in s.rows ==>
            Dropped(s, t, hid, m) && RowDone(s, t, m.oid, s.submitted[m.oid], io) && t.submitted == s.submitted)
      && (!(io.done && m.oid in s.rows) ==> GivenUp(s, t, hid, m, false, io))
  {
    DropAfterDone(s, hid, m, s.submitted[m.oid], io);
    GiveUpIs(s, hid, m, false, io);
  }

  /** The reaper frees the lock and asks neither what failed nor whether timeouts are to be retried. */
  lemma ReapOutcome(s: Store, c: Settings, hid: int, m: Msg, now: int, io: Io)
    ensures var t := ReapOne(s, c, hid, m, now, io);
      && t.locks == s.locks - {m.oid}
      && (io.readHash && m.oid in s.submitted ==>
            Dropped(s, t, hid, m) && RowDone(s, t, m.oid, s.submitted[m.oid], io) && t.submitted == s.submitted)
      && (!FoundInHash(s, m.oid, io) && FoundInTable(s, m.oid, io) ==>
            Settled(s, t, hid, m, s.rows[m.oid].yid, io))
      && (!FoundInHash(s, m.oid, io) && !FoundInTable(s, m.oid, io) ==>
            if c.enabled && m.r + 1 < c.maxAttempts && io.zadd
            then WaitsAgain(s, t, hid, m, now + RetryDelay(c, m.r + 1))
            else GivenUp(s, t, hid, m, true, io))
  {
    if FoundInHash(s, m.oid, io) || FoundInTable(s, m.oid, io) {
      ReapRecorded(s, c, hid, m, now, io);
    } else {
      ReapUnrecorded(s, c, hid, m, now, io);
    }
  }

  lemma ReapRecorded(s: Store, c: Settings, hid: int, m: Msg, now: int, io: Io)
    requires FoundInHash(s, m.oid, io) || FoundInTable(s, m.oid, io)
    ensures var t := ReapOne(s, c, hid, m, now, io);
      && t.locks == s.locks - {m.oid}
      && (FoundInHash(s, m.oid, io) ==>
            Dropped(s, t, hid, m) && RowDone(s, t, m.oid, s.submitted[m.oid], io) && t.submitted == s.submitted)
      && (!FoundInHash(s, m.oid, io) ==> Settled(s, t, hid, m, s.rows[m.oid].yid, io))
  {
    DropAfterDone(s, hid, m, if m.oid in s.submitted then s.submitted[m.oid] else "", io);
    SettleIs(s, hid, m, s.TableYid(m.oid), io);
  }

  lemma ReapUnrecorded(s: Store, c: Settings, hid: int, m: Msg, now: int, io: Io)
    requires !FoundInHash(s, m.oid, io) && !FoundInTable(s, m.oid, io)
    ensures var t := ReapOne(s, c, hid, m, now, io);
      && t.locks == s.locks - {m.oid}
      && if c.enabled && m.r + 1 < c.maxAttempts && io.zadd
         then WaitsAgain(s, t, hid, m, now + RetryDelay(c, m.r + 1))
         else GivenUp(s, t, hid, m, true, io)
  {
    RetryIs(s, hid, m, c, now);
    WaitsUnlocked(s, Retry(s, hid, m, c, now), hid, m, now + RetryDelay(c, m.r + 1));
    GiveUpIs(s, hid, m, true, io);
    GivenUpUnlocked(s, GiveUp(s, hid, m, true, io), hid, m, io);
  }

  lemma WaitsUnlocked(s: Store, t: Store, hid: int, m: Msg, due: int)
    requires WaitsAgain(s, t, hid, m, due)
    ensures WaitsAgain(s, t.DelLock(m.oid), hid, m, due)
  {
    var u := t.DelLock(m.oid);
    assert forall k: ListKey :: u.List(k) == t.List(k);
    assert forall h: int :: u.Retries(h) == t.Retries(h);
  }

  lemma GivenUpUnlocked(s: Store, t: Store, hid: int, m: Msg, io: Io)
    requires GivenUp(s, t, hid, m, true, io)
    ensures GivenUp(s, t.DelLock(m.oid), hid, m, true, io)
  {
    var u := t.DelLock(m.oid);
    assert forall k: ListKey :: u.List(k) == t.List(k);
  }

  /** The shutdown frees lock, marker and list, and settles what is on record. */
  lemma RollbackOutcome(s: Store, hid: int, m: Msg, io: Io)
    ensures var t := RollbackOne(s, hid, m, io);
      && t.locks == s.locks - {m.oid} && Dropped(s, t, hid, m)
      && (io.readHash && m.oid in s.submitted ==>
            RowDone(s, t, m.oid, s.submitted[m.oid], io) && t.submitted == s.submitted)
      && (!FoundInHash(s, m.oid, io) && FoundInTable(s, m.oid, io) ==>
            Settled(s, t, hid, m, s.rows[m.oid].yid, io))
      && (!FoundInHash(s, m.oid, io) && !FoundInTable(s, m.oid, io) ==>
            t.rows == s.rows && t.submitted == s.submitted)
  {
    DropAfterDone(s, hid, m, if m.oid in s.submitted then s.submitted[m.oid] else "", io);
    SettleIs(s, hid, m, s.TableYid(m.oid), io);
  }

  /** What dispatcher and scanner write for an order on record: the row, and the hash from the row. */
  lemma RecordedWrites(s: Store, hid: int, m: Msg, now: int, io: Io)
    ensures var t := DispatchOne(s, hid, m, now, io);
      m in s.Retries(hid) ==>
        && (io.readHash && m.oid in s.submitted ==>
              RowDone(s, t, m.oid, s.submitted[m.oid], io) && t.submitted == s.submitted)
        && (!FoundInHash(s, m.oid, io) && FoundInTable(s, m.oid, io) ==>
              RowDone(s, t, m.oid, s.rows[m.oid].yid, io) && HashWritten(s, t, m.oid, s.rows[m.oid].yid, io))
        && (!FoundInHash(s, m.oid, io) && !FoundInTable(s, m.oid, io) ==>
              t.rows == s.rows && t.submitted == s.submitted)
    ensures var t := ScanOne(s, hid, m, now, io);
      && (io.readHash && m.oid in s.submitted ==>
            RowDone(s, t, m.oid, s.submitted[m.oid], io) && t.submitted == s.submitted)
      && (!FoundInHash(s, m.oid, io) && FoundInTable(s, m.oid, io) ==>
            RowDone(s, t, m.oid, s.rows[m.oid].yid, io) && HashWritten(s, t, m.oid, s.rows[m.oid].yid, io))
  {
  }

  /** Whether a message of the order can be queued: no marker, and the push succeeds. */
  predicate Admitted(s: Store, oid: int, io: Io) {
    oid !in s.marks && io.push
  }

  /** Only the channel's schedule and its queue can change, and the queue only in front. */
  ghost predicate QueuedFrom(s: Store, t: Store, hid: int, front: seq<Msg>) {
    && t.List(Queue(hid)) == front + s.List(Queue(hid))
    && (forall h | h != hid :: t.Retries(h) == s.Retries(h)) && t.locks == s.locks
  }

  /** A retry that is no longer in the schedule is left alone; that of an order on record only leaves it. */
  lemma DispatchRecorded(s: Store, hid: int, m: Msg, now: int, io: Io)
    ensures m !in s.Retries(hid) ==> DispatchOne(s, hid, m, now, io) == s
    ensures var t := DispatchOne(s, hid, m, now, io);
      m in s.Retries(hid) && Found(s, m.oid, io) ==>
        QueuedFrom(s, t, hid, []) && t.Retries(hid) == s.Retries(hid) - {m} && t.lists == s.lists && t.marks == s.marks
  {
  }

  /** A due retry of an order not on record is queued in front of all others, or waits ten more seconds. */
  lemma DispatchUnrecorded(s: Store, hid: int, m: Msg, now: int, io: Io)
    requires m in s.Retries(hid) && !Found(s, m.oid, io)
    ensures var t := DispatchOne(s, hid, m, now, io);
      && (Admitted(s, m.oid, io) ==>
            && QueuedFrom(s, t, hid, [m]) && t.Retries(hid) == s.Retries(hid) - {m}
            && t.marks == s.marks + {m.oid} && forall k: ListKey | k != Queue(hid) :: t.List(k) == s.List(k))
      && (!Admitted(s, m.oid, io) ==>
            && QueuedFrom(s, t, hid, []) && t.Retries(hid) == s.Retries(hid)[m := now + 10]
            && t.(retries := s.retries) == s)
  {
    if !Admitted(s, m.oid, io) {
      DispatchPostpones(s, hid, m, now, io);
    }
  }

  lemma DispatchPostpones(s: Store, hid: int, m: Msg, now: int, io: Io)
    requires m in s.Retries(hid) && !Found(s, m.oid, io) && !Admitted(s, m.oid, io)
    ensures var t := DispatchOne(s, hid, m, now, io);
      t.Retries(hid) == s.Retries(hid)[m := now + 10] && t.(retries := s.retries) == s
  {
    assert s.ZRem(hid, m).Retries(hid) == s.Retries(hid) - {m};
    assert (s.Retries(hid) - {m})[m := now + 10] == s.Retries(hid)[m := now + 10];
  }

  /** The dead letter of an order on record is only taken off its list. */
  lemma ScanRecorded(s: Store, hid: int, m: Msg, now: int, io: Io)
    requires Found(s, m.oid, io)
    ensures var t := ScanOne(s, hid, m, now, io);
      && t.List(DeadLetter(hid)) == RemoveFirst(s.List(DeadLetter(hid)), m)
      && t.locks == s.locks && t.retries == s.retries && t.marks == s.marks
  {
  }

  /** A failed order is taken up: its row is pending and else the same, and a fresh message is queued if it can be. */
  lemma ScanUnrecorded(s: Store, hid: int, m: Msg, now: int, io: Io)
    requires !Found(s, m.oid, io)
    ensures var t := ScanOne(s, hid, m, now, io);
      if io.reopen && m.oid in s.rows && s.rows[m.oid].dock == Failed then
        && t.rows == s.rows[m.oid := Row(s.rows[m.oid].hid, Pending, s.rows[m.oid].cancelled, s.rows[m.oid].yid)]
        && t.List(DeadLetter(hid)) == RemoveFirst(s.List(DeadLetter(hid)), m)
        && QueuedFrom(s, t, hid, if Admitted(s, m.oid, io) then [Msg(m.oid, m.hid, 0, now)] else [])
        && t.submitted == s.submitted && t.retries == s.retries
      else t == s
  {
  }

  // The ways into the queues.

  /** A fresh or repeated message and its marker come together, in front of all others. */
  lemma EnqueueOutcome(s: Store, hid: int, m: Msg, io: Io)
    ensures var t := Enqueue(s, hid, m, io);
      if m.oid !in s.marks && io.push then
        && t.List(Queue(hid)) == [m] + s.List(Queue(hid)) && t.marks == s.marks + {m.oid}
        && (forall k: ListKey | k != Queue(hid) :: t.List(k) == s.List(k))
        && t.(lists := s.lists, marks := s.marks) == s
      else t == s
  {
  }

  /**
   The push interface: the order must exist, not be cancelled, be pending, have a channel, the one
   asked for if any, which is not paused, and not be queued already. Then a fresh message of the row's
   channel is queued; in all other cases nothing changes.
   */
  lemma PushOutcome(s: Store, oid: int, reqHid: int, paused: bool, now: int, io: Io)
    ensures var t, reply := PushOrder(s, oid, reqHid, paused, now, io), PushReplyOf(s, oid, reqHid, paused, io);
      && (reply == Queued <==>
            && oid in s.rows && !s.rows[oid].cancelled && s.rows[oid].dock == Pending && s.rows[oid].hid > 0
            && (reqHid <= 0 || reqHid == s.rows[oid].hid) && !paused && oid !in s.marks && io.push)
      && (reply == Queued ==>
            && t.List(Queue(s.rows[oid].hid)) == [Msg(oid, s.rows[oid].hid, 0, now)] + s.List(Queue(s.rows[oid].hid))
            && t.marks == s.marks + {oid} && t.(lists := s.lists, marks := s.marks) == s)
      && (reply != Queued ==> t == s)
  {
  }

  /** Of several reasons to refuse, the reply names the first in this order. */
  lemma PushRefusals(s: Store, oid: int, reqHid: int, paused: bool, io: Io)
    ensures var reply := PushReplyOf(s, oid, reqHid, paused, io);
      && (oid !in s.rows || s.rows[oid].cancelled <==> reply == NotFound)
      && (reply != NotFound ==>
            && (s.rows[oid].dock != Pending <==> reply == NotPending)
            && (s.rows[oid].dock == Pending ==>
                  && (s.rows[oid].hid <= 0 <==> reply == NoChannel)
                  && (s.rows[oid].hid > 0 ==>
                        && (reqHid > 0 && reqHid != s.rows[oid].hid <==> reply == WrongChannel)
                        && (reply != WrongChannel ==>
                              && (paused <==> reply == ChannelPaused)
                              && (!paused ==> (oid in s.marks <==> reply == AlreadyQueued))))))
  {
  }

  /** The producer's fresh message: count zero, and the time it is enqueued. */
  lemma ProduceOutcome(s: Store, oid: int, hid: int, now: int, io: Io)
    ensures var t := ProduceOne(s, oid, hid, now, io);
      if hid != 0 && oid !in s.marks && io.push then
        t.List(Queue(hid)) == [Msg(oid, hid, 0, now)] + s.List(Queue(hid)) && t.marks == s.marks + {oid}
      else t == s
  {
  }

  /** A message that is put back is the one the next consumer takes; a failed push leaves it in processing. */
  lemma RequeueOutcome(s: Store, hid: int, m: Msg, io: Io)
    ensures var t := Requeue(s, hid, m, io);
      if io.push then
        && t.List(Queue(hid)) == s.List(Queue(hid)) + [m]
        && t.List(Processing(hid)) == RemoveFirst(s.List(Processing(hid)), m)
        && t.Move(hid).List(Processing(hid)) == [m] + t.List(Processing(hid))
        && t.Move(hid).List(Queue(hid)) == s.List(Queue(hid))
      else t == s
  {
    assert (s.List(Queue(hid)) + [m])[..|s.List(Queue(hid))|] == s.List(Queue(hid));
  }

  /** Queues are first in, first out: of two messages pushed, the earlier is moved first. */
  lemma QueuesAreFair(s: Store, hid: int, m: Msg, n: Msg)
    requires s.List(Queue(hid)) == []
    ensures var t := s.LPush(Queue(hid), m).LPush(Queue(hid), n).Move(hid);
      t.List(Queue(hid)) == [n] && t.List(Processing(hid)) == [m] + s.List(Processing(hid))
  {
  }

  /** A lock that is released is free exactly if it was held under the token; no other lock changes. */
  lemma ReleaseOutcome(s: Store, oid: int, token: nat)
    ensures var t := s.DelLockIfHeld(oid, token);
      && (oid in t.locks <==> oid in s.locks && s.locks[oid] != token)
      && t.locks - {oid} == s.locks - {oid} && t.(locks := s.locks) == s
  {
  }

  /** A consumer takes the oldest message of the queue, which comes first in its processing list. */
  lemma MoveOutcome(s: Store, hid: int)
    requires s.List(Queue(hid)) != []
    ensures var t, q := s.Move(hid), s.List(Queue(hid));
      && t.List(Queue(hid)) == q[..|q| - 1]
      && t.List(Processing(hid)) == [q[|q| - 1]] + s.List(Processing(hid))
      && (forall k: ListKey | k != Queue(hid) && k != Processing(hid) :: t.List(k) == s.List(k))
      && t.(lists := s.lists) == s
      && t.LRem(Processing(hid), q[|q| - 1]).List(Processing(hid)) == s.List(Processing(hid))
  {
  }

  /** A removal takes the first of equal messages and keeps the order of the others. */
  lemma {:induction false} RemovesTheFirst(a: seq<Msg>, m: Msg, b: seq<Msg>)
    ensures m !in a ==> RemoveFirst(a + [m] + b, m) == a + b && RemoveFirst(a, m) == a
    decreases |a|
  {
    if a == [] {
      assert a + [m] + b == [m] + b && ([m] + b)[1..] == b && a + b == b;
    } else {
      assert (a + [m] + b)[0] == a[0] && (a + [m] + b)[1..] == a[1..] + [m] + b;
      RemovesTheFirst(a[1..], m, b);
      assert [a[0]] + (a[1..] + b) == a + b;
    }
  }
}
