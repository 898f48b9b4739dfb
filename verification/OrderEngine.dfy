/** The handlers as they run: commands on the shared stores, loops over pages and lists. */
module OrderEngine {
  import opened OrderStore
  import opened Resubmit
  import opened OrderHandlers
  import opened Producer
  import opened Recovery

  // Each method is tied to the function of OrderHandlers, Producer or Recovery that it carries out.

  /** Elements of a list outside a set, in order. */
  function Keep(oids: seq<int>, drop: set<int>): (r: seq<int>)
    ensures forall oid :: oid in r <==> oid in oids && oid !in drop
  {
    if oids == [] then []
    else
      var n := |oids| - 1;
      var front := Keep(oids[..n], drop);
      assert oids == oids[..n] + [oids[n]];
      if oids[n] in drop then front else front + [oids[n]]
  }

  ghost function Unrouted(rows: map<int, Row>): set<int> {
    set oid | oid in rows && rows[oid].hid == 0
  }

  lemma {:induction false} KeepPush(oids: seq<int>, o: int, drop: set<int>)
    ensures Keep(oids + [o], drop) == if o in drop then Keep(oids, drop) else Keep(oids, drop) + [o]
  {
    assert (oids + [o])[..|oids + [o]| - 1] == oids;
  }

  lemma KeepNext(oids: seq<int>, i: nat, drop: set<int>)
    requires Sorted(oids) && i < |oids|
    ensures oids[i] !in Keep(oids[..i], drop)
    ensures Keep(oids[..i + 1], drop) ==
      if oids[i] in drop then Keep(oids[..i], drop) else Keep(oids[..i], drop) + [oids[i]]
  {
    assert oids[..i + 1] == oids[..i] + [oids[i]];
    KeepPush(oids[..i], oids[i], drop);
  }

  lemma {:induction false} KeepSorted(oids: seq<int>, drop: set<int>)
    requires Sorted(oids)
    ensures Sorted(Keep(oids, drop))
    decreases |oids|
  {
    if oids != [] {
      var n := |oids| - 1;
      var front := Keep(oids[..n], drop);
      KeepSorted(oids[..n], drop);
      forall j | 0 <= j < |front| ensures front[j] < oids[n] {
        assert front[j] in front;
      }
    }
  }

  lemma {:induction false} KeepTwice(oids: seq<int>, a: set<int>, b: set<int>)
    ensures Keep(Keep(oids, a), b) == Keep(oids, a + b)
  {
    if oids != [] {
      var n := |oids| - 1;
      KeepTwice(oids[..n], a, b);
      KeepPush(Keep(oids[..n], a), oids[n], b);
    }
  }

  lemma {:induction false} AcceptedIsKeep(s: Store, page: seq<int>, refused: set<int>)
    requires forall oid | oid in page :: oid in s.rows
    ensures Accepted(s, page, refused) == Keep(Keep(Keep(page, Unrouted(s.rows)), s.marks), refused)
  {
    var drop := Unrouted(s.rows) + s.marks + refused;
    KeepTwice(page, Unrouted(s.rows), s.marks);
    KeepTwice(page, Unrouted(s.rows) + s.marks, refused);
    if page != [] {
      var n := |page| - 1;
      assert page[n] in page;
      AcceptedIsKeep(s, page[..n], refused);
      KeepTwice(page[..n], Unrouted(s.rows), s.marks);
      KeepTwice(page[..n], Unrouted(s.rows) + s.marks, refused);
    }
  }

  /** The markers that stand after `i` pushes: refused ones are taken back as they are met. */
  ghost function Standing(toPush: seq<int>, i: nat, refused: set<int>): set<int>
    requires i <= |toPush|
  {
    set oid | oid in toPush && !(oid in toPush[..i] && oid in refused)
  }

  lemma StandingStep(base: set<int>, toPush: seq<int>, i: nat, refused: set<int>)
    requires Sorted(toPush) && i < |toPush| && forall oid | oid in toPush :: oid !in base
    ensures base + Standing(toPush, i + 1, refused) ==
      if toPush[i] in refused then base + Standing(toPush, i, refused) - {toPush[i]}
      else base + Standing(toPush, i, refused)
  {
    assert toPush[..i + 1] == toPush[..i] + [toPush[i]];
    assert toPush[i] in toPush && toPush[i] !in toPush[..i];
  }

  lemma StandingEnds(toPush: seq<int>, refused: set<int>)
    ensures Standing(toPush, 0, refused) == Elems(toPush)
    ensures Standing(toPush, |toPush|, refused) == Elems(Keep(toPush, refused))
  {
    assert toPush[..|toPush|] == toPush;
  }

  lemma DrainUnfolds(s: Store, cursor: nat, stamp: int -> int, refused: set<int>)
    ensures var (t, next) := Batch(s, cursor, stamp, refused, BATCH_LIMIT);
      if |Page(s.rows, cursor, BATCH_LIMIT)| < BATCH_LIMIT then
        Drain(s, cursor, stamp, refused, BATCH_LIMIT) == (t, next)
      else
        && Drain(s, cursor, stamp, refused, BATCH_LIMIT) == Drain(t, next, stamp, refused, BATCH_LIMIT)
        && |PendingAbove(t.rows, next)| < |PendingAbove(s.rows, cursor)|
  {
    if |Page(s.rows, cursor, BATCH_LIMIT)| >= BATCH_LIMIT {
      CursorAdvances(s.rows, cursor, BATCH_LIMIT);
    }
  }

  lemma PushesEnd(s: Store, toPush: seq<int>, stamp: int -> int, refused: set<int>)
    requires forall oid | oid in toPush :: oid in s.rows
    ensures toPush[..|toPush|] == toPush
    ensures PushAll(s, Keep(toPush, refused), stamp).marks == s.marks + Standing(toPush, |toPush|, refused)
  {
    StandingEnds(toPush, refused);
    PushAllMarks(s, Keep(toPush, refused), stamp);
  }

  class Engine {
    var rows: map<int, Row>
    var lists: map<ListKey, seq<Msg>>
    var marks: set<int>
    var retries: map<int, map<Msg, int>>
    var submitted: map<int, string>
    var locks: map<int, nat>
    var producerLastOid: nat

    function View(): Store
      reads this
    {
      Store(rows, lists, marks, retries, submitted, locks)
    }

    constructor (s: Store)
      ensures View() == s && producerLastOid == 0
    {
      rows, lists, marks := s.rows, s.lists, s.marks;
      retries, submitted, locks := s.retries, s.submitted, s.locks;
      producerLastOid := 0;
    }

    // Single commands.

    method LPush(k: ListKey, m: Msg)
      modifies this`lists
      ensures View() == old(View()).LPush(k, m)
    {
      lists := lists[k := [m] + View().List(k)];
    }

    method RPush(k: ListKey, m: Msg)
      modifies this`lists
      ensures View() == old(View()).RPush(k, m)
    {
      lists := lists[k := View().List(k) + [m]];
    }

    method LRem(k: ListKey, m: Msg)
      modifies this`lists
      ensures View() == old(View()).LRem(k, m)
    {
      lists := lists[k := RemoveFirst(View().List(k), m)];
    }

    method DelMarker(oid: int)
      modifies this`marks
      ensures View() == old(View()).Unmark(oid)
    {
      marks := marks - {oid};
    }

    /** SET enqueued:oid NX. */
    method SetMarkerNx(oid: int) returns (isNew: bool)
      modifies this`marks
      ensures isNew == (oid !in old(marks)) && View() == old(View()).Mark(oid)
    {
      isNew := oid !in marks;
      marks := marks + {oid};
    }

    method SetSubmittedOrder(oid: int, yid: string, io: Io)
      modifies this`submitted
      ensures View() == if io.hash then old(View()).HSet(oid, yid) else old(View())
    {
      if io.hash {
        submitted := submitted[oid := yid];
      }
    }

    method UpdateOrderStatusSubmitted(oid: int, yid: string, io: Io) returns (ok: bool)
      modifies this`rows
      ensures View() == WriteDone(old(View()), oid, yid, io) && ok == DoneWritten(old(View()), oid, io)
    {
      ok := io.done && oid in rows;
      if ok {
        rows := View().SetDone(oid, yid).rows;
      }
    }

    method UpdateDockFailed(oid: int, newStatus: bool, io: Io)
      modifies this`rows
      ensures View() == WriteFailed(old(View()), oid, newStatus, io)
    {
      if io.failed {
        rows := View().SetFailed(oid, newStatus).rows;
      }
    }

    // Producer.

    /**
     enqueuePending: one page of pending orders. The markers of all candidates are set first,
     then the messages of the new ones are pushed; a refused push takes its marker back.
     */
    method EnqueuePending(stamp: int -> int, refused: set<int>) returns (added: nat, scanned: nat)
      modifies this
      ensures (View(), producerLastOid as int) == Batch(old(View()), old(producerLastOid), stamp, refused, BATCH_LIMIT)
      ensures scanned == |Page(old(rows), old(producerLastOid), BATCH_LIMIT)|
    {
      ghost var s := View();
      var page := Page(rows, producerLastOid, BATCH_LIMIT);
      PageSorted(rows, producerLastOid, BATCH_LIMIT);
      added, scanned := 0, |page|;
      if scanned == 0 {
        if producerLastOid > 0 {
          producerLastOid := 0;
        }
        return;
      }
      var maxOid, candidates := ScanPage(page);
      var toPush := MarkCandidates(candidates);
      added := PushCandidates(toPush, stamp, refused, s);
      AcceptedIsKeep(s, page, refused);
      producerLastOid := if scanned >= BATCH_LIMIT then maxOid else 0;
    }

    /** Reading the rows of a page: the largest order and the orders that have a channel. */
    method ScanPage(page: seq<int>) returns (maxOid: nat, candidates: seq<int>)
      requires page != [] && Sorted(page)
      requires forall oid | oid in page :: oid in rows && oid > producerLastOid
      ensures maxOid == page[|page| - 1]
      ensures candidates == Keep(page, Unrouted(rows)) && Sorted(candidates)
    {
      maxOid, candidates := producerLastOid, [];
      for i := 0 to |page|
        invariant maxOid == if i == 0 then producerLastOid else page[i - 1]
        invariant candidates == Keep(page[..i], Unrouted(rows))
      {
        assert page[i] in page;
        KeepNext(page, i, Unrouted(rows));
        if page[i] > maxOid {
          maxOid := page[i];
        }
        if rows[page[i]].hid == 0 {
          continue;
        }
        candidates := candidates + [page[i]];
      }
      assert page[..|page|] == page;
      KeepSorted(page, Unrouted(rows));
    }

    /** The SETNX pipeline: the candidates whose marker was new. */
    method MarkCandidates(candidates: seq<int>) returns (toPush: seq<int>)
      requires Sorted(candidates)
      modifies this`marks
      ensures toPush == Keep(candidates, old(marks)) && Sorted(toPush)
      ensures marks == old(marks) + Elems(toPush)
    {
      toPush := [];
      for i := 0 to |candidates|
        invariant toPush == Keep(candidates[..i], old(marks))
        invariant marks == old(marks) + Elems(toPush)
      {
        var o := candidates[i];
        KeepNext(candidates, i, old(marks));
        var isNew := SetMarkerNx(o);
        if isNew {
          toPush := toPush + [o];
        }
      }
      assert candidates[..|candidates|] == candidates;
      KeepSorted(candidates, old(marks));
    }

    /** One LPUSH and, if it is refused, the deletion of the marker. */
    method PushOne(o: int, stamp: int -> int, refused: set<int>, ghost s: Store, ghost done: seq<int>)
      returns (pushed: bool)
      requires rows == s.rows && o in rows && forall oid | oid in done :: oid in rows
      requires lists == PushAll(s, done, stamp).lists
      modifies this`lists, this`marks
      ensures pushed == (o !in refused)
      ensures lists == if pushed then PushAll(s, done + [o], stamp).lists else old(lists)
      ensures marks == if pushed then old(marks) else old(marks) - {o}
    {
      if o in refused {
        DelMarker(o);
        return false;
      }
      assert (done + [o])[..|done + [o]| - 1] == done;
      LPush(Queue(rows[o].hid), NewMsg(o, rows[o].hid, stamp(o)));
      return true;
    }

    /** The LPUSH pipeline; `s` is the state before the markers were set. */
    method PushCandidates(toPush: seq<int>, stamp: int -> int, refused: set<int>, ghost s: Store) returns (added: nat)
      requires Sorted(toPush) && forall oid | oid in toPush :: oid in rows && oid !in s.marks
      requires marks == s.marks + Elems(toPush)
      requires View() == s.(marks := marks)
      modifies this`lists, this`marks
      ensures View() == PushAll(s, Keep(toPush, refused), stamp) && added == |Keep(toPush, refused)|
    {
      added := 0;
      StandingEnds(toPush, refused);
      for i := 0 to |toPush|
        invariant added == |Keep(toPush[..i], refused)|
        invariant lists == PushAll(s, Keep(toPush[..i], refused), stamp).lists
        invariant marks == s.marks + Standing(toPush, i, refused)
      {
        var o := toPush[i];
        KeepNext(toPush, i, refused);
        StandingStep(s.marks, toPush, i, refused);
        assert o in toPush;
        var pushed := PushOne(o, stamp, refused, s, Keep(toPush[..i], refused));
        added := added + if pushed then 1 else 0;
      }
      PushesEnd(s, toPush, stamp, refused);
    }

    /** drainPending: pages until one is not full. */
    method DrainPending(stamp: int -> int, refused: set<int>)
      modifies this
      ensures (View(), producerLastOid as int) == Drain(old(View()), old(producerLastOid), stamp, refused, BATCH_LIMIT)
    {
      ghost var end := Drain(View(), producerLastOid, stamp, refused, BATCH_LIMIT);
      while true
        invariant Drain(View(), producerLastOid, stamp, refused, BATCH_LIMIT) == end
        decreases |PendingAbove(rows, producerLastOid)|
      {
        DrainUnfolds(View(), producerLastOid, stamp, refused);
        var added, scanned := EnqueuePending(stamp, refused);
        if scanned < BATCH_LIMIT {
          return;
        }
      }
    }

    // Retry, failure and shutdown handlers.

    /** enqueueOrderToHIDQueue. */
    method EnqueueOrderToHidQueue(hid: int, m: Msg, io: Io) returns (ok: bool)
      modifies this`lists, this`marks
      ensures ok == Enqueued(old(View()), m, io) && View() == Enqueue(old(View()), hid, m, io)
    {
      ok := SetMarkerNx(m.oid);
      if !ok {
        assert marks == old(marks);
        return;
      }
      if !io.push {
        DelMarker(m.oid);
        assert marks == old(marks);
        return false;
      }
      LPush(Queue(hid), m);
    }

    /** pushOrderToQueue, the second way into the queues. */
    method PushOrderToQueue(oid: int, reqHid: int, paused: bool, now: int, io: Io) returns (reply: PushReply)
      modifies this`lists, this`marks
      ensures reply == PushReplyOf(old(View()), oid, reqHid, paused, io)
      ensures View() == PushOrder(old(View()), oid, reqHid, paused, now, io)
    {
      if oid !in rows || rows[oid].cancelled {
        return NotFound;
      }
      if rows[oid].dock != Pending {
        return NotPending;
      }
      if rows[oid].hid <= 0 {
        return NoChannel;
      }
      if reqHid > 0 && reqHid != rows[oid].hid {
        return WrongChannel;
      }
      if paused {
        return ChannelPaused;
      }
      var known := oid in marks;
      var ok := EnqueueOrderToHidQueue(rows[oid].hid, NewMsg(oid, rows[oid].hid, now), io);
      reply := if ok then Queued else if known then AlreadyQueued else PushFailed;
    }

    /** requeueFromProcessing: three attempts; the message leaves processing only after a push. */
    method RequeueFromProcessing(hid: int, m: Msg, attempts: seq<bool>) returns (ok: bool)
      requires |attempts| == 3
      modifies this`lists
      ensures ok == (true in attempts)
      ensures View() == Requeue(old(View()), hid, m, ALL_WELL.(push := true in attempts))
    {
      for i := 0 to 3
        invariant true !in attempts[..i] && View() == old(View())
      {
        if attempts[i] {
          RPush(Queue(hid), m);
          LRem(Processing(hid), m);
          return true;
        }
      }
      assert attempts[..3] == attempts;
      return false;
    }

    /** scheduleOrderRetry. */
    method ScheduleOrderRetry(hid: int, m: Msg, settings: Settings, now: int, io: Io) returns (ok: bool)
      modifies this`retries, this`marks
      ensures ok == io.zadd
      ensures View() == if io.zadd then Schedule(old(View()), hid, m, settings, now) else old(View())
    {
      var next := m.(r := m.r + 1);
      var delay := RetryDelay(settings, next.r);
      if !io.zadd {
        return false;
      }
      retries := View().ZAdd(hid, next, now + delay).retries;
      DelMarker(m.oid);
      return true;
    }

    /** tryHandleSubmitRetry. */
    method TryHandleSubmitRetry(hid: int, m: Msg, settings: Settings, terminal: bool, retryable: bool, now: int, io: Io)
      returns (ok: bool)
      modifies this`retries, this`marks, this`lists
      ensures ok == RetryTaken(settings, m, terminal, retryable, io)
      ensures View() == if ok then Retry(old(View()), hid, m, settings, now) else old(View())
    {
      if !ShouldRetry(settings, m, terminal, retryable) {
        return false;
      }
      ok := ScheduleOrderRetry(hid, m, settings, now, io);
      if !ok {
        return;
      }
      LRem(Processing(hid), m);
    }

    /** markOrderTerminalFailure, also the end of the confirmation. */
    method MarkOrderTerminalFailure(hid: int, m: Msg, newStatus: bool, io: Io)
      modifies this`rows, this`lists, this`marks
      ensures View() == GiveUp(old(View()), hid, m, newStatus, io)
    {
      UpdateDockFailed(m.oid, newStatus, io);
      LRem(Processing(hid), m);
      LPush(DeadLetter(hid), m);
      DelMarker(m.oid);
    }

    method SettleOrder(hid: int, m: Msg, yid: string, io: Io)
      modifies this`rows, this`submitted, this`lists, this`marks
      ensures View() == Settle(old(View()), hid, m, yid, io)
    {
      SetSubmittedOrder(m.oid, yid, io);
      var _ := UpdateOrderStatusSubmitted(m.oid, yid, io);
      DelMarker(m.oid);
      LRem(Processing(hid), m);
    }

    /** The reaper's work on one message of a processing list; a young message is skipped. */
    method ReapMessage(hid: int, m: Msg, settings: Settings, timeout: int, now: int, io: Io)
      modifies this
      ensures View() ==
        if m.ts == 0 || now - m.ts < timeout then old(View()) else ReapOne(old(View()), settings, hid, m, now, io)
      ensures producerLastOid == old(producerLastOid)
    {
      if m.ts == 0 || now - m.ts < timeout {
        return;
      }
      if io.readHash && m.oid in submitted {
        var _ := UpdateOrderStatusSubmitted(m.oid, submitted[m.oid], io);
        LRem(Processing(hid), m);
        locks := locks - {m.oid};
        DelMarker(m.oid);
        return;
      }
      if FoundInTable(View(), m.oid, io) {
        SettleOrder(hid, m, rows[m.oid].yid, io);
        locks := locks - {m.oid};
        return;
      }
      if settings.enabled && m.r + 1 < settings.maxAttempts {
        var ok := ScheduleOrderRetry(hid, m, settings, now, io);
        if ok {
          LRem(Processing(hid), m);
          locks := locks - {m.oid};
          return;
        }
      }
      UpdateDockFailed(m.oid, true, io);
      LPush(DeadLetter(hid), m);
      LRem(Processing(hid), m);
      locks := locks - {m.oid};
      DelMarker(m.oid);
      CommuteDeadLetter(WriteFailed(old(View()), m.oid, true, io), hid, m);
    }

    static lemma CommuteDeadLetter(s: Store, hid: int, m: Msg)
      ensures s.LPush(DeadLetter(hid), m).LRem(Processing(hid), m) ==
        s.LRem(Processing(hid), m).LPush(DeadLetter(hid), m)
    {
      assert s.LPush(DeadLetter(hid), m).LRem(Processing(hid), m).lists ==
        s.LRem(Processing(hid), m).LPush(DeadLetter(hid), m).lists;
    }

    /** dispatchDueRetries: one member that the range query returned. */
    method DispatchDueRetry(hid: int, m: Msg, now: int, io: Io)
      modifies this
      ensures View() == DispatchOne(old(View()), hid, m, now, io) && producerLastOid == old(producerLastOid)
    {
      if m !in View().Retries(hid) {
        return;
      }
      retries := View().ZRem(hid, m).retries;
      if io.readHash && m.oid in submitted {
        var _ := UpdateOrderStatusSubmitted(m.oid, submitted[m.oid], io);
        return;
      }
      if FoundInTable(View(), m.oid, io) {
        var yid := rows[m.oid].yid;
        SetSubmittedOrder(m.oid, yid, io);
        var _ := UpdateOrderStatusSubmitted(m.oid, yid, io);
        return;
      }
      var ok := EnqueueOrderToHidQueue(hid, m, io);
      if !ok {
        retries := View().ZAdd(hid, m, now + 10).retries;
      }
    }

    /** scanDLQForAutoRetry: one dead letter; one younger than `minAge` is skipped. */
    method ScanDeadLetter(hid: int, m: Msg, minAge: int, now: int, io: Io)
      modifies this
      ensures View() ==
        if m.ts > 0 && now - m.ts < minAge then old(View()) else ScanOne(old(View()), hid, m, now, io)
      ensures producerLastOid == old(producerLastOid)
    {
      if m.ts > 0 && now - m.ts < minAge {
        return;
      }
      if io.readHash && m.oid in submitted {
        LRem(DeadLetter(hid), m);
        var _ := UpdateOrderStatusSubmitted(m.oid, submitted[m.oid], io);
        return;
      }
      if FoundInTable(View(), m.oid, io) {
        LRem(DeadLetter(hid), m);
        var yid := rows[m.oid].yid;
        SetSubmittedOrder(m.oid, yid, io);
        var _ := UpdateOrderStatusSubmitted(m.oid, yid, io);
        return;
      }
      if !io.reopen || m.oid !in rows || rows[m.oid].dock != Failed {
        return;
      }
      rows := rows[m.oid := rows[m.oid].(dock := Pending)];
      LRem(DeadLetter(hid), m);
      var _ := EnqueueOrderToHidQueue(hid, m.(r := 0, ts := now), io);
    }

    /** One message of the shutdown rollback. */
    method RollbackMessage(hid: int, m: Msg, io: Io)
      modifies this
      ensures View() == RollbackOne(old(View()), hid, m, io) && producerLastOid == old(producerLastOid)
    {
      if io.readHash && m.oid in submitted {
        var _ := UpdateOrderStatusSubmitted(m.oid, submitted[m.oid], io);
        LRem(Processing(hid), m);
        locks := locks - {m.oid};
        DelMarker(m.oid);
        return;
      }
      if FoundInTable(View(), m.oid, io) {
        SettleOrder(hid, m, rows[m.oid].yid, io);
        locks := locks - {m.oid};
        return;
      }
      LRem(Processing(hid), m);
      locks := locks - {m.oid};
      DelMarker(m.oid);
    }

    /** rollbackProcessingAll: every processing list is read once and worked off. */
    method RollbackProcessingAll(hids: seq<int>, io: Msg -> Io)
      modifies this
      ensures View() == RollbackAll(old(View()), hids, io) && producerLastOid == old(producerLastOid)
    {
      for i := 0 to |hids|
        invariant View() == RollbackAll(old(View()), hids[..i], io) && producerLastOid == old(producerLastOid)
      {
        var hid := hids[i];
        var vals := View().List(Processing(hid));
        ghost var t := View();
        for j := 0 to |vals|
          invariant View() == RollbackList(t, hid, vals[..j], io) && producerLastOid == old(producerLastOid)
        {
          assert vals[..j + 1][..j] == vals[..j];
          RollbackMessage(hid, vals[j], io(vals[j]));
        }
        assert vals[..|vals|] == vals;
        assert hids[..i + 1][..i] == hids[..i];
      }
      assert hids[..|hids|] == hids;
    }
  }
}
