/**
 What each handler of the order engine does to the shared state, as a function of the state,
 the clock and the outcome of the storage calls whose failure the handler reacts to.
 */
module OrderHandlers {
  import opened OrderStore
  import opened Resubmit

  /**
   Success of one handler's storage calls: the write of the submitted hash, the write of
   dockstatus '1', the write of dockstatus '2', the update that reopens a failed row, the insertion
   into the retry schedule, the push into a channel queue, and the reads of the submitted hash and
   of the row.
   */
  datatype Io = Io(
    hash: bool, done: bool, failed: bool, reopen: bool, zadd: bool, push: bool, readHash: bool, readTable: bool)

  /** No storage call fails. */
  const ALL_WELL := Io(true, true, true, true, true, true, true, true)

  /** getSubmittedOrder finds the order; a failed read finds nothing. */
  predicate FoundInHash(s: Store, oid: int, io: Io) {
    io.readHash && oid in s.submitted
  }

  /** orderAlreadySucceededInDB; a failed read finds nothing. */
  predicate FoundInTable(s: Store, oid: int, io: Io) {
    io.readTable && s.SucceededInTable(oid)
  }

  /** The order is found in the submitted hash or in the table. */
  predicate Found(s: Store, oid: int, io: Io) {
    FoundInHash(s, oid, io) || FoundInTable(s, oid, io)
  }

  /** What the upstream call returned; the error texts are classified by the caller. */
  datatype Outcome =
    | Success(yid: string)
    | Failure(timeout: bool, badOid: bool, terminal: bool, retryable: bool)

  function NewMsg(oid: int, hid: int, now: int): Msg {
    Msg(oid, hid, 0, now)
  }

  function Retried(m: Msg): Msg {
    m.(r := m.r + 1)
  }

  /** setSubmittedOrder followed by updateOrderStatusSubmitted. */
  function Record(s: Store, oid: int, yid: string, io: Io): Store {
    WriteDone(if io.hash then s.HSet(oid, yid) else s, oid, yid, io)
  }

  /** updateOrderStatusSubmitted; it reports success only if a row was there. */
  function WriteDone(s: Store, oid: int, yid: string, io: Io): Store {
    if io.done then s.SetDone(oid, yid) else s
  }

  predicate DoneWritten(s: Store, oid: int, io: Io) {
    io.done && oid in s.rows
  }

  function WriteFailed(s: Store, oid: int, newStatus: bool, io: Io): Store {
    if io.failed then s.SetFailed(oid, newStatus) else s
  }

  function Drop(s: Store, hid: int, m: Msg): Store {
    s.Unmark(m.oid).LRem(Processing(hid), m)
  }

  /** The order went through: record it and clean up. */
  function Settle(s: Store, hid: int, m: Msg, yid: string, io: Io): Store {
    Drop(Record(s, m.oid, yid, io), hid, m)
  }

  /** The order is given up: dockstatus '2', and the message moves to the dead letters. */
  function GiveUp(s: Store, hid: int, m: Msg, newStatus: bool, io: Io): Store {
    WriteFailed(s, m.oid, newStatus, io).LRem(Processing(hid), m).LPush(DeadLetter(hid), m).Unmark(m.oid)
  }

  /** The consumer finds the order in the submitted hash: only the table is repaired. */
  function RepairSubmitted(s: Store, hid: int, m: Msg, io: Io): Store
    requires m.oid in s.submitted
  {
    if DoneWritten(s, m.oid, io) then Drop(WriteDone(s, m.oid, s.submitted[m.oid], io), hid, m)
    else GiveUp(s, hid, m, false, io)
  }

  /** scheduleOrderRetry: the message enters the retry schedule and the enqueue marker goes. */
  function Schedule(s: Store, hid: int, m: Msg, settings: Settings, now: int): Store {
    s.ZAdd(hid, Retried(m), now + RetryDelay(settings, m.r + 1)).Unmark(m.oid)
  }

  predicate RetryTaken(settings: Settings, m: Msg, terminal: bool, retryable: bool, io: Io) {
    ShouldRetry(settings, m, terminal, retryable) && io.zadd
  }

  function Retry(s: Store, hid: int, m: Msg, settings: Settings, now: int): Store {
    Schedule(s, hid, m, settings, now).LRem(Processing(hid), m)
  }

  /** The confirm pool's full queue hands the confirmation to the caller itself. */
  function Finalize(s: Store, settings: Settings, hid: int, m: Msg, out: Outcome, now: int, io: Io): Store
    requires out.Failure? ==> !out.timeout
  {
    match out
    case Success(yid) => Settle(s, hid, m, yid, io)
    case Failure(_, badOid, terminal, retryable) =>
      if badOid && FoundInTable(s, m.oid, io) then Settle(s, hid, m, s.TableYid(m.oid), io)
      else if RetryTaken(settings, m, terminal, retryable, io) then Retry(s, hid, m, settings, now)
      else GiveUp(s, hid, m, false, io)
  }

  /** runSubmitTimeoutConfirmation: the submission timed out and is looked up once more. */
  function Confirm(s: Store, settings: Settings, hid: int, m: Msg, out: Outcome, now: int, io: Io): Store
    requires out.Failure?
  {
    if FoundInHash(s, m.oid, io) then Drop(s, hid, m)
    else if FoundInTable(s, m.oid, io) then Settle(s, hid, m, s.TableYid(m.oid), io)
    else if settings.enabled && settings.retryOnTimeout && RetryTaken(settings, m, out.terminal, out.retryable, io)
    then Retry(s, hid, m, settings, now)
    else GiveUp(s, hid, m, true, io)
  }

  /** The reaper's handling of one overdue message of a processing list. */
  function ReapOne(s: Store, settings: Settings, hid: int, m: Msg, now: int, io: Io): Store {
    if FoundInHash(s, m.oid, io) then
      Drop(WriteDone(s, m.oid, s.submitted[m.oid], io), hid, m).DelLock(m.oid)
    else if FoundInTable(s, m.oid, io) then
      Settle(s, hid, m, s.TableYid(m.oid), io).DelLock(m.oid)
    else if settings.enabled && m.r + 1 < settings.maxAttempts && io.zadd then
      Retry(s, hid, m, settings, now).DelLock(m.oid)
    else
      GiveUp(s, hid, m, true, io).DelLock(m.oid)
  }

  /** Shutdown: one message of a processing list is settled or released for the next start. */
  function RollbackOne(s: Store, hid: int, m: Msg, io: Io): Store {
    if FoundInHash(s, m.oid, io) then
      Drop(WriteDone(s, m.oid, s.submitted[m.oid], io), hid, m).DelLock(m.oid)
    else if FoundInTable(s, m.oid, io) then
      Settle(s, hid, m, s.TableYid(m.oid), io).DelLock(m.oid)
    else
      Drop(s, hid, m).DelLock(m.oid)
  }

  /** enqueueOrderToHIDQueue succeeds only if no marker is there and the push succeeds. */
  predicate Enqueued(s: Store, m: Msg, io: Io) {
    m.oid !in s.marks && io.push
  }

  function Enqueue(s: Store, hid: int, m: Msg, io: Io): Store {
    if Enqueued(s, m, io) then s.Mark(m.oid).LPush(Queue(hid), m) else s
  }

  /** One due member of the retry schedule. */
  function DispatchOne(s: Store, hid: int, m: Msg, now: int, io: Io): Store {
    if m !in s.Retries(hid) then s
    else
      var t := s.ZRem(hid, m);
      if FoundInHash(t, m.oid, io) then WriteDone(t, m.oid, t.submitted[m.oid], io)
      else if FoundInTable(t, m.oid, io) then Record(t, m.oid, t.TableYid(m.oid), io)
      else if Enqueued(t, m, io) then Enqueue(t, hid, m, io)
      else t.ZAdd(hid, m, now + 10)
  }

  /** One dead letter that is old enough for the automatic retry. */
  function ScanOne(s: Store, hid: int, m: Msg, now: int, io: Io): Store {
    if FoundInHash(s, m.oid, io) then
      WriteDone(s.LRem(DeadLetter(hid), m), m.oid, s.submitted[m.oid], io)
    else if FoundInTable(s, m.oid, io) then
      Record(s.LRem(DeadLetter(hid), m), m.oid, s.TableYid(m.oid), io)
    else if io.reopen && m.oid in s.rows && s.rows[m.oid].dock.Failed? then
      Enqueue(s.Reopen(m.oid).LRem(DeadLetter(hid), m), hid, m.(r := 0, ts := now), io)
    else s
  }

  /** The producer's handling of one scanned order. */
  function ProduceOne(s: Store, oid: int, hid: int, now: int, io: Io): Store {
    if hid == 0 then s else Enqueue(s, hid, NewMsg(oid, hid, now), io)
  }

  datatype PushReply =
    | Queued | AlreadyQueued | NotFound | NotPending | NoChannel | WrongChannel | ChannelPaused | PushFailed

  /** pushOrderToQueue; the failure of the push is reported, every other failure leaves the state alone. */
  function PushReplyOf(s: Store, oid: int, reqHid: int, paused: bool, io: Io): PushReply {
    if oid !in s.rows || s.rows[oid].cancelled then NotFound
    else if !s.rows[oid].dock.Pending? then NotPending
    else if s.rows[oid].hid <= 0 then NoChannel
    else if reqHid > 0 && reqHid != s.rows[oid].hid then WrongChannel
    else if paused then ChannelPaused
    else if oid in s.marks then AlreadyQueued
    else if io.push then Queued
    else PushFailed
  }

  function PushOrder(s: Store, oid: int, reqHid: int, paused: bool, now: int, io: Io): Store {
    if PushReplyOf(s, oid, reqHid, paused, io).Queued?
    then Enqueue(s, s.rows[oid].hid, NewMsg(oid, s.rows[oid].hid, now), io)
    else s
  }

  /** requeueFromProcessing: back to the head of the consumer's end of the queue. */
  function Requeue(s: Store, hid: int, m: Msg, io: Io): Store {
    if io.push then s.RPush(Queue(hid), m).LRem(Processing(hid), m) else s
  }
}
