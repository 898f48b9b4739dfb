/** Layered runtime configuration: defaults, a global override, one for each channel. */
module RuntimeConfig {
  import opened Wrappers

  // Layers are merged field by field: a field or section that is absent inherits from the layer below.

  datatype Queue = Queue(
    producerIntervalMs: Option<int>, minWorkers: Option<int>, maxWorkers: Option<int>,
    scaleCheckIntervalMs: Option<int>, scaleStep: Option<int>, processingTimeout: Option<int>,
    reaperInterval: Option<int>, confirmWait: Option<int>, statsInterval: Option<int>,
    idleSleepMs: Option<int>, submitWorkers: Option<int>, submitQueueCap: Option<int>,
    confirmWorkers: Option<int>, confirmQueueCap: Option<int>)

  /** An empty list is the same as an absent one. */
  datatype OrderStatus = OrderStatus(status: Option<string>, remarks: Option<string>, codes: seq<int>)

  datatype RateLimit = RateLimit(enabled: Option<bool>, globalMax: Option<int>, perHidMax: Option<int>)

  datatype Dlq = Dlq(enabled: Option<bool>, scanInterval: Option<int>, maxPerScan: Option<int>, minAge: Option<int>)

  datatype Resubmit = Resubmit(
    enabled: Option<bool>, maxAttempts: Option<int>, initialDelay: Option<int>, multiplier: Option<real>,
    maxDelay: Option<int>, retryOnTimeout: Option<bool>, rateLimitCounts: Option<bool>,
    keywords: seq<string>, dlq: Option<Dlq>)

  datatype Payload = Payload(
    queue: Option<Queue>, orderStatus: Option<OrderStatus>, rateLimit: Option<RateLimit>,
    resubmit: Option<Resubmit>, submitTimeout: Option<Option<int>>)

  const NO_QUEUE :=
    Queue(None, None, None, None, None, None, None, None, None, None, None, None, None, None)
  const NO_STATUS := OrderStatus(None, None, [])
  const NO_RATE := RateLimit(None, None, None)
  const NO_DLQ := Dlq(None, None, None, None)
  const NO_RESUBMIT := Resubmit(None, None, None, None, None, None, None, [], None)
  const EMPTY := Payload(None, None, None, None, None)

  function Over<T>(below: Option<T>, above: Option<T>): Option<T> {
    if above.Some? then above else below
  }

  function OverSeq<T>(below: seq<T>, above: seq<T>): seq<T> {
    if |above| > 0 then above else below
  }

  function MergeQueue(a: Queue, b: Queue): Queue {
    Queue(
      Over(a.producerIntervalMs, b.producerIntervalMs), Over(a.minWorkers, b.minWorkers),
      Over(a.maxWorkers, b.maxWorkers), Over(a.scaleCheckIntervalMs, b.scaleCheckIntervalMs),
      Over(a.scaleStep, b.scaleStep), Over(a.processingTimeout, b.processingTimeout),
      Over(a.reaperInterval, b.reaperInterval), Over(a.confirmWait, b.confirmWait),
      Over(a.statsInterval, b.statsInterval), Over(a.idleSleepMs, b.idleSleepMs),
      Over(a.submitWorkers, b.submitWorkers), Over(a.submitQueueCap, b.submitQueueCap),
      Over(a.confirmWorkers, b.confirmWorkers), Over(a.confirmQueueCap, b.confirmQueueCap))
  }

  function MergeOrderStatus(a: OrderStatus, b: OrderStatus): OrderStatus {
    OrderStatus(Over(a.status, b.status), Over(a.remarks, b.remarks), OverSeq(a.codes, b.codes))
  }

  function MergeRateLimit(a: RateLimit, b: RateLimit): RateLimit {
    RateLimit(Over(a.enabled, b.enabled), Over(a.globalMax, b.globalMax), Over(a.perHidMax, b.perHidMax))
  }

  function MergeDlq(a: Dlq, b: Dlq): Dlq {
    Dlq(Over(a.enabled, b.enabled), Over(a.scanInterval, b.scanInterval),
        Over(a.maxPerScan, b.maxPerScan), Over(a.minAge, b.minAge))
  }

  function MergeResubmit(a: Resubmit, b: Resubmit): Resubmit {
    Resubmit(
      Over(a.enabled, b.enabled), Over(a.maxAttempts, b.maxAttempts), Over(a.initialDelay, b.initialDelay),
      Over(a.multiplier, b.multiplier), Over(a.maxDelay, b.maxDelay), Over(a.retryOnTimeout, b.retryOnTimeout),
      Over(a.rateLimitCounts, b.rateLimitCounts), OverSeq(a.keywords, b.keywords),
      if b.dlq.None? then a.dlq else Some(MergeDlq(Or(a.dlq, NO_DLQ), b.dlq.value)))
  }

  function Or<T>(a: Option<T>, default: T): T {
    if a.Some? then a.value else default
  }

  /** mergeRuntimeConfig for an overlay that is there; a section missing below starts out empty. */
  function Merge(a: Payload, b: Payload): Payload {
    Payload(
      if b.queue.None? then a.queue else Some(MergeQueue(Or(a.queue, NO_QUEUE), b.queue.value)),
      if b.orderStatus.None? then a.orderStatus
      else Some(MergeOrderStatus(Or(a.orderStatus, NO_STATUS), b.orderStatus.value)),
      if b.rateLimit.None? then a.rateLimit
      else Some(MergeRateLimit(Or(a.rateLimit, NO_RATE), b.rateLimit.value)),
      if b.resubmit.None? then a.resubmit
      else Some(MergeResubmit(Or(a.resubmit, NO_RESUBMIT), b.resubmit.value)),
      if b.submitTimeout.None? then a.submitTimeout
      else Some(Over(Or(a.submitTimeout, None), b.submitTimeout.value)))
  }

  function Layer(base: Payload, overlay: Option<Payload>): Payload {
    if overlay.Some? then Merge(base, overlay.value) else base
  }

  method MergeRuntimeConfig(base: Payload, overlay: Option<Payload>) returns (out: Payload)
    ensures out == Layer(base, overlay)
  {
    out := base;
    if overlay.None? {
      return;
    }
    var top := overlay.value;
    if top.queue.Some? {
      if out.queue.None? {
        out := out.(queue := Some(NO_QUEUE));
      }
      out := out.(queue := Some(MergeQueue(out.queue.value, top.queue.value)));
    }
    if top.orderStatus.Some? {
      if out.orderStatus.None? {
        out := out.(orderStatus := Some(NO_STATUS));
      }
      out := out.(orderStatus := Some(MergeOrderStatus(out.orderStatus.value, top.orderStatus.value)));
    }
    if top.rateLimit.Some? {
      if out.rateLimit.None? {
        out := out.(rateLimit := Some(NO_RATE));
      }
      out := out.(rateLimit := Some(MergeRateLimit(out.rateLimit.value, top.rateLimit.value)));
    }
    if top.resubmit.Some? {
      if out.resubmit.None? {
        out := out.(resubmit := Some(NO_RESUBMIT));
      }
      out := out.(resubmit := Some(MergeResubmit(out.resubmit.value, top.resubmit.value)));
    }
    if top.submitTimeout.Some? {
      if out.submitTimeout.None? {
        out := out.(submitTimeout := Some(None));
      }
      out := out.(submitTimeout := Some(Over(out.submitTimeout.value, top.submitTimeout.value)));
    }
  }

  // Precedence: a field that the upper layer carries has its value, and one it lacks that of the lower.

  predicate Prevails<T(==)>(below: Option<T>, above: Option<T>, result: Option<T>) {
    (above.Some? ==> result == above) && (above.None? ==> result == below)
  }

  predicate ListPrevails<T(==)>(below: seq<T>, above: seq<T>, result: seq<T>) {
    (above != [] ==> result == above) && (above == [] ==> result == below)
  }

  predicate QueuePrevails(a: Queue, b: Queue, r: Queue) {
    && Prevails(a.producerIntervalMs, b.producerIntervalMs, r.producerIntervalMs)
    && Prevails(a.minWorkers, b.minWorkers, r.minWorkers)
    && Prevails(a.maxWorkers, b.maxWorkers, r.maxWorkers)
    && Prevails(a.scaleCheckIntervalMs, b.scaleCheckIntervalMs, r.scaleCheckIntervalMs)
    && Prevails(a.scaleStep, b.scaleStep, r.scaleStep)
    && Prevails(a.processingTimeout, b.processingTimeout, r.processingTimeout)
    && Prevails(a.reaperInterval, b.reaperInterval, r.reaperInterval)
    && Prevails(a.confirmWait, b.confirmWait, r.confirmWait)
    && Prevails(a.statsInterval, b.statsInterval, r.statsInterval)
    && Prevails(a.idleSleepMs, b.idleSleepMs, r.idleSleepMs)
    && Prevails(a.submitWorkers, b.submitWorkers, r.submitWorkers)
    && Prevails(a.submitQueueCap, b.submitQueueCap, r.submitQueueCap)
    && Prevails(a.confirmWorkers, b.confirmWorkers, r.confirmWorkers)
    && Prevails(a.confirmQueueCap, b.confirmQueueCap, r.confirmQueueCap)
  }

  predicate StatusPrevails(a: OrderStatus, b: OrderStatus, r: OrderStatus) {
    && Prevails(a.status, b.status, r.status)
    && Prevails(a.remarks, b.remarks, r.remarks)
    && ListPrevails(a.codes, b.codes, r.codes)
  }

  predicate RatePrevails(a: RateLimit, b: RateLimit, r: RateLimit) {
    && Prevails(a.enabled, b.enabled, r.enabled)
    && Prevails(a.globalMax, b.globalMax, r.globalMax)
    && Prevails(a.perHidMax, b.perHidMax, r.perHidMax)
  }

  predicate DlqPrevails(a: Dlq, b: Dlq, r: Dlq) {
    && Prevails(a.enabled, b.enabled, r.enabled)
    && Prevails(a.scanInterval, b.scanInterval, r.scanInterval)
    && Prevails(a.maxPerScan, b.maxPerScan, r.maxPerScan)
    && Prevails(a.minAge, b.minAge, r.minAge)
  }

  predicate ResubmitPrevails(a: Resubmit, b: Resubmit, r: Resubmit) {
    && Prevails(a.enabled, b.enabled, r.enabled)
    && Prevails(a.maxAttempts, b.maxAttempts, r.maxAttempts)
    && Prevails(a.initialDelay, b.initialDelay, r.initialDelay)
    && Prevails(a.multiplier, b.multiplier, r.multiplier)
    && Prevails(a.maxDelay, b.maxDelay, r.maxDelay)
    && Prevails(a.retryOnTimeout, b.retryOnTimeout, r.retryOnTimeout)
    && Prevails(a.rateLimitCounts, b.rateLimitCounts, r.rateLimitCounts)
    && ListPrevails(a.keywords, b.keywords, r.keywords)
    && (b.dlq.None? ==> r.dlq == a.dlq)
    && (b.dlq.Some? ==> r.dlq.Some? && DlqPrevails(Or(a.dlq, NO_DLQ), b.dlq.value, r.dlq.value))
  }

  /** Field by field in every section; a section that a layer lacks carries no field. */
  predicate LayerPrevails(a: Payload, b: Payload, r: Payload) {
    && (b.queue.None? ==> r.queue == a.queue)
    && (b.queue.Some? ==> r.queue.Some? && QueuePrevails(Or(a.queue, NO_QUEUE), b.queue.value, r.queue.value))
    && (b.orderStatus.None? ==> r.orderStatus == a.orderStatus)
    && (b.orderStatus.Some? ==>
          r.orderStatus.Some? && StatusPrevails(Or(a.orderStatus, NO_STATUS), b.orderStatus.value, r.orderStatus.value))
    && (b.rateLimit.None? ==> r.rateLimit == a.rateLimit)
    && (b.rateLimit.Some? ==>
          r.rateLimit.Some? && RatePrevails(Or(a.rateLimit, NO_RATE), b.rateLimit.value, r.rateLimit.value))
    && (b.resubmit.None? ==> r.resubmit == a.resubmit)
    && (b.resubmit.Some? ==>
          r.resubmit.Some? && ResubmitPrevails(Or(a.resubmit, NO_RESUBMIT), b.resubmit.value, r.resubmit.value))
    && (b.submitTimeout.None? ==> r.submitTimeout == a.submitTimeout)
    && (b.submitTimeout.Some? ==>
          r.submitTimeout.Some? && Prevails(Or(a.submitTimeout, None), b.submitTimeout.value, r.submitTimeout.value))
  }

  /** A section that is there is used, and one that is not carries nothing. */
  lemma EmptyCarriesNothing(q: Queue)
    ensures Or(Some(q), NO_QUEUE) == q && Or(None, NO_QUEUE) == NO_QUEUE
    ensures NO_QUEUE == Queue(None, None, None, None, None, None, None, None, None, None, None, None, None, None)
    ensures NO_STATUS == OrderStatus(None, None, []) && NO_RATE == RateLimit(None, None, None)
    ensures NO_DLQ == Dlq(None, None, None, None)
    ensures NO_RESUBMIT == Resubmit(None, None, None, None, None, None, None, [], None)
  {
  }

  /** The upper layer prevails, field by field. */
  lemma MergePrevails(a: Payload, b: Payload)
    ensures LayerPrevails(a, b, Merge(a, b))
  {
    assert ResubmitPrevails(
      Or(a.resubmit, NO_RESUBMIT), Or(b.resubmit, NO_RESUBMIT),
      MergeResubmit(Or(a.resubmit, NO_RESUBMIT), Or(b.resubmit, NO_RESUBMIT)));
  }

  /** It determines the result: no other payload has these fields. */
  lemma PrevailingIsUnique(a: Payload, b: Payload, r: Payload)
    requires LayerPrevails(a, b, r)
    ensures r == Merge(a, b)
  {
    assert r.queue == Merge(a, b).queue && r.orderStatus == Merge(a, b).orderStatus;
    assert r.rateLimit == Merge(a, b).rateLimit && r.submitTimeout == Merge(a, b).submitTimeout;
    assert r.resubmit == Merge(a, b).resubmit;
  }

  // Laws of layering.

  lemma ResubmitAssociative(a: Resubmit, b: Resubmit, c: Resubmit)
    ensures MergeResubmit(MergeResubmit(a, b), c) == MergeResubmit(a, MergeResubmit(b, c))
  {
  }

  lemma QueueAssociative(a: Queue, b: Queue, c: Queue)
    ensures MergeQueue(MergeQueue(a, b), c) == MergeQueue(a, MergeQueue(b, c))
  {
  }

  lemma MergeAssociative(a: Payload, b: Payload, c: Payload)
    ensures Merge(Merge(a, b), c) == Merge(a, Merge(b, c))
  {
    var l, r := Merge(Merge(a, b), c), Merge(a, Merge(b, c));
    if b.queue.Some? && c.queue.Some? {
      QueueAssociative(Or(a.queue, NO_QUEUE), b.queue.value, c.queue.value);
    }
    if b.resubmit.Some? && c.resubmit.Some? {
      ResubmitAssociative(Or(a.resubmit, NO_RESUBMIT), b.resubmit.value, c.resubmit.value);
    }
    assert l.queue == r.queue;
    assert l.orderStatus == r.orderStatus;
    assert l.rateLimit == r.rateLimit;
    assert l.resubmit == r.resubmit;
  }

  lemma MergeIdempotent(a: Payload)
    ensures Merge(a, a) == a
  {
  }

  lemma MergeIdentity(a: Payload)
    ensures Merge(a, EMPTY) == a && Merge(EMPTY, a) == a
  {
  }

  /** A layer that already carries the layer below it hides nothing and adds nothing. */
  lemma MergeAbsorbs(a: Payload, b: Payload)
    ensures Merge(a, Merge(a, b)) == Merge(a, b)
  {
    MergeAssociative(a, a, b);
    MergeIdempotent(a);
  }

  // The store.

  datatype Config = Config(defaults: Payload, global: Option<Payload>, overrides: map<int, Payload>)

  function Override(c: Config, hid: int): Option<Payload> {
    if hid > 0 && hid in c.overrides then Some(c.overrides[hid]) else None
  }

  /** The configuration below the channels' overrides. */
  function Base(c: Config): Payload {
    Layer(c.defaults, c.global)
  }

  /** getEffectiveMergedConfig. */
  function Effective(c: Config, hid: int): Payload {
    Layer(Base(c), Override(c, hid))
  }

  function SaveGlobal(c: Config, payload: Payload): Config {
    c.(global := Some(payload))
  }

  /** saveRuntimeHIDConfig; an empty payload without a remark deletes the override. */
  function SaveHid(c: Config, hid: int, payload: Payload, blankRemark: bool): (Config, bool) {
    if hid <= 0 then (c, false)
    else if payload == EMPTY && blankRemark then (c.(overrides := c.overrides - {hid}), true)
    else (c.(overrides := c.overrides[hid := payload]), true)
  }

  /** A channel's override prevails over the global one, and that over the defaults. */
  lemma LayersInOrder(c: Config, hid: int)
    ensures c.global.None? ==> Base(c) == c.defaults
    ensures c.global.Some? ==> LayerPrevails(c.defaults, c.global.value, Base(c))
    ensures hid <= 0 || hid !in c.overrides ==> Effective(c, hid) == Base(c)
    ensures hid > 0 && hid in c.overrides ==> LayerPrevails(Base(c), c.overrides[hid], Effective(c, hid))
  {
    if c.global.Some? {
      MergePrevails(c.defaults, c.global.value);
    }
    if hid > 0 && hid in c.overrides {
      MergePrevails(Base(c), c.overrides[hid]);
    }
  }

  /**
   What is saved for a channel prevails there over the base layer, field by field, an empty payload
   without a remark takes the override away, and no other channel notices; a bad channel is refused.
   */
  lemma SaveHidTakesEffect(c: Config, hid: int, payload: Payload, blankRemark: bool, other: int)
    ensures hid <= 0 ==> SaveHid(c, hid, payload, blankRemark) == (c, false)
    ensures hid > 0 ==>
      var (next, ok) := SaveHid(c, hid, payload, blankRemark);
      && ok && LayerPrevails(Base(c), payload, Effective(next, hid))
      && (hid in next.overrides <==> !(payload == EMPTY && blankRemark))
      && (other != hid ==> Effective(next, other) == Effective(c, other))
  {
    MergeIdentity(Base(c));
    MergePrevails(Base(c), payload);
  }

  class ConfigStore {
    const defaults: Payload
    var global: Option<Payload>
    var overrides: map<int, Payload>

    function View(): Config
      reads this
    {
      Config(defaults, global, overrides)
    }

    constructor (defaults: Payload)
      ensures View() == Config(defaults, None, map[])
    {
      this.defaults, global, overrides := defaults, None, map[];
    }

    method GetEffectiveMergedConfig(hid: int) returns (out: Payload)
      ensures out == Effective(View(), hid)
    {
      out := MergeRuntimeConfig(defaults, global);
      if hid > 0 && hid in overrides {
        out := MergeRuntimeConfig(out, Some(overrides[hid]));
      }
    }

    /** `stored` says that the database took the write. */
    method SaveRuntimeGlobalConfig(payload: Payload, stored: bool) returns (ok: bool)
      modifies `global
      ensures View() == if stored then SaveGlobal(old(View()), payload) else old(View())
      ensures ok == stored
    {
      if stored {
        global := Some(payload);
      }
      return stored;
    }

    method SaveRuntimeHidConfig(hid: int, payload: Payload, blankRemark: bool, stored: bool) returns (ok: bool)
      modifies `overrides
      ensures (View(), ok) ==
        if stored then SaveHid(old(View()), hid, payload, blankRemark) else (old(View()), false)
    {
      if hid <= 0 || !stored {
        return false;
      }
      if payload == EMPTY && blankRemark {
        overrides := overrides - {hid};
        return true;
      }
      overrides := overrides[hid := payload];
      return true;
    }
  }
}
