/** The two-level token bucket, with tokens as reals and integer times. */
module RateLimiter {
  import opened Wrappers

  // Each limiter has tokens of its own, and the limiters of one key share a Redis hash that is updated
  // by optimistic transactions. Times are nanoseconds in the limiter, milliseconds in the hash.

  datatype Limits = Limits(capacity: int, rate: real)

  /** A token count and the time it was computed for. */
  datatype Bucket = Bucket(tokens: real, last: int)

  /** The fields of the Redis hash; both are absent before the first write and after expiry. */
  datatype Hash = Hash(tokens: Option<real>, last: Option<int>)

  const ABSENT := Hash(None, None)
  const NANO := 1000000000.0
  const MILLI := 1000.0
  const HOUR_MS := 3600000
  const MAX_RETRIES: nat := 32

  /** What is added between two times, with `perSecond` units of time in a second. */
  function Gain(rate: real, from: int, to: int, perSecond: real): real
    requires perSecond > 0.0
  {
    (to - from) as real / perSecond * rate
  }

  function Refill(b: Limits, k: Bucket, now: int, perSecond: real): Bucket
    requires perSecond > 0.0
  {
    var tokens := k.tokens + Gain(b.rate, k.last, now, perSecond);
    Bucket(if tokens > b.capacity as real then b.capacity as real else tokens, now)
  }

  /** The bucket a hash stands for; a missing field is read as full, or as of now. */
  function Stored(b: Limits, h: Hash, nowMs: int): Bucket {
    Bucket(if h.tokens.Some? then h.tokens.value else b.capacity as real,
           if h.last.Some? then h.last.value else nowMs)
  }

  function Written(k: Bucket): Hash {
    Hash(Some(k.tokens), Some(k.last))
  }

  /** One committed transaction: the new hash, and whether a token was taken. */
  function Take(b: Limits, h: Hash, nowMs: int): (Hash, bool) {
    var k := Refill(b, Stored(b, h, nowMs), nowMs, MILLI);
    if k.tokens >= 1.0 then (Written(k.(tokens := k.tokens - 1.0)), true) else (Written(k), false)
  }

  // The limiter.

  /**
   What happens to one attempt of the transaction: nothing else writes the hash, another client
   writes it between the read and the commit, or the connection fails with the write done or not.
   */
  datatype Attempt = Quiet | Touched(to: Hash) | Broken(committed: bool)

  datatype Reply = Took(allowed: bool) | Failed

  function Watch(b: Limits, h: Hash, nowMs: int, script: nat -> Attempt, i: nat): (Hash, Reply)
    requires i <= MAX_RETRIES
    decreases MAX_RETRIES - i
  {
    if i == MAX_RETRIES then (h, Failed)
    else
      match script(i)
      case Quiet => (Take(b, h, nowMs).0, Took(Take(b, h, nowMs).1))
      case Touched(to) => Watch(b, to, nowMs, script, i + 1)
      case Broken(committed) => (if committed then Take(b, h, nowMs).0 else h, Failed)
  }

  function Drained(k: Bucket): Bucket {
    k.(tokens := if k.tokens - 1.0 < 0.0 then 0.0 else k.tokens - 1.0)
  }

  class RedisHash {
    var value: Hash

    constructor ()
      ensures value == ABSENT
    {
      value := ABSENT;
    }
  }

  class TokenBucket {
    const capacity: int
    const refillRate: real
    const redis: RedisHash
    var tokens: real
    var lastUpdate: int

    function Settings(): Limits {
      Limits(capacity, refillRate)
    }

    function Local(): Bucket
      reads this
    {
      Bucket(tokens, lastUpdate)
    }

    constructor (redis: RedisHash, capacity: int, refillRate: real, now: int)
      ensures this.redis == redis && Settings() == Limits(capacity, refillRate)
      ensures Local() == Bucket(capacity as real, now)
    {
      this.redis, this.capacity, this.refillRate := redis, capacity, refillRate;
      tokens, lastUpdate := capacity as real, now;
    }

    method Allow(now: int, script: nat -> Attempt) returns (allowed: bool, failed: bool)
      modifies this, redis
      ensures capacity <= 0 ==> allowed && !failed && Local() == old(Local()) && redis.value == old(redis.value)
      ensures capacity > 0 ==>
        var refilled := Refill(Settings(), old(Local()), now, NANO);
        if refilled.tokens >= 1.0 then
          && allowed && !failed && redis.value == old(redis.value)
          && Local() == refilled.(tokens := refilled.tokens - 1.0)
        else
          var (h, reply) := Watch(Settings(), old(redis.value), now / 1000000, script, 0);
          && redis.value == h
          && failed == reply.Failed?
          && allowed == (reply.Failed? || reply.allowed)
          && Local() == if reply == Took(true) then Drained(refilled) else refilled
    {
      if capacity <= 0 {
        return true, false;
      }
      var elapsed := (now - lastUpdate) as real / NANO;
      var tokensToAdd := elapsed * refillRate;
      tokens := tokens + tokensToAdd;
      if tokens > capacity as real {
        tokens := capacity as real;
      }
      lastUpdate := now;
      if tokens >= 1.0 {
        tokens := tokens - 1.0;
        return true, false;
      }
      var reply := AllowViaRedisWatch(now / 1000000, script);
      if reply.Failed? {
        return true, true;
      }
      if reply.allowed {
        tokens := tokens - 1.0;
        if tokens < 0.0 {
          tokens := 0.0;
        }
      }
      return reply.allowed, false;
    }

    method AllowViaRedisWatch(nowMs: int, script: nat -> Attempt) returns (reply: Reply)
      modifies redis
      ensures (redis.value, reply) == Watch(Settings(), old(redis.value), nowMs, script, 0)
    {
      ghost var start := redis.value;
      for i := 0 to MAX_RETRIES
        invariant Watch(Settings(), redis.value, nowMs, script, i) == Watch(Settings(), start, nowMs, script, 0)
      {
        var h := redis.value;
        var tokens := capacity as real;
        if h.tokens.Some? {
          tokens := h.tokens.value;
        }
        var last := nowMs;
        if h.last.Some? {
          last := h.last.value;
        }
        var elapsed := (nowMs - last) as real / MILLI;
        assert Stored(Settings(), h, nowMs) == Bucket(tokens, last);
        assert elapsed * refillRate == Gain(refillRate, last, nowMs, MILLI);
        tokens := tokens + elapsed * refillRate;
        if tokens > capacity as real {
          tokens := capacity as real;
        }
        var allowed := tokens >= 1.0;
        if allowed {
          tokens := tokens - 1.0;
        }
        assert (Hash(Some(tokens), Some(nowMs)), allowed) == Take(Settings(), h, nowMs);
        match script(i) {
          case Quiet =>
            redis.value := Hash(Some(tokens), Some(nowMs));
            return Took(allowed);
          case Touched(to) =>
            redis.value := to;
          case Broken(committed) =>
            if committed {
              redis.value := Hash(Some(tokens), Some(nowMs));
            }
            return Failed;
        }
      }
      return Failed;
    }
  }

  /** A reply that is not a failure is the reply of one committed transaction on the hash it found. */
  lemma {:induction false} ReplyIsAtomic(b: Limits, h: Hash, nowMs: int, script: nat -> Attempt, i: nat)
    returns (found: Hash)
    requires i <= MAX_RETRIES && Watch(b, h, nowMs, script, i).1.Took?
    ensures Watch(b, h, nowMs, script, i) == (Take(b, found, nowMs).0, Took(Take(b, found, nowMs).1))
    ensures script(i).Quiet? ==> found == h
    decreases MAX_RETRIES - i
  {
    if script(i).Touched? {
      found := ReplyIsAtomic(b, script(i).to, nowMs, script, i + 1);
    } else {
      found := h;
    }
  }

  // What the levels hold and what a call does, in seconds and tokens.

  function AtMost(x: real, top: int): real {
    if x > top as real then top as real else x
  }

  /** The limiter's own tokens after so many nanoseconds, and the hash's after so many milliseconds. */
  lemma RefillsPerSecond(b: Limits, k: Bucket, ns: int, ms: int)
    ensures Refill(b, k, k.last + ns, NANO) ==
      Bucket(AtMost(k.tokens + ns as real / 1000000000.0 * b.rate, b.capacity), k.last + ns)
    ensures Refill(b, k, k.last + ms, MILLI) ==
      Bucket(AtMost(k.tokens + ms as real / 1000.0 * b.rate, b.capacity), k.last + ms)
  {
  }

  /** The tokens of a limiter at a time in nanoseconds, and those of the hash at one in milliseconds. */
  function OwnTokens(b: Limits, k: Bucket, now: int): real {
    AtMost(k.tokens + (now - k.last) as real / 1000000000.0 * b.rate, b.capacity)
  }

  function SharedTokens(b: Limits, h: Hash, nowMs: int): real
    requires h.tokens.Some? && h.last.Some?
  {
    AtMost(h.tokens.value + (nowMs - h.last.value) as real / 1000.0 * b.rate, b.capacity)
  }

  /** A transaction refills and takes one token if there is one; a hash that is not there is full. */
  lemma TakeOutcome(b: Limits, h: Hash, nowMs: int)
    ensures h.tokens.Some? && h.last.Some? ==>
      var held := SharedTokens(b, h, nowMs);
      Take(b, h, nowMs) == (Hash(Some(if held >= 1.0 then held - 1.0 else held), Some(nowMs)), held >= 1.0)
    ensures b.capacity >= 1 ==>
      Take(b, Hash(None, None), nowMs) == (Hash(Some(b.capacity as real - 1.0), Some(nowMs)), true)
  {
    if h.tokens.Some? && h.last.Some? {
      SharedIsRefilled(b, h, nowMs);
    }
    RefillsPerSecond(b, Bucket(b.capacity as real, nowMs), 0, 0);
    assert 0.0 / 1000.0 * b.rate == 0.0 && nowMs + 0 == nowMs;
  }

  lemma SharedIsRefilled(b: Limits, h: Hash, nowMs: int)
    requires h.tokens.Some? && h.last.Some?
    ensures Refill(b, Stored(b, h, nowMs), nowMs, MILLI) == Bucket(SharedTokens(b, h, nowMs), nowMs)
  {
    var ms := nowMs - h.last.value;
    assert h.last.value + ms == nowMs && Stored(b, h, nowMs) == Bucket(h.tokens.value, h.last.value);
    RefillsPerSecond(b, Bucket(h.tokens.value, h.last.value), 0, ms);
  }

  lemma OwnIsRefilled(b: Limits, k: Bucket, now: int)
    ensures Refill(b, k, now, NANO) == Bucket(OwnTokens(b, k, now), now)
  {
    var ns := now - k.last;
    assert k.last + ns == now;
    RefillsPerSecond(b, k, ns, 0);
  }

  /**
   One call: its own token if the refilled level has one; else the shared one, which also takes what
   is left of its own; an answer that is lost admits the call and leaves the refilled level.
   */
  lemma CallOutcome(b: Limits, w: World, c: Call)
    requires c.who < |w.locals| && w.hash.tokens.Some? && w.hash.last.Some? && !c.expired
    ensures var own := OwnTokens(b, w.locals[c.who], c.now);
      var shared := SharedTokens(b, w.hash, c.now / 1000000);
      var (next, verdict) := Step(b, w, c);
      && (verdict == ByLocal <==> own >= 1.0)
      && (verdict == OnError <==> own < 1.0 && c.lost)
      && (verdict == ByRedis <==> own < 1.0 && !c.lost && shared >= 1.0)
      && (verdict == Refused <==> own < 1.0 && !c.lost && shared < 1.0)
      && next.locals == w.locals[c.who := Bucket(
           if verdict == ByLocal then own - 1.0
           else if verdict == ByRedis then (if own - 1.0 < 0.0 then 0.0 else own - 1.0)
           else own, c.now)]
      && (verdict == ByLocal ==> next.hash == w.hash)
      && (verdict == ByRedis ==> next.hash == Hash(Some(shared - 1.0), Some(c.now / 1000000)))
      && (verdict == Refused ==> next.hash == Hash(Some(shared), Some(c.now / 1000000)))
  {
    OwnIsRefilled(b, w.locals[c.who], c.now);
    TakeOutcome(b, w.hash, c.now / 1000000);
    StepOn(b, w, c, OwnTokens(b, w.locals[c.who], c.now), SharedTokens(b, w.hash, c.now / 1000000));
  }

  lemma StepOn(b: Limits, w: World, c: Call, own: real, shared: real)
    requires c.who < |w.locals| && !c.expired && Refill(b, w.locals[c.who], c.now, NANO) == Bucket(own, c.now)
    requires Take(b, w.hash, c.now / 1000000) ==
      (Hash(Some(if shared >= 1.0 then shared - 1.0 else shared), Some(c.now / 1000000)), shared >= 1.0)
    ensures var (next, verdict) := Step(b, w, c);
      && (verdict == ByLocal <==> own >= 1.0)
      && (verdict == OnError <==> own < 1.0 && c.lost)
      && (verdict == ByRedis <==> own < 1.0 && !c.lost && shared >= 1.0)
      && (verdict == Refused <==> own < 1.0 && !c.lost && shared < 1.0)
      && next.locals == w.locals[c.who := Bucket(
           if verdict == ByLocal then own - 1.0
           else if verdict == ByRedis then (if own - 1.0 < 0.0 then 0.0 else own - 1.0)
           else own, c.now)]
      && (verdict == ByLocal ==> next.hash == w.hash)
      && (verdict == ByRedis ==> next.hash == Hash(Some(shared - 1.0), Some(c.now / 1000000)))
      && (verdict == Refused ==> next.hash == Hash(Some(shared), Some(c.now / 1000000)))
  {
  }

  /** One attempt: an answer, another try on what the other client wrote, or a failure that may have written. */
  lemma AttemptOutcome(b: Limits, h: Hash, nowMs: int, script: nat -> Attempt, i: nat)
    requires i < 32
    ensures var r := Watch(b, h, nowMs, script, i);
      && (script(i).Quiet? ==> r == (Take(b, h, nowMs).0, Took(Take(b, h, nowMs).1)))
      && (script(i).Touched? ==> r == Watch(b, script(i).to, nowMs, script, i + 1))
      && (script(i) == Broken(true) ==> r == (Take(b, h, nowMs).0, Failed))
      && (script(i) == Broken(false) ==> r == (h, Failed))
  {
  }

  /** A hash that has expired is full, and a lost reply admits the call whether or not the server wrote. */
  lemma FaultOutcome(b: Limits, w: World, c: Call)
    requires c.who < |w.locals| && b.capacity >= 1 && OwnTokens(b, w.locals[c.who], c.now) < 1.0
    ensures var (next, verdict) := Step(b, w, c);
      && (c.expired && !c.lost ==>
            verdict == ByRedis && next.hash == Hash(Some(b.capacity as real - 1.0), Some(c.now / 1000000)))
      && (c.lost ==> verdict == OnError)
      && (c.lost && !c.committed ==> next.hash == w.hash)
      && (c.lost && c.committed ==> next.hash == Take(b, if c.expired then ABSENT else w.hash, c.now / 1000000).0)
  {
    OwnIsRefilled(b, w.locals[c.who], c.now);
    TakeOutcome(b, ABSENT, c.now / 1000000);
  }

  /** A transaction is tried as often as another client interferes, up to 32 times, and then fails. */
  lemma {:induction false} RetriesRunOut(b: Limits, h: Hash, nowMs: int, script: nat -> Attempt, n: nat)
    requires forall j | 32 - n <= j < 32 :: script(j).Touched?
    requires n <= 32
    ensures MAX_RETRIES == 32 && Watch(b, h, nowMs, script, 32 - n).1 == Failed
    decreases n
  {
    if n > 0 {
      RetriesRunOut(b, script(32 - n).to, nowMs, script, n - 1);
    }
  }

  // Runs of any number of limiters that share one hash.

  datatype World = World(locals: seq<Bucket>, hash: Hash)

  /** A call of limiter `who`; if it reaches Redis, the hash may have expired, or the reply may be lost. */
  datatype Call = Call(who: nat, now: int, expired: bool, lost: bool, committed: bool)

  datatype Verdict = ByLocal | ByRedis | OnError | Refused

  function Step(b: Limits, w: World, c: Call): (World, Verdict)
    requires c.who < |w.locals|
  {
    var l := Refill(b, w.locals[c.who], c.now, NANO);
    if l.tokens >= 1.0 then (w.(locals := w.locals[c.who := l.(tokens := l.tokens - 1.0)]), ByLocal)
    else
      var found := if c.expired then ABSENT else w.hash;
      var (h, taken) := Take(b, found, c.now / 1000000);
      if c.lost then (World(w.locals[c.who := l], if c.committed then h else w.hash), OnError)
      else if taken then (World(w.locals[c.who := Drained(l)], h), ByRedis)
      else (World(w.locals[c.who := l], h), Refused)
  }

  /** The clock does not run backwards, and only a hash not written for an hour expires. */
  predicate Timely(w: World, c: Call) {
    && c.who < |w.locals|
    && w.locals[c.who].last <= c.now
    && (w.hash.last.Some? ==> w.hash.last.value <= c.now / 1000000)
    && (c.expired && w.hash.last.Some? ==> w.hash.last.value + HOUR_MS <= c.now / 1000000)
  }

  /**
  A call of `Allow` that reaches Redis and is answered there is one step of a run, taken in the
  state that the writes of the other clients have led to when its transaction commits.
  */
  lemma AllowIsStep(b: Limits, w: World, who: nat, now: int, script: nat -> Attempt) returns (found: Hash)
    requires who < |w.locals| && Refill(b, w.locals[who], now, NANO).tokens < 1.0
    requires Watch(b, w.hash, now / 1000000, script, 0).1.Took?
    ensures var l := Refill(b, w.locals[who], now, NANO);
      var (h, reply) := Watch(b, w.hash, now / 1000000, script, 0);
      Step(b, World(w.locals, found), Call(who, now, false, false, false)) ==
        (World(w.locals[who := if reply == Took(true) then Drained(l) else l], h),
         if reply.allowed then ByRedis else Refused)
  {
    found := ReplyIsAtomic(b, w.hash, now / 1000000, script, 0);
  }

  predicate InBounds(b: Limits, k: Bucket) {
    0.0 <= k.tokens <= b.capacity as real
  }

  /** Both levels hold between zero and capacity tokens, and the hash is there as a whole or not at all. */
  predicate Ready(b: Limits, w: World) {
    && (forall k | 0 <= k < |w.locals| :: InBounds(b, w.locals[k]))
    && (w.hash == ABSENT ||
        (w.hash.tokens.Some? && w.hash.last.Some? && InBounds(b, Bucket(w.hash.tokens.value, w.hash.last.value))))
  }

  predicate IsRun(b: Limits, w: World, calls: seq<Call>)
    decreases |calls|
  {
    calls == [] || (Timely(w, calls[0]) && IsRun(b, Step(b, w, calls[0]).0, calls[1..]))
  }

  /** How many calls of a run were admitted by one of the two levels. */
  function Admitted(b: Limits, w: World, calls: seq<Call>): nat
    requires IsRun(b, w, calls)
    decreases |calls|
  {
    if calls == [] then 0
    else
      var (next, verdict) := Step(b, w, calls[0]);
      (if verdict.ByLocal? || verdict.ByRedis? then 1 else 0) + Admitted(b, next, calls[1..])
  }

  lemma GainAdds(rate: real, from: int, mid: int, to: int, perSecond: real)
    requires perSecond > 0.0
    ensures Gain(rate, from, mid, perSecond) + Gain(rate, mid, to, perSecond) == Gain(rate, from, to, perSecond)
  {
    var x, y := (mid - from) as real / perSecond, (to - mid) as real / perSecond;
    assert x + y == (to - from) as real / perSecond;
    assert x * rate + y * rate == (x + y) * rate;
  }

  lemma GainIsPositive(rate: real, from: int, to: int, perSecond: real)
    requires perSecond > 0.0 && rate >= 0.0 && from <= to
    ensures Gain(rate, from, to, perSecond) >= 0.0
  {
  }

  lemma RefillInBounds(b: Limits, k: Bucket, now: int, perSecond: real)
    requires perSecond > 0.0 && b.rate >= 0.0 && b.capacity > 0 && InBounds(b, k) && k.last <= now
    ensures InBounds(b, Refill(b, k, now, perSecond))
  {
    GainIsPositive(b.rate, k.last, now, perSecond);
  }

  lemma StepKeepsReady(b: Limits, w: World, c: Call)
    requires b.rate >= 0.0 && b.capacity > 0 && Ready(b, w) && Timely(w, c)
    ensures Ready(b, Step(b, w, c).0)
  {
    var nowMs := c.now / 1000000;
    RefillInBounds(b, w.locals[c.who], c.now, NANO);
    RefillInBounds(b, Stored(b, if c.expired then ABSENT else w.hash, nowMs), nowMs, MILLI);
  }

  /**
  The expiry of the hash cannot be observed: an hour refills any bucket. It is so exactly when
  the rate times 3600 reaches the capacity, which holds for a rate equal to the capacity.
  */
  lemma ExpiryIsUnobservable(b: Limits)
    requires b.capacity > 0 && b.rate >= 0.0
    ensures b.rate * 3600.0 >= b.capacity as real <==>
      forall tokens: real, last: int, nowMs: int
        | 0.0 <= tokens <= b.capacity as real && last + HOUR_MS <= nowMs ::
        Take(b, Hash(Some(tokens), Some(last)), nowMs) == Take(b, ABSENT, nowMs)
  {
    if b.rate * 3600.0 >= b.capacity as real {
      forall tokens: real, last: int, nowMs: int
        | 0.0 <= tokens <= b.capacity as real && last + HOUR_MS <= nowMs
        ensures Take(b, Hash(Some(tokens), Some(last)), nowMs) == Take(b, ABSENT, nowMs)
      {
        HourFills(b, tokens, last, nowMs);
      }
    } else {
      var poor := Refill(b, Bucket(0.0, 0), HOUR_MS, MILLI);
      assert Gain(b.rate, 0, HOUR_MS, MILLI) == 3600.0 * b.rate;
      assert Take(b, Hash(Some(0.0), Some(0)), HOUR_MS) != Take(b, ABSENT, HOUR_MS);
    }
  }

  lemma HourFills(b: Limits, tokens: real, last: int, nowMs: int)
    requires b.capacity > 0 && b.rate * 3600.0 >= b.capacity as real
    requires 0.0 <= tokens <= b.capacity as real && last + HOUR_MS <= nowMs
    ensures Refill(b, Bucket(tokens, last), nowMs, MILLI) == Bucket(b.capacity as real, nowMs)
    ensures Refill(b, Bucket(b.capacity as real, nowMs), nowMs, MILLI) == Bucket(b.capacity as real, nowMs)
  {
    var seconds := (nowMs - last) as real / MILLI;
    assert seconds >= 3600.0;
    assert seconds * b.rate >= 3600.0 * b.rate;
  }

  // The admission bound.

  /** The most a bucket can still give away from time `t0` on until `t1`. */
  function Budget(b: Limits, k: Bucket, t0: int, t1: int, perSecond: real): real
    requires perSecond > 0.0
  {
    var full := b.capacity as real + Gain(b.rate, t0, t1, perSecond);
    var own := k.tokens + Gain(b.rate, k.last, t1, perSecond);
    if own < full then own else full
  }

  lemma RefillSpendsNothing(b: Limits, k: Bucket, now: int, t0: int, t1: int, perSecond: real)
    requires perSecond > 0.0 && b.rate >= 0.0 && t0 <= now
    ensures var r := Refill(b, k, now, perSecond);
      r.tokens + Gain(b.rate, now, t1, perSecond) <= Budget(b, k, t0, t1, perSecond)
  {
    GainAdds(b.rate, k.last, now, t1, perSecond);
    GainAdds(b.rate, t0, now, t1, perSecond);
    GainIsPositive(b.rate, t0, now, perSecond);
  }

  function Sum(xs: seq<real>): real {
    if xs == [] then 0.0 else xs[0] + Sum(xs[1..])
  }

  lemma {:induction false} SumUpdate(xs: seq<real>, k: nat, x: real)
    requires k < |xs|
    ensures Sum(xs[k := x]) == Sum(xs) - xs[k] + x
  {
    var ys := xs[k := x];
    if k == 0 {
      assert ys[1..] == xs[1..];
    } else {
      assert ys[1..] == xs[1..][k - 1 := x];
      SumUpdate(xs[1..], k - 1, x);
    }
  }

  lemma {:induction false} SumBounds(xs: seq<real>, top: real)
    requires forall k | 0 <= k < |xs| :: 0.0 <= xs[k] <= top
    ensures 0.0 <= Sum(xs) <= |xs| as real * top
  {
    if xs != [] {
      SumBounds(xs[1..], top);
      assert |xs| as real * top == |xs[1..]| as real * top + top;
    }
  }

  function LocalBudgets(b: Limits, locals: seq<Bucket>, t0: int, t1: int): seq<real> {
    seq(|locals|, k requires 0 <= k < |locals| => Budget(b, locals[k], t0, t1, NANO))
  }

  function HashBudget(b: Limits, h: Hash, t0: int, t1: int): real {
    if h.tokens.Some? && h.last.Some? then Budget(b, Bucket(h.tokens.value, h.last.value), t0, t1, MILLI)
    else b.capacity as real + Gain(b.rate, t0, t1, MILLI)
  }

  function TotalBudget(b: Limits, w: World, t0: int, t1: int): real {
    Sum(LocalBudgets(b, w.locals, t0, t1)) + HashBudget(b, w.hash, t0 / 1000000, t1 / 1000000)
  }

  /** Serving a transaction costs the hash a token from its budget, even if the hash had expired. */
  lemma TakeSpends(b: Limits, h: Hash, expired: bool, nowMs: int, t0: int, t1: int)
    requires b.rate >= 0.0 && b.capacity > 0 && t0 <= nowMs <= t1
    requires h == ABSENT || (h.tokens.Some? && h.last.Some? && InBounds(b, Bucket(h.tokens.value, h.last.value)))
    requires expired && h != ABSENT ==> b.rate * 3600.0 >= b.capacity as real && h.last.value + HOUR_MS <= nowMs
    ensures var (after, taken) := Take(b, if expired then ABSENT else h, nowMs);
      HashBudget(b, after, t0, t1) + (if taken then 1.0 else 0.0) <= HashBudget(b, h, t0, t1)
  {
    var k := Stored(b, h, nowMs);
    RefillSpendsNothing(b, k, nowMs, t0, t1, MILLI);
    GainAdds(b.rate, t0, nowMs, t1, MILLI);
    GainIsPositive(b.rate, t0, nowMs, MILLI);
    if expired && h != ABSENT {
      assert Stored(b, ABSENT, nowMs) == Bucket(b.capacity as real, nowMs);
      HourFills(b, h.tokens.value, h.last.value, nowMs);
    }
  }

  lemma StepSpends(b: Limits, w: World, c: Call, t0: int, t1: int)
    requires b.capacity > 0 && b.rate >= 0.0 && b.rate * 3600.0 >= b.capacity as real
    requires Ready(b, w) && Timely(w, c) && t0 <= c.now <= t1
    ensures var (next, verdict) := Step(b, w, c);
      TotalBudget(b, next, t0, t1) + (if verdict.ByLocal? || verdict.ByRedis? then 1.0 else 0.0)
      <= TotalBudget(b, w, t0, t1)
  {
    var (next, verdict) := Step(b, w, c);
    var before := w.locals[c.who];
    var l := Refill(b, before, c.now, NANO);
    RefillSpendsNothing(b, before, c.now, t0, t1, NANO);
    RefillInBounds(b, before, c.now, NANO);
    TakeSpends(b, w.hash, c.expired, c.now / 1000000, t0 / 1000000, t1 / 1000000);
    assert LocalBudgets(b, next.locals, t0, t1) ==
           LocalBudgets(b, w.locals, t0, t1)[c.who := Budget(b, next.locals[c.who], t0, t1, NANO)];
    SumUpdate(LocalBudgets(b, w.locals, t0, t1), c.who, Budget(b, next.locals[c.who], t0, t1, NANO));
  }

  /** Nothing was computed for a time after `t`. */
  predicate Past(w: World, t: int) {
    && (forall k | 0 <= k < |w.locals| :: w.locals[k].last <= t)
    && (w.hash.last.Some? ==> w.hash.last.value <= t / 1000000)
  }

  /** For each limiter its capacity and what its rate yields in the interval, and once more for the hash. */
  function Bound(b: Limits, n: nat, t0: int, t1: int): real {
    n as real * (b.capacity as real + (t1 - t0) as real / 1000000000.0 * b.rate) +
    (b.capacity as real + (t1 / 1000000 - t0 / 1000000) as real / 1000.0 * b.rate)
  }

  lemma BoundIsGain(b: Limits, n: nat, t0: int, t1: int)
    ensures Bound(b, n, t0, t1) ==
      n as real * (b.capacity as real + Gain(b.rate, t0, t1, NANO)) +
      (b.capacity as real + Gain(b.rate, t0 / 1000000, t1 / 1000000, MILLI))
  {
  }

  lemma OneBudgetBounds(b: Limits, k: Bucket, t0: int, t1: int, perSecond: real)
    requires perSecond > 0.0 && b.capacity > 0 && b.rate >= 0.0
    requires InBounds(b, k) && k.last <= t1 && t0 <= t1
    ensures 0.0 <= Budget(b, k, t0, t1, perSecond) <= b.capacity as real + Gain(b.rate, t0, t1, perSecond)
  {
    GainIsPositive(b.rate, k.last, t1, perSecond);
    GainIsPositive(b.rate, t0, t1, perSecond);
  }

  lemma HashBudgetBounds(b: Limits, w: World, t0: int, t1: int)
    requires b.capacity > 0 && b.rate >= 0.0 && Ready(b, w) && Past(w, t1) && t0 <= t1
    ensures var t0', t1' := t0 / 1000000, t1 / 1000000;
      0.0 <= HashBudget(b, w.hash, t0', t1') <= b.capacity as real + Gain(b.rate, t0', t1', MILLI)
  {
    GainIsPositive(b.rate, t0 / 1000000, t1 / 1000000, MILLI);
    if w.hash != ABSENT {
      OneBudgetBounds(b, Bucket(w.hash.tokens.value, w.hash.last.value), t0 / 1000000, t1 / 1000000, MILLI);
    }
  }

  lemma BudgetBounds(b: Limits, w: World, t0: int, t1: int)
    requires b.capacity > 0 && b.rate >= 0.0 && Ready(b, w) && Past(w, t1) && t0 <= t1
    ensures 0.0 <= TotalBudget(b, w, t0, t1) <= Bound(b, |w.locals|, t0, t1)
  {
    var budgets, top := LocalBudgets(b, w.locals, t0, t1), b.capacity as real + Gain(b.rate, t0, t1, NANO);
    forall k | 0 <= k < |budgets|
      ensures 0.0 <= budgets[k] <= top
    {
      OneBudgetBounds(b, w.locals[k], t0, t1, NANO);
    }
    SumBounds(budgets, top);
    HashBudgetBounds(b, w, t0, t1);
    BoundIsGain(b, |w.locals|, t0, t1);
  }

  lemma {:induction false} RunSpends(b: Limits, w: World, calls: seq<Call>, t0: int, t1: int)
    requires b.capacity > 0 && b.rate >= 0.0 && b.rate * 3600.0 >= b.capacity as real
    requires Ready(b, w) && IsRun(b, w, calls) && Past(w, t1) && t0 <= t1
    requires forall i | 0 <= i < |calls| :: t0 <= calls[i].now <= t1
    ensures Admitted(b, w, calls) as real <= TotalBudget(b, w, t0, t1)
    decreases |calls|
  {
    if calls == [] {
      BudgetBounds(b, w, t0, t1);
    } else {
      var next := Step(b, w, calls[0]).0;
      StepKeepsReady(b, w, calls[0]);
      StepSpends(b, w, calls[0], t0, t1);
      RunSpends(b, next, calls[1..], t0, t1);
    }
  }

  /**
  Over every run of n limiters that share a hash, the calls of an interval that are admitted by
  tokens number at most n + 1 times capacity plus rate times length. Expiry and lost replies do
  not raise the number; only calls admitted because Redis failed are not in it.
  */
  lemma {:induction false} AdmissionBound(b: Limits, w: World, calls: seq<Call>, t0: int, t1: int)
    requires b.capacity > 0 && b.rate == b.capacity as real
    requires Ready(b, w) && IsRun(b, w, calls) && Past(w, t1) && t0 <= t1
    requires forall i | 0 <= i < |calls| :: t0 <= calls[i].now <= t1
    ensures Admitted(b, w, calls) as real <= Bound(b, |w.locals|, t0, t1)
  {
    RunSpends(b, w, calls, t0, t1);
    BudgetBounds(b, w, t0, t1);
  }

  /** Every state of a run keeps both levels between zero and capacity. */
  lemma {:induction false} RunKeepsReady(b: Limits, w: World, calls: seq<Call>, n: nat)
    requires b.rate >= 0.0 && b.capacity > 0 && Ready(b, w) && IsRun(b, w, calls) && n <= |calls|
    ensures Ready(b, After(b, w, calls, n))
    decreases n
  {
    if n > 0 {
      StepKeepsReady(b, w, calls[0]);
      RunKeepsReady(b, Step(b, w, calls[0]).0, calls[1..], n - 1);
    }
  }

  function After(b: Limits, w: World, calls: seq<Call>, n: nat): World
    requires IsRun(b, w, calls) && n <= |calls|
    decreases n
  {
    if n == 0 then w else After(b, Step(b, w, calls[0]).0, calls[1..], n - 1)
  }

  // The factor of two is real.

  function Burst(now: int, n: nat): seq<Call> {
    seq(n, _ => Call(0, now, false, false, false))
  }

  /** A limiter with `x` tokens of its own and `y` in the hash at time `now`. */
  function Holding(x: int, y: int, now: int): World {
    World([Bucket(x as real, now)], Hash(Some(y as real), Some(now / 1000000)))
  }

  lemma {:induction false} BurstFrom(b: Limits, x: nat, y: nat, now: int, n: nat)
    requires x <= b.capacity && y <= b.capacity
    ensures IsRun(b, Holding(x, y, now), Burst(now, n))
    ensures Admitted(b, Holding(x, y, now), Burst(now, n)) == if n <= x + y then n else x + y
    decreases n
  {
    if n > 0 {
      var w, c := Holding(x, y, now), Burst(now, n)[0];
      assert Gain(b.rate, now, now, NANO) == 0.0;
      assert Gain(b.rate, now / 1000000, now / 1000000, MILLI) == 0.0;
      assert Refill(b, w.locals[0], now, NANO) == w.locals[0];
      assert Burst(now, n)[1..] == Burst(now, n - 1);
      var x', y' := if x > 0 then x - 1 else 0, if x == 0 && y > 0 then y - 1 else y;
      assert Step(b, w, c).0 == Holding(x', y', now);
      BurstFrom(b, x', y', now, n - 1);
    }
  }

  /** A new limiter and a full hash admit twice the capacity at one instant, and then refuse. */
  lemma BurstAdmitsTwiceCapacity(b: Limits, now: int, n: nat)
    requires b.capacity > 0
    ensures var w := Holding(b.capacity, b.capacity, now);
      IsRun(b, w, Burst(now, n)) &&
      Admitted(b, w, Burst(now, n)) == if n <= 2 * b.capacity then n else 2 * b.capacity
  {
    BurstFrom(b, b.capacity, b.capacity, now, n);
  }
}
