/** The distributed lock at the level of single Redis commands. */
module DistributedLock {
  import opened Wrappers

  // The commands are SET NX, WATCH, GET, and a MULTI/EXEC block that is dropped when the watched key was
  // touched in between.

  /** The key with its stored token; `version` counts the touches that WATCH notices. */
  datatype Key = Key(value: Option<nat>, version: nat)
  {
    function Touch(value: Option<nat>): Key {
      Key(value, version + 1)
    }
  }

  datatype Kind = Extend | Delete

  /**
   What can happen to the key outside an EXEC. Servers before Redis 6.0.9 do not count the
   expiry of a key as a touch; `noticed` covers both kinds.
   */
  datatype Action =
    | SetNx(token: nat)
    | Expiry(noticed: bool)
    | ForcedDel
    | OtherTouch

  function Act(k: Key, a: Action): Key {
    match a
    case SetNx(token) => if k.value.None? then k.Touch(Some(token)) else k
    case Expiry(noticed) => if k.value.None? then k else if noticed then k.Touch(None) else k.(value := None)
    case ForcedDel => if k.value.None? then k else k.Touch(None)
    case OtherTouch => k.Touch(k.value)
  }

  /** The queued EXPIRE or DEL; both touch the key only if it exists. */
  function Commit(k: Key, kind: Kind): Key {
    if k.value.None? then k
    else if kind.Delete? then k.Touch(None)
    else k.Touch(k.value)
  }

  // The whole protocol: any number of calls of extend and delete run at the same time.

  datatype Stage = Watched(at: nat) | Matched(at: nat)

  /** A running call of redisExtendIfHeld or redisDelIfHeld by the owner of `token`. */
  datatype Call = Call(token: nat, kind: Kind, stage: Stage)

  datatype Cause = Expired | Forced | DeletedBy(who: nat)

  /** Grants and ends of the lock, and extensions, as they happen. */
  datatype Event = Granted(token: nat) | Ended(token: nat, cause: Cause)

  datatype State = State(
    key: Key,
    issued: set<nat>,
    calls: map<nat, Call>,
    log: seq<Event>,
    extended: seq<(nat, nat)>)

  const INIT := State(Key(None, 0), {}, map[], [], [])

  datatype Step =
    | Acquire(token: nat)
    | Expire(noticed: bool)
    | ForceDel
    | Watch(id: nat, token: nat, kind: Kind)
    | Get(id: nat)
    | Exec(id: nat)

  /** Tokens are fresh, and only the owner of a granted token uses it. */
  predicate Enabled(s: State, step: Step) {
    match step
    case Acquire(token) => token !in s.issued
    case Watch(id, token, _) => id !in s.calls && token in s.issued
    case Get(id) => id in s.calls && s.calls[id].stage.Watched?
    case Exec(id) => id in s.calls && s.calls[id].stage.Matched?
    case _ => true
  }

  function Ending(s: State, cause: Cause): seq<Event> {
    if s.key.value.None? then s.log else s.log + [Ended(s.key.value.value, cause)]
  }

  function Apply(s: State, step: Step): State
    requires Enabled(s, step)
  {
    match step
    case Acquire(token) =>
      s.(key := Act(s.key, SetNx(token)), issued := s.issued + {token},
         log := if s.key.value.None? then s.log + [Granted(token)] else s.log)
    case Expire(noticed) => s.(key := Act(s.key, Expiry(noticed)), log := Ending(s, Expired))
    case ForceDel => s.(key := Act(s.key, ForcedDel), log := Ending(s, Forced))
    case Watch(id, token, kind) => s.(calls := s.calls[id := Call(token, kind, Watched(s.key.version))])
    case Get(id) =>
      var c := s.calls[id];
      if s.key.value == Some(c.token) then s.(calls := s.calls[id := c.(stage := Matched(c.stage.at))])
      else s.(calls := s.calls - {id})
    case Exec(id) =>
      var c := s.calls[id];
      var t := s.(calls := s.calls - {id});
      if s.key.version != c.stage.at then t
      else
        t.(key := Commit(s.key, c.kind),
           log := if c.kind.Delete? then Ending(s, DeletedBy(c.token)) else s.log,
           extended := if c.kind.Extend? && s.key.value.Some? then s.extended + [(c.token, s.key.value.value)]
                       else s.extended)
  }

  ghost predicate IsRun(s: State, steps: seq<Step>)
    decreases |steps|
  {
    steps == [] || (Enabled(s, steps[0]) && IsRun(Apply(s, steps[0]), steps[1..]))
  }

  ghost function Final(s: State, steps: seq<Step>): State
    requires IsRun(s, steps)
    decreases |steps|
  {
    if steps == [] then s else Final(Apply(s, steps[0]), steps[1..])
  }

  /** Grants and ends alternate, and every end belongs to the grant before it. */
  ghost predicate Alternates(log: seq<Event>) {
    forall i {:trigger log[i]} | 0 <= i < |log| ::
      if i % 2 == 0 then log[i].Granted?
      else log[i].Ended? && log[i - 1] == Granted(log[i].token)
  }

  ghost predicate OwnEnds(log: seq<Event>) {
    forall e | e in log && e.Ended? && e.cause.DeletedBy? :: e.cause.who == e.token
  }

  ghost predicate Invariant(s: State) {
    && Alternates(s.log) && OwnEnds(s.log)
    && (|s.log| % 2 == 1 <==> s.key.value.Some?)
    && (s.key.value.Some? ==> s.log[|s.log| - 1] == Granted(s.key.value.value) && s.key.value.value in s.issued)
    && (forall id | id in s.calls ::
          && s.calls[id].stage.at <= s.key.version
          && (s.calls[id].stage.Matched? && s.calls[id].stage.at == s.key.version ==>
                s.key.value.None? || s.key.value == Some(s.calls[id].token)))
    && (forall x | x in s.extended :: x.0 == x.1)
  }

  lemma LogGrows(log: seq<Event>, e: Event)
    requires Alternates(log) && OwnEnds(log)
    requires e.Granted? ==> |log| % 2 == 0
    requires e.Ended? ==> |log| % 2 == 1 && log[|log| - 1] == Granted(e.token)
    requires e.Ended? && e.cause.DeletedBy? ==> e.cause.who == e.token
    ensures Alternates(log + [e]) && OwnEnds(log + [e])
  {
  }

  lemma StepKeeps(s: State, step: Step)
    requires Invariant(s) && Enabled(s, step)
    ensures Invariant(Apply(s, step))
  {
    var t := Apply(s, step);
    if t.log != s.log {
      LogGrows(s.log, t.log[|s.log|]);
    }
  }

  lemma {:induction false} RunKeeps(s: State, steps: seq<Step>)
    requires Invariant(s) && IsRun(s, steps)
    ensures Invariant(Final(s, steps))
    decreases |steps|
  {
    if steps != [] {
      StepKeeps(s, steps[0]);
      RunKeeps(Apply(s, steps[0]), steps[1..]);
    }
  }

  /**
   For every interleaving: a lock is granted only after the previous grant has ended, a delete
   ends only the grant of its own token, and an extension reaches only its own token.
   */
  lemma TokenSafety(steps: seq<Step>)
    requires IsRun(INIT, steps)
    ensures var s := Final(INIT, steps);
      && Alternates(s.log) && OwnEnds(s.log)
      && (forall x | x in s.extended :: x.0 == x.1)
      && (s.key.value.Some? <==> |s.log| % 2 == 1)
      && (s.key.value.Some? ==> s.log[|s.log| - 1] == Granted(s.key.value.value))
  {
    RunKeeps(INIT, steps);
  }

  ghost predicate Unforced(steps: seq<Step>) {
    forall step | step in steps :: !step.ForceDel?
  }

  lemma {:induction false} UnforcedLog(s: State, steps: seq<Step>)
    requires Invariant(s) && IsRun(s, steps) && Unforced(steps)
    requires forall e | e in s.log && e.Ended? :: !e.cause.Forced?
    ensures forall e | e in Final(s, steps).log && e.Ended? :: !e.cause.Forced?
    decreases |steps|
  {
    if steps != [] {
      assert steps[0] in steps;
      assert forall step | step in steps[1..] :: step in steps;
      StepKeeps(s, steps[0]);
      UnforcedLog(Apply(s, steps[0]), steps[1..]);
    }
  }

  /**
   Without forced deletes, of two grants in a row the first has expired or was released by its
   own holder before the second.
   */
  lemma NoGrantBeforeRelease(steps: seq<Step>, i: nat)
    requires IsRun(INIT, steps) && Unforced(steps)
    requires i + 2 < |Final(INIT, steps).log| && Final(INIT, steps).log[i].Granted?
    ensures var log := Final(INIT, steps).log;
      && log[i + 2].Granted? && log[i + 1].Ended? && log[i + 1].token == log[i].token
      && (log[i + 1].cause == Expired || log[i + 1].cause == DeletedBy(log[i].token))
  {
    RunKeeps(INIT, steps);
    UnforcedLog(INIT, steps);
    var log := Final(INIT, steps).log;
    assert i % 2 == 0;
    assert log[i + 1] in log;
    assert log[i + 2].Granted? && log[i + 1].Ended?;
  }

  // One call, with its retry loop, against an arbitrary environment.

  const MAX_RETRIES := 8

  function Acts(k: Key, actions: seq<Action>): Key
    decreases |actions|
  {
    if actions == [] then k else Acts(Act(k, actions[0]), actions[1..])
  }

  /** The key after the first `n` gaps between the call's own commands. */
  function Gaps(k: Key, script: nat -> seq<Action>, n: nat): Key {
    if n == 0 then k else Acts(Gaps(k, script, n - 1), script(n - 1))
  }

  lemma {:induction false} ActsKeep(k: Key, actions: seq<Action>)
    ensures var t := Acts(k, actions);
      && t.version >= k.version
      && (t.version == k.version ==> t.value == k.value || t.value.None?)
    decreases |actions|
  {
    if actions != [] {
      ActsKeep(Act(k, actions[0]), actions[1..]);
    }
  }

  /**
   What the connection does in one attempt: it works, it fails before the reply to GET, or it fails
   in EXEC, which the server may have run all the same.
   */
  datatype Link = Up | GetFails | ExecFails(ran: bool)

  /** What a call reports; `NoAnswer` is the error of the connection. */
  datatype Reply = Held | NotHeld | Exhausted | NoAnswer

  /** The shared key as an object that calls and environment write to. */
  class RedisKey {
    var key: Key

    constructor ()
      ensures key == Key(None, 0)
    {
      key := Key(None, 0);
    }

    method Interfere(script: nat -> seq<Action>, n: nat, ghost start: Key)
      requires key == Gaps(start, script, n)
      modifies this
      ensures key == Gaps(start, script, n + 1)
    {
      key := Acts(key, script(n));
    }

    /**
     redisExtendIfHeld and redisDelIfHeld: up to eight optimistic transactions. The gaps of
     `script` run between the commands, and `link` says what the connection does in each attempt.
     Whatever happens, the call changes the key at most once, and only while the key holds its own
     token or has just expired; it does so exactly once if it reports success, and not at all
     unless it reports success or lost the connection in a transaction.
     */
    method CommitIfHeld(token: nat, kind: Kind, script: nat -> seq<Action>, link: nat -> Link)
      returns (reply: Reply, gaps: nat, ghost applied: bool)
      modifies this
      ensures gaps <= 3 * 8
      ensures key == if applied then Commit(Gaps(old(key), script, gaps), kind) else Gaps(old(key), script, gaps)
      ensures applied ==>
        Gaps(old(key), script, gaps).value == Some(token) || Gaps(old(key), script, gaps).value.None?
      ensures reply == Held ==> applied
      ensures applied ==> reply == Held || reply == NoAnswer
      ensures reply == NotHeld ==> key.value != Some(token)
      ensures reply == Exhausted ==> gaps == 3 * 8
      ensures reply == NoAnswer ==> exists i :: 0 <= i < 8 && link(i) != Up
      ensures script(0) == script(1) == script(2) == [] && link(0) == Up && old(key).value == Some(token) ==>
        reply == Held && gaps == 3
    {
      ghost var start := key;
      gaps, applied := 0, false;
      for i := 0 to MAX_RETRIES
        invariant gaps == 3 * i && key == Gaps(start, script, gaps) && !applied
        invariant script(0) == script(1) == script(2) == [] && link(0) == Up && start.value == Some(token) ==> i == 0
      {
        Interfere(script, gaps, start);
        var watched := key.version;
        Interfere(script, gaps + 1, start);
        if link(i) == GetFails {
          return NoAnswer, gaps + 2, false;
        }
        var cur := key.value;
        if cur != Some(token) {
          return NotHeld, gaps + 2, false;
        }
        ghost var seen := key;
        Interfere(script, gaps + 2, start);
        ActsKeep(seen, script(gaps + 2));
        WatchKeeps(start, script, gaps + 1);
        gaps := gaps + 3;
        if link(i) == ExecFails(false) {
          return NoAnswer, gaps, false;
        }
        if key.version == watched {
          key := Commit(key, kind);
          return if link(i) == Up then Held else NoAnswer, gaps, true;
        }
        if link(i) != Up {
          return NoAnswer, gaps, false;
        }
      }
      return Exhausted, gaps, false;
    }

    static lemma WatchKeeps(start: Key, script: nat -> seq<Action>, n: nat)
      ensures Gaps(start, script, n).version <= Gaps(start, script, n + 1).version
    {
      ActsKeep(Gaps(start, script, n), script(n));
    }
  }

  /** An extension keeps the token, a deletion takes it, and both touch a key that is there. */
  lemma CommandsMean(k: Key, token: nat)
    ensures k.value.None? ==> Commit(k, Extend) == k && Commit(k, Delete) == k && Act(k, ForcedDel) == k
    ensures k.value.Some? ==> Commit(k, Extend) == Key(k.value, k.version + 1)
    ensures k.value.Some? ==> Commit(k, Delete) == Key(None, k.version + 1) == Act(k, ForcedDel)
    ensures Act(k, SetNx(token)) == if k.value.None? then Key(Some(token), k.version + 1) else k
    ensures Act(k, Expiry(false)) == Key(None, k.version)
    ensures k.value.Some? ==> Act(k, Expiry(true)) == Key(None, k.version + 1)
  {
  }

  // What a call of the protocol comes to.

  lemma ThreeSteps(s: State, a: Step, b: Step, c: Step)
    requires Enabled(s, a) && Enabled(Apply(s, a), b) && Enabled(Apply(Apply(s, a), b), c)
    ensures IsRun(s, [a, b, c]) && Final(s, [a, b, c]) == Apply(Apply(Apply(s, a), b), c)
  {
    var t := Apply(s, a);
    var u := Apply(t, b);
    assert [a, b, c][1..] == [b, c] && [b, c][1..] == [c] && [c][1..] == [];
    assert IsRun(Apply(u, c), []);
    assert IsRun(u, [c]) && Final(u, [c]) == Apply(u, c);
    assert IsRun(t, [b, c]) && Final(t, [b, c]) == Apply(u, c);
  }

  /** The steps of a call that nothing disturbs. */
  function CallSteps(id: nat, token: nat, kind: Kind): seq<Step> {
    [Watch(id, token, kind), Get(id), Exec(id)]
  }

  /** Undisturbed, the holder's deletion frees the lock and its extension reaches its own grant. */
  lemma HolderSucceeds(s: State, id: nat, token: nat)
    requires s.key.value == Some(token) && token in s.issued && id !in s.calls
    ensures IsRun(s, CallSteps(id, token, Delete)) && IsRun(s, CallSteps(id, token, Extend))
    ensures var t := Final(s, CallSteps(id, token, Delete));
      && t.key.value == None && t.log == s.log + [Ended(token, DeletedBy(token))]
      && t.calls == s.calls && t.extended == s.extended
    ensures var t := Final(s, CallSteps(id, token, Extend));
      && t.key.value == Some(token) && t.log == s.log
      && t.calls == s.calls && t.extended == s.extended + [(token, token)]
  {
    HolderMatches(s, id, token, Delete);
    HolderMatches(s, id, token, Extend);
    ThreeSteps(s, Watch(id, token, Delete), Get(id), Exec(id));
    ThreeSteps(s, Watch(id, token, Extend), Get(id), Exec(id));
  }

  lemma HolderMatches(s: State, id: nat, token: nat, kind: Kind)
    requires s.key.value == Some(token) && token in s.issued && id !in s.calls
    ensures Enabled(s, Watch(id, token, kind)) && Enabled(Apply(s, Watch(id, token, kind)), Get(id))
    ensures var t := Apply(Apply(s, Watch(id, token, kind)), Get(id));
      && t == s.(calls := s.calls[id := Call(token, kind, Matched(s.key.version))])
      && Enabled(t, Exec(id)) && t.calls - {id} == s.calls
  {
  }

  /** A call that does not find its own token ends there, and one whose key was touched ends without effect. */
  lemma OthersFail(s: State, id: nat)
    requires id in s.calls
    ensures s.calls[id].stage.Watched? && s.key.value != Some(s.calls[id].token) ==>
      Apply(s, Get(id)) == s.(calls := s.calls - {id})
    ensures s.calls[id].stage.Matched? && s.key.version != s.calls[id].stage.at ==>
      Apply(s, Exec(id)) == s.(calls := s.calls - {id})
  {
  }

  /** A fresh token is granted exactly if the key is free; expiries and forced deletes end the present grant. */
  lemma GrantsAndEnds(s: State, token: nat, noticed: bool)
    requires token !in s.issued
    ensures var t := Apply(s, Acquire(token));
      if s.key.value.None? then t.key.value == Some(token) && t.log == s.log + [Granted(token)]
      else t.key == s.key && t.log == s.log
    ensures Apply(s, Expire(noticed)).key.value == None && Apply(s, ForceDel).key.value == None
    ensures s.key.value.Some? ==>
      && Apply(s, Expire(noticed)).log == s.log + [Ended(s.key.value.value, Expired)]
      && Apply(s, ForceDel).log == s.log + [Ended(s.key.value.value, Forced)]
  {
  }
}
