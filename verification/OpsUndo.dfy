/** Operations plans: executed action by action with snapshots, undone in reverse. */
module OpsUndo {
  import W = WorkerControl
  import opened RuntimeConfig
  import opened Wrappers

  datatype World = World(control: W.State, config: Config)

  /**
   The fields of an action that the executor reads; `hid` is None when it cannot be parsed. `stored`
   and `restored` say whether the database takes the save of the action and that of its rollback.
   */
  datatype Action =
    | PauseChannel(hid: Option<int>)
    | ResumeChannel(hid: Option<int>)
    | AdjustWorkers(hid: Option<int>, delta: int)
    | EnableDlqAutoRetry(hid: Option<int>, enabled: bool, minAge: int, stored: bool, restored: bool)
    | Other

  datatype Snapshot =
    | WasPaused(hid: int, paused: bool)
    | WasResumed(hid: int)
    | HadWorkers(hid: int, workers: int)
    | HadConfig(hid: int, config: Payload, restored: bool)

  /** What the model does not define: the clock, and the worker limits when no layer sets them. */
  datatype Env = Env(now: int, fallback: W.Settings)

  function IntPtr(v: int): Option<int> {
    if v == 0 then None else Some(v)
  }

  /** getEffectiveQueueForHID. */
  function QueueSettings(eff: Payload, fallback: W.Settings): (s: W.Settings)
    ensures s.Positive()
  {
    var q := Or(eff.queue, NO_QUEUE);
    var min, max := Or(q.minWorkers, fallback.min), Or(q.maxWorkers, fallback.max);
    var step := Or(q.scaleStep, fallback.step);
    W.Settings(if min <= 0 then 1 else min, if max <= 0 then 8 else max, if step <= 0 then 100 else step)
  }

  function SettingsOf(w: World, hid: int, env: Env): W.Settings {
    QueueSettings(Effective(w.config, hid), env.fallback)
  }

  function DlqPatch(enabled: bool, minAge: int): Payload {
    EMPTY.(resubmit := Some(NO_RESUBMIT.(dlq := Some(Dlq(Some(enabled), Some(30), Some(50), IntPtr(minAge))))))
  }

  /** Channel zero and below stand for the global configuration. */
  function Target(a: Action): int
    requires a.EnableDlqAutoRetry?
  {
    if a.hid.Some? then a.hid.value else 0
  }

  function SaveFor(c: Config, hid: int, payload: Payload): Config {
    if hid > 0 then SaveHid(c, hid, payload, true).0 else SaveGlobal(c, payload)
  }

  /** executeOpsAction in a running engine, with the snapshot it keeps. */
  function Execute(w: World, a: Action, env: Env): (World, Option<Snapshot>) {
    match a
    case PauseChannel(hid) =>
      if hid.None? then (w, None)
      else
        var (st, ok) := W.Pause(w.control, hid.value, env.now, true);
        (w.(control := if ok then st.(stable := st.stable - {hid.value}) else st),
         Some(WasPaused(hid.value, hid.value in w.control.pausedAt)))
    case ResumeChannel(hid) =>
      if hid.None? then (w, None)
      else
        (w.(control := W.Resume(w.control, hid.value, true, SettingsOf(w, hid.value, env)).0),
         Some(WasResumed(hid.value)))
    case AdjustWorkers(hid, delta) =>
      if hid.None? then (w, None)
      else
        (w.(control := W.Adjust(w.control, hid.value, delta, true, SettingsOf(w, hid.value, env)).0),
         Some(HadWorkers(hid.value, W.Curr(w.control, hid.value))))
    case EnableDlqAutoRetry(_, enabled, minAge, stored, restored) =>
      var hid := Target(a);
      (w.(config := if stored then SaveFor(w.config, hid, DlqPatch(enabled, minAge)) else w.config),
       Some(HadConfig(hid, Effective(w.config, if hid > 0 then hid else 0), restored)))
    case Other => (w, None)
  }

  /** rollbackOpsSnapshot, for one snapshot. */
  function Rollback(w: World, item: Snapshot, env: Env): World {
    match item
    case WasPaused(hid, paused) =>
      if paused then w.(control := W.Pause(w.control, hid, env.now, true).0)
      else w.(control := W.Resume(w.control, hid, true, SettingsOf(w, hid, env)).0)
    case WasResumed(_) => w
    case HadWorkers(hid, workers) =>
      w.(control := W.Adjust(w.control, hid, workers - W.Curr(w.control, hid), true, SettingsOf(w, hid, env)).0)
    case HadConfig(hid, config, restored) =>
      if restored then w.(config := SaveFor(w.config, hid, config)) else w
  }

  function ExecuteAll(w: World, plan: seq<Action>, env: Env): (World, seq<Snapshot>)
    decreases |plan|
  {
    if plan == [] then (w, [])
    else
      var (next, item) := Execute(w, plan[0], env);
      var (end, items) := ExecuteAll(next, plan[1..], env);
      (end, (if item.Some? then [item.value] else []) + items)
  }

  /** The last snapshot is undone first. */
  function RollbackAll(w: World, items: seq<Snapshot>, env: Env): World
    decreases |items|
  {
    if items == [] then w else Rollback(RollbackAll(w, items[1..], env), items[0], env)
  }

  function Undo(w: World, plan: seq<Action>, env: Env): World {
    var (end, items) := ExecuteAll(w, plan, env);
    RollbackAll(end, items, env)
  }

  class Executor {
    const control: W.Control
    const config: ConfigStore

    function View(): World
      reads control, config
    {
      World(control.View(), config.View())
    }

    constructor (control: W.Control, config: ConfigStore)
      ensures this.control == control && this.config == config
    {
      this.control, this.config := control, config;
    }

    method ExecuteOpsAction(a: Action, env: Env) returns (item: Option<Snapshot>)
      modifies control, config
      ensures (View(), item) == Execute(old(View()), a, env)
    {
      item := None;
      match a {
        case PauseChannel(hid) =>
          if hid.Some? {
            item := Some(WasPaused(hid.value, hid.value in control.opsPausedAt));
            var ok := control.OpsPauseChannel(hid.value, env.now, true);
            if ok {
              control.opsResumeStableCount := control.opsResumeStableCount - {hid.value};
            }
          }
        case ResumeChannel(hid) =>
          if hid.Some? {
            item := Some(WasResumed(hid.value));
            var eff := config.GetEffectiveMergedConfig(hid.value);
            var ok := control.OpsResumeChannel(hid.value, true, QueueSettings(eff, env.fallback));
          }
        case AdjustWorkers(hid, delta) =>
          if hid.Some? {
            item := Some(HadWorkers(hid.value, W.Curr(control.View(), hid.value)));
            var eff := config.GetEffectiveMergedConfig(hid.value);
            var ok := control.OpsAdjustWorkers(hid.value, delta, true, QueueSettings(eff, env.fallback));
          }
        case EnableDlqAutoRetry(_, enabled, minAge, stored, restored) =>
          var hid := Target(a);
          var before := config.GetEffectiveMergedConfig(if hid > 0 then hid else 0);
          item := Some(HadConfig(hid, before, restored));
          Save(hid, DlqPatch(enabled, minAge), stored);
        case Other =>
      }
    }

    method Save(hid: int, payload: Payload, stored: bool)
      modifies config
      ensures config.View() == if stored then SaveFor(old(config.View()), hid, payload) else old(config.View())
    {
      if hid > 0 {
        var ok := config.SaveRuntimeHidConfig(hid, payload, true, stored);
      } else {
        var ok := config.SaveRuntimeGlobalConfig(payload, stored);
      }
    }

    method ExecuteOpsActions(plan: seq<Action>, env: Env) returns (items: seq<Snapshot>)
      modifies control, config
      ensures (View(), items) == ExecuteAll(old(View()), plan, env)
    {
      items := [];
      ghost var start := View();
      assert plan[0..] == plan && [] + ExecuteAll(start, plan, env).1 == ExecuteAll(start, plan, env).1;
      for i := 0 to |plan|
        invariant var (end, more) := ExecuteAll(View(), plan[i..], env);
          ExecuteAll(start, plan, env) == (end, items + more)
      {
        assert plan[i..][0] == plan[i] && plan[i..][1..] == plan[i + 1..];
        ghost var more := ExecuteAll(Execute(View(), plan[i], env).0, plan[i + 1..], env).1;
        var item := ExecuteOpsAction(plan[i], env);
        if item.Some? {
          assert items + ([item.value] + more) == items + [item.value] + more;
          items := items + [item.value];
        } else {
          assert [] + more == more;
        }
      }
      assert ExecuteAll(View(), plan[|plan|..], env) == (View(), []) && items + [] == items;
    }

    method RollbackOne(item: Snapshot, env: Env)
      modifies control, config
      ensures View() == Rollback(old(View()), item, env)
    {
      match item {
        case WasPaused(hid, paused) =>
          if paused {
            var ok := control.OpsPauseChannel(hid, env.now, true);
          } else {
            var eff := config.GetEffectiveMergedConfig(hid);
            var ok := control.OpsResumeChannel(hid, true, QueueSettings(eff, env.fallback));
          }
        case WasResumed(_) =>
        case HadWorkers(hid, workers) =>
          var eff := config.GetEffectiveMergedConfig(hid);
          var curr := W.Curr(control.View(), hid);
          var ok := control.OpsAdjustWorkers(hid, workers - curr, true, QueueSettings(eff, env.fallback));
        case HadConfig(hid, before, restored) =>
          Save(hid, before, restored);
      }
    }

    method RollbackOpsSnapshot(items: seq<Snapshot>, env: Env)
      modifies control, config
      ensures View() == RollbackAll(old(View()), items, env)
    {
      ghost var start := View();
      var i := |items|;
      while i > 0
        invariant 0 <= i <= |items|
        invariant View() == RollbackAll(start, items[i..], env)
      {
        i := i - 1;
        assert items[i..][0] == items[i] && items[i..][1..] == items[i + 1..];
        RollbackOne(items[i], env);
      }
      assert items[0..] == items;
    }
  }

  // Undoing from the front: the first action is executed first and undone last.

  function RollbackIf(w: World, item: Option<Snapshot>, env: Env): World {
    if item.Some? then Rollback(w, item.value, env) else w
  }

  lemma UndoUnfolds(w: World, plan: seq<Action>, env: Env)
    requires plan != []
    ensures var (next, item) := Execute(w, plan[0], env);
      Undo(w, plan, env) == RollbackIf(Undo(next, plan[1..], env), item, env)
  {
    var (next, item) := Execute(w, plan[0], env);
    var (end, items) := ExecuteAll(next, plan[1..], env);
    if item.Some? {
      assert ([item.value] + items)[1..] == items;
    } else {
      assert [] + items == items;
    }
  }

  // The configuration.

  /** The global override whose effect the rollback leaves: that at the first global save it takes back. */
  function GlobalAfter(global: Option<Payload>, plan: seq<Action>): Option<Payload>
    decreases |plan|
  {
    if plan == [] then global
    else
      var a := plan[0];
      if !a.EnableDlqAutoRetry? || Target(a) > 0 then GlobalAfter(global, plan[1..])
      else if a.restored then global
      else GlobalAfter(Stored(a, global), plan[1..])
  }

  /** An override after the save of an action. */
  function Stored(a: Action, before: Option<Payload>): Option<Payload>
    requires a.EnableDlqAutoRetry?
  {
    if a.stored then Some(DlqPatch(a.enabled, a.minAge)) else before
  }

  /**
   The channel's own layer after the rollback: what took effect for it at its first save that is taken
   back, or what the plan has left as its override.
   */
  function OverrideAfter(
    defaults: Payload, global: Option<Payload>, own: Option<Payload>, plan: seq<Action>, hid: int): Payload
    decreases |plan|
  {
    if plan == [] then Or(own, EMPTY)
    else
      var a, rest := plan[0], plan[1..];
      if !a.EnableDlqAutoRetry? then OverrideAfter(defaults, global, own, rest, hid)
      else if Target(a) == hid then
        if a.restored then Layer(Layer(defaults, global), own)
        else OverrideAfter(defaults, global, Stored(a, own), rest, hid)
      else if Target(a) <= 0 then OverrideAfter(defaults, Stored(a, global), own, rest, hid)
      else OverrideAfter(defaults, global, own, rest, hid)
  }

  /** The layers of base and channel that a rollback leaves. */
  ghost predicate Leaves(c: Config, u: Config, plan: seq<Action>, hid: int) {
    && u.defaults == c.defaults
    && Base(u) == Layer(c.defaults, GlobalAfter(c.global, plan))
    && Or(Override(u, hid), EMPTY) == OverrideAfter(c.defaults, c.global, Override(c, hid), plan, hid)
  }

  lemma {:induction false} ConfigSurvives(w: World, plan: seq<Action>, env: Env, hid: int)
    requires hid > 0
    ensures Leaves(w.config, Undo(w, plan, env).config, plan, hid)
    decreases |plan|
  {
    if plan != [] {
      var a := plan[0];
      var (next, item) := Execute(w, a, env);
      UndoUnfolds(w, plan, env);
      ConfigSurvives(next, plan[1..], env, hid);
      if a.EnableDlqAutoRetry? {
        SaveLeavesBehind(w, a, plan, env, hid);
      }
    }
  }

  lemma SaveLeavesBehind(w: World, a: Action, plan: seq<Action>, env: Env, hid: int)
    requires hid > 0 && plan != [] && plan[0] == a && a.EnableDlqAutoRetry?
    requires var next := Execute(w, a, env).0; Leaves(next.config, Undo(next, plan[1..], env).config, plan[1..], hid)
    ensures Leaves(w.config, Undo(w, plan, env).config, plan, hid)
  {
    UndoUnfolds(w, plan, env);
    var (next, item) := Execute(w, a, env);
    var rest := Undo(next, plan[1..], env).config;
    if Target(a) > 0 {
      assert Base(next.config) == Base(w.config);
      assert item == Some(HadConfig(Target(a), Effective(w.config, Target(a)), a.restored));
    } else {
      assert item == Some(HadConfig(Target(a), Base(w.config), a.restored));
      SavedBaseIsBase(w.config, rest);
    }
  }

  /** Saving the base layer as the global override leaves the base layer as it is. */
  lemma SavedBaseIsBase(c: Config, later: Config)
    requires later.defaults == c.defaults
    ensures Base(SaveGlobal(later, Base(c))) == Base(c)
  {
    MergeIdempotent(c.defaults);
    if c.global.Some? {
      MergeAbsorbs(c.defaults, c.global.value);
    }
  }

  /**
  The effective configurations after a rollback, for every plan and whatever saves the database
  refuses: the layers that the first saves taken back have found, or else the plan has left.
  */
  lemma UndoneConfig(w: World, plan: seq<Action>, env: Env, hid: int)
    ensures var c, u := w.config, Undo(w, plan, env).config;
      var base := Layer(c.defaults, GlobalAfter(c.global, plan));
      && (hid <= 0 ==> Effective(u, hid) == base)
      && (hid > 0 ==>
            Effective(u, hid) == Merge(base, OverrideAfter(c.defaults, c.global, Override(c, hid), plan, hid)))
  {
    var u := Undo(w, plan, env).config;
    ConfigSurvives(w, plan, env, if hid > 0 then hid else 1);
    MergeIdentity(Base(u));
  }

  /** The database takes every save of the rollback. */
  predicate AllTakenBack(plan: seq<Action>) {
    forall a | a in plan :: a.EnableDlqAutoRetry? ==> a.restored
  }

  /** The global override in force when the plan first saves an override for the channel, if it does. */
  function GlobalAtFirstSave(global: Option<Payload>, plan: seq<Action>, hid: int): Option<Option<Payload>>
    decreases |plan|
  {
    if plan == [] then None
    else
      var a := plan[0];
      if !a.EnableDlqAutoRetry? then GlobalAtFirstSave(global, plan[1..], hid)
      else if Target(a) == hid then Some(global)
      else if Target(a) <= 0 then GlobalAtFirstSave(Stored(a, global), plan[1..], hid)
      else GlobalAtFirstSave(global, plan[1..], hid)
  }

  lemma {:induction false} TakenBack(c: Config, global: Option<Payload>, plan: seq<Action>, hid: int)
    requires AllTakenBack(plan) && hid > 0
    ensures GlobalAfter(global, plan) == global
    ensures OverrideAfter(c.defaults, global, Override(c, hid), plan, hid) ==
      var g := GlobalAtFirstSave(global, plan, hid);
      if g.Some? then Layer(Layer(c.defaults, g.value), Override(c, hid)) else Or(Override(c, hid), EMPTY)
    decreases |plan|
  {
    if plan != [] {
      var a := plan[0];
      assert a in plan && forall x | x in plan[1..] :: x in plan;
      TakenBack(c, global, plan[1..], hid);
      if a.EnableDlqAutoRetry? && Target(a) <= 0 {
        TakenBack(c, Stored(a, global), plan[1..], hid);
      }
    }
  }

  /**
  If the database takes the rollback's saves, a rollback restores the global configuration, and that
  of a channel if and only if the plan does not save for it, or what it saves for it first starts
  from a configuration that the old one absorbs. That is so if no stored global save comes before.
  */
  lemma UndoRestoresConfig(w: World, plan: seq<Action>, env: Env, hid: int)
    requires AllTakenBack(plan)
    ensures var c, u := w.config, Undo(w, plan, env).config;
      var g := GlobalAtFirstSave(c.global, plan, hid);
      && (hid <= 0 ==> Effective(u, hid) == Effective(c, hid))
      && (hid > 0 ==>
            (Effective(u, hid) == Effective(c, hid) <==>
              (g.None? || Merge(Base(c), Layer(Layer(c.defaults, g.value), Override(c, hid))) == Effective(c, hid)))
            && (g == Some(c.global) ==> Effective(u, hid) == Effective(c, hid)))
  {
    var c := w.config;
    UndoneConfig(w, plan, env, hid);
    TakenBack(c, c.global, plan, if hid > 0 then hid else 1);
    MergeIdentity(Base(c));
    MergeIdempotent(Base(c));
    if Override(c, hid).Some? {
      MergeAbsorbs(Base(c), Override(c, hid).value);
    }
  }

  /** No action for a channel comes after a stored global one. */
  predicate ChannelsFirst(plan: seq<Action>)
    decreases |plan|
  {
    plan == [] || (
      ChannelsFirst(plan[1..]) &&
      (plan[0].EnableDlqAutoRetry? && Target(plan[0]) <= 0 && plan[0].stored ==>
         forall i | 0 < i < |plan| :: plan[i].EnableDlqAutoRetry? ==> Target(plan[i]) <= 0))
  }

  lemma {:induction false} ChannelsFirstSavesEarly(global: Option<Payload>, plan: seq<Action>, hid: int)
    requires ChannelsFirst(plan) && hid > 0
    ensures GlobalAtFirstSave(global, plan, hid).None? || GlobalAtFirstSave(global, plan, hid) == Some(global)
    decreases |plan|
  {
    if plan != [] {
      var a := plan[0];
      if a.EnableDlqAutoRetry? && Target(a) <= 0 && a.stored {
        assert forall i | 0 <= i < |plan[1..]| :: plan[1..][i] == plan[i + 1];
        NoSaves(Some(DlqPatch(a.enabled, a.minAge)), plan[1..], hid);
      } else {
        ChannelsFirstSavesEarly(global, plan[1..], hid);
      }
    }
  }

  lemma {:induction false} NoSaves(global: Option<Payload>, plan: seq<Action>, hid: int)
    requires hid > 0
    requires forall i | 0 <= i < |plan| :: plan[i].EnableDlqAutoRetry? ==> Target(plan[i]) <= 0
    ensures GlobalAtFirstSave(global, plan, hid).None?
    decreases |plan|
  {
    if plan != [] {
      var a := plan[0];
      NoSaves(if a.EnableDlqAutoRetry? then Stored(a, global) else global, plan[1..], hid);
      NoSaves(global, plan[1..], hid);
    }
  }

  /** Every plan that saves for channels before it saves globally is undone, whatever else it does. */
  lemma ChannelsFirstIsUndone(w: World, plan: seq<Action>, env: Env, hid: int)
    requires ChannelsFirst(plan) && AllTakenBack(plan)
    ensures Effective(Undo(w, plan, env).config, hid) == Effective(w.config, hid)
  {
    UndoRestoresConfig(w, plan, env, hid);
    if hid > 0 {
      ChannelsFirstSavesEarly(w.config.global, plan, hid);
    }
  }

  /** A global save followed by one for a channel is not undone: the channel keeps the global values. */
  lemma GlobalThenChannelIsNotUndone(env: Env)
    ensures var w := World(W.INIT, Config(EMPTY, None, map[]));
      var plan := [EnableDlqAutoRetry(None, true, 30, true, true), EnableDlqAutoRetry(Some(1), true, 30, true, true)];
      Effective(Undo(w, plan, env).config, 1) != Effective(w.config, 1)
  {
    var w := World(W.INIT, Config(EMPTY, None, map[]));
    var plan := [EnableDlqAutoRetry(None, true, 30, true, true), EnableDlqAutoRetry(Some(1), true, 30, true, true)];
    UndoRestoresConfig(w, plan, env, 1);
    assert Target(plan[0]) == 0 && Target(plan[1]) == 1;
    assert plan[1..][0] == plan[1];
    assert GlobalAtFirstSave(Some(DlqPatch(true, 30)), plan[1..], 1) == Some(Some(DlqPatch(true, 30)));
    assert GlobalAtFirstSave(None, plan, 1) == Some(Some(DlqPatch(true, 30)));
  }

  // The paused channels.

  predicate IsPaused(w: World, hid: int) {
    hid in w.control.pausedAt
  }

  /** Of the plan's pauses and resumptions of the channel, the first is a resumption. */
  predicate ResumesFirst(plan: seq<Action>, hid: int)
    decreases |plan|
  {
    plan != [] &&
    (plan[0] == ResumeChannel(Some(hid)) ||
     (plan[0] != PauseChannel(Some(hid)) && ResumesFirst(plan[1..], hid)))
  }

  lemma ExecutePauses(w: World, a: Action, env: Env, hid: int)
    ensures var next := Execute(w, a, env).0;
      && next.control.hids == w.control.hids
      && (IsPaused(next, hid) <==>
          if a == PauseChannel(Some(hid)) && hid in w.control.hids then true
          else if a == ResumeChannel(Some(hid)) && hid in w.control.hids then false
          else IsPaused(w, hid))
  {
  }

  lemma RollbackPauses(w: World, item: Snapshot, env: Env, hid: int)
    ensures var next := Rollback(w, item, env);
      && next.control.hids == w.control.hids
      && (IsPaused(next, hid) <==>
          if item.WasPaused? && item.hid == hid && hid in w.control.hids then item.paused else IsPaused(w, hid))
  {
  }

  /**
  A rollback restores whether a channel is paused if and only if it was not paused, or is not
  known to the engine, or the plan does not resume it before it pauses it.
  */
  lemma {:induction false} UndoRestoresPaused(w: World, plan: seq<Action>, env: Env, hid: int)
    ensures var u := Undo(w, plan, env);
      && u.control.hids == w.control.hids
      && (IsPaused(u, hid) == IsPaused(w, hid) <==>
          !(IsPaused(w, hid) && hid in w.control.hids && ResumesFirst(plan, hid)))
    decreases |plan|
  {
    if plan != [] {
      var a := plan[0];
      var (next, item) := Execute(w, a, env);
      UndoUnfolds(w, plan, env);
      UndoRestoresPaused(next, plan[1..], env, hid);
      ExecutePauses(w, a, env, hid);
      if item.Some? {
        RollbackPauses(Undo(next, plan[1..], env), item.value, env, hid);
      }
    }
  }

  // The counter of consumers.

  /**
  An adjustment is undone if it moved nothing, or moved the counter from within the bound that
  the way back stops at; otherwise the counter stays at that bound, or where the adjustment left it.
  */
  lemma UndoRestoresWorkers(w: World, hid: int, delta: int, env: Env)
    requires W.Valid(w.control) && !IsPaused(w, hid)
    ensures var s, before := SettingsOf(w, hid, env), W.Curr(w.control, hid);
      var after := W.Curr(Execute(w, AdjustWorkers(Some(hid), delta), env).0.control, hid);
      var undone := W.Curr(Undo(w, [AdjustWorkers(Some(hid), delta)], env).control, hid);
      && (undone == before <==>
            (after == before || (after > before && before >= s.min) || (after < before && before <= s.max)))
      && (after > before && before < s.min ==> undone == W.Min(after, s.min))
      && (after < before && before > s.max ==> undone == W.Max(after, s.max))
  {
    var a := AdjustWorkers(Some(hid), delta);
    var (next, item) := Execute(w, a, env);
    var s, before, after := SettingsOf(w, hid, env), W.Curr(w.control, hid), W.Curr(next.control, hid);
    assert [a][1..] == [];
    UndoUnfolds(w, [a], env);
    W.AdjustMovesByFour(w.control, hid, delta, s);
    assert !IsPaused(next, hid) && after == W.Adjusted(before, delta, s);
    W.AdjustMovesByFour(next.control, hid, before - after, s);
    assert W.Curr(Undo(w, [a], env).control, hid) == W.Adjusted(after, before - after, s);
    AdjustedBack(before, delta, s);
  }

  lemma AdjustedBack(before: int, delta: int, s: W.Settings)
    ensures var after := W.Adjusted(before, delta, s);
      var undone := W.Adjusted(after, before - after, s);
      && (after == before ==> undone == before)
      && (after > before ==> undone == if before >= s.min then before else W.Min(after, s.min))
      && (after < before ==> undone == if before <= s.max then before else W.Max(after, s.max))
  {
  }

  // What actions write and read.

  /** A dead-letter action sets its switch, half an hour between scans, fifty per scan, and an age unless it is 0. */
  lemma DlqPatchCarries(enabled: bool, minAge: int)
    ensures var p := DlqPatch(enabled, minAge);
      && p.queue == None && p.orderStatus == None && p.rateLimit == None && p.submitTimeout == None
      && p.resubmit.Some? && p.resubmit.value.dlq.Some?
      && p.resubmit.value.(dlq := None) == NO_RESUBMIT
      && var d := p.resubmit.value.dlq.value;
         && d.enabled == Some(enabled) && d.scanInterval == Some(30) && d.maxPerScan == Some(50)
         && (minAge != 0 ==> d.minAge == Some(minAge)) && (minAge == 0 ==> d.minAge == None)
  {
  }

  /** After a stored action its switch and age are in force for the channel, or for channels without overrides. */
  lemma DlqActionTakesEffect(w: World, hid: Option<int>, enabled: bool, minAge: int, env: Env, h: int)
    requires if hid.Some? && hid.value > 0 then h == hid.value else Override(w.config, h) == None
    ensures var next := Execute(w, EnableDlqAutoRetry(hid, enabled, minAge, true, true), env).0;
      var eff := Effective(next.config, h);
      && eff.resubmit.Some? && eff.resubmit.value.dlq.Some?
      && eff.resubmit.value.dlq.value.enabled == Some(enabled)
      && (minAge != 0 ==> eff.resubmit.value.dlq.value.minAge == Some(minAge))
  {
  }

  /** A limit that the layers set above zero is used as it is; one set to zero or below counts as 1, 8 or 100. */
  lemma LimitsAreRead(eff: Payload, fallback: W.Settings, q: Queue)
    requires eff.queue == Some(q)
    ensures var s := QueueSettings(eff, fallback);
      && (q.minWorkers.Some? ==> s.min == if q.minWorkers.value > 0 then q.minWorkers.value else 1)
      && (q.maxWorkers.Some? ==> s.max == if q.maxWorkers.value > 0 then q.maxWorkers.value else 8)
      && (q.scaleStep.Some? ==> s.step == if q.scaleStep.value > 0 then q.scaleStep.value else 100)
      && (q.minWorkers.None? ==> s.min == if fallback.min > 0 then fallback.min else 1)
      && (q.maxWorkers.None? ==> s.max == if fallback.max > 0 then fallback.max else 8)
      && (q.scaleStep.None? ==> s.step == if fallback.step > 0 then fallback.step else 100)
    ensures QueueSettings(eff.(queue := None), fallback) == QueueSettings(eff.(queue := Some(NO_QUEUE)), fallback)
  {
  }

  /** Actions without a channel and unknown actions leave the world alone and keep no snapshot. */
  lemma NothingToDo(w: World, a: Action, env: Env)
    requires a.Other? || (!a.EnableDlqAutoRetry? && a.hid.None?)
    ensures Execute(w, a, env) == (w, None)
  {
  }

  /** Actions on a channel are control steps with the channel's settings, and remember what they found. */
  lemma ActionsAreSteps(w: World, hid: int, delta: int, env: Env)
    ensures Execute(w, PauseChannel(Some(hid)), env) ==
      (w.(control := W.Apply(w.control, W.PauseStep(hid, env.now, true, true))), Some(WasPaused(hid, IsPaused(w, hid))))
    ensures Execute(w, ResumeChannel(Some(hid)), env) ==
      (w.(control := W.Apply(w.control, W.ResumeStep(hid, true, SettingsOf(w, hid, env)))), Some(WasResumed(hid)))
    ensures Execute(w, AdjustWorkers(Some(hid), delta), env) ==
      (w.(control := W.Apply(w.control, W.AdjustStep(hid, delta, true, SettingsOf(w, hid, env)))),
       Some(HadWorkers(hid, W.Curr(w.control, hid))))
  {
  }

  /** Taking an action on a channel back is a control step as well, or nothing after a resumption. */
  lemma RollbacksAreSteps(w: World, hid: int, workers: int, env: Env)
    ensures Rollback(w, WasPaused(hid, true), env) ==
      w.(control := W.Apply(w.control, W.PauseStep(hid, env.now, true, false)))
    ensures Rollback(w, WasPaused(hid, false), env) ==
      w.(control := W.Apply(w.control, W.ResumeStep(hid, true, SettingsOf(w, hid, env))))
    ensures Rollback(w, WasResumed(hid), env) == w
    ensures Rollback(w, HadWorkers(hid, workers), env) ==
      w.(control := W.Apply(w.control,
           W.AdjustStep(hid, workers - W.Curr(w.control, hid), true, SettingsOf(w, hid, env))))
  {
  }

  /** A save of the plane writes one layer; nothing at all takes a channel's override away. */
  lemma SavesOneLayer(c: Config, hid: int, payload: Payload)
    ensures var next := SaveFor(c, hid, payload);
      && next.defaults == c.defaults
      && (hid <= 0 ==> next.global == Some(payload) && next.overrides == c.overrides)
      && (hid > 0 ==>
            && next.global == c.global
            && next.overrides == if payload == EMPTY then c.overrides - {hid} else c.overrides[hid := payload])
  {
  }
}
