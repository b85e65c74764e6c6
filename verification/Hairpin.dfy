/** The ConnectX hairpin setting: the rule that infers from counters whether the required
    values are in use, the device behaviour it relies on, and the steps planned from it. */
module Hairpin {
  import opened Wrappers

  datatype Settings = Settings(queues: nat, size: nat)

  const REQUIRED := Settings(4, 8192)

  /** Hardware TC offload as `ethtool -k` shows it. */
  datatype Offload = On | Off | Fixed

  datatype State = InEffect | OffloadOff | Pending | Default | Failed | Unknown

  /** What can be read of a function; anything may be unreadable. */
  datatype Reading = Reading(
    queues: Option<nat>,
    size: Option<nat>,
    reloads: Option<nat>,
    failed: Option<bool>,
    offload: Option<Offload>)

  function FunctionState(r: Reading): State {
    if r.queues.None? || r.size.None? || r.reloads.None? || r.failed.None? || r.offload.None? then Unknown
    else if Settings(r.queues.value, r.size.value) != REQUIRED then Default
    else if r.failed.value then Failed
    else if r.reloads.value < 1 then Pending
    else if r.offload.value != On then OffloadOff
    else InEffect
  }

  /** The setting is reported as in effect exactly for four queues of size 8192, a successful
      restart counted, none failed, and hardware offload on. */
  lemma InEffectExactly(r: Reading)
    ensures FunctionState(r) == InEffect
       <==> && r.queues == Some(4) && r.size == Some(8192) && r.failed == Some(false) && r.offload == Some(On)
            && r.reloads.Some? && r.reloads.value >= 1
  {
  }

  /** The states whose remedy includes a driver restart. */
  predicate NeedsRestart(s: State) {
    s == Default || s == Pending || s == Failed
  }

  // ---- the device ----

  /** `shown` is what `param show` reports, `applied` what the hardware uses; only the
      former can be read. `reloads` counts successful restarts since the last probe. */
  datatype Device = Device(shown: Settings, applied: Settings, reloads: nat, failed: bool, offload: Offload)

  datatype Parameter = Queues | Size

  /** Everything that can happen to a function. */
  datatype Step =
    | Probed(defaults: Settings, offload: Offload)
    | Set(parameter: Parameter, value: nat)
    | ReloadDone
    | ReloadFailed
    | RemoteReload  // a restart started by another function
    | Switched(on: bool)

  function With(s: Settings, parameter: Parameter, value: nat): Settings {
    match parameter
    case Queues => s.(queues := value)
    case Size => s.(size := value)
  }

  function ValueOf(s: Settings, parameter: Parameter): nat {
    match parameter
    case Queues => s.queues
    case Size => s.size
  }

  function Take(d: Device, s: Step): Device {
    match s
    case Probed(defaults, offload) => Device(defaults, defaults, 0, false, offload)
    case Set(parameter, value) => d.(shown := With(d.shown, parameter, value))
    case ReloadDone => d.(applied := d.shown, reloads := d.reloads + 1, failed := false)
    case ReloadFailed => d.(failed := true)
    case RemoteReload => d
    case Switched(on) => d.(offload := if d.offload == Fixed then Fixed else if on then On else Off)
  }

  function Run(d: Device, steps: seq<Step>): Device {
    if steps == [] then d
    else Take(Run(d, steps[..|steps| - 1]), steps[|steps| - 1])
  }

  lemma {:induction false} RunConcat(d: Device, a: seq<Step>, b: seq<Step>)
    ensures Run(d, a + b) == Run(Run(d, a), b)
  {
    if b == [] {
      assert a + b == a;
    } else {
      RunConcat(d, a, b[..|b| - 1]);
      assert (a + b)[..|a + b| - 1] == a + b[..|b| - 1];
    }
  }

  function Observe(d: Device): Reading {
    Reading(Some(d.shown.queues), Some(d.shown.size), Some(d.reloads), Some(d.failed), Some(d.offload))
  }

  predicate FreshlyProbed(d: Device) {
    d.shown == d.applied && d.reloads == 0 && !d.failed
  }

  /** Step `i` is the last successful restart since the driver last probed the function. */
  predicate IsLastReload(steps: seq<Step>, i: nat) {
    && i < |steps| && steps[i].ReloadDone?
    && forall j | i < j < |steps| :: !steps[j].ReloadDone? && !steps[j].Probed?
  }

  /** A positive counter points at a restart, and the values shown then are in use now. */
  lemma {:induction false} LastReload(d: Device, steps: seq<Step>) returns (i: nat)
    requires FreshlyProbed(d) && Run(d, steps).reloads >= 1
    ensures IsLastReload(steps, i) && Run(d, steps).applied == Run(d, steps[..i]).shown
  {
    var shorter := steps[..|steps| - 1];
    if steps[|steps| - 1].ReloadDone? {
      i := |steps| - 1;
    } else {
      i := LastReload(d, shorter);
      assert shorter[..i] == steps[..i];
    }
  }

  /** When the rule reports the setting as in effect, the required values are in use exactly
      when the last successful restart since the driver's probe happened while they were
      shown, and offload is on: over every run of probes, settings, restarts that succeed
      or fail, remote restarts and offload changes. */
  lemma InEffectSound(d: Device, steps: seq<Step>)
    requires FreshlyProbed(d) && FunctionState(Observe(Run(d, steps))) == InEffect
    ensures Run(d, steps).offload == On
    ensures Run(d, steps).applied == REQUIRED
       <==> forall i: nat | IsLastReload(steps, i) :: Run(d, steps[..i]).shown == REQUIRED
  {
    var i := LastReload(d, steps);
    forall j: nat | IsLastReload(steps, j) ensures j == i {
      var later := if i < j then j else i;
      assert steps[later].ReloadDone?;
    }
  }

  /** Without a successful restart the probe's defaults are still in use. */
  lemma {:induction false} UncountedIsDefault(d: Device, steps: seq<Step>)
    requires FreshlyProbed(d) && Run(d, steps).reloads == 0
    ensures || Run(d, steps).applied == d.applied
            || exists i :: 0 <= i < |steps| && steps[i].Probed? && steps[i].defaults == Run(d, steps).applied
  {
    if steps != [] {
      var last := |steps| - 1;
      if steps[last].Probed? {
        assert steps[last].defaults == Run(d, steps).applied;
      } else {
        UncountedIsDefault(d, steps[..last]);
      }
    }
  }

  /** `pending` is truthful as long as no probe defaults to the required values. */
  lemma PendingSound(d: Device, steps: seq<Step>)
    requires FreshlyProbed(d) && FunctionState(Observe(Run(d, steps))) == Pending
    requires d.applied != REQUIRED && forall i | 0 <= i < |steps| && steps[i].Probed? :: steps[i].defaults != REQUIRED
    ensures Run(d, steps).applied != REQUIRED
  {
    UncountedIsDefault(d, steps);
  }

  lemma Unroll(d: Device, s: seq<Step>)
    requires |s| <= 4
    ensures |s| == 0 ==> Run(d, s) == d
    ensures |s| == 1 ==> Run(d, s) == Take(d, s[0])
    ensures |s| == 2 ==> Run(d, s) == Take(Take(d, s[0]), s[1])
    ensures |s| == 3 ==> Run(d, s) == Take(Take(Take(d, s[0]), s[1]), s[2])
    ensures |s| == 4 ==> Run(d, s) == Take(Take(Take(Take(d, s[0]), s[1]), s[2]), s[3])
  {
    if |s| > 0 {
      Unroll(d, s[..|s| - 1]);
    }
  }

  /** The exception needs manual use: restart with another value, then show the required
      one again. */
  lemma ManualUseMisleads(d: Device, other: nat)
    requires FreshlyProbed(d) && d.shown == REQUIRED && d.offload == On && other != REQUIRED.size
    ensures var after := Run(d, [Set(Size, other), ReloadDone, Set(Size, REQUIRED.size)]);
            FunctionState(Observe(after)) == InEffect && after.applied != REQUIRED
  {
    var s := [Set(Size, other), ReloadDone, Set(Size, REQUIRED.size)];
    Unroll(d, s);
  }

  // ---- planned steps ----

  datatype Command = SetParameter(parameter: Parameter, value: nat) | Reload | SwitchOffload(on: bool)

  /** What a command that succeeds does. */
  function Effect(c: Command): Step {
    match c
    case SetParameter(parameter, value) => Set(parameter, value)
    case Reload => ReloadDone
    case SwitchOffload(on) => Switched(on)
  }

  function Effects(cs: seq<Command>): (steps: seq<Step>)
    ensures |steps| == |cs|
  {
    seq(|cs|, i requires 0 <= i < |cs| => Effect(cs[i]))
  }

  datatype DriverPlan = DriverPlan(apply: seq<Command>, rollback: seq<Command>, state: State)

  const PARAMETERS := [Queues, Size]

  /** The commands that turn differing parameters of `from` into those of `to`. */
  function Changes(from: Settings, to: Settings): seq<Command> {
    (if from.queues != to.queues then [SetParameter(Queues, to.queues)] else []) +
    (if from.size != to.size then [SetParameter(Size, to.size)] else [])
  }

  function ApplyFor(values: Settings, state: State, offload: Offload): seq<Command> {
    if state == Unknown then []
    else
      (if state == Default then Changes(values, REQUIRED) else []) +
      (if NeedsRestart(state) then [Reload] else []) +
      (if offload == Off then [SwitchOffload(true)] else [])
  }

  function RollbackFor(values: Settings, state: State, offload: Offload): seq<Command> {
    if state == Unknown then []
    else
      (if state == Default then Changes(REQUIRED, values) + [Reload] else []) +
      (if offload == Off then [SwitchOffload(false)] else [])
  }

  /** Steps and reverse steps for one function; none when its parameters or offload are
      not inventoried, or offload cannot be turned on. */
  method PlanDriver(r: Reading) returns (plan: Option<DriverPlan>)
    ensures plan.None? <==> r.queues.None? || r.size.None? || r.offload.None? || r.offload.value == Fixed
    ensures plan.Some? ==>
              var values := Settings(r.queues.value, r.size.value);
              plan.value == DriverPlan(ApplyFor(values, FunctionState(r), r.offload.value),
                                       RollbackFor(values, FunctionState(r), r.offload.value),
                                       FunctionState(r))
  {
    if r.queues.None? || r.size.None? || r.offload.None? || r.offload.value == Fixed {
      return None;
    }
    var values := Settings(r.queues.value, r.size.value);
    var state := FunctionState(r);
    var apply, rollback := [], [];
    if state == Unknown {
      return Some(DriverPlan(apply, rollback, state));
    }
    if state == Default {
      for k := 0 to |PARAMETERS|
        invariant k == 0 ==> apply == rollback == []
        invariant k == 1 ==> apply == Changes(values, Settings(REQUIRED.queues, values.size))
                             && rollback == Changes(Settings(REQUIRED.queues, values.size), values)
        invariant k == 2 ==> apply == Changes(values, REQUIRED) && rollback == Changes(REQUIRED, values)
      {
        var key := PARAMETERS[k];
        if ValueOf(values, key) != ValueOf(REQUIRED, key) {
          apply := apply + [SetParameter(key, ValueOf(REQUIRED, key))];
          rollback := rollback + [SetParameter(key, ValueOf(values, key))];
        }
      }
    }
    if NeedsRestart(state) {
      apply := apply + [Reload];
      if state == Default {
        rollback := rollback + [Reload];
      }
    }
    if r.offload.value == Off {
      apply := apply + [SwitchOffload(true)];
      rollback := rollback + [SwitchOffload(false)];
    }
    return Some(DriverPlan(apply, rollback, state));
  }

  function PlannedApply(d: Device): seq<Command> {
    ApplyFor(d.shown, FunctionState(Observe(d)), d.offload)
  }

  function PlannedRollback(d: Device): seq<Command> {
    RollbackFor(d.shown, FunctionState(Observe(d)), d.offload)
  }

  /** The first `n` commands took effect; if asked, the next one is a restart that failed. */
  function Interrupted(cs: seq<Command>, n: nat, failing: bool): seq<Step>
    requires n <= |cs|
  {
    Effects(cs[..n]) + if failing && n < |cs| && cs[n].Reload? then [ReloadFailed] else []
  }

  /** Counted restarts can be trusted: the last one applied the required values. */
  predicate Trusted(d: Device) {
    d.reloads >= 1 ==> d.applied == REQUIRED
  }

  // ---- what the planned steps keep and reach ----

  /** Between two settings: each parameter has its value from one or the other. */
  predicate Between(s: Settings, from: Settings, to: Settings) {
    (s.queues == from.queues || s.queues == to.queues) && (s.size == from.size || s.size == to.size)
  }

  lemma RunChanges(d: Device, from: Settings, to: Settings, n: nat)
    requires Between(d.shown, from, to) && n <= |Changes(from, to)|
    ensures var after := Run(d, Effects(Changes(from, to)[..n]));
            && after == d.(shown := after.shown) && Between(after.shown, from, to)
            && (n == |Changes(from, to)| ==> after.shown == to)
  {
    var cs := Changes(from, to);
    Unroll(d, Effects(cs[..n]));
    hide Run;
    assert n > 0 ==> Effects(cs[..n])[0] == Effect(cs[0]);
    assert n == 2 ==> Effects(cs[..n])[1] == Set(Size, to.size) && cs[0] == SetParameter(Queues, to.queues);
    assert |cs| == 1 ==> cs[0] == if from.queues != to.queues then SetParameter(Queues, to.queues) else SetParameter(Size, to.size);
  }

  lemma EffectsConcat(a: seq<Command>, b: seq<Command>)
    ensures Effects(a + b) == Effects(a) + Effects(b)
  {
  }

  /** What the planned commands after the changes of parameters are. */
  function Tail(d: Device): seq<Command> {
    Rest(NeedsRestart(FunctionState(Observe(d))), d.offload == Off, true)
  }

  function Head(d: Device): seq<Command> {
    if FunctionState(Observe(d)) == Default then Changes(d.shown, REQUIRED) else []
  }

  lemma HeadThenTail(d: Device)
    ensures PlannedApply(d) == Head(d) + Tail(d)
  {
  }

  /** Where an interruption leaves a function. */
  ghost predicate Reached(d: Device, after: Device) {
    && Between(after.shown, d.shown, REQUIRED)
    && ((after.applied == d.applied && after.reloads == d.reloads)
        || (NeedsRestart(FunctionState(Observe(d))) && after.applied == after.shown == REQUIRED))
    && (after.offload == d.offload || (d.offload == Off && after.offload == On))
  }

  lemma RunInterrupted(d: Device, n: nat, failing: bool)
    requires n <= |PlannedApply(d)|
    ensures Reached(d, Run(d, Interrupted(PlannedApply(d), n, failing)))
    ensures n == |PlannedApply(d)| && d.offload != Fixed ==>
              var after := Run(d, Interrupted(PlannedApply(d), n, failing));
              && FunctionState(Observe(after)) == InEffect
              && (NeedsRestart(FunctionState(Observe(d))) || Trusted(d) ==> after.applied == REQUIRED)
  {
    HeadThenTail(d);
    var cs, head := PlannedApply(d), Head(d);
    hide Run, PlannedApply;
    if n <= |head| && !(failing && n < |cs| && cs[n].Reload?) {
      assert cs[..n] == head[..n];
      assert Interrupted(cs, n, failing) == Effects(head[..n]);
      RunHead(d, n);
    } else {
      hide Interrupted;
      assert head[..|head|] == head;
      RunHead(d, |head|);
      RunTail(d, n, failing);
      RunRest(d.(shown := REQUIRED), NeedsRestart(FunctionState(Observe(d))), d.offload == Off, true, n - |head|, failing);
    }
  }

  lemma RunHead(d: Device, n: nat)
    requires n <= |Head(d)|
    ensures var after := Run(d, Effects(Head(d)[..n]));
            && after == d.(shown := after.shown) && Between(after.shown, d.shown, REQUIRED)
            && (n == |Head(d)| ==> after.shown == REQUIRED)
  {
    if FunctionState(Observe(d)) == Default {
      hide Run, Changes;
      RunChanges(d, d.shown, REQUIRED, n);
    } else {
      Unroll(d, []);
    }
  }

  lemma RunTail(d: Device, n: nat, failing: bool)
    requires |Head(d)| <= n <= |PlannedApply(d)| && PlannedApply(d) == Head(d) + Tail(d)
    ensures Run(d, Interrupted(PlannedApply(d), n, failing))
         == Run(Run(d, Effects(Head(d))), Interrupted(Tail(d), n - |Head(d)|, failing))
  {
    var cs, head, tail, m := PlannedApply(d), Head(d), Tail(d), n - |Head(d)|;
    hide PlannedApply, Head, Tail, Run;
    assert cs[..n] == head + tail[..m];
    EffectsConcat(head, tail[..m]);
    assert Interrupted(cs, n, failing) == Effects(head) + Interrupted(tail, m, failing);
    RunConcat(d, Effects(head), Interrupted(tail, m, failing));
  }

  /** A restart, if asked for, then an offload change, if asked for. */
  function Rest(reload: bool, switch: bool, on: bool): seq<Command> {
    (if reload then [Reload] else []) + (if switch then [SwitchOffload(on)] else [])
  }

  lemma RunRest(d: Device, reload: bool, switch: bool, on: bool, m: nat, failing: bool)
    requires m <= |Rest(reload, switch, on)| && (switch ==> d.offload != Fixed)
    ensures var after := Run(d, Interrupted(Rest(reload, switch, on), m, failing));
            && after.shown == d.shown
            && after.applied == (if reload && m > 0 then d.shown else d.applied)
            && after.reloads == d.reloads + (if reload && m > 0 then 1 else 0)
            && after.failed == (if reload then m == 0 && (failing || d.failed) else d.failed)
            && after.offload == (if switch && m == |Rest(reload, switch, on)| then (if on then On else Off) else d.offload)
  {
    var cs := Rest(reload, switch, on);
    Unroll(d, Interrupted(cs, m, failing));
    if m < |cs| && cs[m].Reload? {
      assert Interrupted(cs, m, failing) == if failing then [ReloadFailed] else [];
    } else {
      assert Interrupted(cs, m, failing) == Effects(cs[..m]);
    }
  }

  /** Interrupting the planned steps anywhere, even by a restart that fails, keeps the
      counter trustworthy, so `in-effect` is never reported wrongly afterwards. */
  lemma PlanKeepsTrust(d: Device, n: nat, failing: bool)
    requires Trusted(d) && n <= |PlannedApply(d)|
    ensures var after := Run(d, Interrupted(PlannedApply(d), n, failing));
            Trusted(after) && (FunctionState(Observe(after)) == InEffect ==> after.applied == REQUIRED)
  {
    RunInterrupted(d, n, failing);
  }

  /** All the planned steps together bring the setting into effect, and really so if a
      restart was planned or the counter could be trusted. */
  lemma PlanReachesEffect(d: Device)
    requires d.offload != Fixed
    ensures var after := Run(d, Effects(PlannedApply(d)));
            && FunctionState(Observe(after)) == InEffect && after.shown == Settings(4, 8192)
            && (NeedsRestart(FunctionState(Observe(d))) || Trusted(d) ==> after.applied == Settings(4, 8192))
  {
    var cs := PlannedApply(d);
    RunInterrupted(d, |cs|, false);
    assert cs[..|cs|] == cs;
    assert Interrupted(cs, |cs|, false) == Effects(cs);
  }

  predicate SameSetting(d: Device, e: Device) {
    d.shown == e.shown && d.applied == e.applied && d.offload == e.offload
  }

  predicate Restorable(d: Device) {
    d.shown == d.applied || !NeedsRestart(FunctionState(Observe(d)))
  }

  function RolledBack(d: Device, n: nat, failing: bool): Device
    requires n <= |PlannedApply(d)|
  {
    Run(Run(d, Interrupted(PlannedApply(d), n, failing)), Effects(PlannedRollback(d)))
  }

  lemma SplitRollback(d: Device, after: Device, changes: seq<Command>, tail: seq<Command>)
    requires PlannedRollback(d) == changes + tail
    ensures Run(after, Effects(PlannedRollback(d)))
         == Run(Run(after, Effects(changes[..|changes|])), Interrupted(tail, |tail|, false))
  {
    hide PlannedRollback, Run;
    EffectsConcat(changes, tail);
    RunConcat(after, Effects(changes), Effects(tail));
    assert changes[..|changes|] == changes && tail[..|tail|] == tail;
    assert Effects(tail) == Interrupted(tail, |tail|, false);
  }

  lemma RunRollback(d: Device, after: Device)
    requires Reached(d, after)
    ensures var back := Run(after, Effects(PlannedRollback(d)));
            if FunctionState(Observe(d)) == Default then
              back.shown == back.applied == d.shown && back.offload == d.offload && back.reloads == after.reloads + 1 && !back.failed
            else
              back.shown == after.shown && back.applied == after.applied && back.offload == d.offload
  {
    var default := FunctionState(Observe(d)) == Default;
    var changes := if default then Changes(REQUIRED, d.shown) else [];
    var tail := Rest(default, d.offload == Off, false);
    assert PlannedRollback(d) == changes + tail by {
      hide Changes;
    }
    hide PlannedRollback, Interrupted, Effects, Changes;
    SplitRollback(d, after, changes, tail);
    if default {
      RunChanges(after, REQUIRED, d.shown, |changes|);
    } else {
      Unroll(after, Effects(changes[..0]));
    }
    RunRest(Run(after, Effects(changes[..|changes|])), default, d.offload == Off, false, |tail|, false);
  }

  /** Rolling back after any interruption restores what was shown, what was in use and
      offload, exactly when the shown values were in use before or no restart was planned. */
  lemma RollbackRestores(d: Device)
    ensures (forall n: nat, failing | n <= |PlannedApply(d)| :: SameSetting(d, RolledBack(d, n, failing)))
       <==> Restorable(d)
    ensures !Restorable(d) ==> !SameSetting(d, RolledBack(d, |PlannedApply(d)|, false))
  {
    forall n: nat, failing | n <= |PlannedApply(d)| && Restorable(d)
      ensures SameSetting(d, RolledBack(d, n, failing))
    {
      RunInterrupted(d, n, failing);
      RunRollback(d, Run(d, Interrupted(PlannedApply(d), n, failing)));
    }
    if !Restorable(d) {
      var n := |PlannedApply(d)|;
      RunInterrupted(d, n, false);
      RunRollback(d, Run(d, Interrupted(PlannedApply(d), n, false)));
      assert !SameSetting(d, RolledBack(d, n, false));
    }
  }

  /** A rolled back function is the exception again: planning anew and stopping just before
      the restart shows the required values with a positive counter, not in use. */
  lemma RollbackLosesTrust(d: Device)
    requires d.shown == d.applied != REQUIRED && d.offload == On
    ensures var back := RolledBack(d, |PlannedApply(d)|, false);
            var again := Run(back, Effects(Head(back)));
            && PlannedApply(back) == Head(back) + [Reload]
            && FunctionState(Observe(again)) == InEffect && again.applied != REQUIRED
  {
    var n := |PlannedApply(d)|;
    RunInterrupted(d, n, false);
    RunRollback(d, Run(d, Interrupted(PlannedApply(d), n, false)));
    var back := RolledBack(d, n, false);
    assert Head(back)[..|Head(back)|] == Head(back);
    RunChanges(back, back.shown, REQUIRED, |Head(back)|);
  }
}
