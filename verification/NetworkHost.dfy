/** The whole plan of one host: NetworkManager and driver steps, and the one list of reverse
    steps in which both are interleaved port by port. */
module NetworkHost {
  import opened Wrappers
  import opened Hairpin
  import opened NetworkPlanner
  import Profiles = NetworkProfiles

  /** A command of a host's lists. */
  datatype HostStep = Network(command: Profiles.Command) | Driver(order: Order)

  datatype HostState = HostState(network: Profiles.State, devices: seq<Device>)

  function DoDriver(ds: seq<Device>, o: Order, s: Step): (r: seq<Device>)
    ensures |r| == |ds|
  {
    if o.Drive? && o.port < |ds| then ds[o.port := Take(ds[o.port], s)] else ds
  }

  /** What a step that succeeds does. */
  function Do(s: HostState, c: HostStep): HostState {
    match c
    case Network(command) => s.(network := Profiles.Do(s.network, command))
    case Driver(o) => if o.Drive? then s.(devices := DoDriver(s.devices, o, Effect(o.command))) else s
  }

  function RunAll(s: HostState, cs: seq<HostStep>): HostState {
    if cs == [] then s else Do(RunAll(s, cs[..|cs| - 1]), cs[|cs| - 1])
  }

  predicate IsRestart(c: HostStep) {
    c.Driver? && c.order.Drive? && c.order.command.Reload?
  }

  /** The first `n` steps took effect; if asked, the next one is a restart that failed. */
  function RunInterrupted(s: HostState, cs: seq<HostStep>, n: nat, failing: bool): HostState
    requires n <= |cs|
  {
    var t := RunAll(s, cs[..n]);
    if failing && n < |cs| && IsRestart(cs[n]) then t.(devices := DoDriver(t.devices, cs[n].order, ReloadFailed)) else t
  }

  // ---- the two sides of a list ----

  function NetworkOf(cs: seq<HostStep>): seq<Profiles.Command> {
    if cs == [] then []
    else
      var last := cs[|cs| - 1];
      NetworkOf(cs[..|cs| - 1]) + if last.Network? then [last.command] else []
  }

  function DriverSide(cs: seq<HostStep>): seq<Order> {
    if cs == [] then []
    else
      var last := cs[|cs| - 1];
      DriverSide(cs[..|cs| - 1]) + if last.Driver? then [last.order] else []
  }

  lemma {:induction false} SidesConcat(a: seq<HostStep>, b: seq<HostStep>)
    ensures NetworkOf(a + b) == NetworkOf(a) + NetworkOf(b)
    ensures DriverSide(a + b) == DriverSide(a) + DriverSide(b)
  {
    if b == [] {
      assert a + b == a;
    } else {
      SidesConcat(a, b[..|b| - 1]);
      assert (a + b)[..|a + b| - 1] == a + b[..|b| - 1];
    }
  }

  lemma NetworkLast(s: Profiles.State, cs: seq<Profiles.Command>, c: Profiles.Command)
    ensures Profiles.Run(s, cs + [c]) == Profiles.Do(Profiles.Run(s, cs), c)
  {
    assert (cs + [c])[..|cs + [c]| - 1] == cs;
  }

  lemma DriverLast(ds: seq<Device>, orders: seq<Order>, o: Order)
    ensures Exec(ds, orders + [o])
         == if o.Drive? then DoDriver(Exec(ds, orders), o, Effect(o.command)) else Exec(ds, orders)
  {
    assert (orders + [o])[..|orders + [o]| - 1] == orders;
  }

  /** A list acts on NetworkManager and on the devices as its two sides do. */
  lemma {:induction false} ActsBySides(s: HostState, cs: seq<HostStep>)
    ensures RunAll(s, cs) == HostState(Profiles.Run(s.network, NetworkOf(cs)), Exec(s.devices, DriverSide(cs)))
  {
    hide DoDriver, Profiles.Do;
    if cs != [] {
      var init, last := cs[..|cs| - 1], cs[|cs| - 1];
      ActsBySides(s, init);
      if last.Network? {
        NetworkLast(s.network, NetworkOf(init), last.command);
        assert DriverSide(cs) == DriverSide(init);
      } else {
        DriverLast(s.devices, DriverSide(init), last.order);
        assert NetworkOf(cs) == NetworkOf(init);
      }
    }
  }

  function WrapNetwork(cs: seq<Profiles.Command>): (r: seq<HostStep>)
    ensures |r| == |cs|
  {
    seq(|cs|, i requires 0 <= i < |cs| => Network(cs[i]))
  }

  function WrapDriver(orders: seq<Order>): (r: seq<HostStep>)
    ensures |r| == |orders|
  {
    seq(|orders|, i requires 0 <= i < |orders| => Driver(orders[i]))
  }

  lemma {:induction false} WrappedNetwork(cs: seq<Profiles.Command>)
    ensures NetworkOf(WrapNetwork(cs)) == cs && DriverSide(WrapNetwork(cs)) == []
  {
    if cs != [] {
      WrappedNetwork(cs[..|cs| - 1]);
      assert WrapNetwork(cs)[..|cs| - 1] == WrapNetwork(cs[..|cs| - 1]);
    }
  }

  lemma {:induction false} WrappedDriver(orders: seq<Order>)
    ensures DriverSide(WrapDriver(orders)) == orders && NetworkOf(WrapDriver(orders)) == []
  {
    if orders != [] {
      WrappedDriver(orders[..|orders| - 1]);
      assert WrapDriver(orders)[..|orders| - 1] == WrapDriver(orders[..|orders| - 1]);
    }
  }

  // ---- the lists of a host ----

  /** NetworkManager steps, then every function's driver steps. */
  function Steps(apply: seq<Profiles.Command>, ds: seq<Device>): seq<HostStep> {
    WrapNetwork(apply) + WrapDriver(DriverOf(ds))
  }

  /** What is planned for a host: every port's NetworkManager steps and its driver steps. As
      long as a function of some host is to be restarted, only driver steps are run. */
  function StepsOf(slots: seq<Profiles.Slot>, ds: seq<Device>): seq<HostStep> {
    Steps(Profiles.ApplyOf(slots), ds)
  }

  /** The reverse steps one port puts in front of the others'. */
  function FrontOf(k: nat, rollback: seq<Profiles.Command>, back: seq<Command>, relaying: bool): seq<HostStep> {
    (if relaying then WrapDriver(Tag(k, back)) else []) + WrapNetwork(rollback)
  }

  /** The one list of reverse steps. Each port puts its NetworkManager reverse steps in front
      of what is there, and then, on a relaying host, its driver reverse steps. */
  function ReverseOf(slots: seq<Profiles.Slot>, ds: seq<Device>): seq<HostStep>
    requires ds == [] || |ds| == |slots|
  {
    if slots == [] then []
    else
      var k := |slots| - 1;
      FrontOf(k, slots[k].plan.rollback, if ds == [] then [] else PlannedRollback(ds[k]), ds != [])
      + ReverseOf(slots[..k], if ds == [] then [] else ds[..k])
  }

  method PlanFunction(d: Device) returns (plan: Option<(seq<Command>, seq<Command>)>)
    ensures plan.None? <==> d.offload == Fixed
    ensures plan.Some? ==> plan.value == (PlannedApply(d), PlannedRollback(d))
  {
    hide ApplyFor, RollbackFor, FunctionState;
    var one := PlanDriver(Observe(d));
    plan := if one.None? then None else Some((one.value.apply, one.value.rollback));
  }

  lemma OneFront(k: nat, rollback: seq<Profiles.Command>, back: seq<Command>, rest: seq<HostStep>)
    ensures FrontOf(k, rollback, back, false) + rest == WrapNetwork(rollback) + rest
    ensures FrontOf(k, rollback, back, true) + rest == WrapDriver(Tag(k, back)) + (WrapNetwork(rollback) + rest)
  {
    hide WrapNetwork, WrapDriver, Tag;
  }

  /** Plan a host port by port. `ds` are the functions of a relaying host's ports, in the same
      order, and empty otherwise. */
  method PlanHost(ports: seq<Profiles.Port>, interfaces: seq<Profiles.Interface>,
                  connections: seq<(Profiles.Uuid, Profiles.Name)>, owned: set<Profiles.Uuid>, ds: seq<Device>)
    returns (slots: Option<seq<Profiles.Slot>>, steps: seq<HostStep>, reverse: seq<HostStep>)
    requires |interfaces| == |ports| && (ds == [] || |ds| == |ports|)
    ensures slots.Some? <==>
              && (forall k | 0 <= k < |ports| :: Profiles.Plannable(ports[k], interfaces[k], connections, owned))
              && (forall k | 0 <= k < |ds| :: ds[k].offload != Fixed)
    ensures slots.Some? ==> |slots.value| == |ports|
    ensures slots.Some? ==> steps == StepsOf(slots.value, ds) && reverse == ReverseOf(slots.value, ds)
    ensures slots.Some? ==> forall k | 0 <= k < |ports| ::
              Profiles.PlannedFrom(slots.value[k], ports[k], interfaces[k], connections)
  {
    hide Profiles.PlannedFrom, Profiles.Plannable, PlannedApply, PlannedRollback, Tag, FrontOf, WrapNetwork, WrapDriver;
    var done: seq<Profiles.Slot> := [];
    var apply: seq<Profiles.Command> := [];
    var driver: seq<Order> := [];
    reverse := [];
    for k := 0 to |ports|
      invariant |done| == k && apply == Profiles.ApplyOf(done)
      invariant driver == DriverOf(if ds == [] then [] else ds[..k])
      invariant reverse == ReverseOf(done, if ds == [] then [] else ds[..k])
      invariant forall j | 0 <= j < k :: Profiles.PlannedFrom(done[j], ports[j], interfaces[j], connections)
      invariant forall j | 0 <= j < k :: Profiles.Plannable(ports[j], interfaces[j], connections, owned)
      invariant forall j | 0 <= j < k && ds != [] :: ds[j].offload != Fixed
    {
      var slot := Profiles.PlanPort(ports[k], interfaces[k], connections, owned);
      if slot.None? {
        return None, [], [];
      }
      ghost var before := done;
      done := done + [slot.value];
      assert done[..k] == before;
      apply := apply + slot.value.plan.apply;
      OneFront(k, slot.value.plan.rollback, if ds == [] then [] else PlannedRollback(ds[k]), reverse);
      reverse := WrapNetwork(slot.value.plan.rollback) + reverse;
      if ds != [] {
        var one := PlanFunction(ds[k]);
        if one.None? {
          return None, [], [];
        }
        assert ds[..k + 1][..k] == ds[..k];
        driver := driver + Tag(k, one.value.0);
        reverse := WrapDriver(Tag(k, one.value.1)) + reverse;
      }
    }
    assert ds != [] ==> ds[..|ports|] == ds;
    return Some(done), WrapNetwork(apply) + WrapDriver(driver), reverse;
  }

  // ---- rolling back ----

  lemma FrontSides(k: nat, rollback: seq<Profiles.Command>, back: seq<Command>, relaying: bool)
    ensures NetworkOf(FrontOf(k, rollback, back, relaying)) == rollback
    ensures DriverSide(FrontOf(k, rollback, back, relaying)) == if relaying then Tag(k, back) else []
  {
    hide WrapNetwork, WrapDriver, Tag;
    WrappedNetwork(rollback);
    if relaying {
      WrappedDriver(Tag(k, back));
      SidesConcat(WrapDriver(Tag(k, back)), WrapNetwork(rollback));
    } else {
      assert [] + WrapNetwork(rollback) == WrapNetwork(rollback);
    }
  }

  /** The two sides of the one reverse list are the reverse lists of the two kinds of steps. */
  lemma {:induction false} ReverseSides(slots: seq<Profiles.Slot>, ds: seq<Device>)
    requires ds == [] || |ds| == |slots|
    ensures NetworkOf(ReverseOf(slots, ds)) == Profiles.RollbackOf(slots)
    ensures DriverSide(ReverseOf(slots, ds)) == RollbackOf(ds)
  {
    hide PlannedRollback, WrapNetwork, WrapDriver, Tag, FrontOf;
    if slots != [] {
      hide NetworkOf, DriverSide;
      var k := |slots| - 1;
      if ds == [] {
        ReverseSides(slots[..k], []);
        FrontSides(k, slots[k].plan.rollback, [], false);
        SidesConcat(FrontOf(k, slots[k].plan.rollback, [], false), ReverseOf(slots[..k], []));
      } else {
        ReverseSides(slots[..k], ds[..k]);
        FrontSides(k, slots[k].plan.rollback, PlannedRollback(ds[k]), true);
        SidesConcat(FrontOf(k, slots[k].plan.rollback, PlannedRollback(ds[k]), true), ReverseOf(slots[..k], ds[..k]));
      }
    }
  }

  lemma StepSides(apply: seq<Profiles.Command>, ds: seq<Device>, n: nat) returns (a: nat, b: nat)
    requires n <= |Steps(apply, ds)|
    ensures a <= |apply| && b <= |DriverOf(ds)| && n == a + b && (b > 0 ==> a == |apply|)
    ensures NetworkOf(Steps(apply, ds)[..n]) == apply[..a]
    ensures DriverSide(Steps(apply, ds)[..n]) == DriverOf(ds)[..b]
  {
    hide NetworkOf, DriverSide, DriverOf;
    var driver := DriverOf(ds);
    a := if n <= |apply| then n else |apply|;
    b := n - a;
    assert Steps(apply, ds)[..n] == WrapNetwork(apply[..a]) + WrapDriver(driver[..b]);
    SidesConcat(WrapNetwork(apply[..a]), WrapDriver(driver[..b]));
    WrappedNetwork(apply[..a]);
    WrappedDriver(driver[..b]);
  }

  ghost predicate Restored(s: HostState, t: HostState) {
    && t.network == s.network && |t.devices| == |s.devices|
    && forall f | 0 <= f < |s.devices| :: SameSetting(s.devices[f], t.devices[f])
  }

  /** The functions whose steps are planned: all of a relaying host's, none otherwise. */
  predicate Planned(s: HostState, slots: seq<Profiles.Slot>, ds: seq<Device>) {
    ds == [] || (ds == s.devices && |ds| == |slots|)
  }

  /** The first `n` of these NetworkManager steps and the driver steps, possibly a restart
      that failed, and then the host's one reverse list. */
  function RolledBack(s: HostState, apply: seq<Profiles.Command>, slots: seq<Profiles.Slot>, ds: seq<Device>, n: nat, failing: bool): HostState
    requires (ds == [] || |ds| == |slots|) && n <= |Steps(apply, ds)|
  {
    RunAll(RunInterrupted(s, Steps(apply, ds), n, failing), ReverseOf(slots, ds))
  }

  lemma NothingToDrive(ds: seq<Device>)
    ensures Exec(ds, []) == ds && DriverOf([]) == [] && RollbackOf([]) == []
  {
  }

  /** The step at an interruption: a NetworkManager step, or the next of the driver's. */
  lemma NextStep(apply: seq<Profiles.Command>, ds: seq<Device>, n: nat, a: nat, b: nat)
    requires n == a + b < |Steps(apply, ds)| && a <= |apply| && (b > 0 ==> a == |apply|)
    ensures a < |apply| ==> Steps(apply, ds)[n].Network?
    ensures a == |apply| ==> b < |DriverOf(ds)| && Steps(apply, ds)[n] == Driver(DriverOf(ds)[b])
  {
    hide DriverOf;
  }

  lemma FailedRestart(es: seq<Device>, o: Order)
    ensures IsRestart(Driver(o)) ==>
              DoDriver(es, o, ReloadFailed) == if o.port < |es| then es[o.port := Take(es[o.port], ReloadFailed)] else es
  {
  }

  /** An interruption of the host's list, seen from both sides. */
  lemma InterruptedBySides(s: HostState, apply: seq<Profiles.Command>, ds: seq<Device>, n: nat, failing: bool)
    returns (a: nat, b: nat, fails: bool)
    requires (ds == [] || ds == s.devices) && n <= |Steps(apply, ds)|
    ensures a <= |apply| && b <= |DriverOf(ds)| && n == a + b
    ensures var t := RunInterrupted(s, Steps(apply, ds), n, failing);
            && t.network == Profiles.Run(s.network, apply[..a])
            && t.devices == if ds == [] then s.devices else ExecInterrupted(ds, DriverOf(ds), b, fails)
  {
    hide Profiles.Run, Profiles.Do, Exec, NetworkOf, DriverSide, RunAll, Take, Effect, Steps, DriverOf;
    a, b := StepSides(apply, ds, n);
    ActsBySides(s, Steps(apply, ds)[..n]);
    NothingToDrive(s.devices);
    fails := failing && n < |Steps(apply, ds)| && a == |apply|;
    if n < |Steps(apply, ds)| {
      NextStep(apply, ds, n, a, b);
      if a == |apply| {
        FailedRestart(Exec(ds, DriverOf(ds)[..b]), DriverOf(ds)[b]);
      }
    }
  }

  /** An interruption of the host's list followed by the one reverse list acts on
      NetworkManager as its own steps and reverse steps do, and on the driver likewise. */
  lemma RolledBackBySides(s: HostState, apply: seq<Profiles.Command>, slots: seq<Profiles.Slot>, ds: seq<Device>, n: nat, failing: bool)
    returns (a: nat, b: nat, fails: bool)
    requires Planned(s, slots, ds) && n <= |Steps(apply, ds)|
    ensures a <= |apply| && b <= |DriverOf(ds)| && n == a + b
    ensures RolledBack(s, apply, slots, ds, n, failing).network
         == Profiles.Run(Profiles.Run(s.network, apply[..a]), Profiles.RollbackOf(slots))
    ensures RolledBack(s, apply, slots, ds, n, failing).devices
         == if ds == [] then s.devices else RolledBackHost(ds, b, fails)
  {
    hide Profiles.Run, Exec, ExecInterrupted, NetworkOf, DriverSide, RunAll, RunInterrupted, Steps, DriverOf, ReverseOf;
    a, b, fails := InterruptedBySides(s, apply, ds, n, failing);
    ReverseSides(slots, ds);
    var t := RunInterrupted(s, Steps(apply, ds), n, failing);
    ActsBySides(t, ReverseOf(slots, ds));
    NothingToDrive(t.devices);
  }

  lemma AllRestored(s: HostState, apply: seq<Profiles.Command>, slots: seq<Profiles.Slot>, ds: seq<Device>, n: nat, failing: bool)
    requires Profiles.AllPlaced(s.network, slots) && Planned(s, slots, ds) && n <= |Steps(apply, ds)|
    requires apply <= Profiles.ApplyOf(slots)
    requires forall k | 0 <= k < |slots| :: Profiles.FlagsKnown(s.network, slots[k])
    requires forall f | 0 <= f < |ds| :: Restorable(ds[f])
    ensures Restored(s, RolledBack(s, apply, slots, ds, n, failing))
  {
    hide Profiles.AllPlaced, Profiles.FlagsKnown, Profiles.Run, Profiles.ApplyOf, RolledBack, RolledBackHost, Steps, DriverOf, Restorable;
    var a, b, fails := RolledBackBySides(s, apply, slots, ds, n, failing);
    assert apply[..a] == Profiles.ApplyOf(slots)[..a];
    Profiles.HostUndoExactly(s.network, slots);
    HostRollbackRestores(ds);
  }

  lemma FlagsLost(s: HostState, apply: seq<Profiles.Command>, slots: seq<Profiles.Slot>, ds: seq<Device>, k: nat)
    requires Profiles.AllPlaced(s.network, slots) && Planned(s, slots, ds)
    requires k < |slots| && !Profiles.FlagsKnown(s.network, slots[k])
    ensures !Restored(s, RolledBack(s, apply, slots, ds, 0, false))
  {
    hide Profiles.AllPlaced, Profiles.FlagsKnown, Profiles.Run, Profiles.ApplyOf, RolledBack, RolledBackHost, Steps, DriverOf;
    var a, b, fails := RolledBackBySides(s, apply, slots, ds, 0, false);
    assert apply[..a] == Profiles.ApplyOf(slots)[..0];
    Profiles.UndoFails(s.network, slots, k);
  }

  lemma SettingLost(s: HostState, apply: seq<Profiles.Command>, slots: seq<Profiles.Slot>, ds: seq<Device>, f: nat)
    requires Planned(s, slots, ds) && f < |ds| && !Restorable(ds[f])
    ensures !Restored(s, RolledBack(s, apply, slots, ds, |Steps(apply, ds)|, false))
  {
    hide Profiles.Run, RolledBack, RolledBackHost, DriverOf, Restorable, SameSetting;
    var a, b, fails := RolledBackBySides(s, apply, slots, ds, |Steps(apply, ds)|, false);
    FullRollbackLoses(ds, fails, f);
  }

  /** The first of a host's NetworkManager steps, all or none or any number, then its driver
      steps. Any interruption of these, with or without a driver restart that fails at its
      end, followed by the one interleaved reverse list, restores every profile, every active
      connection, the settings every device runs with, and every function's shown values,
      values in use and offload: exactly when, in each modified profile, the flags that the
      inventory did not know were off, and each function alone could be restored. */
  lemma HostRestoresFrom(s: HostState, apply: seq<Profiles.Command>, slots: seq<Profiles.Slot>, ds: seq<Device>)
    requires Profiles.AllPlaced(s.network, slots) && Planned(s, slots, ds) && apply <= Profiles.ApplyOf(slots)
    ensures (forall n: nat, failing | n <= |Steps(apply, ds)| :: Restored(s, RolledBack(s, apply, slots, ds, n, failing)))
       <==> && (forall k | 0 <= k < |slots| :: Profiles.FlagsKnown(s.network, slots[k]))
            && (forall f | 0 <= f < |ds| :: Restorable(ds[f]))
  {
    hide Profiles.AllPlaced, Profiles.FlagsKnown, Restored, RolledBack, Steps, Restorable;
    if k: nat :| k < |slots| && !Profiles.FlagsKnown(s.network, slots[k]) {
      FlagsLost(s, apply, slots, ds, k);
    } else if f: nat :| f < |ds| && !Restorable(ds[f]) {
      SettingLost(s, apply, slots, ds, f);
    } else {
      forall n: nat, failing | n <= |Steps(apply, ds)| ensures Restored(s, RolledBack(s, apply, slots, ds, n, failing)) {
        AllRestored(s, apply, slots, ds, n, failing);
      }
    }
  }

  /** Without NetworkManager steps a host's list is its driver list. */
  lemma DriverAlone(ds: seq<Device>)
    ensures Steps([], ds) == WrapDriver(DriverOf(ds))
  {
    hide DriverOf;
  }

  /** The two lists that are run: everything, or, while a function is to be restarted, the
      driver steps alone, of which the restart is the last one run. */
  lemma HostRestores(s: HostState, slots: seq<Profiles.Slot>, ds: seq<Device>)
    requires Profiles.AllPlaced(s.network, slots) && Planned(s, slots, ds)
    ensures var restorable := && (forall k | 0 <= k < |slots| :: Profiles.FlagsKnown(s.network, slots[k]))
                              && (forall f | 0 <= f < |ds| :: Restorable(ds[f]));
            && (restorable <==> forall n: nat, failing | n <= |StepsOf(slots, ds)| ::
                                  Restored(s, RolledBack(s, Profiles.ApplyOf(slots), slots, ds, n, failing)))
            && Steps([], ds) == WrapDriver(DriverOf(ds))
            && (restorable <==> forall n: nat, failing | n <= |Steps([], ds)| ::
                                  Restored(s, RolledBack(s, [], slots, ds, n, failing)))
  {
    hide Profiles.AllPlaced, Profiles.FlagsKnown, Profiles.ApplyOf, Restored, RolledBack, Steps, Restorable;
    HostRestoresFrom(s, Profiles.ApplyOf(slots), slots, ds);
    HostRestoresFrom(s, [], slots, ds);
    DriverAlone(ds);
  }
}
