/** Plan, execute, rediscover: network plans for many hosts, repeated until nothing is left. */
module NetworkRounds {
  import opened Wrappers
  import opened Hairpin
  import opened NetworkPlanner
  import NetworkJournal

  /** A host: its ConnectX functions and whether NetworkManager needs no change. */
  datatype Host = Host(functions: seq<Device>, configured: bool)

  predicate IsReload(o: Order) {
    o.Drive? && o.command.Reload?
  }

  predicate HasReload(orders: seq<Order>) {
    exists i :: 0 <= i < |orders| && IsReload(orders[i])
  }

  /** How many orders there are through the first restart, or altogether. */
  function StopAt(orders: seq<Order>): (n: nat)
    ensures n <= |orders|
  {
    if orders == [] then 0
    else if HasReload(orders[..|orders| - 1]) then StopAt(orders[..|orders| - 1])
    else |orders|
  }

  /** The driver steps a plan takes over: none after the first restart. */
  method ThroughReload(orders: seq<Order>) returns (commands: seq<Order>)
    ensures commands == orders[..StopAt(orders)]
  {
    commands := [];
    for i := 0 to |orders|
      invariant commands == orders[..i] && !HasReload(orders[..i])
    {
      commands := commands + [orders[i]];
      assert commands == orders[..i + 1];
      if IsReload(orders[i]) {
        StopIsFirst(orders, i);
        return;
      }
    }
    if orders != [] {
      assert orders[..|orders|] == orders;
      assert forall i | 0 <= i < |orders| - 1 :: orders[..|orders| - 1][i] == orders[..|orders|][i];
    }
  }

  lemma {:induction false} StopIsFirst(orders: seq<Order>, i: nat)
    requires i < |orders| && IsReload(orders[i]) && !HasReload(orders[..i])
    ensures StopAt(orders) == i + 1
  {
    var init := orders[..|orders| - 1];
    if i == |orders| - 1 {
    } else {
      assert init[i] == orders[i] && init[..i] == orders[..i];
      StopIsFirst(init, i);
    }
  }

  lemma {:induction false} ReloadOnlyLast(orders: seq<Order>, i: nat)
    requires i < StopAt(orders)
    ensures IsReload(orders[i]) ==> i == StopAt(orders) - 1
    ensures HasReload(orders) && i == StopAt(orders) - 1 ==> IsReload(orders[i])
  {
    var init := orders[..|orders| - 1];
    if HasReload(init) {
      ReloadOnlyLast(init, i);
    } else if i < |orders| - 1 {
      assert init[i] == orders[i];
    } else {
      assert orders == init + [orders[i]];
      HasReloadConcat(init, [orders[i]]);
    }
  }

  // ---- one host ----

  predicate Needs(d: Device) {
    NeedsRestart(FunctionState(Observe(d)))
  }

  /** How many functions of a host are in a state whose remedy is a restart. */
  function Restarts(ds: seq<Device>): nat {
    if ds == [] then 0
    else Restarts(ds[..|ds| - 1]) + if Needs(ds[|ds| - 1]) then 1 else 0
  }

  predicate Switchable(ds: seq<Device>) {
    forall f | 0 <= f < |ds| :: ds[f].offload != Fixed
  }

  predicate AllInEffect(ds: seq<Device>) {
    forall f | 0 <= f < |ds| :: FunctionState(Observe(ds[f])) == InEffect
  }

  lemma ReloadPlace(d: Device, m: nat)
    requires m < |PlannedApply(d)|
    ensures PlannedApply(d)[m].Reload? <==> Needs(d) && m == |Head(d)|
  {
    HeadThenTail(d);
  }

  lemma RunReload(d: Device)
    requires Needs(d)
    ensures |Head(d)| < |PlannedApply(d)|
    ensures var after := Run(d, Effects(PlannedApply(d)[..|Head(d)| + 1])); !Needs(after) && after.offload == d.offload
  {
    HeadThenTail(d);
    var head := Head(d);
    assert PlannedApply(d)[..|head| + 1] == head + [Reload];
    EffectsConcat(head, [Reload]);
    RunConcat(d, Effects(head), Effects([Reload]));
    assert head[..|head|] == head;
    if FunctionState(Observe(d)) == Default {
      RunChanges(d, d.shown, REQUIRED, |head|);
    } else {
      Unroll(d, Effects(head));
    }
    Unroll(Run(d, Effects(head)), Effects([Reload]));
  }

  lemma ReloadInBlock(d: Device, f: nat)
    ensures HasReload(Tag(f, PlannedApply(d))) <==> Needs(d)
    ensures Needs(d) ==> |Head(d)| < |PlannedApply(d)| && IsReload(Tag(f, PlannedApply(d))[|Head(d)|])
                         && !HasReload(Tag(f, PlannedApply(d))[..|Head(d)|])
  {
    forall m: nat | m < |PlannedApply(d)|
      ensures IsReload(Tag(f, PlannedApply(d))[m]) <==> Needs(d) && m == |Head(d)|
    {
      ReloadPlace(d, m);
    }
    if Needs(d) {
      HeadThenTail(d);
      assert IsReload(Tag(f, PlannedApply(d))[|Head(d)|]);
    }
  }

  lemma HasReloadConcat(a: seq<Order>, b: seq<Order>)
    ensures HasReload(a + b) <==> HasReload(a) || HasReload(b)
  {
    if HasReload(a) {
      var i :| 0 <= i < |a| && IsReload(a[i]);
      assert IsReload((a + b)[i]);
    }
    if HasReload(b) {
      var i :| 0 <= i < |b| && IsReload(b[i]);
      assert IsReload((a + b)[|a| + i]);
    }
  }

  lemma {:induction false} StopInTail(a: seq<Order>, b: seq<Order>)
    requires !HasReload(a)
    ensures StopAt(a + b) == |a| + StopAt(b)
  {
    if b == [] {
      assert a + b == a;
      assert a != [] ==> !HasReload(a[..|a| - 1]) by {
        if a != [] {
          assert a == a[..|a| - 1] + [a[|a| - 1]];
          HasReloadConcat(a[..|a| - 1], [a[|a| - 1]]);
        }
      }
    } else {
      var c := b[..|b| - 1];
      assert (a + b)[..|a + b| - 1] == a + c;
      HasReloadConcat(a, c);
      if HasReload(c) {
        StopInTail(a, c);
      }
    }
  }

  lemma {:induction false} StopEarly(a: seq<Order>, b: seq<Order>)
    requires HasReload(a)
    ensures StopAt(a + b) == StopAt(a)
  {
    if b == [] {
      assert a + b == a;
    } else {
      var c := b[..|b| - 1];
      assert (a + b)[..|a + b| - 1] == a + c;
      HasReloadConcat(a, c);
      StopEarly(a, c);
    }
  }

  /** The functions of a host after a plan's driver commands for it. */
  function AfterDriver(ds: seq<Device>): (es: seq<Device>)
    ensures |es| == |ds|
  {
    Exec(ds, DriverOf(ds)[..StopAt(DriverOf(ds))])
  }

  /** A host's last function goes its own way. */
  lemma {:induction false} ExecSnoc(ds: seq<Device>, d: Device, orders: seq<Order>)
    ensures Exec(ds + [d], orders) == Exec(ds, orders) + [Run(d, Effects(Only(orders, |ds|)))]
  {
    hide Take;
    if orders == [] {
      Unroll(d, Effects([]));
    } else {
      var init, last := orders[..|orders| - 1], orders[|orders| - 1];
      ExecSnoc(ds, d, init);
      if last.Drive? && last.port == |ds| {
        var own := Only(init, |ds|);
        EffectsConcat(own, [last.command]);
        RunConcat(d, Effects(own), Effects([last.command]));
        Unroll(Run(d, Effects(own)), Effects([last.command]));
      } else {
        assert Only(orders, |ds|) == Only(init, |ds|);
      }
    }
  }

  lemma {:induction false} ForeignTail(ds: seq<Device>, orders: seq<Order>, cs: seq<Command>)
    ensures Exec(ds, orders + Tag(|ds|, cs)) == Exec(ds, orders)
  {
    if cs == [] {
      assert orders + Tag(|ds|, cs) == orders;
    } else {
      var init := cs[..|cs| - 1];
      ForeignTail(ds, orders, init);
      assert (orders + Tag(|ds|, cs))[..|orders| + |cs| - 1] == orders + Tag(|ds|, init);
    }
  }

  lemma ExecPrefix(ds: seq<Device>, d: Device, n: nat)
    requires n <= |DriverOf(ds)|
    ensures Exec(ds + [d], DriverOf(ds)[..n]) == Exec(ds, DriverOf(ds)[..n]) + [d]
  {
    hide DriverOf;
    ExecSnoc(ds, d, DriverOf(ds)[..n]);
    Foreign(ds, n, |ds|);
    Unroll(d, Effects([]));
  }

  lemma ExecBlock(ds: seq<Device>, d: Device, cs: seq<Command>)
    ensures Exec(ds + [d], DriverOf(ds) + Tag(|ds|, cs)) == Exec(ds, DriverOf(ds)) + [Run(d, Effects(cs))]
  {
    hide *;
    var orders, block := DriverOf(ds), Tag(|ds|, cs);
    assert Only(orders + block, |ds|) == cs by {
      OnlyConcat(orders, block, |ds|);
      OnlyTag(|ds|, cs, |ds|);
      Foreign(ds, |orders|, |ds|);
      assert orders[..|orders|] == orders;
    }
    ExecSnoc(ds, d, orders + block);
    ForeignTail(ds, orders, cs);
  }

  lemma {:induction false} AllInEffectNeedNothing(ds: seq<Device>)
    ensures AllInEffect(ds) ==> Restarts(ds) == 0 && DriverOf(ds) == []
  {
    if ds != [] && AllInEffect(ds) {
      var k := |ds| - 1;
      AllInEffectNeedNothing(ds[..k]);
      assert FunctionState(Observe(ds[k])) == InEffect;
    }
  }

  lemma {:induction false} ReloadIffRestarts(ds: seq<Device>)
    ensures HasReload(DriverOf(ds)) <==> Restarts(ds) > 0
    ensures StopAt(DriverOf(ds)) == |DriverOf(ds)| || HasReload(DriverOf(ds))
  {
    if ds != [] {
      hide PlannedApply, Needs;
      var k := |ds| - 1;
      ReloadIffRestarts(ds[..k]);
      HasReloadConcat(DriverOf(ds[..k]), Tag(k, PlannedApply(ds[k])));
      ReloadInBlock(ds[k], k);
      var orders := DriverOf(ds);
      if !HasReload(orders) && orders != [] {
        assert orders == orders[..|orders| - 1] + [orders[|orders| - 1]];
        HasReloadConcat(orders[..|orders| - 1], [orders[|orders| - 1]]);
      }
    }
  }

  lemma RestartsSnoc(ds: seq<Device>, d: Device)
    ensures Restarts(ds + [d]) == Restarts(ds) + if Needs(d) then 1 else 0
  {
    assert (ds + [d])[..|ds|] == ds;
  }

  /** One plan on one host: with functions to restart, exactly one fewer is left; without,
      everything is in effect. */
  lemma {:induction false} DriverRound(ds: seq<Device>)
    requires Switchable(ds)
    ensures Switchable(AfterDriver(ds))
    ensures Restarts(ds) > 0 ==> Restarts(AfterDriver(ds)) == Restarts(ds) - 1
    ensures Restarts(ds) == 0 ==> AllInEffect(AfterDriver(ds))
  {
    if ds != [] {
      var init, d := ds[..|ds| - 1], ds[|ds| - 1];
      assert ds == init + [d];
      hide PlannedApply, Needs, Exec, AfterDriver;
      DriverRound(init);
      ReloadIffRestarts(init);
      RestartsSnoc(init, d);
      if Restarts(init) > 0 {
        AfterEarly(init, d);
        RestartsSnoc(AfterDriver(init), d);
      } else {
        var last := AfterLast(init, d);
        RestartsSnoc(AfterDriver(init), last);
        AllInEffectNeedNothing(AfterDriver(init));
      }
    }
  }

  lemma DriverSnoc(ds: seq<Device>, d: Device)
    ensures DriverOf(ds + [d]) == DriverOf(ds) + Tag(|ds|, PlannedApply(d))
  {
    assert (ds + [d])[..|ds|] == ds;
  }

  lemma AfterEarly(ds: seq<Device>, d: Device)
    requires HasReload(DriverOf(ds))
    ensures AfterDriver(ds + [d]) == AfterDriver(ds) + [d]
  {
    DriverSnoc(ds, d);
    hide PlannedApply, Exec, DriverOf;
    var orders, block := DriverOf(ds), Tag(|ds|, PlannedApply(d));
    StopEarly(orders, block);
    assert (orders + block)[..StopAt(orders)] == orders[..StopAt(orders)];
    ExecPrefix(ds, d, StopAt(orders));
  }

  lemma AfterLast(ds: seq<Device>, d: Device) returns (last: Device)
    requires !HasReload(DriverOf(ds)) && d.offload != Fixed
    ensures AfterDriver(ds + [d]) == AfterDriver(ds) + [last] && last.offload != Fixed && !Needs(last)
    ensures !Needs(d) ==> FunctionState(Observe(last)) == InEffect
  {
    DriverSnoc(ds, d);
    hide PlannedApply, Exec, DriverOf, Run;
    var orders, block := DriverOf(ds), Tag(|ds|, PlannedApply(d));
    StopInTail(orders, block);
    NoReloadStop(orders);
    assert orders[..|orders|] == orders;
    var r := StopAt(block);
    var cs := PlannedApply(d)[..r];
    assert (orders + block)[..|orders| + r] == orders + Tag(|ds|, cs);
    ExecBlock(ds, d, cs);
    last := Run(d, Effects(cs));
    FunctionRound(d, |ds|);
  }

  /** One function's own share of a plan that stops at its restart. */
  lemma FunctionRound(d: Device, f: nat)
    requires d.offload != Fixed
    ensures var after := Run(d, Effects(PlannedApply(d)[..StopAt(Tag(f, PlannedApply(d)))]));
            after.offload != Fixed && !Needs(after) && (!Needs(d) ==> FunctionState(Observe(after)) == InEffect)
  {
    var block := Tag(f, PlannedApply(d));
    hide PlannedApply, Run;
    ReloadInBlock(d, f);
    if Needs(d) {
      StopIsFirst(block, |Head(d)|);
      RunReload(d);
    } else {
      NoReloadStop(block);
      assert PlannedApply(d)[..|block|] == PlannedApply(d);
      PlanReachesEffect(d);
    }
  }

  lemma NoReloadStop(orders: seq<Order>)
    requires !HasReload(orders)
    ensures StopAt(orders) == |orders|
  {
    StopInTail(orders, []);
    assert orders + [] == orders;
  }

  // ---- all hosts ----

  ghost predicate Plannable(hosts: seq<Host>) {
    forall i | 0 <= i < |hosts| :: Switchable(hosts[i].functions)
  }

  predicate Restarting(h: Host) {
    HasReload(DriverOf(h.functions))
  }

  /** The first host with a function to restart. */
  function ReloadHost(hosts: seq<Host>): (r: Option<nat>)
    ensures r.Some? ==> r.value < |hosts| && Restarting(hosts[r.value])
    ensures r.None? ==> forall h | h in hosts :: !Restarting(h)
  {
    if hosts == [] then None
    else
      var init := hosts[..|hosts| - 1];
      assert hosts == init + [hosts[|hosts| - 1]];
      if ReloadHost(init).Some? then ReloadHost(init)
      else if Restarting(hosts[|hosts| - 1]) then Some(|hosts| - 1)
      else None
  }

  /** What a plan runs on one host. */
  function CommandsFor(h: Host, driver: seq<Order>, reload: Option<nat>, i: nat): seq<Order> {
    if reload.Some? then
      if reload.value == i then driver[..StopAt(driver)] else []
    else
      (if h.configured then [] else [Connect]) + driver
  }

  function Commands(hosts: seq<Host>, i: nat): seq<Order>
    requires i < |hosts|
  {
    CommandsFor(hosts[i], DriverOf(hosts[i].functions), ReloadHost(hosts), i)
  }

  /** Every host's driver steps and the host that will restart a function. */
  method PlanHosts(hosts: seq<Host>) returns (drivers: seq<seq<Order>>, reload: Option<nat>, ok: bool)
    ensures ok <==> forall i | 0 <= i < |hosts| :: Switchable(hosts[i].functions)
    ensures ok ==> |drivers| == |hosts| && forall i | 0 <= i < |hosts| :: drivers[i] == DriverOf(hosts[i].functions)
    ensures ok ==> reload == ReloadHost(hosts)
  {
    hide DriverOf;
    drivers, reload := [], None;
    for i := 0 to |hosts|
      invariant |drivers| == i && forall k | 0 <= k < i :: drivers[k] == DriverOf(hosts[k].functions)
      invariant forall k | 0 <= k < i :: Switchable(hosts[k].functions)
      invariant reload == ReloadHost(hosts[..i])
    {
      var one := PlanFunctions(hosts[i].functions);
      if one.None? {
        return [], None, false;
      }
      drivers := drivers + [one.value.0];
      assert hosts[..i + 1][..i] == hosts[..i];
      if reload.None? && exists k :: 0 <= k < |one.value.0| && IsReload(one.value.0[k]) {
        reload := Some(i);
      }
    }
    assert hosts[..|hosts|] == hosts;
    ok := true;
  }

  method HostCommands(h: Host, driver: seq<Order>, reload: Option<nat>, i: nat) returns (own: seq<Order>)
    ensures own == CommandsFor(h, driver, reload, i)
  {
    own := [];
    if (!h.configured || driver != []) && (reload.None? || reload == Some(i)) {
      if reload.None? {
        own := (if h.configured then [] else [Connect]) + driver;
      } else {
        own := ThroughReload(driver);
      }
    }
  }

  /** The executable plan: every host's commands, or none when some function can never
      carry the setting. */
  method BuildCommands(hosts: seq<Host>) returns (plan: Option<seq<seq<Order>>>)
    ensures plan.Some? <==> Plannable(hosts)
    ensures plan.Some? ==> |plan.value| == |hosts| && forall i | 0 <= i < |hosts| :: plan.value[i] == Commands(hosts, i)
  {
    var drivers, reload, ok := PlanHosts(hosts);
    if !ok {
      return None;
    }
    var commands: seq<seq<Order>> := [];
    for i := 0 to |hosts|
      invariant |commands| == i && forall k | 0 <= k < i :: commands[k] == Commands(hosts, k)
    {
      hide DriverOf, ReloadHost, CommandsFor;
      var own := HostCommands(hosts[i], drivers[i], reload, i);
      commands := commands + [own];
    }
    return Some(commands);
  }

  /** A plan restarts at most one function, on one host, and nothing runs after that. */
  lemma OneRestartPerPlan(hosts: seq<Host>, i: nat, n: nat)
    requires i < |hosts| && n < |Commands(hosts, i)| && IsReload(Commands(hosts, i)[n])
    ensures ReloadHost(hosts) == Some(i) && n == |Commands(hosts, i)| - 1
    ensures forall j: nat | j < |hosts| && j != i :: Commands(hosts, j) == []
  {
    var driver := DriverOf(hosts[i].functions);
    assert hosts[i] in hosts;
    if ReloadHost(hosts).None? {
      HasReloadConcat(if hosts[i].configured then [] else [Connect], driver);
    } else {
      ReloadOnlyLast(driver, n);
    }
  }

  /** The helper on the host leaves out nothing of such a list, whatever its commands look
      like, as long as a restart is what asks for a stop. */
  lemma HelperRunsWholePlan(hosts: seq<Host>, i: nat, rendered: seq<NetworkJournal.HostCommand>)
    requires i < |hosts| && |rendered| == |Commands(hosts, i)|
    requires forall n | 0 <= n < |rendered| :: rendered[n].stopAfter <==> IsReload(Commands(hosts, i)[n])
    ensures NetworkJournal.Planned(rendered) == rendered
  {
    NetworkJournal.PlannedIsPrefix(rendered);
    if rendered != [] {
      forall m: nat | m < |rendered| - 1 ensures !rendered[m].stopAfter {
        if rendered[m].stopAfter {
          OneRestartPerPlan(hosts, i, m);
        }
      }
      NetworkJournal.PlannedReach(rendered, |rendered| - 1);
    }
  }

  function RunHost(h: Host, orders: seq<Order>): Host {
    Host(Exec(h.functions, orders), h.configured || Connect in orders)
  }

  /** Plan, execute successfully on every host, discover again. */
  function Round(hosts: seq<Host>): (r: seq<Host>)
    ensures |r| == |hosts|
  {
    seq(|hosts|, i requires 0 <= i < |hosts| => RunHost(hosts[i], Commands(hosts, i)))
  }

  function Rounds(hosts: seq<Host>, k: nat): (r: seq<Host>)
    ensures |r| == |hosts|
    decreases k
  {
    if k == 0 then hosts else Rounds(Round(hosts), k - 1)
  }

  function TotalRestarts(hosts: seq<Host>): nat {
    if hosts == [] then 0
    else TotalRestarts(hosts[..|hosts| - 1]) + Restarts(hosts[|hosts| - 1].functions)
  }

  ghost predicate Settled(hosts: seq<Host>) {
    forall i | 0 <= i < |hosts| :: hosts[i].configured && AllInEffect(hosts[i].functions)
  }

  lemma {:induction false} NoRestartsLeft(hosts: seq<Host>)
    ensures TotalRestarts(hosts) == 0 <==> forall i | 0 <= i < |hosts| :: Restarts(hosts[i].functions) == 0
    ensures TotalRestarts(hosts) == 0 <==> ReloadHost(hosts).None?
  {
    if hosts != [] {
      var init := hosts[..|hosts| - 1];
      NoRestartsLeft(init);
      ReloadIffRestarts(hosts[|hosts| - 1].functions);
      hide HasReload, DriverOf, Restarts;
      forall i | 0 <= i < |init| ensures hosts[i] == init[i] {
      }
    }
  }

  lemma {:induction false} OneHostFewer(a: seq<Host>, b: seq<Host>, r: nat)
    requires |a| == |b| && r < |a| && Restarts(a[r].functions) == Restarts(b[r].functions) + 1
    requires forall i | 0 <= i < |a| && i != r :: a[i].functions == b[i].functions
    ensures TotalRestarts(a) == TotalRestarts(b) + 1
  {
    hide Restarts;
    if r < |a| - 1 {
      OneHostFewer(a[..|a| - 1], b[..|b| - 1], r);
    } else {
      SameTotal(a[..r], b[..r]);
    }
  }

  lemma {:induction false} SameTotal(a: seq<Host>, b: seq<Host>)
    requires |a| == |b| && forall i | 0 <= i < |a| :: a[i].functions == b[i].functions
    ensures TotalRestarts(a) == TotalRestarts(b)
  {
    if a != [] {
      SameTotal(a[..|a| - 1], b[..|b| - 1]);
    }
  }

  lemma {:induction false} ConnectFirst(ds: seq<Device>, orders: seq<Order>)
    ensures Exec(ds, [Connect] + orders) == Exec(ds, orders)
  {
    if orders != [] {
      ConnectFirst(ds, orders[..|orders| - 1]);
      assert ([Connect] + orders)[..|orders|] == [Connect] + orders[..|orders| - 1];
    }
  }

  lemma QuietHost(hosts: seq<Host>, i: nat)
    requires i < |hosts| && ReloadHost(hosts).None? && Switchable(hosts[i].functions)
    ensures Round(hosts)[i].configured && AllInEffect(Round(hosts)[i].functions) && Switchable(Round(hosts)[i].functions)
  {
    var h := hosts[i];
    var driver := DriverOf(h.functions);
    assert h in hosts;
    hide DriverOf, Exec, AllInEffect, Switchable, ReloadHost, StopAt, Restarts;
    ReloadIffRestarts(h.functions);
    NoReloadStop(driver);
    DriverRound(h.functions);
    assert driver[..|driver|] == driver && [] + driver == driver;
    ConnectFirst(h.functions, driver);
    assert Exec(h.functions, Commands(hosts, i)) == AfterDriver(h.functions);
    assert !h.configured ==> ([Connect] + driver)[0] == Connect;
  }

  lemma RestartingHost(hosts: seq<Host>, i: nat)
    requires i < |hosts| && ReloadHost(hosts).Some? && Switchable(hosts[i].functions)
    ensures Switchable(Round(hosts)[i].functions)
    ensures if ReloadHost(hosts).value == i then Restarts(Round(hosts)[i].functions) == Restarts(hosts[i].functions) - 1
            else Round(hosts)[i].functions == hosts[i].functions
  {
    if ReloadHost(hosts).value == i {
      DriverRound(hosts[i].functions);
      ReloadIffRestarts(hosts[i].functions);
    }
  }

  /** Each plan with something to restart leaves exactly one function fewer to restart; one
      with nothing to restart settles every host. */
  lemma RoundProgress(hosts: seq<Host>)
    requires Plannable(hosts)
    ensures Plannable(Round(hosts))
    ensures TotalRestarts(hosts) > 0 ==> TotalRestarts(Round(hosts)) == TotalRestarts(hosts) - 1
    ensures TotalRestarts(hosts) == 0 ==> Settled(Round(hosts))
  {
    hide Round, Switchable, AllInEffect, Restarts, ReloadHost;
    NoRestartsLeft(hosts);
    if TotalRestarts(hosts) == 0 {
      forall i: nat | i < |hosts|
        ensures Round(hosts)[i].configured && AllInEffect(Round(hosts)[i].functions) && Switchable(Round(hosts)[i].functions)
      {
        QuietHost(hosts, i);
      }
    } else {
      forall i: nat | i < |hosts|
        ensures Switchable(Round(hosts)[i].functions)
        ensures if ReloadHost(hosts).value == i then Restarts(Round(hosts)[i].functions) == Restarts(hosts[i].functions) - 1
                else Round(hosts)[i].functions == hosts[i].functions
      {
        RestartingHost(hosts, i);
      }
      OneHostFewer(hosts, Round(hosts), ReloadHost(hosts).value);
    }
  }

  lemma SettledStays(hosts: seq<Host>)
    requires Settled(hosts) && Plannable(hosts)
    ensures Settled(Round(hosts)) && forall i: nat | i < |hosts| :: Commands(hosts, i) == []
  {
    forall i: nat | i < |hosts| ensures Restarts(hosts[i].functions) == 0 && DriverOf(hosts[i].functions) == [] {
      AllInEffectNeedNothing(hosts[i].functions);
    }
    NoRestartsLeft(hosts);
    RoundProgress(hosts);
  }

  /** Convergence: repeated planning and successful execution needs exactly as many plans
      with a restart as there were functions to restart, and one plan more settles every
      host; from then on plans are empty. */
  lemma {:induction false} Converges(hosts: seq<Host>, k: nat)
    requires Plannable(hosts)
    ensures Plannable(Rounds(hosts, k))
    ensures k <= TotalRestarts(hosts) ==> TotalRestarts(Rounds(hosts, k)) == TotalRestarts(hosts) - k
    ensures k > TotalRestarts(hosts) ==>
              Settled(Rounds(hosts, k)) && forall i: nat | i < |hosts| :: Commands(Rounds(hosts, k), i) == []
    decreases k
  {
    hide Settled, Plannable, TotalRestarts, Round, Commands;
    RoundProgress(hosts);
    if k > 0 {
      if TotalRestarts(hosts) > 0 {
        Converges(Round(hosts), k - 1);
      } else {
        StaysSettled(Round(hosts), k - 1);
      }
    }
  }

  lemma {:induction false} StaysSettled(hosts: seq<Host>, k: nat)
    requires Plannable(hosts) && Settled(hosts)
    ensures Plannable(Rounds(hosts, k)) && Settled(Rounds(hosts, k))
    ensures forall i: nat | i < |hosts| :: Commands(Rounds(hosts, k), i) == []
    decreases k
  {
    hide Settled, Plannable, Round, Commands;
    SettledStays(hosts);
    if k > 0 {
      RoundProgress(hosts);
      StaysSettled(Round(hosts), k - 1);
    }
  }

  ghost predicate AllTrusted(hosts: seq<Host>) {
    forall i, f | 0 <= i < |hosts| && 0 <= f < |hosts[i].functions| :: Trusted(hosts[i].functions[f])
  }

  lemma RoundKeepsTrust(hosts: seq<Host>)
    requires AllTrusted(hosts)
    ensures AllTrusted(Round(hosts))
  {
    forall i: nat, f: nat | i < |hosts| && f < |hosts[i].functions| ensures Trusted(Round(hosts)[i].functions[f]) {
      var ds := hosts[i].functions;
      var driver := DriverOf(ds);
      var n := if ReloadHost(hosts).None? then |driver| else if ReloadHost(hosts).value == i then StopAt(driver) else 0;
      assert Trusted(ds[f]);
      HostKeepsTrust(ds, n, false, f);
      assert driver[..|driver|] == driver && driver[..0] == [] && [] + driver == driver;
      ConnectFirst(ds, driver);
      assert Exec(ds, Commands(hosts, i)) == ExecInterrupted(ds, driver, n, false);
    }
  }

  lemma SettledIsTrue(hosts: seq<Host>)
    requires Settled(hosts) && AllTrusted(hosts)
    ensures AllInUse(hosts)
  {
    forall i, f | 0 <= i < |hosts| && 0 <= f < |hosts[i].functions|
      ensures hosts[i].functions[f].applied == REQUIRED && hosts[i].functions[f].offload == On
    {
      assert AllInEffect(hosts[i].functions);
      assert Trusted(hosts[i].functions[f]);
    }
  }

  /** The hardware of every function uses the required values and offload is on. */
  ghost predicate AllInUse(hosts: seq<Host>) {
    forall i, f | 0 <= i < |hosts| && 0 <= f < |hosts[i].functions| ::
      hosts[i].functions[f].applied == REQUIRED && hosts[i].functions[f].offload == On
  }

  /** Starting from counters that can be trusted, what repeated planning reports in the end
      is really in use. */
  lemma ConvergesTruthfully(hosts: seq<Host>, k: nat)
    requires Plannable(hosts) && AllTrusted(hosts)
    ensures k > TotalRestarts(hosts) ==> AllInUse(Rounds(hosts, k))
  {
    hide *;
    Converges(hosts, k);
    TrustedRounds(hosts, k);
    if k > TotalRestarts(hosts) {
      SettledIsTrue(Rounds(hosts, k));
    }
  }

  lemma {:induction false} TrustedRounds(hosts: seq<Host>, k: nat)
    requires AllTrusted(hosts)
    ensures AllTrusted(Rounds(hosts, k))
    decreases k
  {
    hide Round, AllTrusted;
    if k > 0 {
      RoundKeepsTrust(hosts);
      TrustedRounds(Round(hosts), k - 1);
    }
  }
}
