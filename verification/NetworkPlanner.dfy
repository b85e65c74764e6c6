/** Network plans over many functions and many hosts: step lists of one host, at most one
    driver restart per plan, and what repeated planning converges to. */
module NetworkPlanner {
  import opened Wrappers
  import opened Hairpin

  /** A command of a host's plan: its NetworkManager changes, taken together, or a driver
      command for one of its functions. */
  datatype Order = Connect | Drive(port: nat, command: Command)

  function Tag(f: nat, cs: seq<Command>): (r: seq<Order>)
    ensures |r| == |cs|
  {
    seq(|cs|, i requires 0 <= i < |cs| => Drive(f, cs[i]))
  }

  // ---- one host's lists ----

  function DriverOf(ds: seq<Device>): seq<Order> {
    if ds == [] then []
    else DriverOf(ds[..|ds| - 1]) + Tag(|ds| - 1, PlannedApply(ds[|ds| - 1]))
  }

  function RollbackOf(ds: seq<Device>): seq<Order> {
    if ds == [] then []
    else Tag(|ds| - 1, PlannedRollback(ds[|ds| - 1])) + RollbackOf(ds[..|ds| - 1])
  }

  /** Plan every function of a host; reverse steps go to the front. */
  method PlanFunctions(ds: seq<Device>) returns (plan: Option<(seq<Order>, seq<Order>)>)
    ensures plan.None? <==> exists i :: 0 <= i < |ds| && ds[i].offload == Fixed
    ensures plan.Some? ==> plan.value == (DriverOf(ds), RollbackOf(ds))
  {
    hide ApplyFor, RollbackFor, FunctionState, Tag;
    var driver, rollback := [], [];
    for i := 0 to |ds|
      invariant driver == DriverOf(ds[..i]) && rollback == RollbackOf(ds[..i])
      invariant forall k | 0 <= k < i :: ds[k].offload != Fixed
    {
      var one := PlanDriver(Observe(ds[i]));
      if one.None? {
        return None;
      }
      assert ds[..i + 1][..i] == ds[..i];
      driver := driver + Tag(i, one.value.apply);
      rollback := Tag(i, one.value.rollback) + rollback;
    }
    assert ds[..|ds|] == ds;
    return Some((driver, rollback));
  }

  // ---- executing a list on one host ----

  function Exec(ds: seq<Device>, orders: seq<Order>): (r: seq<Device>)
    ensures |r| == |ds|
  {
    if orders == [] then ds
    else
      var before := Exec(ds, orders[..|orders| - 1]);
      var last := orders[|orders| - 1];
      if last.Drive? && last.port < |ds| then
        before[last.port := Take(before[last.port], Effect(last.command))]
      else before
  }

  /** The first `n` orders took effect; if asked, the next one is a restart that failed. */
  function ExecInterrupted(ds: seq<Device>, orders: seq<Order>, n: nat, failing: bool): (r: seq<Device>)
    requires n <= |orders|
    ensures |r| == |ds|
  {
    var es := Exec(ds, orders[..n]);
    if failing && n < |orders| && orders[n].Drive? && orders[n].command.Reload? && orders[n].port < |ds| then
      es[orders[n].port := Take(es[orders[n].port], ReloadFailed)]
    else es
  }

  /** The commands of one function in a list. */
  function Only(orders: seq<Order>, f: nat): seq<Command> {
    if orders == [] then []
    else
      var last := orders[|orders| - 1];
      Only(orders[..|orders| - 1], f) + if last.Drive? && last.port == f then [last.command] else []
  }

  lemma {:induction false} OnlyConcat(a: seq<Order>, b: seq<Order>, f: nat)
    ensures Only(a + b, f) == Only(a, f) + Only(b, f)
  {
    if b == [] {
      assert a + b == a;
    } else {
      OnlyConcat(a, b[..|b| - 1], f);
      assert (a + b)[..|a + b| - 1] == a + b[..|b| - 1];
    }
  }

  lemma {:induction false} OnlyTag(g: nat, cs: seq<Command>, f: nat)
    ensures Only(Tag(g, cs), f) == if f == g then cs else []
  {
    if cs != [] {
      OnlyTag(g, cs[..|cs| - 1], f);
      assert Tag(g, cs)[..|cs| - 1] == Tag(g, cs[..|cs| - 1]);
    }
  }

  /** Functions do not disturb each other: each sees only its own commands. */
  lemma {:induction false} ExecIsPointwise(ds: seq<Device>, orders: seq<Order>, f: nat)
    requires f < |ds|
    ensures Exec(ds, orders)[f] == Run(ds[f], Effects(Only(orders, f)))
  {
    if orders != [] {
      var init, last := orders[..|orders| - 1], orders[|orders| - 1];
      ExecIsPointwise(ds, init, f);
      if last.Drive? && last.port == f {
        EffectsConcat(Only(init, f), [last.command]);
        RunConcat(ds[f], Effects(Only(init, f)), Effects([last.command]));
        Unroll(Run(ds[f], Effects(Only(init, f))), Effects([last.command]));
      } else {
        assert Only(orders, f) == Only(init, f);
      }
    }
  }

  /** A prefix that reaches into the last function's block. */
  lemma BlockPrefix(ds: seq<Device>, init: seq<Order>, cs: seq<Command>, r: nat, f: nat)
    requires ds != [] && init == DriverOf(ds[..|ds| - 1]) && cs == PlannedApply(ds[|ds| - 1]) && r <= |cs|
    ensures |DriverOf(ds)| == |init| + |cs|
    ensures Only(DriverOf(ds)[..|init| + r], f) == Only(init, f) + if f == |ds| - 1 then cs[..r] else []
  {
    hide PlannedApply, Only;
    var k := |ds| - 1;
    var block := Tag(k, cs);
    hide DriverOf;
    assert (init + block)[..|init| + r] == init + block[..r];
    OnlyConcat(init, block[..r], f);
    assert block[..r] == Tag(k, cs[..r]);
    OnlyTag(k, cs[..r], f);
  }

  /** Every order of a host's list is for one of its functions. */
  lemma {:induction false} Named(ds: seq<Device>, n: nat)
    requires n < |DriverOf(ds)|
    ensures DriverOf(ds)[n].Drive? && DriverOf(ds)[n].port < |ds|
  {
    hide PlannedApply;
    var init := DriverOf(ds[..|ds| - 1]);
    if n < |init| {
      Named(ds[..|ds| - 1], n);
    }
  }

  lemma NoneIn(f: nat)
    ensures Only([], f) == []
  {
  }

  lemma {:induction false} Foreign(ds: seq<Device>, n: nat, f: nat)
    requires n <= |DriverOf(ds)| && f >= |ds|
    ensures Only(DriverOf(ds)[..n], f) == []
  {
    hide PlannedApply, Only;
    NoneIn(f);
    if ds != [] {
      var init := DriverOf(ds[..|ds| - 1]);
      if n <= |init| {
        Foreign(ds[..|ds| - 1], n, f);
        assert DriverOf(ds)[..n] == init[..n];
      } else {
        Foreign(ds[..|ds| - 1], |init|, f);
        assert init[..|init|] == init;
        BlockPrefix(ds, init, PlannedApply(ds[|ds| - 1]), n - |init|, f);
      }
    }
  }

  /** What an interruption after `n` orders means for function `f`. */
  lemma {:induction false} Covered(ds: seq<Device>, n: nat, f: nat) returns (m: nat)
    requires n <= |DriverOf(ds)| && f < |ds|
    ensures m <= |PlannedApply(ds[f])| && Only(DriverOf(ds)[..n], f) == PlannedApply(ds[f])[..m]
    ensures n == |DriverOf(ds)| ==> m == |PlannedApply(ds[f])|
    ensures n < |DriverOf(ds)| && DriverOf(ds)[n].Drive? && DriverOf(ds)[n].port == f ==>
              m < |PlannedApply(ds[f])| && PlannedApply(ds[f])[m] == DriverOf(ds)[n].command
  {
    hide PlannedApply, Only;
    var k := |ds| - 1;
    var init := DriverOf(ds[..k]);
    if n <= |init| {
      assert DriverOf(ds)[..n] == init[..n];
      if f < k {
        m := Covered(ds[..k], n, f);
      } else {
        m := 0;
        Foreign(ds[..k], n, f);
        if n < |init| {
          Named(ds[..k], n);
        }
      }
    } else {
      assert init[..|init|] == init;
      BlockPrefix(ds, init, PlannedApply(ds[k]), n - |init|, f);
      if f < k {
        m := Covered(ds[..k], |init|, f);
      } else {
        m := n - |init|;
        Foreign(ds[..k], |init|, f);
      }
    }
  }

  /** Every interruption of a host's list interrupts each function's own list. */
  lemma InterruptedPointwise(ds: seq<Device>, n: nat, failing: bool, f: nat) returns (m: nat, fails: bool)
    requires n <= |DriverOf(ds)| && f < |ds|
    ensures m <= |PlannedApply(ds[f])|
    ensures ExecInterrupted(ds, DriverOf(ds), n, failing)[f] == Run(ds[f], Interrupted(PlannedApply(ds[f]), m, fails))
    ensures n == |DriverOf(ds)| ==> m == |PlannedApply(ds[f])| && !fails
  {
    hide PlannedApply, DriverOf, Only, Exec, Run;
    var orders := DriverOf(ds);
    m := Covered(ds, n, f);
    if n < |orders| {
      Named(ds, n);
    }
    ExecIsPointwise(ds, orders[..n], f);
    fails := failing && n < |orders| && orders[n].command.Reload? && orders[n].port == f;
    var own := Effects(PlannedApply(ds[f])[..m]);
    if fails {
      RunConcat(ds[f], own, [ReloadFailed]);
      Unroll(Run(ds[f], own), [ReloadFailed]);
    } else {
      assert own + [] == own;
      assert Interrupted(PlannedApply(ds[f]), m, false) == own;
    }
  }

  /** Stopping a host's driver steps anywhere, or a restart failing, leaves every function's
      report truthful. */
  lemma HostKeepsTrust(ds: seq<Device>, n: nat, failing: bool, f: nat)
    requires n <= |DriverOf(ds)| && f < |ds| && Trusted(ds[f])
    ensures var after := ExecInterrupted(ds, DriverOf(ds), n, failing)[f];
            Trusted(after) && (FunctionState(Observe(after)) == InEffect ==> after.applied == REQUIRED)
  {
    var m, fails := InterruptedPointwise(ds, n, failing, f);
    PlanKeepsTrust(ds[f], m, fails);
  }

  lemma {:induction false} RollbackOnly(ds: seq<Device>, f: nat)
    ensures Only(RollbackOf(ds), f) == if f < |ds| then PlannedRollback(ds[f]) else []
  {
    hide PlannedRollback;
    if ds != [] {
      var k := |ds| - 1;
      RollbackOnly(ds[..k], f);
      OnlyTag(k, PlannedRollback(ds[k]), f);
      OnlyConcat(Tag(k, PlannedRollback(ds[k])), RollbackOf(ds[..k]), f);
    }
  }

  function RolledBackHost(ds: seq<Device>, n: nat, failing: bool): (r: seq<Device>)
    requires n <= |DriverOf(ds)|
    ensures |r| == |ds|
  {
    Exec(ExecInterrupted(ds, DriverOf(ds), n, failing), RollbackOf(ds))
  }

  lemma RolledBackPointwise(ds: seq<Device>, n: nat, failing: bool, f: nat) returns (m: nat, fails: bool)
    requires n <= |DriverOf(ds)| && f < |ds|
    ensures m <= |PlannedApply(ds[f])| && RolledBackHost(ds, n, failing)[f] == RolledBack(ds[f], m, fails)
    ensures n == |DriverOf(ds)| ==> m == |PlannedApply(ds[f])| && !fails
  {
    m, fails := InterruptedPointwise(ds, n, failing, f);
    ExecIsPointwise(ExecInterrupted(ds, DriverOf(ds), n, failing), RollbackOf(ds), f);
    RollbackOnly(ds, f);
  }

  lemma FullRollbackLoses(ds: seq<Device>, failing: bool, f: nat)
    requires f < |ds| && !Restorable(ds[f])
    ensures !SameSetting(ds[f], RolledBackHost(ds, |DriverOf(ds)|, failing)[f])
  {
    hide RolledBackHost, RolledBack, SameSetting, Restorable;
    var m, fails := RolledBackPointwise(ds, |DriverOf(ds)|, failing, f);
    RollbackRestores(ds[f]);
  }

  /** A host's rollback restores every function after any interruption exactly when each
      function alone could be restored. */
  lemma HostRollbackRestores(ds: seq<Device>)
    ensures (forall n: nat, failing, f: nat | n <= |DriverOf(ds)| && f < |ds| ::
               SameSetting(ds[f], RolledBackHost(ds, n, failing)[f]))
       <==> forall f | 0 <= f < |ds| :: Restorable(ds[f])
  {
    hide RolledBackHost, RolledBack, SameSetting, Restorable;
    forall n: nat, failing, f: nat | n <= |DriverOf(ds)| && f < |ds| && Restorable(ds[f])
      ensures SameSetting(ds[f], RolledBackHost(ds, n, failing)[f])
    {
      var m, fails := RolledBackPointwise(ds, n, failing, f);
      RollbackRestores(ds[f]);
    }
    forall f: nat | f < |ds| && !Restorable(ds[f])
      ensures !SameSetting(ds[f], RolledBackHost(ds, |DriverOf(ds)|, false)[f])
    {
      FullRollbackLoses(ds, false, f);
    }
  }
}
