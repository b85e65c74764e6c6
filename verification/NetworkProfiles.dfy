/** NetworkManager changes of a network plan: which profile a data port gets, who must own
    what is replaced, and how the reverse steps undo the steps. */
module NetworkProfiles {
  import opened Wrappers

  /** A profile identifier: the one derived from a port for a given owner and rank, or any other. */
  datatype Uuid = Derived(role: string, netdev: string, address: string) | Given(text: string)

  datatype Name = DerivedName(role: string) | GivenName(text: string)

  /** The settings a plan may change, and everything else in a profile. */
  datatype Settings = Settings(
    method4: string,
    addresses: seq<string>,
    neverDefault4: bool,
    ignoreDns4: bool,
    method6: string,
    neverDefault6: bool,
    mtu: nat,  // 0 stands for `auto`
    autoconnect: bool,
    rest: string)

  datatype Profile = Profile(name: Name, netdev: string, settings: Settings)

  /** NetworkManager on one host: saved profiles, the active one of each device, and the
      settings each device runs with. */
  datatype State = State(profiles: map<Uuid, Profile>, active: map<string, Uuid>, live: map<string, Settings>)

  /** The recorded facts of a port's active connection; anything may be unknown. */
  datatype Nm = Nm(
    uuid: Option<Uuid>,
    method4: Option<string>,
    addresses: Option<seq<string>>,
    neverDefault4: Option<bool>,
    ignoreDns4: Option<bool>,
    method6: Option<string>,
    neverDefault6: Option<bool>,
    mtu: Option<nat>,
    autoconnect: Option<bool>,
    error: bool)

  datatype Interface = Interface(ipv4: seq<string>, mtu: nat, nm: Nm)

  datatype Port = Port(
    role: string,
    netdev: string,
    address: string,
    replace: Option<Uuid>,
    update: Option<Uuid>)

  datatype Command =
    | Modify(uuid: Uuid, settings: Settings)  // every changeable setting; `rest` is not touched
    | Reapply(netdev: string)
    | Create(uuid: Uuid, profile: Profile)
    | Up(uuid: Uuid)
    | DeleteOwned(uuid: Uuid)

  datatype Action = Nothing | Modified | Created(uuid: Uuid)

  datatype Refusal =
    | SavedUnknown | WrongReplacement | Unowned | WrongUpdate | NoConnection
    | Collision | InactiveOwned | OwnedDiffers | SettingsUnknown

  datatype PortPlan = PortPlan(action: Action, apply: seq<Command>, rollback: seq<Command>)

  datatype Result = Planned(plan: PortPlan) | Refused(why: Refusal)

  // ---- planning one port ----

  function Identifier(port: Port): Uuid {
    Derived(port.role, port.netdev, port.address)
  }

  function WantedFor(address: string, rest: string): Settings {
    Settings("manual", [address], true, true, "link-local", true, 9000, true, rest)
  }

  /** Is the port as planned already? */
  predicate Matches(i: Interface, address: string) {
    && i.ipv4 == [address] && i.mtu == 9000
    && i.nm.addresses == Some([address]) && i.nm.mtu == Some(9000) && i.nm.uuid.Some?
    && i.nm.method4 == Some("manual") && i.nm.neverDefault4 == Some(true) && i.nm.ignoreDns4 == Some(true)
    && (i.nm.method6 == Some("link-local") || i.nm.method6 == Some("auto"))
    && i.nm.neverDefault6 == Some(true) && i.nm.autoconnect == Some(true)
  }

  /** The settings a rollback writes: an unknown flag counts as off, an MTU read without error
      and not given is `auto`. */
  function Saved(nm: Nm): Settings
    requires nm.method4.Some? && nm.addresses.Some? && nm.method6.Some?
  {
    Settings(
      nm.method4.value,
      nm.addresses.value,
      nm.neverDefault4 == Some(true),
      nm.ignoreDns4 == Some(true),
      nm.method6.value,
      nm.neverDefault6 == Some(true),
      if nm.mtu.Some? then nm.mtu.value else 0,
      nm.autoconnect == Some(true),
      "")
  }

  predicate Collides(c: (Uuid, Name), port: Port) {
    c.0 == Identifier(port) || c.1 == DerivedName(port.role)
  }

  /** May this port be planned? What is replaced must be owned, or be exactly the authorized
      profile; what is created must be unused; and what a rollback needs must be known. */
  ghost predicate Plannable(port: Port, i: Interface, connections: seq<(Uuid, Name)>, owned: set<Uuid>) {
    var previous := i.nm.uuid;
    && (previous.Some? ==> i.nm.addresses.Some? && (i.nm.mtu.Some? || !i.nm.error))
    && (Matches(i, port.address) || (
        && (port.replace.Some? ==> port.replace == previous)
        && (previous.Some? ==> previous.value in owned || port.replace == previous)
        && if port.update.Some? then
             port.update == previous && i.nm.method4.Some? && i.nm.method6.Some?
           else
             && (previous.Some? || i.ipv4 == [])
             && previous != Some(Derived(port.role, port.netdev, port.address))
             && forall c | c in connections ::
                  c.0 != Derived(port.role, port.netdev, port.address) && c.1 != DerivedName(port.role)))
  }

  /** What a refusal says about the port. */
  ghost predicate Defect(why: Refusal, port: Port, i: Interface, connections: seq<(Uuid, Name)>, owned: set<Uuid>) {
    var previous := i.nm.uuid;
    match why
    case SavedUnknown => previous.Some? && (i.nm.addresses.None? || (i.nm.mtu.None? && i.nm.error))
    case WrongReplacement => port.replace.Some? && port.replace != previous
    case Unowned => previous.Some? && previous.value !in owned && port.replace != previous
    case WrongUpdate => port.update.Some? && port.update != previous
    case SettingsUnknown => port.update.Some? && (i.nm.method4.None? || i.nm.method6.None?)
    case NoConnection => previous.None? && i.ipv4 != []
    case Collision => exists c :: c in connections && Collides(c, port)
    case InactiveOwned => previous != Some(Identifier(port)) && exists c :: c in connections && Collides(c, port)
    case OwnedDiffers => previous == Some(Identifier(port))
  }

  method PlanConnection(port: Port, i: Interface, connections: seq<(Uuid, Name)>, owned: set<Uuid>) returns (r: Result)
    ensures r.Planned? <==> Plannable(port, i, connections, owned)
    ensures r.Refused? ==> Defect(r.why, port, i, connections, owned)
    ensures r.Planned? && r.plan.action.Nothing? <==> Matches(i, port.address) && r.Planned?
    ensures r.Planned? ==> PlanFits(port, i.nm, r.plan)
    // what is replaced or changed is owned, or is exactly the authorized profile
    ensures r.Planned? && !r.plan.action.Nothing? && i.nm.uuid.Some? ==>
              i.nm.uuid.value in owned || port.replace == i.nm.uuid
    ensures r.Planned? && !r.plan.action.Nothing? && port.replace.Some? ==> port.replace == i.nm.uuid
    // a profile is created only under an unused identifier and name, on a port whose addresses are accounted for
    ensures r.Planned? && r.plan.action.Created? ==>
              && (forall c | c in connections :: !Collides(c, port))
              && i.nm.uuid != Some(Identifier(port)) && (i.nm.uuid.Some? || i.ipv4 == [])
    ensures r.Planned? && r.plan.action.Modified? ==> port.update.Some? && port.update == i.nm.uuid
  {
    var nm := i.nm;
    var previous := nm.uuid;
    if previous.Some? && (nm.addresses.None? || (nm.mtu.None? && nm.error)) {
      return Refused(SavedUnknown);
    }
    if Matches(i, port.address) {
      return Planned(PortPlan(Nothing, [], []));
    }
    if port.replace.Some? && previous != port.replace {
      return Refused(WrongReplacement);
    }
    if previous.Some? && previous.value !in owned && previous != port.replace {
      return Refused(Unowned);
    }
    if port.update.Some? {
      if port.update != previous {
        return Refused(WrongUpdate);
      }
      if nm.method4.None? || nm.method6.None? {
        return Refused(SettingsUnknown);
      }
      return Planned(PortPlan(
        Modified,
        [Modify(previous.value, WantedFor(port.address, "")), Reapply(port.netdev)],
        [Modify(previous.value, Saved(nm)), Reapply(port.netdev)]));
    }
    if previous.None? && i.ipv4 != [] {
      return Refused(NoConnection);
    }
    var identifier := Identifier(port);
    var collisions: seq<(Uuid, Name)> := [];
    for k := 0 to |connections|
      invariant collisions == [] <==> forall c | c in connections[..k] :: !Collides(c, port)
    {
      assert connections[..k + 1] == connections[..k] + [connections[k]];
      if Collides(connections[k], port) {
        collisions := collisions + [connections[k]];
      }
    }
    assert connections[..|connections|] == connections;
    if collisions != [] && (|collisions| != 1 || collisions[0].0 != identifier || identifier !in owned) {
      return Refused(Collision);
    }
    if collisions != [] && previous != Some(identifier) {
      return Refused(InactiveOwned);
    }
    if previous == Some(identifier) {
      return Refused(OwnedDiffers);
    }
    var profile := Profile(DerivedName(port.role), port.netdev, WantedFor(port.address, ""));
    return Planned(PortPlan(
      Created(identifier),
      [Create(identifier, profile), Up(identifier)],
      [DeleteOwned(identifier)] + if previous.Some? then [Up(previous.value)] else []));
  }

  /** The steps and reverse steps a port's plan may consist of. */
  predicate PlanFits(port: Port, nm: Nm, plan: PortPlan) {
    match plan.action
    case Nothing => plan.apply == [] && plan.rollback == []
    case Modified =>
      && nm.uuid.Some? && nm.method4.Some? && nm.addresses.Some? && nm.method6.Some? && (nm.mtu.Some? || !nm.error)
      && plan.apply == [Modify(nm.uuid.value, WantedFor(port.address, "")), Reapply(port.netdev)]
      && plan.rollback == [Modify(nm.uuid.value, Saved(nm)), Reapply(port.netdev)]
    case Created(u) =>
      && u == Identifier(port)
      && plan.apply == [Create(u, Profile(DerivedName(port.role), port.netdev, WantedFor(port.address, ""))), Up(u)]
      && plan.rollback == [DeleteOwned(u)] + if nm.uuid.Some? then [Up(nm.uuid.value)] else []
  }

  // ---- what commands do ----

  function Do(s: State, c: Command): State {
    match c
    case Modify(u, settings) =>
      if u !in s.profiles then s
      else s.(profiles := s.profiles[u := s.profiles[u].(settings := settings.(rest := s.profiles[u].settings.rest))])
    case Reapply(dev) =>
      if dev !in s.active || s.active[dev] !in s.profiles then s
      else s.(live := s.live[dev := s.profiles[s.active[dev]].settings])
    case Create(u, profile) =>
      if u in s.profiles then s else s.(profiles := s.profiles[u := profile])
    case Up(u) =>
      if u !in s.profiles then s
      else
        var p := s.profiles[u];
        s.(active := s.active[p.netdev := u], live := s.live[p.netdev := p.settings])
    case DeleteOwned(u) =>
      if u !in s.profiles then s
      else
        State(
          s.profiles - {u},
          map d | d in s.active && s.active[d] != u :: s.active[d],
          map d | d in s.live && !(d in s.active && s.active[d] == u) :: s.live[d])
  }

  function Run(s: State, cs: seq<Command>): State {
    if cs == [] then s else Do(Run(s, cs[..|cs| - 1]), cs[|cs| - 1])
  }

  lemma {:induction false} RunConcat(s: State, a: seq<Command>, b: seq<Command>)
    ensures Run(s, a + b) == Run(Run(s, a), b)
  {
    if b == [] {
      assert a + b == a;
    } else {
      RunConcat(s, a, b[..|b| - 1]);
      assert (a + b)[..|a + b| - 1] == a + b[..|b| - 1];
    }
  }

  lemma RunTwo(s: State, cs: seq<Command>)
    requires |cs| <= 2
    ensures |cs| == 0 ==> Run(s, cs) == s
    ensures |cs| == 1 ==> Run(s, cs) == Do(s, cs[0])
    ensures |cs| == 2 ==> Run(s, cs) == Do(Do(s, cs[0]), cs[1])
  {
    if |cs| == 2 {
      assert cs[..1][..0] == [];
    }
  }

  /** Active connections are saved profiles of their own device, and exactly the devices with
      one have settings in use. */
  ghost predicate Sensible(s: State) {
    && (forall d | d in s.active :: s.active[d] in s.profiles && s.profiles[s.active[d]].netdev == d)
    && s.active.Keys == s.live.Keys
  }

  /** The inventory told the truth about this port when it was planned, and the device runs
      with its profile's settings. */
  ghost predicate Observed(s: State, port: Port, nm: Nm) {
    match nm.uuid
    case None => port.netdev !in s.active
    case Some(u) =>
      && port.netdev in s.active && s.active[port.netdev] == u
      && u in s.profiles && port.netdev in s.live && s.live[port.netdev] == s.profiles[u].settings
      && var t := s.profiles[u].settings;
         && (nm.method4.Some? ==> nm.method4.value == t.method4)
         && (nm.addresses.Some? ==> nm.addresses.value == t.addresses)
         && (nm.neverDefault4.Some? ==> nm.neverDefault4.value == t.neverDefault4)
         && (nm.ignoreDns4.Some? ==> nm.ignoreDns4.value == t.ignoreDns4)
         && (nm.method6.Some? ==> nm.method6.value == t.method6)
         && (nm.neverDefault6.Some? ==> nm.neverDefault6.value == t.neverDefault6)
         && (nm.mtu.Some? ==> nm.mtu.value == t.mtu)
         && (nm.mtu.None? && !nm.error ==> t.mtu == 0)
         && (nm.autoconnect.Some? ==> nm.autoconnect.value == t.autoconnect)
  }

  /** Every flag the inventory does not know happens to be off. */
  ghost predicate UnknownsAreOff(s: State, nm: Nm) {
    nm.uuid.Some? && nm.uuid.value in s.profiles ==>
      var t := s.profiles[nm.uuid.value].settings;
      && (nm.neverDefault4.None? ==> !t.neverDefault4)
      && (nm.ignoreDns4.None? ==> !t.ignoreDns4)
      && (nm.neverDefault6.None? ==> !t.neverDefault6)
      && (nm.autoconnect.None? ==> !t.autoconnect)
  }

  /** Is the created identifier unused? */
  ghost predicate Unused(s: State, plan: PortPlan) {
    plan.action.Created? ==> plan.action.uuid !in s.profiles
  }

  /** All steps of a port bring its active profile and its device to the planned settings. */
  lemma ApplyReaches(s: State, port: Port, nm: Nm, plan: PortPlan)
    requires Sensible(s) && Observed(s, port, nm) && Unused(s, plan) && PlanFits(port, nm, plan) && !plan.action.Nothing?
    ensures var t := Run(s, plan.apply);
            && Sensible(t) && port.netdev in t.active && t.active[port.netdev] in t.profiles
            && t.profiles[t.active[port.netdev]].settings == t.live[port.netdev]
            && t.live[port.netdev] ==
                 Settings("manual", [port.address], true, true, "link-local", true, 9000, true, t.live[port.netdev].rest)
  {
    RunTwo(s, plan.apply);
  }

  /** A full and truthful reading of a port: its active profile's settings, and the addresses
      and the MTU its device runs with. */
  ghost predicate Reads(s: State, dev: string, i: Interface) {
    && dev in s.active && s.active[dev] in s.profiles && dev in s.live
    && i.ipv4 == s.live[dev].addresses && i.mtu == s.live[dev].mtu
    && var t := s.profiles[s.active[dev]].settings;
       && i.nm.uuid == Some(s.active[dev])
       && i.nm.method4 == Some(t.method4) && i.nm.addresses == Some(t.addresses)
       && i.nm.neverDefault4 == Some(t.neverDefault4) && i.nm.ignoreDns4 == Some(t.ignoreDns4)
       && i.nm.method6 == Some(t.method6) && i.nm.neverDefault6 == Some(t.neverDefault6)
       && i.nm.mtu == Some(t.mtu) && i.nm.autoconnect == Some(t.autoconnect)
  }

  /** A port that was planned and applied is as planned at the next reading, so that planning
      it again asks for nothing. */
  lemma AppliedMatches(s: State, port: Port, nm: Nm, plan: PortPlan, i: Interface)
    requires Sensible(s) && Observed(s, port, nm) && Unused(s, plan) && PlanFits(port, nm, plan) && !plan.action.Nothing?
    requires Reads(Run(s, plan.apply), port.netdev, i)
    ensures Matches(i, port.address)
  {
    hide Run, WantedFor;
    ApplyReaches(s, port, nm, plan);
  }

  /** A port of which nothing is asked runs with the planned settings already; its link-local
      IPv6 addresses may come from automatic configuration. */
  lemma NothingMeansInPlace(s: State, port: Port, i: Interface)
    requires Matches(i, port.address) && Observed(s, port, i.nm)
    ensures i.ipv4 == [port.address] && i.mtu == 9000 && port.netdev in s.live
    ensures var t := s.live[port.netdev];
            && t == Settings("manual", [port.address], true, true, t.method6, true, 9000, true, t.rest)
            && (t.method6 == "link-local" || t.method6 == "auto")
  {
  }

  /** What changing settings of one profile, with or without reapplying, leads to. */
  lemma RunModify(s: State, u: Uuid, dev: string, settings: Settings)
    requires dev in s.active && s.active[dev] == u && u in s.profiles
    ensures var p := s.profiles[u].(settings := settings.(rest := s.profiles[u].settings.rest));
            && Do(s, Modify(u, settings)) == s.(profiles := s.profiles[u := p])
            && Run(s, [Modify(u, settings), Reapply(dev)])
               == s.(profiles := s.profiles[u := p], live := s.live[dev := p.settings])
  {
    RunTwo(s, [Modify(u, settings), Reapply(dev)]);
  }

  /** Where a prefix of the modifying steps leaves the host. */
  lemma RunModified(s: State, u: Uuid, dev: string, wanted: Settings, m: nat)
    requires dev in s.active && s.active[dev] == u && u in s.profiles && dev in s.live && m <= 2
    requires s.live[dev] == s.profiles[u].settings
    ensures var t := Run(s, [Modify(u, wanted), Reapply(dev)][..m]);
            && t.active == s.active
            && u in t.profiles && t.profiles == s.profiles[u := s.profiles[u].(settings := t.profiles[u].settings)]
            && t.profiles[u].settings.rest == s.profiles[u].settings.rest
            && dev in t.live && t.live == s.live[dev := t.live[dev]]
  {
    RunTwo(s, [Modify(u, wanted), Reapply(dev)][..m]);
    RunModify(s, u, dev, wanted);
    assert m == 2 ==> [Modify(u, wanted), Reapply(dev)][..m] == [Modify(u, wanted), Reapply(dev)];
  }

  lemma SavedIsSame(s: State, port: Port, nm: Nm)
    requires Observed(s, port, nm) && nm.uuid.Some? && (nm.mtu.Some? || !nm.error)
    requires nm.method4.Some? && nm.addresses.Some? && nm.method6.Some?
    ensures var settings := s.profiles[nm.uuid.value].settings;
            Saved(nm).(rest := settings.rest) == settings <==> UnknownsAreOff(s, nm)
  {
  }

  lemma UndoModify(s: State, port: Port, nm: Nm, plan: PortPlan, m: nat)
    requires Sensible(s) && Observed(s, port, nm) && PlanFits(port, nm, plan) && plan.action.Modified? && m <= 2
    ensures Run(Run(s, plan.apply[..m]), plan.rollback) == s <==> UnknownsAreOff(s, nm)
  {
    hide Run, UnknownsAreOff, Saved, WantedFor;
    var u, dev := nm.uuid.value, port.netdev;
    SavedIsSame(s, port, nm);
    RunModified(s, u, dev, WantedFor(port.address, ""), m);
    var t := Run(s, plan.apply[..m]);
    RunModify(t, u, dev, Saved(nm));
    var p := s.profiles[u];
    var settings := Saved(nm).(rest := p.settings.rest);
    ModifiedBack(s, u, dev, settings, Run(t, plan.rollback));
  }

  lemma ModifiedBack(s: State, u: Uuid, dev: string, settings: Settings, back: State)
    requires u in s.profiles && dev in s.live && s.live[dev] == s.profiles[u].settings
    requires back.active == s.active && back.live == s.live[dev := settings]
    requires back.profiles == s.profiles[u := s.profiles[u].(settings := settings)]
    ensures back == s <==> settings == s.profiles[u].settings
  {
    if settings == s.profiles[u].settings {
      assert back.profiles == s.profiles && back.live == s.live;
    } else {
      assert back.profiles[u] != s.profiles[u];
    }
  }

  /** Where a prefix of the creating steps leaves the host. */
  lemma RunCreate(s: State, u: Uuid, profile: Profile, m: nat)
    requires u !in s.profiles && m <= 2
    ensures var t := Run(s, [Create(u, profile), Up(u)][..m]);
            && t.profiles == (if m == 0 then s.profiles else s.profiles[u := profile])
            && t.active == (if m < 2 then s.active else s.active[profile.netdev := u])
            && t.live == (if m < 2 then s.live else s.live[profile.netdev := profile.settings])
  {
    RunTwo(s, [Create(u, profile), Up(u)][..m]);
  }

  lemma UndoCreate(s: State, port: Port, nm: Nm, plan: PortPlan, m: nat)
    requires Sensible(s) && Observed(s, port, nm) && Unused(s, plan) && PlanFits(port, nm, plan) && plan.action.Created? && m <= 2
    ensures Run(Run(s, plan.apply[..m]), plan.rollback) == s
  {
    hide Run, WantedFor;
    var u, dev := plan.action.uuid, port.netdev;
    RunCreate(s, u, plan.apply[0].profile, m);
    var t := Run(s, plan.apply[..m]);
    RunTwo(t, plan.rollback);
    var gone := Do(t, DeleteOwned(u));
    DeleteCreated(s, u, plan.apply[0].profile, m, t);
    CreateUndone(s, port, nm, gone);
  }

  lemma DeleteCreated(s: State, u: Uuid, profile: Profile, m: nat, t: State)
    requires Sensible(s) && u !in s.profiles && m <= 2
    requires t.profiles == if m == 0 then s.profiles else s.profiles[u := profile]
    requires t.active == if m < 2 then s.active else s.active[profile.netdev := u]
    requires t.live == if m < 2 then s.live else s.live[profile.netdev := profile.settings]
    ensures var gone := Do(t, DeleteOwned(u));
            && gone.profiles == s.profiles
            && gone.active == (if m < 2 then s.active else s.active - {profile.netdev})
            && gone.live == (if m < 2 then s.live else s.live - {profile.netdev})
  {
    var gone := Do(t, DeleteOwned(u));
    assert gone.profiles == s.profiles;
    assert gone.active == (if m < 2 then s.active else s.active - {profile.netdev});
    assert gone.live == (if m < 2 then s.live else s.live - {profile.netdev});
  }

  lemma CreateUndone(s: State, port: Port, nm: Nm, gone: State)
    requires Sensible(s) && Observed(s, port, nm) && gone.profiles == s.profiles
    requires (gone.active == s.active && gone.live == s.live)
          || (gone.active == s.active - {port.netdev} && gone.live == s.live - {port.netdev})
    ensures (if nm.uuid.Some? then Do(gone, Up(nm.uuid.value)) else gone) == s
  {
    var back := if nm.uuid.Some? then Do(gone, Up(nm.uuid.value)) else gone;
    assert back.active == s.active;
    assert back.live == s.live;
  }

  /** A port's reverse steps undo any prefix of its steps, exactly when the flags that the
      inventory did not know of a modified profile were off. */
  lemma UndoOne(s: State, port: Port, nm: Nm, plan: PortPlan, m: nat)
    requires Sensible(s) && Observed(s, port, nm) && Unused(s, plan) && PlanFits(port, nm, plan) && m <= |plan.apply|
    ensures Run(Run(s, plan.apply[..m]), plan.rollback) == s
       <==> (plan.action.Modified? ==> UnknownsAreOff(s, nm))
  {
    match plan.action
    case Nothing => RunTwo(s, plan.apply[..m]); RunTwo(s, plan.rollback);
    case Modified => UndoModify(s, port, nm, plan, m);
    case Created(_) => UndoCreate(s, port, nm, plan, m);
  }

  /** A flag the inventory could not read is lost: a profile that ignores automatic DNS comes
      back without doing so. */
  lemma UnknownFlagIsLost(address: string)
    ensures var port := Port("cw", "eth0", address, None, Some(Given("u")));
            var nm := Nm(Some(Given("u")), Some("manual"), Some([]), Some(true), None, Some("auto"), Some(true), Some(0), Some(true), false);
            var settings := Settings("manual", [], true, true, "auto", true, 0, true, "");
            var s := State(map[Given("u") := Profile(GivenName("n"), "eth0", settings)], map["eth0" := Given("u")], map["eth0" := settings]);
            var plan := PortPlan(
              Modified,
              [Modify(Given("u"), WantedFor(address, "")), Reapply("eth0")],
              [Modify(Given("u"), Saved(nm)), Reapply("eth0")]);
            && Sensible(s) && Observed(s, port, nm) && PlanFits(port, nm, plan)
            && Run(Run(s, plan.apply), plan.rollback) != s
  {
    var port := Port("cw", "eth0", address, None, Some(Given("u")));
    var nm := Nm(Some(Given("u")), Some("manual"), Some([]), Some(true), None, Some("auto"), Some(true), Some(0), Some(true), false);
    var settings := Settings("manual", [], true, true, "auto", true, 0, true, "");
    var s := State(map[Given("u") := Profile(GivenName("n"), "eth0", settings)], map["eth0" := Given("u")], map["eth0" := settings]);
    var plan := PortPlan(
      Modified,
      [Modify(Given("u"), WantedFor(address, "")), Reapply("eth0")],
      [Modify(Given("u"), Saved(nm)), Reapply("eth0")]);
    hide Run;
    assert !UnknownsAreOff(s, nm);
    assert plan.apply[..2] == plan.apply;
    UndoOne(s, port, nm, plan, 2);
  }

  // ---- all ports of a host ----

  /** A port, what was recorded of it, and its plan. */
  datatype Slot = Slot(port: Port, nm: Nm, plan: PortPlan)

  function ApplyOf(slots: seq<Slot>): seq<Command> {
    if slots == [] then [] else ApplyOf(slots[..|slots| - 1]) + slots[|slots| - 1].plan.apply
  }

  function RollbackOf(slots: seq<Slot>): seq<Command> {
    if slots == [] then [] else slots[|slots| - 1].plan.rollback + RollbackOf(slots[..|slots| - 1])
  }

  /** The slot is this port's plan, and a profile it creates is not in the inventory. */
  ghost predicate PlannedFrom(x: Slot, port: Port, i: Interface, connections: seq<(Uuid, Name)>) {
    && x.port == port && x.nm == i.nm && PlanFits(port, i.nm, x.plan)
    && (x.plan.action.Created? ==> forall c | c in connections :: !Collides(c, port))
  }

  method PlanPort(port: Port, i: Interface, connections: seq<(Uuid, Name)>, owned: set<Uuid>) returns (slot: Option<Slot>)
    ensures slot.Some? <==> Plannable(port, i, connections, owned)
    ensures slot.Some? ==> PlannedFrom(slot.value, port, i, connections)
  {
    var r := PlanConnection(port, i, connections, owned);
    slot := if r.Refused? then None else Some(Slot(port, i.nm, r.plan));
  }

  /** Plan every port; reverse steps go to the front. */
  method PlanPorts(ports: seq<Port>, interfaces: seq<Interface>, connections: seq<(Uuid, Name)>, owned: set<Uuid>)
    returns (slots: Option<seq<Slot>>, apply: seq<Command>, rollback: seq<Command>)
    requires |interfaces| == |ports|
    ensures slots.Some? <==> forall k | 0 <= k < |ports| :: Plannable(ports[k], interfaces[k], connections, owned)
    ensures slots.Some? ==> apply == ApplyOf(slots.value) && rollback == RollbackOf(slots.value) && |slots.value| == |ports|
    ensures slots.Some? ==> forall k | 0 <= k < |ports| :: PlannedFrom(slots.value[k], ports[k], interfaces[k], connections)
  {
    hide PlannedFrom, Plannable;
    var done: seq<Slot> := [];
    apply, rollback := [], [];
    for k := 0 to |ports|
      invariant |done| == k && apply == ApplyOf(done) && rollback == RollbackOf(done)
      invariant forall j | 0 <= j < k :: PlannedFrom(done[j], ports[j], interfaces[j], connections)
      invariant forall j | 0 <= j < k :: Plannable(ports[j], interfaces[j], connections, owned)
    {
      var slot := PlanPort(ports[k], interfaces[k], connections, owned);
      if slot.None? {
        return None, [], [];
      }
      ghost var before := done;
      done := done + [slot.value];
      assert done[..k] == before;
      apply := apply + slot.value.plan.apply;
      rollback := slot.value.plan.rollback + rollback;
    }
    return Some(done), apply, rollback;
  }

  /** With every saved profile in the inventory, a planned profile does not exist yet. */
  lemma CreatedIsUnused(s: State, connections: seq<(Uuid, Name)>, port: Port, nm: Nm, plan: PortPlan)
    requires forall u | u in s.profiles :: exists c :: c in connections && c.0 == u
    requires PlanFits(port, nm, plan) && (plan.action.Created? ==> forall c | c in connections :: !Collides(c, port))
    ensures Unused(s, plan)
  {
    if plan.action.Created? {
      forall u | u in s.profiles ensures u != plan.action.uuid {
        var c :| c in connections && c.0 == u;
        assert !Collides(c, port);
      }
    }
  }

  /** The planned port can be undone from here. */
  ghost predicate Ready(s: State, x: Slot) {
    && Observed(s, x.port, x.nm) && Unused(s, x.plan) && PlanFits(x.port, x.nm, x.plan)
    && (x.plan.action.Modified? ==> UnknownsAreOff(s, x.nm))
  }

  ghost predicate AllReady(s: State, slots: seq<Slot>) {
    && Sensible(s)
    && (forall k | 0 <= k < |slots| :: Ready(s, slots[k]))
    && (forall j, k | 0 <= j < k < |slots| :: slots[j].port.netdev != slots[k].port.netdev)
  }

  /** The only profile a port's steps touch, if any. */
  function Mine(x: Slot): set<Uuid> {
    match x.plan.action
    case Nothing => {}
    case Modified => if x.nm.uuid.Some? then {x.nm.uuid.value} else {}
    case Created(u) => {u}
  }

  ghost predicate OnlyMine(s: State, t: State, x: Slot) {
    && Sensible(t)
    && (forall u | u !in Mine(x) :: (u in t.profiles <==> u in s.profiles) && (u in s.profiles ==> t.profiles[u] == s.profiles[u]))
    && (forall d | d != x.port.netdev :: (d in t.active <==> d in s.active) && (d in s.active ==> t.active[d] == s.active[d]))
    && (forall d | d != x.port.netdev && d in s.live :: d in t.live && t.live[d] == s.live[d])
  }

  lemma ModifyTouchesOwn(s: State, x: Slot, m: nat)
    requires Sensible(s) && Ready(s, x) && m <= |x.plan.apply| && x.plan.action.Modified?
    ensures OnlyMine(s, Run(s, x.plan.apply[..m]), x)
  {
    hide Run, WantedFor, UnknownsAreOff;
    RunModified(s, x.nm.uuid.value, x.port.netdev, WantedFor(x.port.address, ""), m);
  }

  lemma CreateTouchesOwn(s: State, x: Slot, m: nat)
    requires Sensible(s) && Ready(s, x) && m <= |x.plan.apply| && x.plan.action.Created?
    ensures OnlyMine(s, Run(s, x.plan.apply[..m]), x)
  {
    hide Run, WantedFor, UnknownsAreOff, Observed, Sensible;
    RunCreate(s, x.plan.action.uuid, x.plan.apply[0].profile, m);
    CreateFrame(s, Run(s, x.plan.apply[..m]), x, x.plan.apply[0].profile, m);
  }

  lemma CreateFrame(s: State, t: State, x: Slot, profile: Profile, m: nat)
    requires Sensible(s) && x.plan.action.Created? && x.plan.action.uuid !in s.profiles && profile.netdev == x.port.netdev
    requires t.profiles == if m == 0 then s.profiles else s.profiles[x.plan.action.uuid := profile]
    requires t.active == if m < 2 then s.active else s.active[x.port.netdev := x.plan.action.uuid]
    requires t.live == if m < 2 then s.live else s.live[x.port.netdev := profile.settings]
    ensures OnlyMine(s, t, x)
  {
    assert Sensible(t);
  }

  lemma StepsTouchOwn(s: State, x: Slot, m: nat)
    requires Sensible(s) && Ready(s, x) && m <= |x.plan.apply|
    ensures OnlyMine(s, Run(s, x.plan.apply[..m]), x) && Sensible(Run(s, x.plan.apply[..m]))
  {
    match x.plan.action
    case Nothing => RunTwo(s, x.plan.apply[..m]);
    case Modified => ModifyTouchesOwn(s, x, m);
    case Created(_) => CreateTouchesOwn(s, x, m);
  }

  lemma OthersStayReady(s: State, t: State, x: Slot, y: Slot)
    requires Sensible(s) && Ready(s, x) && Ready(s, y) && x.port.netdev != y.port.netdev && OnlyMine(s, t, x)
    ensures Ready(t, y)
  {
    assert Identifier(x.port) != Identifier(y.port);
    if y.nm.uuid.Some? {
      assert y.nm.uuid.value !in Mine(x);
    }
    if y.plan.action.Created? {
      assert y.plan.action.uuid !in Mine(x);
    }
  }

  /** Any prefix of the other ports' steps leaves a port ready. */
  lemma {:induction false} PrefixKeepsReady(s: State, slots: seq<Slot>, n: nat, y: Slot)
    requires AllReady(s, slots) && n <= |ApplyOf(slots)| && Ready(s, y)
    requires forall k | 0 <= k < |slots| :: slots[k].port.netdev != y.port.netdev
    ensures Sensible(Run(s, ApplyOf(slots)[..n])) && Ready(Run(s, ApplyOf(slots)[..n]), y)
  {
    hide Ready, OnlyMine;
    if slots == [] {
      RunTwo(s, []);
    } else {
      var init, x := slots[..|slots| - 1], slots[|slots| - 1];
      var orders := ApplyOf(init);
      if n <= |orders| {
        PrefixKeepsReady(s, init, n, y);
        assert ApplyOf(slots)[..n] == orders[..n];
      } else {
        var m := n - |orders|;
        PrefixKeepsReady(s, init, |orders|, y);
        PrefixKeepsReady(s, init, |orders|, x);
        assert orders[..|orders|] == orders && ApplyOf(slots)[..n] == orders + x.plan.apply[..m];
        RunConcat(s, orders, x.plan.apply[..m]);
        var t := Run(s, orders);
        StepsTouchOwn(t, x, m);
        OthersStayReady(t, Run(t, x.plan.apply[..m]), x, y);
      }
    }
  }

  /** Rolling back a host after any interruption of its steps, in any port, restores every
      profile, every active connection and the settings every device runs with. */
  lemma {:induction false} HostUndo(s: State, slots: seq<Slot>, n: nat)
    requires AllReady(s, slots) && n <= |ApplyOf(slots)|
    ensures Run(Run(s, ApplyOf(slots)[..n]), RollbackOf(slots)) == s
  {
    hide Ready, Do, OnlyMine;
    if slots == [] {
      RunTwo(s, []);
    } else {
      var init, x := slots[..|slots| - 1], slots[|slots| - 1];
      var orders := ApplyOf(init);
      var k := if n <= |orders| then n else |orders|;
      var m := n - k;
      PrefixKeepsReady(s, init, k, x);
      var t := Run(s, orders[..k]);
      assert ApplyOf(slots)[..n] == orders[..k] + x.plan.apply[..m];
      RunConcat(s, orders[..k], x.plan.apply[..m]);
      UndoReady(t, x, m);
      RunConcat(Run(t, x.plan.apply[..m]), x.plan.rollback, RollbackOf(init));
      HostUndo(s, init, k);
    }
  }

  /** No command of the list changes the settings of this profile or removes it. */
  predicate Spares(cs: seq<Command>, u: Uuid) {
    forall k | 0 <= k < |cs| :: !(cs[k].Modify? || cs[k].DeleteOwned? || cs[k].Create?) || cs[k].uuid != u
  }

  lemma {:induction false} RunSpares(s: State, cs: seq<Command>, u: Uuid)
    requires u in s.profiles && Spares(cs, u)
    ensures u in Run(s, cs).profiles && Run(s, cs).profiles[u] == s.profiles[u]
  {
    if cs != [] {
      RunSpares(s, cs[..|cs| - 1], u);
    }
  }

  lemma {:induction false} RollbackSpares(slots: seq<Slot>, u: Uuid)
    requires forall k | 0 <= k < |slots| :: Spares(slots[k].plan.rollback, u)
    ensures Spares(RollbackOf(slots), u)
  {
    if slots != [] {
      RollbackSpares(slots[..|slots| - 1], u);
    }
  }

  /** A host's rollback leaves a modified profile with the saved settings. */
  lemma {:induction false} RollbackSets(s: State, slots: seq<Slot>, k: nat, u: Uuid, saved: Settings)
    requires k < |slots| && u in s.profiles
    requires slots[k].plan.rollback == [Modify(u, saved), Reapply(slots[k].port.netdev)]
    requires forall j | 0 <= j < |slots| && j != k :: Spares(slots[j].plan.rollback, u)
    ensures var t := Run(s, RollbackOf(slots));
            u in t.profiles && t.profiles[u].settings == saved.(rest := s.profiles[u].settings.rest)
    decreases |slots|
  {
    hide Spares;
    var init, x := slots[..|slots| - 1], slots[|slots| - 1];
    RunConcat(s, x.plan.rollback, RollbackOf(init));
    var t := Run(s, x.plan.rollback);
    if k == |slots| - 1 {
      RunTwo(s, x.plan.rollback);
      RollbackSpares(init, u);
      RunSpares(t, RollbackOf(init), u);
    } else {
      RunSpares(s, x.plan.rollback, u);
      RollbackSets(t, init, k, u, saved);
    }
  }

  /** A planned port, whatever the inventory knew of its flags. */
  ghost predicate Placed(s: State, x: Slot) {
    Observed(s, x.port, x.nm) && Unused(s, x.plan) && PlanFits(x.port, x.nm, x.plan)
  }

  ghost predicate AllPlaced(s: State, slots: seq<Slot>) {
    && Sensible(s)
    && (forall k | 0 <= k < |slots| :: Placed(s, slots[k]))
    && (forall j, k | 0 <= j < k < |slots| :: slots[j].port.netdev != slots[k].port.netdev)
  }

  /** The inventory is complete and truthful: every saved profile is listed, and every port,
      each with a device of its own, is as recorded. */
  ghost predicate Inventoried(s: State, ports: seq<Port>, interfaces: seq<Interface>, connections: seq<(Uuid, Name)>)
    requires |interfaces| == |ports|
  {
    && Sensible(s)
    && (forall u | u in s.profiles :: exists c :: c in connections && c.0 == u)
    && (forall k | 0 <= k < |ports| :: Observed(s, ports[k], interfaces[k].nm))
    && (forall j, k | 0 <= j < k < |ports| :: ports[j].netdev != ports[k].netdev)
  }

  /** Ports planned from a complete and truthful inventory are placed. */
  lemma PlannedArePlaced(s: State, ports: seq<Port>, interfaces: seq<Interface>, connections: seq<(Uuid, Name)>, slots: seq<Slot>)
    requires |interfaces| == |ports| == |slots| && Inventoried(s, ports, interfaces, connections)
    requires forall k | 0 <= k < |ports| :: PlannedFrom(slots[k], ports[k], interfaces[k], connections)
    ensures AllPlaced(s, slots)
  {
    hide Observed, PlanFits, Unused, Sensible;
    forall k | 0 <= k < |slots| ensures Placed(s, slots[k]) {
      CreatedIsUnused(s, connections, ports[k], interfaces[k].nm, slots[k].plan);
    }
  }

  ghost predicate FlagsKnown(s: State, x: Slot) {
    x.plan.action.Modified? ==> UnknownsAreOff(s, x.nm)
  }

  lemma OthersSpare(s: State, x: Slot, y: Slot)
    requires Sensible(s) && Placed(s, x) && Placed(s, y) && x.port.netdev != y.port.netdev
    requires y.plan.action.Modified?
    ensures y.nm.uuid.Some? && y.nm.uuid.value in s.profiles && Spares(x.plan.rollback, y.nm.uuid.value)
  {
  }

  /** The reverse steps restore a host after every interruption exactly when, in each modified
      profile, the flags that the inventory did not know were off. */
  lemma HostUndoExactly(s: State, slots: seq<Slot>)
    requires AllPlaced(s, slots)
    ensures (forall n: nat | n <= |ApplyOf(slots)| :: Run(Run(s, ApplyOf(slots)[..n]), RollbackOf(slots)) == s)
       <==> forall k | 0 <= k < |slots| :: FlagsKnown(s, slots[k])
  {
    hide Placed, Run, Sensible, FlagsKnown;
    if forall k | 0 <= k < |slots| :: FlagsKnown(s, slots[k]) {
      forall k | 0 <= k < |slots| ensures Ready(s, slots[k]) {
        PlacedReady(s, slots[k]);
      }
      forall n: nat | n <= |ApplyOf(slots)| ensures Run(Run(s, ApplyOf(slots)[..n]), RollbackOf(slots)) == s {
        HostUndo(s, slots, n);
      }
    } else {
      var k :| 0 <= k < |slots| && !FlagsKnown(s, slots[k]);
      UndoFails(s, slots, k);
    }
  }

  lemma PlacedReady(s: State, x: Slot)
    requires Placed(s, x) && FlagsKnown(s, x)
    ensures Ready(s, x)
  {
  }

  lemma UndoFails(s: State, slots: seq<Slot>, k: nat)
    requires AllPlaced(s, slots) && k < |slots| && !FlagsKnown(s, slots[k])
    ensures Run(Run(s, ApplyOf(slots)[..0]), RollbackOf(slots)) != s
  {
    hide Run, UnknownsAreOff, Saved, Spares, WantedFor;
    RunTwo(s, ApplyOf(slots)[..0]);
    var x := slots[k];
    var u := x.nm.uuid.value;
    assert Placed(s, x);
    forall j | 0 <= j < |slots| && j != k ensures Spares(slots[j].plan.rollback, u) {
      OthersSpare(s, slots[j], x);
    }
    SavedIsSame(s, x.port, x.nm);
    RollbackSets(s, slots, k, u, Saved(x.nm));
  }

  lemma UndoReady(t: State, x: Slot, m: nat)
    requires Sensible(t) && Ready(t, x) && m <= |x.plan.apply|
    ensures Run(Run(t, x.plan.apply[..m]), x.plan.rollback) == t
  {
    UndoOne(t, x.port, x.nm, x.plan, m);
  }
}
