/** The network helper that runs on each host: a journal of its own, written before
    every command, in a backup directory that one plan owns for ever. */
module NetworkJournal {
  import opened Wrappers
  import opened Json
  import opened NetworkGuard
  import opened Plan

  datatype HostCommand = HostCommand(id: string, argv: seq<string>, readOnly: bool, stopAfter: bool)

  /** What a reviewed plan asks of one host. */
  datatype Payload = Payload(
    host: HostSpec,
    guard: Guard,
    identity: string,
    commands: seq<HostCommand>,
    rediscover: bool,
    requireIdleGpu: bool)

  datatype EntryState = Running | Succeeded

  datatype Entry = Entry(id: string, argv: seq<string>, state: EntryState)

  /** The execution journal, as saved. */
  datatype Journal = Journal(plan: string, commands: seq<Entry>, complete: bool, after: Option<Guard>)

  datatype Event =
    | Probed(facts: Facts, gpuQuiet: bool)
    | Ran(command: HostCommand)  // a planned command was started on the host

  /** Everything outside the helper, by observable step: what a probe reads, whether the
      GPU query reports no process, whether the helper dies or an exception is raised
      there, and whether a started command then fails. */
  datatype World = World(
    probe: nat -> Facts,
    gpuQuiet: nat -> bool,
    dies: nat -> bool,
    fails: nat -> bool,
    root: bool,
    safePath: bool)

  // ---- the commands that may run ----

  /** The commands through the first that asks for a stop. */
  function Planned(commands: seq<HostCommand>): seq<HostCommand> {
    if commands == [] then []
    else if commands[0].stopAfter then [commands[0]]
    else [commands[0]] + Planned(commands[1..])
  }

  /** A command is planned to run exactly when no earlier one asks for a stop. */
  lemma {:induction false} PlannedReach(commands: seq<HostCommand>, i: nat)
    requires i < |commands|
    ensures |Planned(commands)| <= |commands|
    ensures i < |Planned(commands)| <==> forall j | 0 <= j < i :: !commands[j].stopAfter
    ensures i < |Planned(commands)| ==> Planned(commands)[i] == commands[i]
  {
    if i > 0 && !commands[0].stopAfter {
      PlannedReach(commands[1..], i - 1);
      assert forall j | 1 <= j < |commands| :: commands[j] == commands[1..][j - 1];
    } else if |commands| > 1 {
      PlannedReach(commands[1..], 0);
    }
  }

  lemma {:induction false} PlannedIsPrefix(commands: seq<HostCommand>)
    ensures Planned(commands) <= commands
  {
    if commands != [] && !commands[0].stopAfter {
      PlannedIsPrefix(commands[1..]);
    }
  }

  // ---- idleness ----

  /** May links change now? GPU work, processes holding RDMA queues and, where GPU
      processes cannot be listed, running containers forbid it. */
  predicate Idle(facts: Facts, gpuQuiet: bool, requireIdleGpu: bool) {
    && (facts.computeProcesses.Some? ==> facts.computeProcesses.value == [])
    && (facts.computeProcesses.None? ==> facts.containers.Some? && "running" !in facts.containers.value)
    && facts.rdmaUsers.Some? && true !in facts.rdmaUsers.value
    && (requireIdleGpu ==> gpuQuiet)
  }

  /** What forbids a change, in the fields a probe reads: a listed GPU process; GPU processes
      unknown while the containers are unknown or one runs; RDMA queue holders present or
      unknown; a required GPU query that was not quiet. */
  predicate Busy(facts: Facts, gpuQuiet: bool, requireIdleGpu: bool) {
    || (facts.computeProcesses.Some? && |facts.computeProcesses.value| > 0)
    || (facts.computeProcesses.None? && (facts.containers.None? || exists c | c in facts.containers.value :: c == "running"))
    || facts.rdmaUsers.None?
    || (exists pid | pid in facts.rdmaUsers.value :: pid)
    || (requireIdleGpu && !gpuQuiet)
  }

  /** The helper's rule passes exactly a host with none of the four. */
  lemma IdleUnlessBusy(facts: Facts, gpuQuiet: bool, requireIdleGpu: bool)
    ensures Idle(facts, gpuQuiet, requireIdleGpu) <==> !Busy(facts, gpuQuiet, requireIdleGpu)
  {
    if facts.rdmaUsers.Some? && true in facts.rdmaUsers.value {
      assert exists pid | pid in facts.rdmaUsers.value :: pid;
    }
  }

  // ---- the outcome of the change ----

  /** The IPv4 addresses of the last interface listed under a name. */
  function LiveAddresses(interfaces: seq<Interface>, name: string): seq<string> {
    if interfaces == [] then []
    else
      var last := interfaces[|interfaces| - 1];
      if last.name == name then last.ipv4 else LiveAddresses(interfaces[..|interfaces| - 1], name)
  }

  predicate Settled(facts: Facts, host: HostSpec) {
    forall name | name in host.addresses :: host.addresses[name] in LiveAddresses(facts.interfaces, name)
  }

  predicate Manageable(facts: Facts, host: HostSpec) {
    facts.management.routeDev == Some(host.managementNetdev) && !facts.management.error
  }

  /** The route to the management address leaves by the management device, without an error. */
  predicate OverManagementDevice(facts: Facts, host: HostSpec) {
    match facts.management.routeDev
    case None => false
    case Some(dev) => if facts.management.error then false else dev == host.managementNetdev
  }

  /** The interface entry that counts for a name: the last one listed under it. */
  predicate LastNamed(interfaces: seq<Interface>, name: string, i: nat) {
    i < |interfaces| && interfaces[i].name == name && forall j | i < j < |interfaces| :: interfaces[j].name != name
  }

  lemma {:induction false} LiveAtLast(interfaces: seq<Interface>, name: string)
    ensures forall i: nat | LastNamed(interfaces, name, i) :: LiveAddresses(interfaces, name) == interfaces[i].ipv4
    ensures LiveAddresses(interfaces, name) != [] ==> exists i: nat :: LastNamed(interfaces, name, i)
  {
    if interfaces != [] {
      var n := |interfaces| - 1;
      if interfaces[n].name == name {
        assert LastNamed(interfaces, name, n);
      } else {
        var shorter := interfaces[..n];
        LiveAtLast(shorter, name);
        forall i: nat | LastNamed(interfaces, name, i) ensures LastNamed(shorter, name, i) {
          assert i != n;
        }
        if LiveAddresses(shorter, name) != [] {
          var i: nat :| LastNamed(shorter, name, i);
          assert LastNamed(interfaces, name, i);
        }
      }
    }
  }

  /** A probe is settled exactly when every planned address is one of the last interface
      entry of its name. */
  lemma SettledExactly(facts: Facts, host: HostSpec)
    ensures Settled(facts, host) <==>
              forall name | name in host.addresses ::
                exists i: nat :: LastNamed(facts.interfaces, name, i) && host.addresses[name] in facts.interfaces[i].ipv4
  {
    forall name | name in host.addresses
      ensures host.addresses[name] in LiveAddresses(facts.interfaces, name) <==>
                exists i: nat :: LastNamed(facts.interfaces, name, i) && host.addresses[name] in facts.interfaces[i].ipv4
    {
      LiveAtLast(facts.interfaces, name);
    }
  }

  const PROBES := 30

  /** Thirty probes in a row, the last one at `t`, found some planned address missing. */
  ghost predicate NeverSettled(w: World, host: HostSpec, t: nat) {
    t + 1 >= 30 && forall u: nat | t + 1 - 30 <= u <= t :: !Settled(w.probe(u), host)
  }

  /** The recorded configuration is that of a probe with a good management path, which is
      settled or the last of thirty that were not. */
  ghost predicate Concluded(w: World, host: HostSpec, after: Option<Guard>, t: nat) {
    && after == Some(GuardOf(w.probe(t), host)) && OverManagementDevice(w.probe(t), host)
    && (Settled(w.probe(t), host) <==> !NeverSettled(w, host, t))
  }

  // ---- what the journal means ----

  /** The planned commands started so far. */
  function RanIn(trace: seq<Event>): seq<HostCommand> {
    if trace == [] then []
    else
      var last := trace[|trace| - 1];
      RanIn(trace[..|trace| - 1]) + if last.Ran? then [last.command] else []
  }

  lemma RanSnoc(trace: seq<Event>, e: Event)
    ensures RanIn(trace + [e]) == RanIn(trace) + if e.Ran? then [e.command] else []
  {
    assert (trace + [e])[..|trace|] == trace;
  }

  predicate Records(entries: seq<Entry>, commands: seq<HostCommand>) {
    && |entries| <= |commands|
    && forall i | 0 <= i < |entries| :: entries[i].id == commands[i].id && entries[i].argv == commands[i].argv
  }

  /** The journal covers everything that was started: each entry but possibly the last
      is a command that ran and succeeded, and a last one still `running` may or may
      not have been started. */
  ghost predicate Consistent(owner: Option<Payload>, journal: Option<Journal>, ran: seq<HostCommand>) {
    match journal
    case None => ran == []
    case Some(j) =>
      && owner.Some?
      && j.plan == owner.value.identity
      && var planned := Planned(owner.value.commands);
         && Records(j.commands, planned)
         && |ran| <= |j.commands| <= |ran| + 1
         && ran == planned[..|ran|]
         && (forall i | 0 <= i < |j.commands| - 1 :: j.commands[i].state == Succeeded)
         && (|j.commands| > |ran| ==> j.commands[|ran|].state == Running)
         && (j.complete ==> |ran| == |planned| && j.after.Some? && AllSucceeded(j.commands))
  }

  predicate AllSucceeded(entries: seq<Entry>) {
    forall i | 0 <= i < |entries| :: entries[i].state == Succeeded
  }

  /** Every changing command starts right after a probe that found the host idle. */
  ghost predicate IdleFirst(trace: seq<Event>, requireIdleGpu: bool) {
    forall i | 0 <= i < |trace| && trace[i].Ran? && !trace[i].command.readOnly ::
      i > 0 && trace[i - 1].Probed? && !Busy(trace[i - 1].facts, trace[i - 1].gpuQuiet, requireIdleGpu)
  }

  /** Verification accepts a finished journal of this plan on a host that has not drifted. */
  ghost predicate Accepts(p: Payload, journal: Option<Journal>, facts: Facts) {
    && journal.Some?
    && journal.value.plan == p.identity
    && journal.value.complete
    && journal.value.after == Some(GuardOf(facts, p.host))
  }

  /** What an accepted verification means on a host whose journal is consistent: the
      plan that owns the directory has the same identity, all its commands ran to the
      planned stop, and each was recorded as succeeded. These are the accepted plan's own
      commands exactly when both plans list the same ones. */
  lemma AcceptedMeansExecuted(owner: Option<Payload>, journal: Option<Journal>, ran: seq<HostCommand>, p: Payload, facts: Facts)
    requires Consistent(owner, journal, ran) && Accepts(p, journal, facts)
    ensures owner.Some? && owner.value.identity == p.identity
    ensures ran == Planned(owner.value.commands)
    ensures |journal.value.commands| == |ran| && AllSucceeded(journal.value.commands)
    ensures ran == Planned(p.commands) <==> Planned(p.commands) == Planned(owner.value.commands)
  {
  }

  /** Starting the journalled command keeps the journal consistent. */
  lemma StartKeepsConsistent(p: Payload, j: Journal, ran: seq<HostCommand>)
    requires Consistent(Some(p), Some(j), ran) && !j.complete && |j.commands| == |ran| + 1
    ensures Consistent(Some(p), Some(j), ran + [Planned(p.commands)[|ran|]])
  {
  }

  lemma IdleFirstSnoc(trace: seq<Event>, c: HostCommand, requireIdleGpu: bool)
    requires IdleFirst(trace, requireIdleGpu)
    requires !c.readOnly ==>
               && trace != [] && var last := trace[|trace| - 1];
               && last.Probed? && !Busy(last.facts, last.gpuQuiet, requireIdleGpu)
    ensures IdleFirst(trace + [Ran(c)], requireIdleGpu)
  {
  }

  /** Nothing fails from observable step `start` on. */
  ghost predicate Cooperative(world: World, p: Payload, start: nat) {
    forall t: nat | t >= start ::
      && !world.dies(t) && !world.fails(t)
      && !Busy(world.probe(t), world.gpuQuiet(t), p.requireIdleGpu)
      && OverManagementDevice(world.probe(t), p.host)
  }

  /** Does an application that begins at step `now` get as far as creating the directory? */
  ghost predicate MayCreate(world: World, p: Payload, now: nat) {
    && world.root && world.safePath
    && !world.dies(now) && !world.dies(now + 1) && !world.dies(now + 2)
    && GuardOf(world.probe(now + 1), p.host) == p.guard
    && (p.commands != [] ==> !Busy(world.probe(now + 1), world.gpuQuiet(now + 1), p.requireIdleGpu))
  }

  class Helper {
    var made: bool  // does the backup directory exist?
    var journal: Option<Journal>
    var clock: nat
    ghost var owner: Option<Payload>  // whose application created the directory
    ghost var trace: seq<Event>

    ghost predicate Valid()
      reads this
    {
      && made == owner.Some?
      && (!made ==> journal.None? && forall e | e in trace :: !e.Ran?)
      && Consistent(owner, journal, RanIn(trace))
      && (owner.Some? ==> IdleFirst(trace, owner.value.requireIdleGpu))
    }

    constructor ()
      ensures Valid() && !made && trace == []
    {
      made, journal, clock, owner, trace := false, None, 0, None, [];
    }

    /** Read the host, unless the helper stops here. */
    method Probe(world: World) returns (read: Option<(Facts, bool)>)
      requires Valid()
      modifies `clock, `trace
      ensures Valid() && clock == old(clock) + 1 && RanIn(trace) == RanIn(old(trace)) && old(trace) <= trace
      ensures read.Some? ==>
                && read.value == (world.probe(old(clock)), world.gpuQuiet(old(clock)))
                && trace == old(trace) + [Probed(read.value.0, read.value.1)]
      ensures read.Some? <==> !world.dies(old(clock))
    {
      var now := clock;
      clock := clock + 1;
      if world.dies(now) {
        return None;
      }
      RanSnoc(trace, Probed(world.probe(now), world.gpuQuiet(now)));
      trace := trace + [Probed(world.probe(now), world.gpuQuiet(now))];
      return Some((world.probe(now), world.gpuQuiet(now)));
    }

    /** May this payload run here and now? */
    method Check(world: World, p: Payload) returns (ok: bool)
      requires Valid()
      modifies `clock, `trace
      ensures Valid() && clock == old(clock) + 1 && RanIn(trace) == RanIn(old(trace)) && old(trace) <= trace
      ensures ok <==>
                && !world.dies(old(clock))
                && GuardOf(world.probe(old(clock)), p.host) == p.guard
                && (p.commands != [] ==> !Busy(world.probe(old(clock)), world.gpuQuiet(old(clock)), p.requireIdleGpu))
    {
      var read := Probe(world);
      if read.None? {
        return false;
      }
      var guard := FingerprintOf(read.value.0, p.host);
      IdleUnlessBusy(read.value.0, read.value.1, p.requireIdleGpu);
      return guard == p.guard && (p.commands == [] || Idle(read.value.0, read.value.1, p.requireIdleGpu));
    }

    /** Accept a finished execution of this plan. */
    method Verify(world: World, p: Payload) returns (accepted: bool)
      requires Valid()
      modifies `clock, `trace
      ensures Valid() && RanIn(trace) == RanIn(old(trace)) && old(trace) <= trace
      ensures accepted <==> !world.dies(old(clock)) && Accepts(p, journal, world.probe(old(clock)))
    {
      var read := Probe(world);
      if read.None? || journal.None? || journal.value.plan != p.identity || !journal.value.complete {
        return false;
      }
      var guard := FingerprintOf(read.value.0, p.host);
      return journal.value.after == Some(guard);
    }

    /** Save a journal that is still consistent, unless the helper stops here. */
    method Save(world: World, j: Journal) returns (alive: bool)
      requires Valid() && made && Consistent(owner, Some(j), RanIn(trace))
      modifies `journal, `clock
      ensures Valid() && clock == old(clock) + 1 && (alive <==> !world.dies(old(clock)))
      ensures journal == if alive then Some(j) else old(journal)
    {
      alive := !world.dies(clock);
      clock := clock + 1;
      if alive {
        journal := Some(j);
      }
    }

    /** The journal in memory matches the saved one and every entry has succeeded. */
    ghost predicate Between(p: Payload, j: Journal, done: nat)
      reads this
    {
      && Valid() && made && owner == Some(p) && journal == Some(j)
      && !j.complete && |RanIn(trace)| == done == |j.commands| && AllSucceeded(j.commands)
    }

    /** Journal one command as running, start it, and journal its success. */
    method RunOne(world: World, p: Payload, j: Journal, i: nat) returns (next: Option<Journal>)
      requires Between(p, j, i) && i < |Planned(p.commands)|
      modifies `journal, `clock, `trace
      ensures Valid() && old(trace) <= trace && clock >= old(clock)
      ensures next.Some? ==> Between(p, next.value, i + 1)
      ensures Cooperative(world, p, old(clock)) ==> next.Some?
    {
      hide RanIn, Planned;
      var c := Planned(p.commands)[i];
      if !c.readOnly {
        var read := Probe(world);
        IdleUnlessBusy(world.probe(old(clock)), world.gpuQuiet(old(clock)), p.requireIdleGpu);
        if read.None? || !Idle(read.value.0, read.value.1, p.requireIdleGpu) {
          return None;
        }
      }
      var running := j.(commands := j.commands + [Entry(c.id, c.argv, Running)]);
      var alive := Save(world, running);
      if !alive {
        return None;
      }
      var began := Start(world, p, running, c);
      if !began {
        return None;
      }
      var finished := running.(commands := j.commands + [Entry(c.id, c.argv, Succeeded)]);
      alive := Save(world, finished);
      return if alive then Some(finished) else None;
    }

    /** Start a journalled command; true when it reports success. */
    method Start(world: World, p: Payload, ghost j: Journal, c: HostCommand) returns (ok: bool)
      requires Valid() && made && owner == Some(p) && journal == Some(j) && !j.complete
      requires |j.commands| == |RanIn(trace)| + 1 && |RanIn(trace)| < |Planned(p.commands)|
      requires c == Planned(p.commands)[|RanIn(trace)|]
      requires !c.readOnly ==>
                 && trace != [] && var last := trace[|trace| - 1];
                 && last.Probed? && !Busy(last.facts, last.gpuQuiet, p.requireIdleGpu)
      modifies `clock, `trace
      ensures Valid() && clock == old(clock) + 1 && old(trace) <= trace
      ensures ok ==> RanIn(trace) == RanIn(old(trace)) + [c]
      ensures !world.dies(old(clock)) && !world.fails(old(clock)) ==> ok
    {
      hide Planned, RanIn, IdleFirst, Idle, Busy;
      var now := clock;
      clock := clock + 1;
      if world.dies(now) {
        return false;
      }
      StartKeepsConsistent(p, j, RanIn(trace));
      IdleFirstSnoc(trace, c, p.requireIdleGpu);
      hide Consistent;
      RanSnoc(trace, Ran(c));
      trace := trace + [Ran(c)];
      return !world.fails(now);
    }

    /** Probe until every planned address is live, at most thirty times. The last probe
        is used whether or not it settled. */
    method Settle(world: World, p: Payload) returns (after: Option<Facts>)
      requires Valid()
      modifies `clock, `trace
      ensures Valid() && RanIn(trace) == RanIn(old(trace)) && old(trace) <= trace
      ensures clock > old(clock)
      ensures after.Some? ==>
                && after.value == world.probe(clock - 1)
                && (Settled(after.value, p.host) <==> !NeverSettled(world, p.host, clock - 1))
                && clock <= old(clock) + 30
      ensures after.None? ==> world.dies(clock - 1)
    {
      hide RanIn, Consistent, IdleFirst, Settled;
      var start := clock;
      var read := Probe(world);
      while read.Some? && clock < start + PROBES && !Settled(read.value.0, p.host)
        invariant Valid() && RanIn(trace) == RanIn(old(trace)) && old(trace) <= trace
        invariant start < clock <= start + PROBES
        invariant read.Some? ==> read.value.0 == world.probe(clock - 1)
        invariant read.None? ==> world.dies(clock - 1)
        invariant forall t | start <= t < clock - 1 :: !Settled(world.probe(t), p.host)
        decreases start + PROBES - clock
      {
        read := Probe(world);
      }
      return if read.Some? then Some(read.value.0) else None;
    }

    /** Take ownership of the backup directory and start its journal. */
    method Create(world: World, p: Payload) returns (j: Option<Journal>)
      requires Valid() && !made
      modifies `made, `journal, `owner, `clock
      ensures Valid() && clock >= old(clock)
      ensures made <==> !world.dies(old(clock))
      ensures made ==> owner == Some(p)
      ensures j.Some? ==> Between(p, j.value, 0) && j.value.plan == p.identity
      ensures (forall t: nat | t >= old(clock) :: !world.dies(t)) ==> j.Some?
    {
      var now := clock;
      clock := clock + 1;
      if world.dies(now) {
        return None;
      }
      made, owner := true, Some(p);
      var empty := Journal(p.identity, [], false, None);
      var alive := Save(world, empty);
      return if alive then Some(empty) else None;
    }

    /** Run the commands in order, through the first that asks for a stop. */
    method RunCommands(world: World, p: Payload, start: Journal) returns (j: Option<Journal>)
      requires Between(p, start, 0)
      modifies `journal, `clock, `trace
      ensures Valid() && old(trace) <= trace && clock >= old(clock)
      ensures j.Some? ==> Between(p, j.value, |Planned(p.commands)|)
      ensures Cooperative(world, p, old(clock)) ==> j.Some?
    {
      hide RanIn, Planned, Consistent, IdleFirst, Idle, Busy;
      j := Some(start);
      for i := 0 to |p.commands|
        invariant Valid() && old(trace) <= trace && clock >= old(clock) && j.Some?
        invariant Between(p, j.value, i)
        invariant forall k | 0 <= k < i :: !p.commands[k].stopAfter
      {
        PlannedReach(p.commands, i);
        j := RunOne(world, p, j.value, i);
        if j.None? {
          return;
        }
        if p.commands[i].stopAfter {
          StopEnds(p.commands, i);
          return;
        }
      }
      PlannedAll(p.commands);
    }

    /** Settle, check the management path and record the new configuration. */
    method Conclude(world: World, p: Payload, j: Journal) returns (done: bool)
      requires Between(p, j, |Planned(p.commands)|)
      modifies `journal, `clock, `trace
      ensures Valid() && old(trace) <= trace
      ensures done ==> journal.Some? && journal.value.complete
      ensures done ==> exists t: nat :: t >= old(clock) && Concluded(world, p.host, journal.value.after, t)
      ensures Cooperative(world, p, old(clock)) ==> done
    {
      hide RanIn, Planned, IdleFirst, Idle, Busy, Settled, NeverSettled;
      var after := Settle(world, p);
      if after.None? || !Manageable(after.value, p.host) {
        return false;
      }
      var guard := FingerprintOf(after.value, p.host);
      assert Concluded(world, p.host, Some(guard), clock - 1);
      done := Save(world, j.(complete := true, after := Some(guard)));
    }

    /** Everything after the checks: create, run and conclude. */
    method CarryOut(world: World, p: Payload) returns (done: bool)
      requires Valid() && !made
      modifies this
      ensures Valid() && old(trace) <= trace
      ensures made <==> !world.dies(old(clock))
      ensures made ==> owner == Some(p)
      ensures done ==> made && journal.Some? && journal.value.complete
      ensures done ==> exists t: nat :: Concluded(world, p.host, journal.value.after, t)
      ensures Cooperative(world, p, old(clock)) ==> done
    {
      hide RanIn, Planned, Consistent, IdleFirst, Idle, Busy, Manageable, OverManagementDevice;
      var j := Create(world, p);
      if j.None? {
        return false;
      }
      j := RunCommands(world, p, j.value);
      if j.None? {
        return false;
      }
      done := Conclude(world, p, j.value);
    }

    /** Run the planned commands once, then record the settled configuration. A directory
        that already exists refuses every later call, whatever happened to the first. */
    method Apply(world: World, p: Payload) returns (done: bool)
      requires Valid()
      modifies this
      ensures Valid() && old(trace) <= trace
      ensures old(made) ==> !done && made && journal == old(journal) && owner == old(owner) && RanIn(trace) == RanIn(old(trace))
      ensures made <==> old(made) || MayCreate(world, p, old(clock))
      ensures made && !old(made) ==> owner == Some(p)
      ensures p.commands != [] && Busy(world.probe(old(clock) + 1), world.gpuQuiet(old(clock) + 1), p.requireIdleGpu) ==>
                !done && made == old(made) && RanIn(trace) == RanIn(old(trace))
      ensures done ==> owner == Some(p) && journal.Some? && journal.value.complete
      ensures done ==> exists t: nat :: Concluded(world, p.host, journal.value.after, t)
      ensures !old(made) && MayCreate(world, p, old(clock)) && Cooperative(world, p, old(clock)) ==> done
    {
      hide RanIn, Planned, Consistent, IdleFirst, Idle, Busy, Manageable, OverManagementDevice;
      var read := Probe(world);
      if read.None? || !world.root {
        return false;
      }
      var ok := Check(world, p);
      if !ok || !world.safePath || made {
        return false;
      }
      done := CarryOut(world, p);
    }
  }

  /** A quiet host without fabric addresses, reached over its management device. */
  function QuietFacts(): Facts {
    Facts(Management(Some("eno1"), false, Null), Null, [], [], Some([]), Some([]), Some([]), Some([]))
  }

  /** A host that always reads as `facts`, where nothing fails. */
  function Smooth(facts: Facts): World {
    World((t: nat) => facts, (t: nat) => true, (t: nat) => false, (t: nat) => false, true, true)
  }

  function Step(id: string): HostCommand {
    HostCommand(id, [id], false, false)
  }

  /** A plan for a host on which one address is to appear. */
  function PlanOf(commands: seq<HostCommand>): Payload {
    var host := HostSpec({"eth0"}, {"roce0"}, "eno1", map["eth0" := "10.0.0.1/24"]);
    Payload(host, GuardOf(QuietFacts(), host), "identity", commands, false, false)
  }

  lemma NeverAppears(p: Payload)
    requires p.host.addresses == map["eth0" := "10.0.0.1/24"]
    ensures !Settled(QuietFacts(), p.host)
  {
    assert "eth0" in p.host.addresses && LiveAddresses([], "eth0") == [];
  }

  lemma QuietIsSmooth(p: Payload, start: nat)
    requires p.host.managementNetdev == "eno1"
    ensures Cooperative(Smooth(QuietFacts()), p, start)
  {
  }

  /** A host whose planned address never appears: the change is recorded as complete all the
      same, with the unsettled configuration. */
  method RecordsUnsettled() returns (h: Helper, facts: Facts, p: Payload)
    ensures p.commands != [] && !Settled(facts, p.host)
    ensures h.journal.Some? && h.journal.value.complete && h.journal.value.after == Some(GuardOf(facts, p.host))
  {
    hide RanIn, Planned, Consistent, IdleFirst, GuardOf;
    facts, p := QuietFacts(), PlanOf([Step("modify")]);
    NeverAppears(p);
    h := new Helper();
    QuietIsSmooth(p, h.clock);
    var done := h.Apply(Smooth(facts), p);
  }

  /** The identity of a plan leaves out whether driver steps were deferred. A host that ran a
      plan without them accepts the verification of the plan with them, of which one command
      never ran. */
  method AcceptsUnrunPlan() returns (h: Helper, p: Payload, accepted: bool)
    ensures accepted && h.Valid() && h.owner.Some? && h.owner.value.identity == p.identity
    ensures Step("tc-offload") in Planned(p.commands) && Step("tc-offload") !in RanIn(h.trace)
  {
    hide RanIn, IdleFirst, GuardOf, Planned;
    var deferred := PlanOf([Step("modify")]);
    p := PlanOf([Step("modify"), Step("tc-offload")]);
    h := new Helper();
    QuietIsSmooth(deferred, h.clock);
    var done := h.Apply(Smooth(QuietFacts()), deferred);
    assert Accepts(p, h.journal, QuietFacts());
    accepted := h.Verify(Smooth(QuietFacts()), p);
    AcceptedMeansExecuted(h.owner, h.journal, RanIn(h.trace), p, QuietFacts());
    DeferredPlans();
  }

  lemma DeferredPlans()
    ensures Planned([Step("modify")]) == [Step("modify")]
    ensures Step("tc-offload") in Planned([Step("modify"), Step("tc-offload")]) && Step("tc-offload") !in [Step("modify")]
  {
    var two := [Step("modify"), Step("tc-offload")];
    PlannedAll(two);
    PlannedReach(two, 1);
    assert Planned(two)[1] == Step("tc-offload");
  }

  lemma StopEnds(commands: seq<HostCommand>, i: nat)
    requires i < |commands| && commands[i].stopAfter && forall k | 0 <= k < i :: !commands[k].stopAfter
    ensures |Planned(commands)| == i + 1
  {
    PlannedReach(commands, i);
    if i + 1 < |commands| {
      PlannedReach(commands, i + 1);
    }
  }

  lemma PlannedAll(commands: seq<HostCommand>)
    requires forall k | 0 <= k < |commands| :: !commands[k].stopAfter
    ensures |Planned(commands)| == |commands|
  {
    if commands != [] {
      PlannedReach(commands, |commands| - 1);
    }
  }

  // ---- whole histories ----

  datatype Operation = CheckIt | ApplyIt | VerifyIt

  datatype Call = Call(operation: Operation, world: World, payload: Payload)

  /** What any number of calls on one backup directory leave behind: the started commands
      are a prefix of one payload's planned commands, so none ran twice or out of order,
      and each changing one found the host idle. */
  ghost predicate OnceInOrder(h: Helper)
    reads h
  {
    match h.owner
    case None => RanIn(h.trace) == []
    case Some(p) => RanIn(h.trace) <= Planned(p.commands) && IdleFirst(h.trace, p.requireIdleGpu)
  }

  method Serve(h: Helper, call: Call) returns (ok: bool)
    requires h.Valid()
    modifies h
    ensures h.Valid() && (old(h.made) ==> h.made && h.owner == old(h.owner) && RanIn(h.trace) == RanIn(old(h.trace)))
    ensures call.operation.ApplyIt? && ok ==> !old(h.made) && h.made && h.owner == Some(call.payload)
    ensures call.operation.VerifyIt? && ok ==> h.made && Executed(h, call.payload)
    ensures call.operation.VerifyIt? && ok ==> AcceptedHere(call.payload, ViewOf(h))
    ensures Extends(old(ViewOf(h)), ViewOf(h))
  {
    hide RanIn, Planned, IdleFirst, GuardOf, Idle, Busy;
    match call.operation {
      case CheckIt => ok := h.Check(call.world, call.payload);
      case ApplyIt => ok := h.Apply(call.world, call.payload);
      case VerifyIt => ok := h.Verify(call.world, call.payload);
    }
  }

  ghost predicate Executed(h: Helper, p: Payload)
    reads h
  {
    h.owner.Some? && h.owner.value.identity == p.identity && RanIn(h.trace) == Planned(h.owner.value.commands)
  }

  /** What a host's directory and its started commands are at one moment. */
  datatype HostView = HostView(owner: Option<Payload>, journal: Option<Journal>, ran: seq<HostCommand>)

  /** Later on the same host: an owner stays, and commands are only added. */
  predicate Extends(before: HostView, after: HostView) {
    (before.owner.Some? ==> after.owner == before.owner) && before.ran <= after.ran
  }

  /** A host's helper over time. */
  ghost predicate Evolves(views: seq<HostView>) {
    && (forall i | 0 <= i < |views| :: Consistent(views[i].owner, views[i].journal, views[i].ran))
    && (forall i, j | 0 <= i < j < |views| :: Extends(views[i], views[j]))
  }

  /** Has the helper reason to accept this plan, on a host in some condition? */
  ghost predicate AcceptedHere(p: Payload, view: HostView) {
    exists facts :: Accepts(p, view.journal, facts)
  }

  /** Once a verification is accepted, then and ever after the host has run exactly the
      planned commands of the plan that owns its journal: those of the accepted plan exactly
      when both list the same ones. */
  lemma AcceptedForGood(views: seq<HostView>, u: nat, t: nat, p: Payload, facts: Facts)
    requires Evolves(views) && u <= t < |views| && Accepts(p, views[u].journal, facts)
    ensures views[t].owner.Some? && views[t].owner.value.identity == p.identity
    ensures views[t].ran == Planned(views[t].owner.value.commands)
    ensures views[t].ran == Planned(p.commands) <==> Planned(p.commands) == Planned(views[t].owner.value.commands)
  {
    hide Planned;
    AcceptedMeansExecuted(views[u].owner, views[u].journal, views[u].ran, p, facts);
    if u < t {
      assert Extends(views[u], views[t]);
      assert Consistent(views[t].owner, views[t].journal, views[t].ran);
    }
  }

  lemma EvolvesOn(views: seq<HostView>, was: HostView, now: HostView)
    requires Evolves(views) && (forall j | 0 <= j < |views| :: Extends(views[j], was)) && Extends(was, now)
    requires Consistent(now.owner, now.journal, now.ran)
    ensures Evolves(views + [now]) && forall j | 0 <= j < |views| + 1 :: Extends((views + [now])[j], now)
  {
    hide Consistent;
    forall j | 0 <= j < |views| ensures Extends(views[j], now) {
      assert Extends(views[j], was);
    }
  }

  ghost function ViewOf(h: Helper): HostView
    reads h
  {
    HostView(h.owner, h.journal, RanIn(h.trace))
  }

  /** Any number of calls with any plans, crashes and failures: the commands are run once,
      in order, and at most one application succeeds; a verification that is accepted
      found them all run. `views` is the host after each call. */
  method History(calls: seq<Call>) returns (h: Helper, accepted: seq<bool>, ghost views: seq<HostView>)
    ensures fresh(h) && h.Valid() && OnceInOrder(h) && |accepted| == |views| == |calls|
    ensures Evolves(views)
    ensures forall i | 0 <= i < |calls| && calls[i].operation.VerifyIt? && accepted[i] ::
              AcceptedHere(calls[i].payload, views[i])
    ensures forall i | 0 <= i < |calls| && calls[i].operation.ApplyIt? && accepted[i] ::
              views[i].owner == Some(calls[i].payload)
    ensures forall i, j | 0 <= i < j < |calls| && calls[i].operation.ApplyIt? && calls[j].operation.ApplyIt? ::
              !(accepted[i] && accepted[j])
    ensures forall i | 0 <= i < |calls| && calls[i].operation.VerifyIt? && accepted[i] :: Executed(h, calls[i].payload)
  {
    hide RanIn, Planned, IdleFirst, Consistent, AcceptedHere, Evolves, Extends, OnceInOrder;
    h := new Helper();
    accepted, views := [], [];
    NoViews();
    for i := 0 to |calls|
      invariant fresh(h) && h.Valid() && |accepted| == |views| == i
      invariant Evolves(views) && forall j | 0 <= j < i :: Extends(views[j], ViewOf(h))
      invariant forall j | 0 <= j < i && calls[j].operation.VerifyIt? && accepted[j] :: AcceptedHere(calls[j].payload, views[j])
      invariant forall j | 0 <= j < i && calls[j].operation.ApplyIt? && accepted[j] ::
                  h.made && views[j].owner == Some(calls[j].payload)
      invariant forall j, k | 0 <= j < k < i && calls[j].operation.ApplyIt? && calls[k].operation.ApplyIt? ::
                  !(accepted[j] && accepted[k])
      invariant forall j | 0 <= j < i && calls[j].operation.VerifyIt? && accepted[j] ::
                  h.made && Executed(h, calls[j].payload)
    {
      ghost var was := ViewOf(h);
      var ok := Serve(h, calls[i]);
      accepted := accepted + [ok];
      EvolvesOn(views, was, ViewOf(h));
      views := views + [ViewOf(h)];
    }
    ValidIsOnce(h);
  }

  lemma NoViews()
    ensures Evolves([])
  {
  }

  lemma ValidIsOnce(h: Helper)
    requires h.Valid()
    ensures OnceInOrder(h)
  {
  }

  // ---- under the deployment engine ----

  /** The reply a runner sees for a verification: a document when the helper accepts, a
      failing process otherwise. Anything else is a lost or refused connection. */
  ghost predicate AnswersVerify(reply: Reply, accepted: bool, rediscover: bool) {
    reply.Reply? && reply.returncode == 0 && !reply.uncertain ==>
      && accepted
      && reply.document == Some(Obj(map["complete" := Bool(true), "rediscover" := Bool(rediscover)]))
  }

  /** The reply a runner sees for an application: a failing process unless it was done. */
  predicate AnswersApply(reply: Reply, done: bool) {
    reply.Reply? && reply.returncode == 0 && !reply.uncertain ==> done
  }

  /** The engine's own check on that reply. */
  function VerifyCheck(argv: seq<string>): Check {
    Check(argv, None, Some(Obj(map["complete" := Bool(true)])))
  }

  /** Two journals in agreement: when the engine records a host's change as succeeded, the
      host's own journal is finished, belongs to this plan, and covers every planned
      command; and the engine does accept the helper's acceptance. */
  lemma EngineSuccessMeansExecuted(reply: Reply, argv: seq<string>, p: Payload, owner: Option<Payload>,
                                   journal: Option<Journal>, ran: seq<HostCommand>, facts: Facts)
    requires Consistent(owner, journal, ran)
    requires AnswersVerify(reply, Accepts(p, journal, facts), p.rediscover)
    ensures Verified(reply, VerifyCheck(argv)) <==> reply.Reply? && reply.returncode == 0 && !reply.uncertain
    ensures Verified(reply, VerifyCheck(argv)) ==>
              && owner.Some? && owner.value.identity == p.identity
              && ran == Planned(owner.value.commands)
              && (ran == Planned(p.commands) <==> Planned(p.commands) == Planned(owner.value.commands))
              && GuardOf(facts, p.host) == journal.value.after.value
  {
    if reply.Reply? && reply.returncode == 0 && !reply.uncertain {
      AcceptedMeansExecuted(owner, journal, ran, p, facts);
      MatchesReflexive(Bool(true));
    }
  }
}
