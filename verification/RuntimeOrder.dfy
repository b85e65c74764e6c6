/** What the lifecycle plans send, in the words that are sent, and in which order. */
module RuntimeOrder {
  import opened Wrappers
  import opened Plan
  import opened EngineTrace
  import opened RuntimePlan

  /** This event sends this argument vector. */
  predicate Sends(body: PlanBody, e: Event, argv: seq<string>) {
    e.Command? && HasId(body, e.id) && SentArgv(body, e.purpose, e.id) == argv
  }

  /** Before `n` the argument vector was sent to this host. */
  ghost predicate SentTo(body: PlanBody, trace: seq<Event>, n: nat, host: string, argv: seq<string>)
    requires n <= |trace|
  {
    exists m :: 0 <= m < n && Sends(body, trace[m], argv) && ActionOf(body, trace[m].id).host == host
  }

  /** The line behind one action of a plan. */
  function LineAt(p: Preparation, operation: Operation, id: Id): Line
    requires id.action < 4 && id.phase < |Lines(operation, UsesMemory(p), Container(p.owner, id.action))|
  {
    Lines(operation, UsesMemory(p), Container(p.owner, id.action))[id.phase]
  }

  lemma ActionIsLine(p: Preparation, operation: Operation, body: PlanBody, id: Id)
    requires IsPlanFor(body, p, operation) && HasId(body, id)
    ensures |p.hosts| == 4 && id.action < 4 && id.phase < |Lines(operation, UsesMemory(p), Container(p.owner, id.action))|
    ensures var l := LineAt(p, operation, id);
            && ActionOf(body, id) == Action(p.hosts[id.action], l.argv, l.risk, l.verify, ChecksOf(p, operation))
            && body.phases[id.phase].id == l.name
  {
    hide IsPlanFor, Lines;
    PlanIsWritten(p, operation, body);
    FourHosts(p, operation, body, id.phase);
    assert AsWritten(body, id.phase, id.action, LineAt(p, operation, id), p.hosts[id.action], ChecksOf(p, operation));
  }

  lemma FourHosts(p: Preparation, operation: Operation, body: PlanBody, k: nat)
    requires WrittenOut(body, p, operation) && k < |body.phases|
    ensures |p.hosts| == 4 && |body.phases[k].actions| == 4
  {
    hide Lines, AsWritten;
    var none: nat := 0;
    assert |body.phases| == |Lines(operation, UsesMemory(p), Container(p.owner, none))|;
  }

  /** What is sent for one line, apart from preflight checks: its command, or its verification. */
  predicate Sendable(l: Line, argv: seq<string>) {
    argv == l.argv || (l.verify.Some? && argv == l.verify.value.argv)
  }

  lemma SentIsLine(p: Preparation, operation: Operation, body: PlanBody, purpose: Purpose, id: Id)
    requires IsPlanFor(body, p, operation) && HasId(body, id) && SentArgv(body, purpose, id) != []
    requires purpose.Preflight? ==> operation.Stop? || operation.Down? || operation.Recover?
    ensures !purpose.Preflight? && id.action < 4 && id.phase < |Lines(operation, UsesMemory(p), Container(p.owner, id.action))|
    ensures Sendable(LineAt(p, operation, id), SentArgv(body, purpose, id))
    ensures purpose.Apply? ==> SentArgv(body, purpose, id) == LineAt(p, operation, id).argv
    ensures !purpose.Apply? && LineAt(p, operation, id).verify.Some? ==>
              SentArgv(body, purpose, id) == LineAt(p, operation, id).verify.value.argv
  {
    hide IsPlanFor, Lines;
    ActionIsLine(p, operation, body, id);
  }

  // ---- which lines start or stop something ----

  lemma StopLinesStartNothing(l: Line, argv: seq<string>)
    requires (l in StopLines() || l in MeshDownLines()) && Sendable(l, argv)
    ensures argv != ["sudo", "-n", "systemctl", "start", "sparkring-mesh.service"]
    ensures argv != ["sudo", "-n", "systemctl", "start", "sparkring-mesh-model.service"]
  {
    assert argv[2] != "systemctl" || argv[3] == "stop";
  }

  lemma OnlySupervisorsStartTheMesh(l: Line, argv: seq<string>)
    requires l in MeshUpLines() && Sendable(l, argv)
    ensures argv != ["sudo", "-n", "systemctl", "start", "sparkring-mesh-model.service"]
    ensures argv != ["sudo", "-n", "systemctl", "stop", "sparkring-mesh.service"]
    ensures argv == ["sudo", "-n", "systemctl", "start", "sparkring-mesh.service"] ==> l == MeshUpLines()[1] && argv == l.argv
  {
    assert l == MeshUpLines()[0] || l == MeshUpLines()[1];
  }

  lemma OnlyStopMeshStopsTheMesh(l: Line, argv: seq<string>)
    requires (l in StopLines() || l in MeshDownLines()) && Sendable(l, argv)
    ensures argv == ["sudo", "-n", "systemctl", "stop", "sparkring-mesh.service"] ==> l == MeshDownLines()[0] && argv == l.argv
  {
  }

  /** Plans that stop start neither the mesh nor a model. */
  lemma StopPlansStartNothing(p: Preparation, operation: Operation, body: PlanBody, purpose: Purpose, id: Id)
    requires operation.Stop? || operation.Down?
    requires IsPlanFor(body, p, operation) && HasId(body, id)
    ensures SentArgv(body, purpose, id) != ["sudo", "-n", "systemctl", "start", "sparkring-mesh.service"]
    ensures SentArgv(body, purpose, id) != ["sudo", "-n", "systemctl", "start", "sparkring-mesh-model.service"]
  {
    hide IsPlanFor, StopLines, MeshDownLines, Sendable, UsesMemory, Container, SentArgv;
    if SentArgv(body, purpose, id) != [] {
      SentIsLine(p, operation, body, purpose, id);
      var l := LineAt(p, operation, id);
      assert l in StopLines() || l in MeshDownLines();
      StopLinesStartNothing(l, SentArgv(body, purpose, id));
    }
  }

  lemma VerificationsMoveNothing(l: Line)
    requires (l in StopLines() || l in MeshDownLines() || l in MeshUpLines()) && l.verify.Some?
    ensures l.verify.value.argv != ["sudo", "-n", "systemctl", "start", "sparkring-mesh.service"]
    ensures l.verify.value.argv != ["sudo", "-n", "systemctl", "stop", "sparkring-mesh.service"]
  {
    assert l.verify.value.argv[2] != "systemctl";
  }

  lemma AllVerified(l: Line)
    requires l in StopLines() || l in MeshDownLines() || l in MeshUpLines()
    ensures l.verify.Some?
  {
  }

  /** In a recovery plan only the last phase starts the mesh, only the fifth stops it, each by
      its own argument vector, and nothing starts a model. */
  lemma RecoverLines(p: Preparation, body: PlanBody, purpose: Purpose, id: Id)
    requires IsPlanFor(body, p, Recover) && HasId(body, id)
    ensures SentArgv(body, purpose, id) == ["sudo", "-n", "systemctl", "start", "sparkring-mesh.service"] ==>
              purpose.Apply? && id.phase == 8
    ensures SentArgv(body, purpose, id) == ["sudo", "-n", "systemctl", "stop", "sparkring-mesh.service"] ==>
              purpose.Apply? && id.phase == 4
    ensures SentArgv(body, purpose, id) != ["sudo", "-n", "systemctl", "start", "sparkring-mesh-model.service"]
  {
    hide IsPlanFor, StopLines, MeshDownLines, MeshUpLines, Sendable, UsesMemory, Container, SentArgv;
    var argv := SentArgv(body, purpose, id);
    if argv != [] {
      SentIsLine(p, Recover, body, purpose, id);
      var l := LineAt(p, Recover, id);
      ThreeParts(id.phase);
      AllVerified(l);
      VerificationsMoveNothing(l);
      if id.phase < 7 {
        StopLinesStartNothing(l, argv);
        OnlyStopMeshStopsTheMesh(l, argv);
      } else {
        OnlySupervisorsStartTheMesh(l, argv);
      }
      LinesDiffer();
    }
  }

  lemma PartSizes()
    ensures |StopLines()| == 4 && |MeshDownLines()| == 3 && |MeshUpLines()| == 2
  {
  }

  lemma ThreeParts(k: nat)
    requires k < |StopLines() + MeshDownLines() + MeshUpLines()|
    ensures |StopLines()| == 4 && |MeshDownLines()| == 3 && |MeshUpLines()| == 2
    ensures (StopLines() + MeshDownLines() + MeshUpLines())[k]
         == if k < 4 then StopLines()[k] else if k < 7 then MeshDownLines()[k - 4] else MeshUpLines()[k - 7]
  {
  }

  lemma WordsOfParts()
    ensures StopLines()[0].name == "quiesce-models" && StopLines()[0].argv == Managed("model-quiesce")
    ensures StopLines()[1].name == "stop-managed-models"
    ensures StopLines()[1].argv == ["sudo", "-n", "systemctl", "stop", "sparkring-mesh-model.service"]
    ensures StopLines()[2].name == "stop-pinned-containers" && StopLines()[2].argv == Managed("stop-model")
    ensures StopLines()[3].name == "all-rank-stop-barrier" && StopLines()[3].argv == Managed("model-stopped")
    ensures MeshDownLines()[0].name == "stop-mesh"
    ensures MeshDownLines()[0].argv == ["sudo", "-n", "systemctl", "stop", "sparkring-mesh.service"]
    ensures MeshDownLines()[1].name == "cleanup" && MeshDownLines()[1].argv == Managed("cleanup")
    ensures MeshDownLines()[2].name == "reset-units" && MeshDownLines()[2].argv == Managed("reset-units")
    ensures MeshUpLines()[0].name == "require-stopped-models" && MeshUpLines()[0].argv == Managed("model-stopped")
    ensures MeshUpLines()[1].name == "start-mesh-supervisors"
    ensures MeshUpLines()[1].argv == ["sudo", "-n", "systemctl", "start", "sparkring-mesh.service"]
  {
  }

  /** Lines differ by their names. */
  lemma LinesDiffer()
    ensures MeshDownLines()[0] !in StopLines()
    ensures MeshDownLines()[1] != MeshDownLines()[0] && MeshDownLines()[2] != MeshDownLines()[0]
    ensures MeshUpLines()[0] != MeshUpLines()[1]
  {
    var stop, up := MeshDownLines()[0], MeshUpLines()[1];
    assert |stop.name| == 9 && forall l | l in StopLines() :: |l.name| != 9;
    assert |MeshDownLines()[1].name| == 7 && |MeshDownLines()[2].name| == 11;
    assert MeshUpLines()[0].risk != up.risk;
  }

  /** The command of an earlier phase was sent to the host of each rank. */
  lemma EarlierLineSent(p: Preparation, operation: Operation, body: PlanBody, trace: seq<Event>, n: nat, k: nat, rank: nat)
    requires IsPlanFor(body, p, operation) && n <= |trace| && k < |body.phases| && rank < 4
    requires SentToAll(trace, n, k)
    ensures |p.hosts| == 4 && k < |Lines(operation, UsesMemory(p), Container(p.owner, rank))|
    ensures SentTo(body, trace, n, p.hosts[rank], Lines(operation, UsesMemory(p), Container(p.owner, rank))[k].argv)
  {
    hide IsPlanFor, Lines, UsesMemory, Container;
    PlanIsWritten(p, operation, body);
    FourHosts(p, operation, body, k);
    var id := Id(k, rank);
    assert WasSent(trace, n, id);
    var m :| 0 <= m < n && trace[m] == Command(Apply, id);
    ActionIsLine(p, operation, body, id);
    assert Sends(body, trace[m], ActionOf(body, id).argv);
  }

  /** Phase number `k` has this name and sends this argument vector on every host. */
  ghost predicate Says(body: PlanBody, k: nat, name: string, argv: seq<string>) {
    k < |body.phases| && body.phases[k].id == name && forall a | a in body.phases[k].actions :: a.argv == argv
  }

  lemma PhaseSays(p: Preparation, operation: Operation, body: PlanBody, k: nat, name: string, argv: seq<string>)
    requires IsPlanFor(body, p, operation) && k < |body.phases|
    requires forall rank: nat | rank < 4 && k < |Lines(operation, UsesMemory(p), Container(p.owner, rank))| ::
               && Lines(operation, UsesMemory(p), Container(p.owner, rank))[k].argv == argv
               && Lines(operation, UsesMemory(p), Container(p.owner, rank))[k].name == name
    ensures Says(body, k, name, argv)
  {
    hide IsPlanFor, Lines, UsesMemory, Container;
    PlanIsWritten(p, operation, body);
    FourHosts(p, operation, body, k);
    forall rank: nat | rank < 4 ensures body.phases[k].actions[rank].argv == argv && body.phases[k].id == name {
      assert HasId(body, Id(k, rank));
      ActionIsLine(p, operation, body, Id(k, rank));
    }
    var none: nat := 0;
    assert body.phases[k].actions[none].argv == argv && body.phases[k].id == name;
  }

  lemma RecoverSays(p: Preparation, body: PlanBody)
    requires IsPlanFor(body, p, Recover)
    ensures |body.phases| == 9 && |p.hosts| == 4
    ensures Says(body, 0, "quiesce-models", Managed("model-quiesce"))
    ensures Says(body, 1, "stop-managed-models", ["sudo", "-n", "systemctl", "stop", "sparkring-mesh-model.service"])
    ensures Says(body, 2, "stop-pinned-containers", Managed("stop-model"))
    ensures Says(body, 3, "all-rank-stop-barrier", Managed("model-stopped"))
    ensures Says(body, 4, "stop-mesh", ["sudo", "-n", "systemctl", "stop", "sparkring-mesh.service"])
    ensures Says(body, 5, "cleanup", Managed("cleanup"))
    ensures Says(body, 6, "reset-units", Managed("reset-units"))
    ensures Says(body, 7, "require-stopped-models", Managed("model-stopped"))
    ensures Says(body, 8, "start-mesh-supervisors", ["sudo", "-n", "systemctl", "start", "sparkring-mesh.service"])
  {
    hide IsPlanFor, StopLines, MeshDownLines, MeshUpLines, UsesMemory, Container, Says;
    PlanIsWritten(p, Recover, body);
    var none: nat := 0;
    assert |body.phases| == |Lines(Recover, UsesMemory(p), Container(p.owner, none))|;
    PartSizes();
    forall k: nat | k < 9
      ensures var l := (StopLines() + MeshDownLines() + MeshUpLines())[k]; Says(body, k, l.name, l.argv)
    {
      var l := (StopLines() + MeshDownLines() + MeshUpLines())[k];
      PhaseSays(p, Recover, body, k, l.name, l.argv);
    }
    WordsOfParts();
    ThreeParts(0);
    ThreeParts(1);
    ThreeParts(2);
    ThreeParts(3);
    ThreeParts(4);
    ThreeParts(5);
    ThreeParts(6);
    ThreeParts(7);
    ThreeParts(8);
  }

  /** Recovery, in the words that are sent. A mesh is stopped on any host only after the round
      in which every rank reported its model stopped, and from an unused receipt path only
      after that report was asked of all four. */
  lemma MeshStopOrder(p: Preparation, body: PlanBody, disk: Option<Receipt>, trace: seq<Event>, n: nat)
    requires IsPlanFor(body, p, Recover) && TraceOk(body, disk, trace) && n < |trace|
    requires Sends(body, trace[n], ["sudo", "-n", "systemctl", "stop", "sparkring-mesh.service"])
    ensures |p.hosts| == 4 && |body.phases| == 9 && Says(body, 3, "all-rank-stop-barrier", Managed("model-stopped"))
    ensures PrecededByRound(body, trace, n, 3)
    ensures disk.None? ==> forall rank | 0 <= rank < 4 :: SentTo(body, trace, n, p.hosts[rank], Managed("model-stopped"))
  {
    hide TraceOk, IsPlanFor, PrecededByRound, IsStep, SentTo, SentArgv, StopLines, MeshDownLines, MeshUpLines, Says, SentToAll;
    RecoverLines(p, body, trace[n].purpose, trace[n].id);
    RecoverSays(p, body);
    StepsAreBarriers(p, Recover, body, disk, trace, n);
    if disk.None? {
      forall rank: nat | rank < 4 ensures SentTo(body, trace, n, p.hosts[rank], Managed("model-stopped")) {
        EarlierLineSent(p, Recover, body, trace, n, 3, rank);
        ThreeParts(3);
        WordsOfParts();
      }
    }
  }

  /** A mesh is started on any host only after, one round on all ranks after the other and in
      the same invocation, the mesh was stopped, cleaned up and reset and the models were
      reported stopped once more; from an unused receipt path only after each of these was
      sent to all four hosts. */
  lemma RecoverOrder(p: Preparation, body: PlanBody, disk: Option<Receipt>, trace: seq<Event>, n: nat)
    requires IsPlanFor(body, p, Recover) && TraceOk(body, disk, trace) && n < |trace|
    requires Sends(body, trace[n], ["sudo", "-n", "systemctl", "start", "sparkring-mesh.service"])
    ensures |p.hosts| == 4 && |body.phases| == 9 && trace[n].id.phase == 8 && PrecededByRound(body, trace, n, 7)
    ensures && Says(body, 4, "stop-mesh", ["sudo", "-n", "systemctl", "stop", "sparkring-mesh.service"])
            && Says(body, 5, "cleanup", Managed("cleanup")) && Says(body, 6, "reset-units", Managed("reset-units"))
            && Says(body, 7, "require-stopped-models", Managed("model-stopped"))
    ensures disk.None? ==> forall rank | 0 <= rank < 4 ::
              && SentTo(body, trace, n, p.hosts[rank], ["sudo", "-n", "systemctl", "stop", "sparkring-mesh-model.service"])
              && SentTo(body, trace, n, p.hosts[rank], ["sudo", "-n", "systemctl", "stop", "sparkring-mesh.service"])
              && SentTo(body, trace, n, p.hosts[rank], Managed("cleanup"))
              && SentTo(body, trace, n, p.hosts[rank], Managed("reset-units"))
              && SentTo(body, trace, n, p.hosts[rank], Managed("model-stopped"))
  {
    hide TraceOk, IsPlanFor, PrecededByRound, IsStep, SentTo, SentArgv, StopLines, MeshDownLines, MeshUpLines, Says, SentToAll;
    RecoverLines(p, body, trace[n].purpose, trace[n].id);
    RecoverSays(p, body);
    StepsAreBarriers(p, Recover, body, disk, trace, n);
    if disk.None? {
      WordsOfParts();
      PartSizes();
      forall rank: nat | rank < 4
        ensures forall k: nat | k < 8 ::
                  SentTo(body, trace, n, p.hosts[rank], (StopLines() + MeshDownLines() + MeshUpLines())[k].argv)
      {
        forall k: nat | k < 8 ensures SentTo(body, trace, n, p.hosts[rank], (StopLines() + MeshDownLines() + MeshUpLines())[k].argv) {
          EarlierLineSent(p, Recover, body, trace, n, k, rank);
        }
      }
      ThreeParts(1);
      ThreeParts(4);
      ThreeParts(5);
      ThreeParts(6);
      ThreeParts(7);
    }
  }

  /** From an unused receipt path every stop of a mesh lies before every start of one. */
  lemma StopsBeforeStarts(p: Preparation, body: PlanBody, trace: seq<Event>, m: nat, n: nat)
    requires IsPlanFor(body, p, Recover) && TraceOk(body, None, trace) && m < |trace| && n < |trace|
    requires Sends(body, trace[m], ["sudo", "-n", "systemctl", "stop", "sparkring-mesh.service"])
    requires Sends(body, trace[n], ["sudo", "-n", "systemctl", "start", "sparkring-mesh.service"])
    ensures m < n
  {
    hide TraceOk, IsPlanFor, PrecededByRound, SentArgv, Says, ValidBody, DistinctKeys;
    RecoverOrder(p, body, None, trace, n);
    RecoverLines(p, body, trace[m].purpose, trace[m].id);
    ActionIsLine(p, Recover, body, trace[m].id);
    var rank := trace[m].id.action;
    assert SentTo(body, trace, n, p.hosts[rank], ["sudo", "-n", "systemctl", "stop", "sparkring-mesh.service"]);
    var c :| 0 <= c < n && Sends(body, trace[c], ["sudo", "-n", "systemctl", "stop", "sparkring-mesh.service"])
             && ActionOf(body, trace[c].id).host == p.hosts[rank];
    RecoverLines(p, body, trace[c].purpose, trace[c].id);
    ActionIsLine(p, Recover, body, trace[c].id);
    DistinctHosts(p, Recover, body, trace[c].id.action, rank);
    assert trace[c].id == trace[m].id;
    StopChanges(p, body, trace[m].id);
    if m > c {
      PlanIsValid(p, Recover, body);
      AtMostOnce(body, None, trace, c, m);
    }
  }

  lemma DistinctHosts(p: Preparation, operation: Operation, body: PlanBody, a: nat, b: nat)
    requires IsPlanFor(body, p, operation) && a < 4 && b < 4 && p.hosts[a] == p.hosts[b]
    ensures a == b
  {
  }

  lemma PlanIsValid(p: Preparation, operation: Operation, body: PlanBody)
    requires IsPlanFor(body, p, operation)
    ensures ValidBody(body)
  {
    PhasesForValid(p, operation, UsesMemory(p), ChecksOf(p, operation), body);
  }

  lemma StopChanges(p: Preparation, body: PlanBody, id: Id)
    requires IsPlanFor(body, p, Recover) && HasId(body, id) && id.phase == 4
    ensures Mutating(body, id)
  {
    hide IsPlanFor, StopLines, MeshUpLines, Says;
    ActionIsLine(p, Recover, body, id);
    ThreeParts(4);
  }

  // ---- starting models ----

  lemma OnlyTheLastLineStartsModels(l: Line, container: string, argv: seq<string>)
    requires (l in MemoryLines() || l in StartLines(container)) && Sendable(l, argv)
    ensures argv == ["sudo", "-n", "systemctl", "start", "sparkring-mesh-model.service"] ==>
              l == StartLines(container)[1] && argv == l.argv
    ensures argv != ["sudo", "-n", "systemctl", "start", "sparkring-mesh.service"]
  {
    if l in MemoryLines() {
      assert argv[2] == "python3";
    } else {
      assert l == StartLines(container)[0] || l == StartLines(container)[1];
    }
  }

  lemma StartParts(memory: bool, container: string, k: nat)
    requires k < |Lines(Start, memory, container)|
    ensures |Lines(Start, memory, container)| == if memory then 6 else 2
    ensures var l := Lines(Start, memory, container)[k];
            && (l in MemoryLines() || l in StartLines(container))
            && (l == StartLines(container)[1] ==> k == |Lines(Start, memory, container)| - 1)
  {
    var lines := Lines(Start, memory, container);
    assert |StartLines(container)| == 2 && |MemoryLines()| == 4;
    var last := StartLines(container)[1];
    assert last.risk == StartsModel && forall l | l in MemoryLines() :: l.risk != StartsModel;
    assert StartLines(container)[0].risk != StartsModel;
    if memory {
      assert lines[k] == if k < 4 then MemoryLines()[k] else StartLines(container)[k - 4];
    } else {
      assert lines == StartLines(container);
    }
  }

  lemma StartSays(p: Preparation, body: PlanBody)
    requires IsPlanFor(body, p, Start)
    ensures |p.hosts| == 4
    ensures var memory := {"memory-idle", "memory-prepare", "memory-check"} * p.capabilities != {};
            var first := if memory then 4 else 0;
            && |body.phases| == first + 2
            && Says(body, first, "require-mesh-ready",
                    ["sudo", "-n", "python3", "/opt/sparkring/managed-mesh" + "/runtime/glm53-spark-mtp3-mesh" + "/managed_service.py",
                     "gate", "--config", "/etc/sparkring/managed-mesh/service.json", "--timeout", "60"])
            && Says(body, first + 1, "start-managed-models", ["sudo", "-n", "systemctl", "start", "sparkring-mesh-model.service"])
            && (memory ==>
                 && Says(body, 0, "all-rank-start-stop-barrier", Managed("model-stopped"))
                 && Says(body, 1, "memory-idle", Managed("memory-idle"))
                 && Says(body, 2, "memory-prepare", Managed("memory-prepare"))
                 && Says(body, 3, "memory-check", Managed("memory-check")))
  {
    hide IsPlanFor, Container, Says, Lines;
    PlanIsWritten(p, Start, body);
    var none: nat := 0;
    var memory := UsesMemory(p);
    assert |body.phases| == |Lines(Start, memory, Container(p.owner, none))|;
    StartWords(memory, Container(p.owner, none));
    forall k: nat | k < |body.phases|
      ensures var l := Lines(Start, memory, Container(p.owner, none))[k]; Says(body, k, l.name, l.argv)
    {
      var l := Lines(Start, memory, Container(p.owner, none))[k];
      forall rank: nat | rank < 4
        ensures k < |Lines(Start, memory, Container(p.owner, rank))|
                && Lines(Start, memory, Container(p.owner, rank))[k].argv == l.argv
                && Lines(Start, memory, Container(p.owner, rank))[k].name == l.name
      {
        SameWords(memory, Container(p.owner, rank), Container(p.owner, none), k);
      }
      PhaseSays(p, Start, body, k, l.name, l.argv);
    }
  }

  /** The commands of a start plan are the same on every rank. */
  lemma SameWords(memory: bool, a: string, b: string, k: nat)
    requires k < |Lines(Start, memory, b)|
    ensures |Lines(Start, memory, a)| == |Lines(Start, memory, b)|
    ensures Lines(Start, memory, a)[k].argv == Lines(Start, memory, b)[k].argv
    ensures Lines(Start, memory, a)[k].name == Lines(Start, memory, b)[k].name
  {
    assert |StartLines(a)| == 2 == |StartLines(b)|;
  }

  lemma StartWords(memory: bool, container: string)
    ensures var lines := Lines(Start, memory, container);
            var first := if memory then 4 else 0;
            && |lines| == first + 2
            && lines[first].name == "require-mesh-ready"
            && lines[first].argv ==
                 ["sudo", "-n", "python3", "/opt/sparkring/managed-mesh" + "/runtime/glm53-spark-mtp3-mesh" + "/managed_service.py",
                  "gate", "--config", "/etc/sparkring/managed-mesh/service.json", "--timeout", "60"]
            && lines[first + 1].name == "start-managed-models"
            && lines[first + 1].argv == ["sudo", "-n", "systemctl", "start", "sparkring-mesh-model.service"]
            && (memory ==>
                 && lines[0].name == "all-rank-start-stop-barrier" && lines[0].argv == Managed("model-stopped")
                 && lines[1].name == "memory-idle" && lines[1].argv == Managed("memory-idle")
                 && lines[2].name == "memory-prepare" && lines[2].argv == Managed("memory-prepare")
                 && lines[3].name == "memory-check" && lines[3].argv == Managed("memory-check"))
  {
    assert |StartLines(container)| == 2 && |MemoryLines()| == 4;
  }

  /** Start, in the words that are sent. Apart from the trusted-source check, a model is started
      on a host only by the last phase, as an action that starts a model, and only after, in the
      same invocation, the round in which every rank passed the mesh gate and, where the memory
      operations are supported, before it and one after the other the rounds of the four memory
      phases; from an unused receipt path only after each of these was sent to all four hosts. */
  lemma StartOrder(p: Preparation, body: PlanBody, disk: Option<Receipt>, trace: seq<Event>, n: nat)
    requires IsPlanFor(body, p, Start) && TraceOk(body, disk, trace) && n < |trace|
    requires Sends(body, trace[n], ["sudo", "-n", "systemctl", "start", "sparkring-mesh-model.service"])
    requires !trace[n].purpose.Preflight?
    ensures |p.hosts| == 4 && ActionOf(body, trace[n].id).risk == StartsModel
    ensures |body.phases| >= 2 && trace[n].id.phase == |body.phases| - 1 && PrecededByRound(body, trace, n, |body.phases| - 2)
    ensures disk.None? ==> forall rank, k: nat | 0 <= rank < 4 && k < |body.phases| - 1 ::
              |body.phases[k].actions| == 4 && SentTo(body, trace, n, p.hosts[rank], body.phases[k].actions[rank].argv)
  {
    hide TraceOk, IsPlanFor, PrecededByRound, IsStep, SentTo, SentArgv, StartLines, MemoryLines, Says, SentToAll, Lines, Container;
    var id := trace[n].id;
    StartSays(p, body);
    ActionIsLine(p, Start, body, id);
    StartsModelLine(p, body, trace[n].purpose, id);
    StepsAreBarriers(p, Start, body, disk, trace, n);
    if disk.None? {
      forall rank: nat, k: nat | rank < 4 && k < |body.phases| - 1
        ensures |body.phases[k].actions| == 4 && SentTo(body, trace, n, p.hosts[rank], body.phases[k].actions[rank].argv)
      {
        PlanIsWritten(p, Start, body);
        FourHosts(p, Start, body, k);
        EarlierLineSent(p, Start, body, trace, n, k, rank);
        ActionIsLine(p, Start, body, Id(k, rank));
      }
    }
  }

  lemma StartsModelLine(p: Preparation, body: PlanBody, purpose: Purpose, id: Id)
    requires IsPlanFor(body, p, Start) && HasId(body, id) && !purpose.Preflight?
    requires SentArgv(body, purpose, id) == ["sudo", "-n", "systemctl", "start", "sparkring-mesh-model.service"]
    ensures ActionOf(body, id).risk == StartsModel && |body.phases| >= 2 && id.phase == |body.phases| - 1
  {
    hide IsPlanFor, Container, MemoryLines, Sendable, SentArgv;
    ActionIsLine(p, Start, body, id);
    SentIsLine(p, Start, body, purpose, id);
    var container := Container(p.owner, id.action);
    StartParts(UsesMemory(p), container, id.phase);
    OnlyTheLastLineStartsModels(LineAt(p, Start, id), container, SentArgv(body, purpose, id));
    StartSays(p, body);
  }

  // ---- risks ----

  lemma RisksOfLines(l: Line, container: string)
    requires l in StopLines() || l in MeshDownLines() || l in MeshUpLines() || l in MemoryLines() || l in StartLines(container)
    ensures l.risk == StopsModel
       <==> l.argv == ["sudo", "-n", "systemctl", "stop", "sparkring-mesh-model.service"] || l.argv == Managed("stop-model")
    ensures l.risk == StartsModel <==> l.argv == ["sudo", "-n", "systemctl", "start", "sparkring-mesh-model.service"]
    ensures l.risk != DriverReload && l.risk != HardwareTest && !l.risk.Unrecognised?
  {
  }

  /** In every plan exactly the commands that stop a model carry the risk of stopping one, and
      exactly the command that starts a model that of starting one. */
  lemma RisksAreMarked(p: Preparation, operation: Operation, body: PlanBody, id: Id)
    requires IsPlanFor(body, p, operation) && HasId(body, id)
    ensures var a := ActionOf(body, id);
            && (a.risk == StopsModel
                <==> a.argv == ["sudo", "-n", "systemctl", "stop", "sparkring-mesh-model.service"] || a.argv == Managed("stop-model"))
            && (a.risk == StartsModel <==> a.argv == ["sudo", "-n", "systemctl", "start", "sparkring-mesh-model.service"])
  {
    hide IsPlanFor, StopLines, MeshDownLines, MeshUpLines, MemoryLines, StartLines, Container;
    ActionIsLine(p, operation, body, id);
    RisksOfLines(LineAt(p, operation, id), Container(p.owner, id.action));
  }
}
