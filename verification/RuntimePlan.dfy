/** The managed runtime's lifecycle plans, and what running them through the engine
    guarantees about the whole cluster. */
module RuntimePlan {
  import opened Wrappers
  import opened Plan
  import opened EngineTrace

  datatype Operation = Up | Start | Stop | Down | Recover

  /** The saved preparation, as far as lifecycle plans read it. `capabilities` are the
      lifecycle operations it lists. */
  datatype Preparation = Preparation(
    owner: string,
    hosts: seq<string>,
    capabilities: set<string>,
    sourceStaged: bool,
    trustedCheck: Check)

  datatype BuildError = WrongHosts | PartialMemorySupport | SourceNotStaged

  datatype BuildResult = Built(plan: Document) | Rejected(error: BuildError)

  /** The phases lifecycle plans are made of. */
  datatype Step =
    | QuiesceModels
    | StopManagedModels
    | StopPinnedContainers
    | StopBarrier
    | StopMesh
    | Cleanup
    | ResetUnits
    | RequireStopped
    | StartMesh
    | StartBarrier
    | MemoryIdle
    | MemoryPrepare
    | MemoryCheck
    | RequireMeshReady
    | StartModels

  const INSTALLED := "/opt/sparkring/managed-mesh" + "/runtime/glm53-spark-mtp3-mesh" + "/managed_service.py"
  const CONFIG := "/etc/sparkring/managed-mesh/service.json"
  const MESH_UNIT := "sparkring-mesh.service"
  const MODEL_UNIT := "sparkring-mesh-model.service"
  const MEMORY_OPERATIONS: set<string> := {"memory-idle", "memory-prepare", "memory-check"}

  function StepId(s: Step): string {
    match s
    case QuiesceModels => "quiesce-models"
    case StopManagedModels => "stop-managed-models"
    case StopPinnedContainers => "stop-pinned-containers"
    case StopBarrier => "all-rank-stop-barrier"
    case StopMesh => "stop-mesh"
    case Cleanup => "cleanup"
    case ResetUnits => "reset-units"
    case RequireStopped => "require-stopped-models"
    case StartMesh => "start-mesh-supervisors"
    case StartBarrier => "all-rank-start-stop-barrier"
    case MemoryIdle => "memory-idle"
    case MemoryPrepare => "memory-prepare"
    case MemoryCheck => "memory-check"
    case RequireMeshReady => "require-mesh-ready"
    case StartModels => "start-managed-models"
  }

  function ServiceArgv(operation: string): seq<string> {
    ["sudo", "-n", "python3", INSTALLED, operation, "--config", CONFIG]
  }

  function GateArgv(): seq<string> {
    ["sudo", "-n", "python3", INSTALLED, "gate", "--config", CONFIG, "--timeout", "60"]
  }

  function SystemctlArgv(verb: string, unit: string): seq<string> {
    ["sudo", "-n", "systemctl", verb, unit]
  }

  /** The inline assertion programs, by what they assert. */
  function AssertionArgv(name: string, arguments: seq<string>): seq<string> {
    ["sudo", "-n", "python3", "-c", name] + arguments
  }

  function StepArgv(s: Step): seq<string> {
    match s
    case QuiesceModels => ServiceArgv("model-quiesce")
    case StopManagedModels => SystemctlArgv("stop", MODEL_UNIT)
    case StopPinnedContainers => ServiceArgv("stop-model")
    case StopBarrier => ServiceArgv("model-stopped")
    case StopMesh => SystemctlArgv("stop", MESH_UNIT)
    case Cleanup => ServiceArgv("cleanup")
    case ResetUnits => ServiceArgv("reset-units")
    case RequireStopped => ServiceArgv("model-stopped")
    case StartMesh => SystemctlArgv("start", MESH_UNIT)
    case StartBarrier => ServiceArgv("model-stopped")
    case MemoryIdle => ServiceArgv("memory-idle")
    case MemoryPrepare => ServiceArgv("memory-prepare")
    case MemoryCheck => ServiceArgv("memory-check")
    case RequireMeshReady => GateArgv()
    case StartModels => SystemctlArgv("start", MODEL_UNIT)
  }

  function StepRisk(s: Step): Risk {
    match s
    case StopManagedModels => StopsModel
    case StopPinnedContainers => StopsModel
    case StartModels => StartsModel
    case QuiesceModels => MutatesHost
    case StopMesh => MutatesHost
    case Cleanup => MutatesHost
    case ResetUnits => MutatesHost
    case StartMesh => MutatesHost
    case MemoryPrepare => MutatesHost
    case _ => ReadOnly
  }

  function Silent(argv: seq<string>): Option<Check> {
    Some(Check(argv, None, None))
  }

  const RANK_NAMES: seq<string> := ["0", "1", "2", "3"]

  /** How one rank's action of a step is verified. */
  function StepVerify(s: Step, owner: string, rank: nat): Option<Check>
    requires rank < 4
  {
    match s
    case QuiesceModels => Silent(AssertionArgv("model intent is inactive", [CONFIG]))
    case StopManagedModels => Silent(AssertionArgv("model unit is loaded and inactive or failed", []))
    case StartMesh => Silent(GateArgv())
    case MemoryPrepare => Silent(ServiceArgv("memory-check"))
    case MemoryIdle => None
    case MemoryCheck => None
    case RequireMeshReady => None
    case StartModels =>
      Some(Check(["docker", "inspect", "--format", "{{.State.Running}}", owner + "-r" + RANK_NAMES[rank]], Some("true"), None))
    case _ => Silent(ServiceArgv("model-stopped"))
  }

  /** One rank's action of a step. */
  function ActionFor(p: Preparation, s: Step, rank: nat, checks: seq<Check>): Action
    requires |p.hosts| == 4 && rank < 4
  {
    Action(p.hosts[rank], StepArgv(s), StepRisk(s), StepVerify(s, p.owner, rank), checks)
  }

  /** One phase: the step's command on every host in rank order. */
  function PhaseFor(p: Preparation, s: Step, checks: seq<Check>): Phase
    requires |p.hosts| == 4
  {
    Phase(StepId(s), seq(4, i requires 0 <= i < 4 => ActionFor(p, s, i, checks)))
  }

  function PhasesFor(p: Preparation, steps: seq<Step>, checks: seq<Check>): (phases: seq<Phase>)
    requires |p.hosts| == 4
    ensures |phases| == |steps|
  {
    seq(|steps|, k requires 0 <= k < |steps| => PhaseFor(p, steps[k], checks))
  }

  predicate HostCharacter(c: char) {
    'A' <= c <= 'Z' || 'a' <= c <= 'z' || '0' <= c <= '9' || c == '_' || c == '.' || c == '@' || c == '-'
  }

  predicate HostName(h: string) {
    && h != ""
    && ('A' <= h[0] <= 'Z' || 'a' <= h[0] <= 'z' || '0' <= h[0] <= '9')
    && forall c | c in h :: HostCharacter(c)
  }

  predicate Alphanumeric(c: char) {
    'a' <= c <= 'z' || '0' <= c <= '9' || 'A' <= c <= 'Z'
  }

  /** A host is addressed by letters, digits and `_`, `.`, `@`, `-`, beginning with a letter or digit. */
  lemma HostNameExactly(h: string)
    ensures HostName(h) <==> h != [] && Alphanumeric(h[0]) && forall c | c in h :: Alphanumeric(c) || c in "_.@-"
  {
    assert forall c :: HostCharacter(c) <==> Alphanumeric(c) || c in ['_', '.', '@', '-'];
    assert "_.@-" == ['_', '.', '@', '-'];
  }

  predicate GoodHosts(hosts: seq<string>) {
    && |hosts| == 4
    && (forall i, j | 0 <= i < j < |hosts| :: hosts[i] != hosts[j])
    && (forall h | h in hosts :: HostName(h))
  }

  // ---- building ----

  function MeshUpSteps(): seq<Step> {
    [RequireStopped, StartMesh]
  }

  function MemorySteps(memory: bool): seq<Step> {
    if memory then [StartBarrier, MemoryIdle, MemoryPrepare, MemoryCheck] else []
  }

  function StartSteps(memory: bool): seq<Step> {
    if memory then [StartBarrier, MemoryIdle, MemoryPrepare, MemoryCheck, RequireMeshReady, StartModels]
    else [RequireMeshReady, StartModels]
  }

  function StopSteps(): seq<Step> {
    [QuiesceModels, StopManagedModels, StopPinnedContainers, StopBarrier]
  }

  function DownSteps(): seq<Step> {
    [QuiesceModels, StopManagedModels, StopPinnedContainers, StopBarrier, StopMesh, Cleanup, ResetUnits]
  }

  function RecoverSteps(): seq<Step> {
    [QuiesceModels, StopManagedModels, StopPinnedContainers, StopBarrier, StopMesh, Cleanup, ResetUnits,
     RequireStopped, StartMesh]
  }

  lemma StepsGrow(memory: bool)
    ensures StartSteps(memory) == MemorySteps(memory) + [RequireMeshReady, StartModels]
    ensures DownSteps() == StopSteps() + [StopMesh, Cleanup, ResetUnits]
    ensures RecoverSteps() == DownSteps() + MeshUpSteps()
  {
  }

  /** The steps of each operation, in the order their phases run. */
  function Steps(operation: Operation, memory: bool): seq<Step> {
    match operation
    case Up => MeshUpSteps()
    case Start => StartSteps(memory)
    case Stop => StopSteps()
    case Down => DownSteps()
    case Recover => RecoverSteps()
  }

  lemma PhasesSnoc(p: Preparation, steps: seq<Step>, s: Step, checks: seq<Check>)
    requires |p.hosts| == 4
    ensures PhasesFor(p, steps + [s], checks) == PhasesFor(p, steps, checks) + [PhaseFor(p, s, checks)]
  {
    var longer := steps + [s];
    assert forall k | 0 <= k < |steps| :: longer[k] == steps[k];
    assert longer[|steps|] == s;
  }

  /** Append the phases of further steps. */
  method AddPhases(p: Preparation, phases: seq<Phase>, ghost steps: seq<Step>, added: seq<Step>) returns (more: seq<Phase>)
    requires |p.hosts| == 4 && phases == PhasesFor(p, steps, [])
    ensures more == PhasesFor(p, steps + added, [])
  {
    hide PhasesFor;
    more := phases;
    assert steps + added[..0] == steps;
    for i := 0 to |added|
      invariant more == PhasesFor(p, steps + added[..i], [])
    {
      PhasesSnoc(p, steps + added[..i], added[i], []);
      assert steps + added[..i] + [added[i]] == steps + added[..i + 1];
      more := more + [PhaseFor(p, added[i], [])];
    }
    assert added[..|added|] == added;
  }

  /** The phases of one operation, appended in the order they run. */
  method BuildPhases(p: Preparation, operation: Operation, memory: bool) returns (phases: seq<Phase>)
    requires |p.hosts| == 4
    ensures phases == PhasesFor(p, Steps(operation, memory), [])
  {
    phases := [];
    assert phases == PhasesFor(p, [], []);
    StepsGrow(memory);
    hide PhasesFor, StartSteps, DownSteps, RecoverSteps, StopSteps, MeshUpSteps;
    match operation {
      case Up =>
        phases := AddPhases(p, phases, [], MeshUpSteps());
        assert [] + MeshUpSteps() == MeshUpSteps();
      case Start =>
        if memory {
          phases := AddPhases(p, phases, [], MemorySteps(true));
          assert [] + MemorySteps(true) == MemorySteps(true);
        }
        phases := AddPhases(p, phases, MemorySteps(memory), [RequireMeshReady, StartModels]);
      case _ =>
        phases := AddPhases(p, phases, [], StopSteps());
        assert [] + StopSteps() == StopSteps();
        if operation == Down || operation == Recover {
          phases := AddPhases(p, phases, StopSteps(), [StopMesh, Cleanup, ResetUnits]);
          if operation == Recover {
            phases := AddPhases(p, phases, DownSteps(), MeshUpSteps());
          }
        }
    }
  }

  /** Put the trusted source check in front of every action's checks. */
  method InsertTrusted(phases: seq<Phase>, p: Preparation, ghost steps: seq<Step>) returns (checked: seq<Phase>)
    requires |p.hosts| == 4 && phases == PhasesFor(p, steps, [])
    ensures checked == PhasesFor(p, steps, [p.trustedCheck])
  {
    checked := [];
    for k := 0 to |phases|
      invariant checked == PhasesFor(p, steps[..k], [p.trustedCheck])
    {
      var actions: seq<Action> := [];
      for i := 0 to |phases[k].actions|
        invariant |actions| == i
        invariant forall j | 0 <= j < i :: actions[j] == ActionFor(p, steps[k], j, [p.trustedCheck])
      {
        var a := phases[k].actions[i];
        assert a == ActionFor(p, steps[k], i, []);
        actions := actions + [a.(checks := [p.trustedCheck] + a.checks)];
      }
      assert actions == PhaseFor(p, steps[k], [p.trustedCheck]).actions;
      PhasesSnoc(p, steps[..k], steps[k], [p.trustedCheck]);
      assert steps[..k] + [steps[k]] == steps[..k + 1];
      checked := checked + [Phase(phases[k].id, actions)];
    }
    assert steps[..|phases|] == steps;
  }

  // ---- every built plan validates ----

  ghost predicate NoNul(text: string) {
    '\0' !in text
  }

  lemma ConstantsHaveNoNul()
    ensures NoNul(INSTALLED) && NoNul(CONFIG) && NoNul(MESH_UNIT) && NoNul(MODEL_UNIT)
  {
    assert NoNul("/opt/sparkring/managed-mesh") && NoNul("/runtime/glm53-spark-mtp3-mesh") && NoNul("/managed_service.py");
  }

  lemma StepArgvGood(s: Step)
    ensures GoodArgv(StepArgv(s))
  {
    ConstantsHaveNoNul();
  }

  lemma StepIdsDistinct(a: Step, b: Step)
    requires StepId(a) == StepId(b)
    ensures a == b
  {
    assert |StepId(a)| == |StepId(b)|;
  }

  predicate NoRepeats(steps: seq<Step>) {
    forall i, j | 0 <= i < j < |steps| :: steps[i] != steps[j]
  }

  lemma StepsDoNotRepeat(operation: Operation, memory: bool)
    ensures NoRepeats(Steps(operation, memory))
  {
  }

  lemma ActionForGood(p: Preparation, s: Step, rank: nat, checks: seq<Check>)
    requires GoodHosts(p.hosts) && rank < 4
    ensures GoodAction(ActionFor(p, s, rank, checks)) && ActionFor(p, s, rank, checks).host == p.hosts[rank]
  {
    hide GoodArgv, StepArgv;
    StepArgvGood(s);
  }

  lemma PhaseForGood(p: Preparation, s: Step, checks: seq<Check>)
    requires GoodHosts(p.hosts)
    ensures GoodPhase(PhaseFor(p, s, checks))
  {
    hide GoodAction, ActionFor;
    forall rank: nat | rank < 4 ensures GoodAction(ActionFor(p, s, rank, checks)) && ActionFor(p, s, rank, checks).host == p.hosts[rank] {
      ActionForGood(p, s, rank, checks);
    }
  }

  lemma PhasesForValid(p: Preparation, operation: Operation, memory: bool, checks: seq<Check>, body: PlanBody)
    requires GoodHosts(p.hosts)
    requires body.schema == PLAN_SCHEMA && body.phases == PhasesFor(p, Steps(operation, memory), checks)
    ensures ValidBody(body) && DistinctKeys(body)
  {
    var steps := Steps(operation, memory);
    StepsDoNotRepeat(operation, memory);
    forall k | 0 <= k < |steps| ensures GoodPhase(body.phases[k]) {
      PhaseForGood(p, steps[k], checks);
    }
    forall j, k | 0 <= j < k < |steps| ensures body.phases[j].id != body.phases[k].id {
      if body.phases[j].id == body.phases[k].id {
        StepIdsDistinct(steps[j], steps[k]);
      }
    }
    forall id | HasId(body, id) ensures ':' !in ActionOf(body, id).host {
      assert ActionOf(body, id).host == p.hosts[id.action];
      assert HostName(p.hosts[id.action]);
    }
    ColonFreeHostsGiveDistinctKeys(body);
  }

  function OperationName(operation: Operation): string {
    match operation
    case Up => "up"
    case Start => "start"
    case Stop => "stop"
    case Down => "down"
    case Recover => "recover"
  }

  predicate UsesMemory(p: Preparation) {
    MEMORY_OPERATIONS * p.capabilities != {}
  }

  /** Plans that prepare or start something recheck the staged source before each action;
      plans that stop or recover must work without it. */
  function ChecksOf(p: Preparation, operation: Operation): seq<Check> {
    if operation == Up || operation == Start then [p.trustedCheck] else []
  }

  /** The body of the plan for one operation. */
  ghost predicate IsPlanFor(body: PlanBody, p: Preparation, operation: Operation) {
    && GoodHosts(p.hosts)
    && body.schema == PLAN_SCHEMA
    && body.phases == PhasesFor(p, Steps(operation, UsesMemory(p)), ChecksOf(p, operation))
  }

  // ---- the plans written out ----

  /** One phase as the plans state it: its name, and one rank's command, risk and verification. */
  datatype Line = Line(name: string, argv: seq<string>, risk: Risk, verify: Option<Check>)

  function Managed(operation: string): seq<string> {
    ["sudo", "-n", "python3", "/opt/sparkring/managed-mesh" + "/runtime/glm53-spark-mtp3-mesh" + "/managed_service.py",
     operation, "--config", "/etc/sparkring/managed-mesh/service.json"]
  }

  function Quiet(argv: seq<string>): Option<Check> {
    Some(Check(argv, None, None))
  }

  function MeshUpLines(): seq<Line> {
    [Line("require-stopped-models", Managed("model-stopped"), ReadOnly, Quiet(Managed("model-stopped"))),
     Line("start-mesh-supervisors", ["sudo", "-n", "systemctl", "start", "sparkring-mesh.service"], MutatesHost,
          Quiet(["sudo", "-n", "python3",
                 "/opt/sparkring/managed-mesh" + "/runtime/glm53-spark-mtp3-mesh" + "/managed_service.py",
                 "gate", "--config", "/etc/sparkring/managed-mesh/service.json", "--timeout", "60"]))]
  }

  function MemoryLines(): seq<Line> {
    [Line("all-rank-start-stop-barrier", Managed("model-stopped"), ReadOnly, Quiet(Managed("model-stopped"))),
     Line("memory-idle", Managed("memory-idle"), ReadOnly, None),
     Line("memory-prepare", Managed("memory-prepare"), MutatesHost, Quiet(Managed("memory-check"))),
     Line("memory-check", Managed("memory-check"), ReadOnly, None)]
  }

  function StartLines(container: string): seq<Line> {
    [Line("require-mesh-ready",
          ["sudo", "-n", "python3", "/opt/sparkring/managed-mesh" + "/runtime/glm53-spark-mtp3-mesh" + "/managed_service.py",
           "gate", "--config", "/etc/sparkring/managed-mesh/service.json", "--timeout", "60"],
          ReadOnly, None),
     Line("start-managed-models", ["sudo", "-n", "systemctl", "start", "sparkring-mesh-model.service"], StartsModel,
          Some(Check(["docker", "inspect", "--format", "{{.State.Running}}", container], Some("true"), None)))]
  }

  function StopLines(): seq<Line> {
    [Line("quiesce-models", Managed("model-quiesce"), MutatesHost,
          Quiet(["sudo", "-n", "python3", "-c", "model intent is inactive",
                 "/etc/sparkring/managed-mesh/service.json"])),
     Line("stop-managed-models", ["sudo", "-n", "systemctl", "stop", "sparkring-mesh-model.service"], StopsModel,
          Quiet(["sudo", "-n", "python3", "-c", "model unit is loaded and inactive or failed"])),
     Line("stop-pinned-containers", Managed("stop-model"), StopsModel, Quiet(Managed("model-stopped"))),
     Line("all-rank-stop-barrier", Managed("model-stopped"), ReadOnly, Quiet(Managed("model-stopped")))]
  }

  function MeshDownLines(): seq<Line> {
    [Line("stop-mesh", ["sudo", "-n", "systemctl", "stop", "sparkring-mesh.service"], MutatesHost,
          Quiet(Managed("model-stopped"))),
     Line("cleanup", Managed("cleanup"), MutatesHost, Quiet(Managed("model-stopped"))),
     Line("reset-units", Managed("reset-units"), MutatesHost, Quiet(Managed("model-stopped")))]
  }

  /** What every phase of an operation asks of one rank. */
  function Lines(operation: Operation, memory: bool, container: string): seq<Line> {
    match operation
    case Up => MeshUpLines()
    case Start => (if memory then MemoryLines() else []) + StartLines(container)
    case Stop => StopLines()
    case Down => StopLines() + MeshDownLines()
    case Recover => StopLines() + MeshDownLines() + MeshUpLines()
  }

  function Container(owner: string, rank: nat): string
    requires rank < 4
  {
    owner + "-r" + ["0", "1", "2", "3"][rank]
  }

  predicate AsWritten(body: PlanBody, k: nat, rank: nat, line: Line, host: string, checks: seq<Check>)
    requires k < |body.phases| && rank < |body.phases[k].actions|
  {
    && body.phases[k].id == line.name
    && body.phases[k].actions[rank] == Action(host, line.argv, line.risk, line.verify, checks)
  }

  /** The plan says exactly what is written out, for four hosts in rank order. */
  ghost predicate WrittenOut(body: PlanBody, p: Preparation, operation: Operation) {
    && |p.hosts| == 4
    && forall rank: nat | rank < 4 ::
         var lines := Lines(operation, {"memory-idle", "memory-prepare", "memory-check"} * p.capabilities != {}, Container(p.owner, rank));
         && |body.phases| == |lines|
         && forall k: nat | k < |lines| ::
              && |body.phases[k].actions| == 4
              && AsWritten(body, k, rank, lines[k], p.hosts[rank],
                           if operation == Up || operation == Start then [p.trustedCheck] else [])
  }

  function LineOf(s: Step, owner: string, rank: nat): Line
    requires rank < 4
  {
    Line(StepId(s), StepArgv(s), StepRisk(s), StepVerify(s, owner, rank))
  }

  lemma UpAndDownLines(owner: string, rank: nat)
    requires rank < 4
    ensures MeshUpLines() == [LineOf(RequireStopped, owner, rank), LineOf(StartMesh, owner, rank)]
    ensures MeshDownLines() == [LineOf(StopMesh, owner, rank), LineOf(Cleanup, owner, rank), LineOf(ResetUnits, owner, rank)]
  {
  }

  lemma MemoryAndStartLines(owner: string, rank: nat)
    requires rank < 4
    ensures MemoryLines() == [LineOf(StartBarrier, owner, rank), LineOf(MemoryIdle, owner, rank),
                              LineOf(MemoryPrepare, owner, rank), LineOf(MemoryCheck, owner, rank)]
    ensures Container(owner, rank) == owner + "-r" + RANK_NAMES[rank]
    ensures StartLines(Container(owner, rank)) == [LineOf(RequireMeshReady, owner, rank), LineOf(StartModels, owner, rank)]
  {
  }

  lemma StopLinesOf(owner: string, rank: nat)
    requires rank < 4
    ensures StopLines() == [LineOf(QuiesceModels, owner, rank), LineOf(StopManagedModels, owner, rank),
                            LineOf(StopPinnedContainers, owner, rank), LineOf(StopBarrier, owner, rank)]
  {
    assert AssertionArgv("model intent is inactive", [CONFIG]) == ["sudo", "-n", "python3", "-c", "model intent is inactive", CONFIG];
    assert AssertionArgv("model unit is loaded and inactive or failed", [])
        == ["sudo", "-n", "python3", "-c", "model unit is loaded and inactive or failed"];
  }

  lemma LinesAreSteps(operation: Operation, memory: bool, owner: string, rank: nat)
    requires rank < 4
    ensures |Lines(operation, memory, Container(owner, rank))| == |Steps(operation, memory)|
    ensures forall k: nat | k < |Steps(operation, memory)| ::
              Lines(operation, memory, Container(owner, rank))[k] == LineOf(Steps(operation, memory)[k], owner, rank)
  {
    UpAndDownLines(owner, rank);
    MemoryAndStartLines(owner, rank);
    StopLinesOf(owner, rank);
    hide LineOf, MeshUpLines, MeshDownLines, MemoryLines, StartLines, StopLines, Container;
  }

  lemma PlanIsWritten(p: Preparation, operation: Operation, body: PlanBody)
    requires IsPlanFor(body, p, operation)
    ensures WrittenOut(body, p, operation)
  {
    hide Lines, Steps, Container, StepArgv, StepRisk, StepVerify, StepId;
    var memory := UsesMemory(p);
    forall rank: nat | rank < 4
      ensures |body.phases| == |Lines(operation, memory, Container(p.owner, rank))|
      ensures forall k: nat | k < |body.phases| ::
                && |body.phases[k].actions| == 4
                && AsWritten(body, k, rank, Lines(operation, memory, Container(p.owner, rank))[k], p.hosts[rank], ChecksOf(p, operation))
    {
      LinesAreSteps(operation, memory, p.owner, rank);
      forall k: nat | k < |body.phases|
        ensures |body.phases[k].actions| == 4
                && AsWritten(body, k, rank, Lines(operation, memory, Container(p.owner, rank))[k], p.hosts[rank], ChecksOf(p, operation))
      {
        assert body.phases[k] == PhaseFor(p, Steps(operation, memory)[k], ChecksOf(p, operation));
      }
    }
  }

  /** Builds a plan exactly for a preparation with four proper hosts, all or none of the
      memory operations, and a staged source where one is needed. What it builds is what is
      written out; it validates, and its receipt keys are unambiguous. */
  method BuildRuntimePlan(p: Preparation, operation: Operation) returns (r: BuildResult)
    ensures r.Built? <==>
              && GoodHosts(p.hosts)
              && (UsesMemory(p) ==> MEMORY_OPERATIONS <= p.capabilities)
              && (operation == Up || operation == Start ==> p.sourceStaged)
    ensures r.Built? ==> ValidPlan(r.plan) && DistinctKeys(r.plan.body) && IsPlanFor(r.plan.body, p, operation)
    ensures r.Built? ==> WrittenOut(r.plan.body, p, operation)
    ensures r.Rejected? ==>
              && (r.error == WrongHosts <==> !GoodHosts(p.hosts))
              && (r.error == PartialMemorySupport <==>
                   GoodHosts(p.hosts) && UsesMemory(p) && exists o :: o in MEMORY_OPERATIONS && o !in p.capabilities)
  {
    if |p.hosts| != 4
       || (exists h | h in p.hosts :: !HostName(h))
       || (exists i, j | 0 <= i < j < |p.hosts| :: p.hosts[i] == p.hosts[j]) {
      return Rejected(WrongHosts);
    }
    var supported := MEMORY_OPERATIONS * p.capabilities;
    if supported != {} && supported != MEMORY_OPERATIONS {
      return Rejected(PartialMemorySupport);
    }
    var phases := BuildPhases(p, operation, supported != {});
    if operation == Up || operation == Start {
      if !p.sourceStaged {
        return Rejected(SourceNotStaged);
      }
      phases := InsertTrusted(phases, p, Steps(operation, supported != {}));
    }
    var body := PlanBody(PLAN_SCHEMA, OperationName(operation), phases);
    PhasesForValid(p, operation, supported != {}, ChecksOf(p, operation), body);
    PlanIsWritten(p, operation, body);
    return Built(SealPlan(body));
  }

  // ---- running a built plan through the engine ----

  lemma PlannedAction(p: Preparation, operation: Operation, body: PlanBody, id: Id)
    requires IsPlanFor(body, p, operation) && HasId(body, id)
    ensures id.phase < |Steps(operation, UsesMemory(p))| && id.action < 4
    ensures ActionOf(body, id) == ActionFor(p, Steps(operation, UsesMemory(p))[id.phase], id.action, ChecksOf(p, operation))
  {
    hide Steps, StepArgv, StepVerify, StepId, StepRisk;
    assert body.phases[id.phase] == PhaseFor(p, Steps(operation, UsesMemory(p))[id.phase], ChecksOf(p, operation));
  }

  lemma FourActions(p: Preparation, operation: Operation, body: PlanBody, k: nat)
    requires IsPlanFor(body, p, operation) && k < |Steps(operation, UsesMemory(p))|
    ensures |p.hosts| == 4 && k < |body.phases| && |body.phases[k].actions| == 4
  {
    hide Steps, StepArgv, StepVerify, StepId, StepRisk;
    assert body.phases[k] == PhaseFor(p, Steps(operation, UsesMemory(p))[k], ChecksOf(p, operation));
  }

  /** Phase number `k` of the plan is this step, on every host in rank order. */
  ghost predicate IsStep(body: PlanBody, p: Preparation, operation: Operation, k: nat, s: Step) {
    && |p.hosts| == 4 && k < |body.phases| && |body.phases[k].actions| == 4
    && forall rank | 0 <= rank < 4 ::
         ActionOf(body, Id(k, rank)) == ActionFor(p, s, rank, ChecksOf(p, operation))
  }

  /** Every rank's own command of phase `k` was sent before `n`. */
  ghost predicate SentToAll(trace: seq<Event>, n: nat, k: nat)
    requires n <= |trace|
  {
    forall rank | 0 <= rank < 4 :: WasSent(trace, n, Id(k, rank))
  }

  lemma PhaseIsStep(p: Preparation, operation: Operation, body: PlanBody, k: nat)
    requires IsPlanFor(body, p, operation) && k < |Steps(operation, UsesMemory(p))|
    ensures IsStep(body, p, operation, k, Steps(operation, UsesMemory(p))[k])
  {
    hide Steps, ActionFor, IsPlanFor, UsesMemory, ChecksOf;
    FourActions(p, operation, body, k);
    forall rank: nat | rank < 4
      ensures ActionOf(body, Id(k, rank)) == ActionFor(p, Steps(operation, UsesMemory(p))[k], rank, ChecksOf(p, operation))
    {
      PlannedAction(p, operation, body, Id(k, rank));
    }
  }

  /** Whatever crashed, failed or was resumed before: when a plan's command for one step is
      sent to any host, the steps before it have had their rounds one after the other in the
      same invocation, each starting only after every rank's action of the step before was
      confirmed; and, from an unused receipt path, every earlier step's own command has
      been sent to every rank. */
  lemma StepsAreBarriers(p: Preparation, operation: Operation, body: PlanBody, disk: Option<Receipt>, trace: seq<Event>, n: nat)
    requires IsPlanFor(body, p, operation) && TraceOk(body, disk, trace)
    requires n < |trace| && trace[n].Command?
    ensures trace[n].id.phase < |Steps(operation, UsesMemory(p))|
    ensures RoundsInOrder(body, trace, n, trace[n].id.phase)
    ensures forall k: nat | k <= trace[n].id.phase :: IsStep(body, p, operation, k, Steps(operation, UsesMemory(p))[k])
    ensures disk.None? ==> forall k: nat | k < trace[n].id.phase :: SentToAll(trace, n, k)
  {
    TraceOkAt(body, disk, trace, n);
    assert HasId(body, trace[n].id);
    PhasesForValid(p, operation, UsesMemory(p), ChecksOf(p, operation), body);
    AllBarriers(p, operation, body, disk, trace, n);
  }

  lemma AllBarriers(p: Preparation, operation: Operation, body: PlanBody, disk: Option<Receipt>, trace: seq<Event>, n: nat)
    requires IsPlanFor(body, p, operation) && TraceOk(body, disk, trace) && ValidBody(body) && DistinctKeys(body)
    requires n < |trace| && trace[n].Command? && HasId(body, trace[n].id)
    ensures trace[n].id.phase < |Steps(operation, UsesMemory(p))|
    ensures RoundsInOrder(body, trace, n, trace[n].id.phase)
    ensures forall k: nat | k <= trace[n].id.phase :: IsStep(body, p, operation, k, Steps(operation, UsesMemory(p))[k])
    ensures disk.None? ==> forall k: nat | k < trace[n].id.phase :: SentToAll(trace, n, k)
  {
    hide TraceOk, ViewOf, Steps, ActionFor, ValidBody, DistinctKeys, IsPlanFor, UsesMemory, RoundsInOrder, IsStep, WasSent;
    var at := trace[n].id.phase;
    PlannedAction(p, operation, body, trace[n].id);
    forall k: nat | k <= at
      ensures IsStep(body, p, operation, k, Steps(operation, UsesMemory(p))[k]) && |body.phases[k].actions| == 4
    {
      PhaseIsStep(p, operation, body, k);
      FourActions(p, operation, body, k);
    }
    PhasesInOrder(body, disk, trace, n, at);
    if disk.None? {
      forall k: nat, rank: nat | k < at && rank < 4 ensures WasSent(trace, n, Id(k, rank)) {
        EarlierActionsSent(body, trace, n, Id(k, rank));
      }
    }
  }
}
